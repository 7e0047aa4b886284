/** The default route label: a path with its identifier-like segments replaced. */
module Routes {
  import opened Strings

  predicate IsAlpha(c: char) {
    'a' <= c <= 'z' || 'A' <= c <= 'Z'
  }

  /** An all-digit segment, or one of length 8, 16, 32 or 36 with a letter in it. */
  predicate LooksLikeId(p: string) {
    (p != "" && AllDigits(p)) || (|p| in {8, 16, 32, 36} && exists c :: c in p && IsAlpha(c))
  }

  const ID := ":id"

  function Label(p: string): string {
    if LooksLikeId(p) then ID else p
  }

  /** The non-empty segments, each normalised. */
  function Labels(pieces: seq<string>): seq<string> {
    if pieces == [] then []
    else (if pieces[0] == "" then [] else [Label(pieces[0])]) + Labels(pieces[1..])
  }

  function DefaultRoute(path: string): string {
    var parts := Labels(Split(path, '/'));
    if parts == [] then "/" else "/" + Join(parts, '/')
  }

  /** default_route_resolver: the loop over the segments. */
  method ResolveRoute(path: string) returns (route: string)
    ensures route == DefaultRoute(path)
  {
    var pieces, parts := Split(path, '/'), [];
    for i := 0 to |pieces|
      invariant parts + Labels(pieces[i..]) == Labels(pieces)
    {
      assert pieces[i..][1..] == pieces[i + 1..];
      if pieces[i] == "" {
        continue;
      }
      parts := parts + [Label(pieces[i])];
    }
    assert parts == Labels(pieces);
    return if parts != [] then "/" + Join(parts, '/') else "/";
  }

  /** A segment of a route label. */
  predicate IsSegment(p: string) {
    p != "" && '/' !in p && !LooksLikeId(p)
  }

  predicate AllSegments(parts: seq<string>) {
    forall i :: 0 <= i < |parts| ==> IsSegment(parts[i])
  }

  lemma IdIsSegment()
    ensures IsSegment(ID)
  {
    assert ':' in ID && !IsDigit(':') && |ID| == 3;
  }

  function NonEmpty(pieces: seq<string>): seq<string> {
    if pieces == [] then [] else (if pieces[0] == "" then [] else [pieces[0]]) + NonEmpty(pieces[1..])
  }

  lemma LabelIsSegment(piece: string)
    requires piece != "" && '/' !in piece
    ensures IsSegment(Label(piece))
  {
    IdIsSegment();
  }

  lemma {:induction false} LabelsAreSegments(pieces: seq<string>)
    requires forall i :: 0 <= i < |pieces| ==> '/' !in pieces[i]
    ensures AllSegments(Labels(pieces))
  {
    hide Label, IsSegment;
    if pieces != [] {
      LabelsAreSegments(pieces[1..]);
      if pieces[0] != "" { LabelIsSegment(pieces[0]); }
    }
  }

  lemma {:induction false} LabelsInOrder(pieces: seq<string>)
    ensures |Labels(pieces)| == |NonEmpty(pieces)|
    ensures forall i :: 0 <= i < |Labels(pieces)| ==> Labels(pieces)[i] == Label(NonEmpty(pieces)[i])
  {
    hide Label;
    if pieces != [] { LabelsInOrder(pieces[1..]); }
  }

  lemma {:induction false} SegmentsAreFixed(parts: seq<string>)
    requires AllSegments(parts)
    ensures Labels(parts) == parts && NonEmpty(parts) == parts
  {
    if parts != [] {
      SegmentsAreFixed(parts[1..]);
      assert parts == [parts[0]] + parts[1..];
    }
  }

  /** The pieces of a label put together from segments: a leading empty one, then the segments. */
  lemma SplitLabel(parts: seq<string>)
    requires AllSegments(parts) && parts != []
    ensures Split("/" + Join(parts, '/'), '/') == [""] + parts
  {
    SplitConcat("", Join(parts, '/'), '/');
    assert "" + ['/'] + Join(parts, '/') == "/" + Join(parts, '/');
    SplitJoin(parts, '/');
  }

  lemma SplitSlash()
    ensures Split("/", '/') == ["", ""]
  {
    assert "/"[1..] == "";
  }

  /** The label of a path is `/`, or segments joined by slashes: one for each non-empty piece of the path, in order, which
      is the piece itself unless it looks like an identifier. None of them is empty or looks like one. */
  lemma RouteShape(path: string)
    ensures var pieces, parts := NonEmpty(Split(path, '/')), NonEmpty(Split(DefaultRoute(path), '/'));
            && DefaultRoute(path) == (if parts == [] then "/" else "/" + Join(parts, '/'))
            && |parts| == |pieces| && AllSegments(parts)
            && forall i :: 0 <= i < |pieces| ==> parts[i] == if LooksLikeId(pieces[i]) then ":id" else pieces[i]
  {
    var parts := Labels(Split(path, '/'));
    LabelsInOrder(Split(path, '/'));
    LabelsAreSegments(Split(path, '/'));
    if parts == [] {
      SplitSlash();
      assert NonEmpty(["", ""]) == NonEmpty([""]) by { assert ["", ""][1..] == [""]; }
    } else {
      SplitLabel(parts);
      SegmentsAreFixed(parts);
      assert ([""] + parts)[1..] == parts;
      assert NonEmpty([""] + parts) == NonEmpty(parts);
    }
  }

  /** Which pieces are replaced: exactly those of digits alone, and those of 8, 16, 32 or 36 characters of which one is a
      letter. None of either kind is left in a label. */
  lemma IdentifiersAreReplaced(path: string, i: nat)
    requires i < |NonEmpty(Split(path, '/'))|
    ensures var piece, parts := NonEmpty(Split(path, '/'))[i], NonEmpty(Split(DefaultRoute(path), '/'));
            && i < |parts|
            && (if forall j :: 0 <= j < |piece| ==> '0' <= piece[j] <= '9' then parts[i] == ":id"
                else if |piece| in {8, 16, 32, 36}
                        && exists j :: 0 <= j < |piece| && ('a' <= piece[j] <= 'z' || 'A' <= piece[j] <= 'Z') then
                  parts[i] == ":id"
                else parts[i] == piece)
            && (exists j :: 0 <= j < |parts[i]| && !('0' <= parts[i][j] <= '9'))
            && (|parts[i]| in {8, 16, 32, 36} ==>
                  forall j :: 0 <= j < |parts[i]| ==> !('a' <= parts[i][j] <= 'z' || 'A' <= parts[i][j] <= 'Z'))
  {
    hide Split, DefaultRoute, LooksLikeId;
    var piece, parts := NonEmpty(Split(path, '/'))[i], NonEmpty(Split(DefaultRoute(path), '/'));
    RouteShape(path);
    NonEmptyPieces(Split(path, '/'));
    LooksLikeIdIff(piece);
    LooksLikeIdIff(parts[i]);
  }

  lemma LooksLikeIdIff(p: string)
    requires p != ""
    ensures LooksLikeId(p) <==>
              || (forall j :: 0 <= j < |p| ==> '0' <= p[j] <= '9')
              || (|p| in {8, 16, 32, 36} && exists j :: 0 <= j < |p| && ('a' <= p[j] <= 'z' || 'A' <= p[j] <= 'Z'))
  {
    if c :| c in p && IsAlpha(c) {
      var j :| 0 <= j < |p| && p[j] == c;
    }
    if j :| 0 <= j < |p| && ('a' <= p[j] <= 'z' || 'A' <= p[j] <= 'Z') {
      assert p[j] in p && IsAlpha(p[j]);
    }
    if !AllDigits(p) {
      var c :| c in p && !IsDigit(c);
      var j :| 0 <= j < |p| && p[j] == c;
    } else {
      assert forall j :: 0 <= j < |p| ==> p[j] in p;
    }
  }

  lemma {:induction false} NonEmptyPieces(pieces: seq<string>)
    ensures forall i :: 0 <= i < |NonEmpty(pieces)| ==> NonEmpty(pieces)[i] != ""
  {
    if pieces != [] { NonEmptyPieces(pieces[1..]); }
  }

  /** Normalising a label changes nothing. */
  lemma RouteIsIdempotent(path: string)
    ensures DefaultRoute(DefaultRoute(path)) == DefaultRoute(path)
  {
    var parts := Labels(Split(path, '/'));
    LabelsAreSegments(Split(path, '/'));
    if parts == [] {
      SplitSlash();
      assert Labels(["", ""]) == Labels([""]) by { assert ["", ""][1..] == [""]; }
    } else {
      SplitLabel(parts);
      SegmentsAreFixed(parts);
      assert Split(DefaultRoute(path), '/') == [""] + parts;
      assert ([""] + parts)[1..] == parts && [] + parts == parts;
      assert Labels([""] + parts) == parts;
    }
  }
}
