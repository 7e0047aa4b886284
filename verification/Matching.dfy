/** Criteria on a request: what a route's Match demands of it, and what assert_called demands of a recorded one.
    JSON values are of any type J with equality, and `parse` is json.loads on bytes. */
module Matching {
  import opened Wrappers
  import opened Request
  import opened Headers

  /** json.loads(body): a value, JSONDecodeError, or the UnicodeDecodeError of a body that is not text. */
  datatype Parse<J> = Parsed(value: J) | NotJson | NotText

  /** Match, and the keyword arguments of assert_called. */
  datatype Criteria<J> = Criteria(json: Option<J>, body: Option<Body>,
                                  headers: Option<map<string, string>>, query: Option<map<string, string>>)

  datatype Incoming = Incoming(verb: string, path: string, headers: seq<Field>, query: seq<Field>, body: Body)

  /** query.get(key): names compare exactly. */
  function FirstExact(fs: seq<Field>, name: string): Option<string> {
    if fs == [] then None else if fs[0].0 == name then Some(fs[0].1) else FirstExact(fs[1..], name)
  }

  /** A query parameter reads as the first one of exactly that name. */
  lemma {:induction false} FirstExactIs(fs: seq<Field>, name: string)
    ensures FirstExact(fs, name).None? <==> forall i :: 0 <= i < |fs| ==> fs[i].0 != name
    ensures forall i :: 0 <= i < |fs| && fs[i].0 == name && (forall j :: 0 <= j < i ==> fs[j].0 != name) ==>
              FirstExact(fs, name) == Some(fs[i].1)
  {
    if fs != [] {
      FirstExactIs(fs[1..], name);
      assert forall i :: 1 <= i < |fs| ==> fs[i] == fs[1..][i - 1];
    }
  }

  datatype Answer = Yes | No | Crash

  /** _matches_json: a body that is not text is not caught. */
  function MatchesJson<J(==)>(json: Option<J>, parse: Body -> Parse<J>, body: Body): Answer {
    if json.None? then Yes
    else
      match parse(body)
      case NotText => Crash
      case NotJson => No
      case Parsed(value) => if value == json.value then Yes else No
  }

  /** Match.matches and call_matches: body, JSON, headers, query, in that order. */
  function Meets<J(==)>(c: Criteria<J>, parse: Body -> Parse<J>, r: Incoming): Answer {
    if c.body.Some? && r.body != c.body.value then No
    else
      var json := MatchesJson(c.json, parse, r.body);
      if !json.Yes? then json
      else if c.headers.Some? && exists k :: k in c.headers.value && First(r.headers, k) != Some(c.headers.value[k])
      then No
      else if c.query.Some? && exists k :: k in c.query.value && FirstExact(r.query, k) != Some(c.query.value[k]) then No
      else Yes
  }

  /** Without a JSON criterion nothing can crash; with one, exactly a body that passes the body criterion and is
      not text. */
  lemma CrashIff<J>(c: Criteria<J>, parse: Body -> Parse<J>, r: Incoming)
    ensures Meets(c, parse, r) == Crash
       <==> c.json.Some? && parse(r.body) == NotText && (c.body.Some? ==> r.body == c.body.value)
  {
  }

  /** Criteria are met exactly when the body and the parsed JSON are the given ones, and the given headers and query
      parameters are among those of the request. */
  lemma MeetsIff<J>(c: Criteria<J>, parse: Body -> Parse<J>, r: Incoming)
    ensures Meets(c, parse, r) == Yes
       <==> && (c.body.Some? ==> r.body == c.body.value)
            && (c.json.Some? ==> parse(r.body) == Parsed(c.json.value))
            && (c.headers.Some? ==> forall k :: k in c.headers.value ==> First(r.headers, k) == Some(c.headers.value[k]))
            && (c.query.Some? ==> forall k :: k in c.query.value ==> FirstExact(r.query, k) == Some(c.query.value[k]))
  {
  }
}
