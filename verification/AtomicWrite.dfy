/** The release tool's atomic write, over a file system each of whose calls may fail. A file name stands for a path;
    what a call raises is part of the environment. */
module AtomicWrite {
  import opened Wrappers

  datatype Entry = File(content: string, mode: nat) | Directory(mode: nat) | Symlink(target: string)

  type Entries = map<string, Entry>

  /** What a call raises: an OSError, or any other exception, such as an encoding error or an interrupt. */
  datatype Fault = NoFault | OsFault | OtherFault

  /** One fault per call; a write that fails may have written the first `written` characters. */
  datatype Faults = Faults(
    isSymlink: Fault, stat: Fault, create: Fault, write: Fault, written: nat, close: Fault, chmod: Fault,
    replace: Fault, unlink: Fault)

  /** ReleaseFailure is a ReleaseError; Propagated is any exception that is no OSError. */
  datatype Outcome = Written | ReleaseFailure | Propagated

  const TEMPORARY_MODE: nat := 0x180 // 0600

  function Caught(fault: Fault): Outcome {
    match fault
    case NoFault => Written
    case OsFault => ReleaseFailure
    case OtherFault => Propagated
  }

  function Before(first: Fault, second: Fault): Fault {
    if first != NoFault then first else second
  }

  /** The permission bits that a stat of the destination finds. */
  function ModeOf(entries: Entries, path: string): Option<nat> {
    if path !in entries then None
    else match entries[path]
      case File(_, mode) => Some(mode)
      case Directory(mode) => Some(mode)
      case Symlink(_) => None
  }

  /** The file that a successful write leaves. */
  function NewFile(entries: Entries, path: string, text: string): Entry {
    File(text, if ModeOf(entries, path).Some? then ModeOf(entries, path).value else TEMPORARY_MODE)
  }

  /** The fault that stops a write before the destination is replaced. A fault on closing the stream hides one on
      writing to it; the mode is set only if the destination exists; a file does not replace a directory. */
  function Stops(entries: Entries, path: string, faults: Faults): Fault {
    if faults.isSymlink != NoFault then faults.isSymlink
    else if path in entries && entries[path].Symlink? then OsFault
    else
      var ontoDirectory := path in entries && entries[path].Directory?;
      var replaced := Before(faults.replace, if ontoDirectory then OsFault else NoFault);
      var moded := Before(if path in entries then faults.chmod else NoFault, replaced);
      Before(faults.stat, Before(faults.create, Before(faults.close, Before(faults.write, moded))))
  }

  /** A write is stopped by the first call that fails, in the order in which they can surface: asking for a link, finding
      one, asking for the mode, creating the temporary file, closing it, writing to it, setting the mode if there is a
      destination, and replacing, which also fails for a directory. */
  lemma StopsIsFirst(entries: Entries, path: string, faults: Faults) returns (i: nat)
    ensures var calls := [faults.isSymlink, if path in entries && entries[path].Symlink? then OsFault else NoFault, faults.stat,
                          faults.create, faults.close, faults.write, if path in entries then faults.chmod else NoFault,
                          faults.replace, if path in entries && entries[path].Directory? then OsFault else NoFault];
            && (forall j :: 0 <= j < i && j < |calls| ==> calls[j] == NoFault)
            && (if i < |calls| then calls[i] != NoFault && Stops(entries, path, faults) == calls[i]
                else Stops(entries, path, faults) == NoFault)
  {
    i := if faults.isSymlink != NoFault then 0
         else if path in entries && entries[path].Symlink? then 1
         else if faults.stat != NoFault then 2
         else if faults.create != NoFault then 3
         else if faults.close != NoFault then 4
         else if faults.write != NoFault then 5
         else if path in entries && faults.chmod != NoFault then 6
         else if faults.replace != NoFault then 7
         else if path in entries && entries[path].Directory? then 8 else 9;
  }

  /** A temporary file was made and is still there when the cleanup starts. */
  predicate NeedsCleanup(entries: Entries, path: string, faults: Faults) {
    && Stops(entries, path, faults) != NoFault
    && faults.isSymlink == NoFault && !(path in entries && entries[path].Symlink?)
    && faults.stat == NoFault && faults.create == NoFault
  }

  class FileSystem {
    var entries: Entries
    /** Every state so far: the one a crash at that point leaves behind. */
    ghost var history: seq<Entries>

    constructor (initial: Entries)
      ensures entries == initial && history == [initial]
    {
      entries := initial;
      history := [initial];
    }

    method Put(path: string, entry: Entry)
      modifies this
      ensures entries == old(entries)[path := entry] && history == old(history) + [entries]
    {
      entries := entries[path := entry];
      history := history + [entries];
    }

    method Remove(path: string)
      modifies this
      ensures entries == old(entries) - {path} && history == old(history) + [entries]
    {
      entries := entries - {path};
      history := history + [entries];
    }

    /** os.replace of a temporary file: one step. */
    method Replace(source: string, path: string) returns (fault: Fault)
      requires source in entries && entries[source].File?
      modifies this
      ensures old(path in entries && entries[path].Directory?) ==> fault == OsFault && unchanged(this)
      ensures !old(path in entries && entries[path].Directory?) ==>
                && fault == NoFault && entries == old(entries[path := entries[source]] - {source})
                && history == old(history) + [entries]
    {
      if path in entries && entries[path].Directory? {
        return OsFault;
      }
      entries := entries[path := entries[source]] - {source};
      history := history + [entries];
      fault := NoFault;
    }

    /** The temporary file, filled and given the mode of the destination if there is one. */
    method Fill(name: string, text: string, destinationMode: Option<nat>, faults: Faults) returns (fault: Fault)
      requires name !in entries
      modifies this
      ensures fault == Before(Before(faults.close, faults.write), if destinationMode.Some? then faults.chmod else NoFault)
      ensures name in entries && entries[name].File? && entries - {name} == old(entries)
      ensures fault == NoFault ==>
                entries[name] == File(text, if destinationMode.Some? then destinationMode.value else TEMPORARY_MODE)
      ensures |old(history)| <= |history| && history[..|old(history)|] == old(history)
      ensures forall k :: |old(history)| <= k < |history| ==> history[k] - {name} == old(entries)
    {
      Put(name, File("", TEMPORARY_MODE));
      if faults.write != NoFault || faults.close != NoFault {
        Put(name, File(if faults.written <= |text| then text[..faults.written] else text, TEMPORARY_MODE));
        return if faults.close != NoFault then faults.close else faults.write;
      }
      Put(name, File(text, TEMPORARY_MODE));
      if destinationMode.Some? {
        if faults.chmod != NoFault {
          return faults.chmod;
        }
        Put(name, File(text, destinationMode.value));
      }
      fault := NoFault;
    }

    /** The body of the try statement: the fault that stopped it, and the temporary file left for the cleanup. */
    method TryWrite(path: string, text: string, name: string, faults: Faults)
      returns (fault: Fault, temporary: Option<string>)
      requires name !in entries && name != path && history != [] && history[|history| - 1] == entries
      modifies this
      ensures fault == Stops(old(entries), path, faults)
      ensures temporary == if NeedsCleanup(old(entries), path, faults) then Some(name) else None
      ensures fault == NoFault ==> entries == old(entries)[path := NewFile(old(entries), path, text)]
      ensures fault != NoFault ==> entries - {name} == old(entries)
      ensures name in entries <==> temporary.Some?
      ensures old(path in entries && entries[path].Symlink?) ==> unchanged(this)
      ensures |old(history)| <= |history| && history[..|old(history)|] == old(history)
      ensures forall k :: |old(history)| <= k < |history| ==> AllOrNothing(old(entries), path, text, name, history[k])
    {
      temporary := None;
      if faults.isSymlink != NoFault {
        return faults.isSymlink, temporary;
      }
      if path in entries && entries[path].Symlink? {
        return OsFault, temporary;
      }
      if faults.stat != NoFault {
        return faults.stat, temporary;
      }
      var destinationMode := ModeOf(entries, path);
      if faults.create != NoFault {
        return faults.create, temporary;
      }
      fault := Fill(name, text, destinationMode, faults);
      temporary := Some(name);
      if fault != NoFault {
        return;
      }
      if faults.replace != NoFault {
        return faults.replace, temporary;
      }
      fault := Replace(name, path);
      if fault == NoFault {
        temporary := None;
      }
    }

    /** _write_text_atomic. Whatever fails, at every moment of the write the destination holds its old entry or the whole
        new text with the mode kept; nothing else but the temporary file ever changes; a temporary file stays behind only
        if its own removal fails; and the write succeeds exactly when nothing stops it. */
    method WriteTextAtomic(path: string, text: string, name: string, faults: Faults) returns (outcome: Outcome)
      requires name !in entries && name != path && history != [] && history[|history| - 1] == entries
      modifies this
      ensures outcome == Written <==>
                && (path in old(entries) ==> old(entries)[path].File? && faults.chmod == NoFault)
                && faults.isSymlink == NoFault && faults.stat == NoFault && faults.create == NoFault
                && faults.write == NoFault && faults.close == NoFault && faults.replace == NoFault
      ensures outcome == Written ==> entries == old(entries)[path := NewFile(old(entries), path, text)]
      ensures outcome == Written ==>
                path in entries && entries[path]
                  == File(text, if path in old(entries) && old(entries)[path].File? then old(entries)[path].mode else 0x180)
      ensures outcome != Written ==> entries - {name} == old(entries)
      ensures name in entries <==> NeedsCleanup(old(entries), path, faults) && faults.unlink != NoFault
      ensures outcome == Propagated <==>
                || Stops(old(entries), path, faults) == OtherFault
                || (NeedsCleanup(old(entries), path, faults) && faults.unlink == OtherFault)
      ensures forall k :: |old(history)| <= k < |history| ==> AllOrNothing(old(entries), path, text, name, history[k])
      ensures |old(history)| <= |history| && history[..|old(history)|] == old(history)
      ensures old(path in entries && entries[path].Symlink?) ==> unchanged(this) && outcome != Written
    {
      var fault, temporary := TryWrite(path, text, name, faults);
      outcome := Caught(fault);
      if temporary.Some? {
        if faults.unlink == NoFault {
          Remove(temporary.value);
        } else if faults.unlink == OtherFault {
          outcome := Propagated;
        }
      }
    }
  }

  /** A state between which and the first one only the destination, whole, and the temporary file differ. */
  ghost predicate AllOrNothing(first: Entries, path: string, text: string, name: string, now: Entries) {
    now - {name} == first || now - {name} == first[path := NewFile(first, path, text)]
  }
}
