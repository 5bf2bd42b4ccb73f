/**
 The state file and its store (internal/state/state.go): loading with the
 size bound, saving only what a load allowed, and the atomic replacement of
 the file.
 */
module StateFile {
  import opened Text
  import opened Ledger
  import opened LedgerEncoding

  const OLDEST_READABLE_VERSION := 1

  datatype Envelope = Envelope(version: int, workflows: Workflows)

  /** What the path holds. A file that does not parse has no envelope. */
  datatype FileContent =
    | Absent
    | Unreadable
    | File(size: nat, envelope: Option<Envelope>)

  datatype LoadError = ReadFailed | FileTooLarge | Malformed | UnsupportedVersion(version: int)

  datatype LoadResult = Loaded(workflows: Workflows) | LoadFailed(error: LoadError)

  function Decoded(c: FileContent): LoadResult {
    match c
    case Absent => Loaded(map[])
    case Unreadable => LoadFailed(ReadFailed)
    case File(size, envelope) =>
      if size > MAX_STATE_FILE_SIZE then LoadFailed(FileTooLarge)
      else if envelope.None? then LoadFailed(Malformed)
      else if envelope.value.version < OLDEST_READABLE_VERSION || envelope.value.version > VERSION then
        LoadFailed(UnsupportedVersion(envelope.value.version))
      else Loaded(envelope.value.workflows)
  }

  /** Not for this release to touch: unreadable, too large, not a ledger, or of another version than 1 or 2. */
  predicate OffLimits(c: FileContent) {
    && !c.Absent?
    && (c.Unreadable? || c.size > 16 * 1024 * 1024 || c.envelope.None? || c.envelope.value.version !in {1, 2})
  }

  /** Every other file loads, a missing one as the empty ledger. */
  lemma LoadsExactlyWhen(c: FileContent)
    ensures Decoded(c).Loaded? <==> !OffLimits(c)
    ensures !OffLimits(c) ==> Decoded(c).workflows == if c.Absent? then map[] else c.envelope.value.workflows
  {
  }

  /** The file a successful save of m leaves. */
  ghost function Encoded(m: Workflows): FileContent {
    File(EncodedSize(m), Some(Envelope(VERSION, m)))
  }

  /**
   The bound a save enforces is the bound a load enforces: what was saved is
   never refused as too large, and no more could be saved.
   */
  lemma SavedFileLoads(m: Workflows)
    ensures Decoded(Encoded(m)) == Loaded(m) <==> EncodedSize(m) <= MAX_STATE_FILE_SIZE
  {
  }

  datatype SaveError =
    | NotLoaded
    | NilState
    | TooLarge(size: nat, limit: nat)
    | WriteFailed

  /**
   What goes wrong on the disk during one write: something before the
   rename takes effect, or the sync of the directory after it. The caller
   sees the same kind of error for both.
   */
  datatype Fault = NoFault | BeforeRename | DirectorySync

  class State {
    var workflows: Workflows

    constructor (m: Workflows)
      ensures workflows == m
    {
      workflows := m;
    }

    method Get(key: string) returns (w: Option<Workflow>)
      ensures w == if key in workflows then Some(workflows[key]) else None
    {
      w := if key in workflows then Some(workflows[key]) else None;
    }

    method Put(key: string, w: Workflow)
      modifies this
      ensures workflows == old(workflows)[key := w]
    {
      workflows := workflows[key := w];
    }
  }

  class Disk {
    var content: FileContent

    /**
     writeAtomic: a temporary file is written, synced and renamed over the
     path, then the directory is synced. The file is replaced whole exactly
     when the rename took effect, which an error does not rule out.
     */
    method WriteAtomic(c: FileContent, fault: Fault) returns (e: Option<SaveError>)
      modifies this
      ensures e == if fault == NoFault then None else Some(WriteFailed)
      ensures content == if fault == BeforeRename then old(content) else c
    {
      if fault == BeforeRename {
        return Some(WriteFailed);
      }
      content := c;
      if fault == DirectorySync {
        return Some(WriteFailed);
      }
      return None;
    }
  }

  class Store {
    const disk: Disk
    var loaded: bool

    constructor (disk: Disk)
      ensures this.disk == disk && !loaded
    {
      this.disk := disk;
      loaded := false;
    }

    /** Load; the store refuses to save until a load succeeds. */
    method Load() returns (r: LoadResult)
      modifies this
      ensures r == Decoded(disk.content)
      ensures loaded == r.Loaded?
    {
      loaded := false;
      match disk.content
      case Absent =>
        loaded := true;
        return Loaded(map[]);
      case Unreadable =>
        return LoadFailed(ReadFailed);
      case File(size, envelope) =>
        if size > MAX_STATE_FILE_SIZE {
          return LoadFailed(FileTooLarge);
        }
        if envelope.None? {
          return LoadFailed(Malformed);
        }
        var env := envelope.value;
        if env.version < OLDEST_READABLE_VERSION || env.version > VERSION {
          return LoadFailed(UnsupportedVersion(env.version));
        }
        loaded := true;
        return Loaded(env.workflows);
    }

    /**
     Save. The file changes only when the store was loaded, the encoding is
     within the bound and the rename took effect, and then to exactly the
     encoding of s.
     */
    method Save(s: State?, fault: Fault) returns (e: Option<SaveError>)
      modifies disk
      ensures e == if !loaded then Some(NotLoaded)
                   else if s == null then Some(NilState)
                   else if EncodedSize(s.workflows) > MAX_STATE_FILE_SIZE then
                     Some(TooLarge(EncodedSize(s.workflows), MAX_STATE_FILE_SIZE))
                   else if fault != NoFault then Some(WriteFailed)
                   else None
      ensures disk.content ==
              if loaded && s != null && EncodedSize(s.workflows) <= MAX_STATE_FILE_SIZE && fault != BeforeRename
              then Encoded(s.workflows) else old(disk.content)
    {
      if !loaded {
        return Some(NotLoaded);
      }
      if s == null {
        return Some(NilState);
      }
      var size := MeasureState(s.workflows);
      if size > MAX_STATE_FILE_SIZE {
        return Some(TooLarge(size, MAX_STATE_FILE_SIZE));
      }
      e := disk.WriteAtomic(File(size, Some(Envelope(VERSION, s.workflows))), fault);
    }
  }
}
