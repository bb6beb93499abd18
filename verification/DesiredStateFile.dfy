/** The file backend: transactional saves through a sibling temp file, under faults and crashes.

    One writer at a time uses the two files.  Each operation takes the fault the environment
    injects: an I/O step that fails, or a crash of the process between two steps. */
module DesiredStateFile {
  import opened Wrappers
  import opened Json
  import opened DesiredStateRecord

  type Content = seq<Token>

  /** The two files; None is an absent file. */
  datatype Disk = Disk(canonical: Option<Content>, temp: Option<Content>)

  datatype SaveFault =
    | NoFault
    | CreateDirFails
    | CreateFails
    | WriteFails(written: nat)
    | RenameFails(tempRemoved: bool)
    | CrashBeforeCreate
    | CrashInWrite(written: nat)
    | CrashBeforeRename
    | CrashAfterRename

  datatype ClearFault =
    | RemoveFails
    | RemoveSucceeds(tempRemoved: bool)
    | CrashBeforeRemove
    | CrashAfterRemove

  datatype LoadFault = ReadFails | ReadSucceeds(tempRemoved: bool)

  /** How a call ends; a crashed call never returns to its caller. */
  datatype Completion = Done | Failed | Crashed

  datatype LoadResult = Loaded(state: DesiredState) | Malformed | IoError

  function Encode(ds: DesiredState): Content {
    Print(ToJson(ds))
  }

  function Torn(content: Content, written: nat): Content {
    if written < |content| then content[..written] else content
  }

  // ----- the operations' specification -----

  function AfterSave(d: Disk, ds: DesiredState, fault: SaveFault): Disk {
    match fault
    case NoFault => Disk(Some(Encode(ds)), None)
    case CrashAfterRename => Disk(Some(Encode(ds)), None)
    case CreateDirFails => d
    case CreateFails => d
    case CrashBeforeCreate => d
    case WriteFails(n) => d.(temp := Some(Torn(Encode(ds), n)))
    case CrashInWrite(n) => d.(temp := Some(Torn(Encode(ds), n)))
    case CrashBeforeRename => d.(temp := Some(Encode(ds)))
    case RenameFails(removed) => d.(temp := if removed then None else Some(Encode(ds)))
  }

  function SaveCompletion(fault: SaveFault): Completion {
    match fault
    case NoFault => Done
    case CreateDirFails => Failed
    case CreateFails => Failed
    case WriteFails(_) => Failed
    case RenameFails(_) => Failed
    case _ => Crashed
  }

  function AfterClear(d: Disk, fault: ClearFault): Disk {
    match fault
    case RemoveFails => d
    case CrashBeforeRemove => d
    case CrashAfterRemove => d.(canonical := None)
    case RemoveSucceeds(removed) => Disk(None, if removed then None else d.temp)
  }

  function ReadCanonical(d: Disk): LoadResult {
    match d.canonical
    case None => Loaded(DEFAULT_STATE)
    case Some(content) =>
      match Decode(content)
      case None => Malformed
      case Some(j) => match FromJson(j) case None => Malformed case Some(ds) => Loaded(ds)
  }

  function AfterLoad(d: Disk, fault: LoadFault): Disk {
    if fault.ReadSucceeds? && d.canonical.None? && fault.tempRemoved then d.(temp := None) else d
  }

  // ----- the backend -----

  class FileDesiredStateBackend {
    var canonical: Option<Content>
    var temp: Option<Content>

    function Files(): Disk
      reads this
    {
      Disk(canonical, temp)
    }

    constructor (canonical: Option<Content>, temp: Option<Content>)
      ensures Files() == Disk(canonical, temp)
    {
      this.canonical := canonical;
      this.temp := temp;
    }

    /** Removing the temp file is best effort: a failure is ignored. */
    method CleanStaleTemp(removed: bool)
      modifies this`temp
      ensures temp == if removed then None else old(temp)
    {
      if removed {
        temp := None;
      }
    }

    method Load(fault: LoadFault) returns (r: LoadResult)
      modifies this`temp
      ensures Files() == AfterLoad(old(Files()), fault)
      ensures r == if fault.ReadFails? then IoError else ReadCanonical(old(Files()))
    {
      if fault.ReadFails? {
        return IoError;
      }
      match canonical {
        case Some(content) =>
          var j := Decode(content);
          if j.None? {
            return Malformed;
          }
          var ds := FromJson(j.value);
          if ds.None? {
            return Malformed;
          }
          return Loaded(ds.value);
        case None =>
          CleanStaleTemp(fault.tempRemoved);
          return Loaded(DEFAULT_STATE);
      }
    }

    /** Serialise, write the temp file, rename it over the canonical file. */
    method Save(ds: DesiredState, fault: SaveFault) returns (c: Completion)
      modifies this
      ensures Files() == AfterSave(old(Files()), ds, fault)
      ensures c == SaveCompletion(fault)
    {
      if fault.CreateDirFails? {
        return Failed;
      }
      var json := Encode(ds);
      if fault.CreateFails? {
        return Failed;
      }
      if fault.CrashBeforeCreate? {
        return Crashed;
      }
      temp := Some([]);
      if fault.WriteFails? || fault.CrashInWrite? {
        temp := Some(Torn(json, fault.written));
        return if fault.WriteFails? then Failed else Crashed;
      }
      temp := Some(json);
      if fault.CrashBeforeRename? {
        return Crashed;
      }
      if fault.RenameFails? {
        CleanStaleTemp(fault.tempRemoved);
        return Failed;
      }
      canonical, temp := temp, None;
      return if fault.CrashAfterRename? then Crashed else Done;
    }

    method Clear(fault: ClearFault) returns (c: Completion)
      modifies this
      ensures Files() == AfterClear(old(Files()), fault)
      ensures c == match fault case RemoveFails => Failed case RemoveSucceeds(_) => Done case _ => Crashed
    {
      if fault.RemoveFails? {
        return Failed;
      }
      if fault.CrashBeforeRemove? {
        return Crashed;
      }
      canonical := None;
      if fault.CrashAfterRemove? {
        return Crashed;
      }
      CleanStaleTemp(fault.tempRemoved);
      return Done;
    }
  }

  // ----- histories -----

  datatype Op =
    | SaveOp(ds: DesiredState, saveFault: SaveFault)
    | ClearOp(clearFault: ClearFault)
    | LoadOp(loadFault: LoadFault)

  function ApplyOp(d: Disk, op: Op): Disk {
    match op
    case SaveOp(ds, fault) => AfterSave(d, ds, fault)
    case ClearOp(fault) => AfterClear(d, fault)
    case LoadOp(fault) => AfterLoad(d, fault)
  }

  function Run(d: Disk, ops: seq<Op>): Disk {
    if ops == [] then d else ApplyOp(Run(d, ops[..|ops| - 1]), ops[|ops| - 1])
  }

  predicate Renames(op: Op) {
    op.SaveOp? && (op.saveFault.NoFault? || op.saveFault.CrashAfterRename?)
  }

  predicate Removes(op: Op) {
    op.ClearOp? && (op.clearFault.RemoveSucceeds? || op.clearFault.CrashAfterRemove?)
  }

  /** The record a history leaves behind: that of its last save to reach the rename, unless a
      later clear reached the removal. */
  function Committed(ops: seq<Op>): Option<DesiredState> {
    if ops == [] then None
    else
      var op := ops[|ops| - 1];
      if Renames(op) then Some(op.ds)
      else if Removes(op) then None
      else Committed(ops[..|ops| - 1])
  }

  /** Crash safety: whatever steps fail or crash, the canonical file is absent or holds the whole
      encoding of the committed record.  Any stale temp content may be there at the outset. */
  lemma {:induction false} CanonicalIsCommitted(stale: Option<Content>, ops: seq<Op>)
    ensures Run(Disk(None, stale), ops).canonical
            == match Committed(ops) case None => None case Some(ds) => Some(Encode(ds))
  {
    if ops != [] {
      CanonicalIsCommitted(stale, ops[..|ops| - 1]);
    }
  }

  lemma EncodedReadsBack(d: Disk, ds: DesiredState)
    requires d.canonical == Some(Encode(ds))
    ensures ReadCanonical(d) == Loaded(Canonical(ds))
  {
    DecodePrint(ToJson(ds));
    RecordRoundTrip(ds);
  }

  /** A load in any history returns the default or the last committed record, never "malformed". */
  lemma LoadAfterHistory(stale: Option<Content>, ops: seq<Op>)
    ensures ReadCanonical(Run(Disk(None, stale), ops))
            == Loaded(match Committed(ops) case None => DEFAULT_STATE case Some(ds) => Canonical(ds))
  {
    CanonicalIsCommitted(stale, ops);
    if Committed(ops).Some? {
      EncodedReadsBack(Run(Disk(None, stale), ops), Committed(ops).value);
    }
  }

  /** A save is atomic for later readers: they see the old record or the new one, the new one
      exactly when the rename was reached, and a save that reports success has reached it. */
  lemma SaveIsAtomic(d: Disk, ds: DesiredState, fault: SaveFault)
    ensures Renames(SaveOp(ds, fault)) ==> ReadCanonical(AfterSave(d, ds, fault)) == Loaded(Canonical(ds))
    ensures !Renames(SaveOp(ds, fault)) ==> ReadCanonical(AfterSave(d, ds, fault)) == ReadCanonical(d)
    ensures SaveCompletion(fault).Done? ==> Renames(SaveOp(ds, fault))
    ensures SaveCompletion(fault).Failed? ==> !Renames(SaveOp(ds, fault))
  {
    if Renames(SaveOp(ds, fault)) {
      EncodedReadsBack(AfterSave(d, ds, fault), ds);
    }
  }

  /** Saving in place, without the temp file, would not be safe: every strict prefix of an encoding
      that a crash could leave in the canonical file reads as malformed. */
  lemma TornCanonicalIsMalformed(d: Disk, ds: DesiredState, n: nat)
    requires n < |Encode(ds)| && d.canonical == Some(Encode(ds)[..n])
    ensures ReadCanonical(d) == Malformed
  {
    NoStrictPrefixDecodes(ToJson(ds), n);
  }

  /** Disk hygiene.  A save that reports success leaves no temp file.  A clear that reports success
      leaves one exactly when one was there and its best-effort removal failed. */
  lemma TempAfterCompletion(d: Disk, ds: DesiredState, save: SaveFault, clear: ClearFault)
    ensures SaveCompletion(save).Done? ==> AfterSave(d, ds, save).temp == None
    ensures save.RenameFails? ==> (AfterSave(d, ds, save).temp != None <==> !save.tempRemoved)
    ensures clear.RemoveSucceeds? ==>
              (AfterClear(d, clear).temp != None <==> d.temp != None && !clear.tempRemoved)
  {
  }

  /** A load that finds no canonical file gives the default and tidies up a stale temp file; any other
      load touches nothing, and none touches the canonical file. */
  lemma LoadTidiesUp(d: Disk, fault: LoadFault)
    ensures AfterLoad(d, fault).canonical == d.canonical
    ensures fault.ReadSucceeds? && d.canonical == None ==>
              ReadCanonical(d) == Loaded(DEFAULT_STATE)
              && (AfterLoad(d, fault).temp != None <==> d.temp != None && !fault.tempRemoved)
    ensures fault.ReadFails? || d.canonical != None ==> AfterLoad(d, fault) == d
  {
  }

  /** How far a save got decides how it ends: before the temp file is created and until the rename is
      reached the canonical file is the old one, and what a failed write left is in the temp file. */
  lemma FailedSaveLeaves(d: Disk, ds: DesiredState, fault: SaveFault)
    ensures fault.CreateDirFails? || fault.CreateFails? || fault.CrashBeforeCreate? ==> AfterSave(d, ds, fault) == d
    ensures fault.WriteFails? || fault.CrashInWrite? ==>
              var d' := AfterSave(d, ds, fault);
              d'.canonical == d.canonical && d'.temp.Some? && d'.temp.value <= Encode(ds)
    ensures fault.CrashBeforeRename? ==> AfterSave(d, ds, fault) == Disk(d.canonical, Some(Encode(ds)))
    ensures SaveCompletion(fault).Crashed? <==>
              fault.CrashBeforeCreate? || fault.CrashInWrite? || fault.CrashBeforeRename? || fault.CrashAfterRename?
    ensures SaveCompletion(fault).Done? <==> fault.NoFault?
  {
  }
}
