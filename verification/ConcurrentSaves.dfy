/** Saves that overlap: the actor and a spawned task load, modify and save the same record through
    the same two files, with nothing to keep them apart. */
module ConcurrentSaves {
  import opened Wrappers
  import opened Models
  import opened Json
  import opened DesiredStateRecord
  import opened DesiredStateFile
  import opened Intent

  // ----- overlapping load, modify, save -----

  /** The record, and what each writer has loaded and not yet saved. */
  datatype Store = Store(record: DesiredState, loaded: map<nat, DesiredState>)

  datatype StoreStep =
    | LoadRecord(writer: nat, loads: bool)
    | SaveRecord(writer: nat, desired: bool, config: Option<StartConfig>, now: U64, saves: bool)

  predicate Saved(s: Store, step: StoreStep) {
    step.SaveRecord? && step.writer in s.loaded && step.saves
  }

  function NextStore(s: Store, step: StoreStep): Store {
    match step
    case LoadRecord(writer, loads) => s.(loaded := s.loaded[writer := if loads then s.record else DEFAULT_STATE])
    case SaveRecord(writer, desired, config, now, saves) =>
      if writer !in s.loaded then s
      else Store(if saves then Rewrite(s.loaded[writer], desired, config, now) else s.record, s.loaded - {writer})
  }

  function RunStore(s: Store, steps: seq<StoreStep>): Store {
    if steps == [] then s else NextStore(RunStore(s, steps[..|steps| - 1]), steps[|steps| - 1])
  }

  /** The wish of the last save that succeeded. */
  function LastSaved(s: Store, steps: seq<StoreStep>): Wish {
    if steps == [] then NO_WISH
    else
      var before, step := steps[..|steps| - 1], steps[|steps| - 1];
      if Saved(RunStore(s, before), step) then Wish(step.desired, if step.desired then step.config else None)
      else LastSaved(s, before)
  }

  /** However the loads and saves of any number of writers interleave, every record persisted is
      normalised, and its flag and config are those of the last save: a save that builds on an
      outdated load can only bring back older values of the other fields. */
  lemma {:induction false} OverlappingSavesAreNormalised(steps: seq<StoreStep>)
    ensures var s0 := Store(DEFAULT_STATE, map[]);
            Normalised(RunStore(s0, steps).record) && Expresses(RunStore(s0, steps).record, LastSaved(s0, steps))
  {
    if steps != [] {
      OverlappingSavesAreNormalised(steps[..|steps| - 1]);
    }
  }

  /** Without overlap, a load and its save are the one step of the transition system. */
  lemma LoadThenSave(s: Store, writer: nat, desired: bool, config: Option<StartConfig>, saving: Saving)
    ensures var s' := RunStore(s, [LoadRecord(writer, saving.loads), SaveRecord(writer, desired, config, saving.now, saving.saves)]);
            Some(s'.record) == SaveDesiredRunning(Some(s.record), desired, config, saving)
  {
    var load, save := LoadRecord(writer, saving.loads), SaveRecord(writer, desired, config, saving.now, saving.saves);
    assert [load, save][..1] == [load] && [load][..0] == [];
    assert RunStore(s, [load]) == NextStore(s, load);
  }

  // ----- several writers of one temp file -----

  /** A writer's open file: the inode it got, what it is to save, and whether it has been written. */
  datatype Handle = Handle(inode: nat, ds: DesiredState, written: bool)

  /** The two names point to inodes; a handle keeps its inode across a rename or a removal. */
  datatype Files = Files(inodes: seq<Content>, canonical: Option<nat>, temp: Option<nat>, open: map<nat, Handle>)

  /** A save opens, writes and renames, or is abandoned on an error.  The temp file is also removed, by
      a load that finds no canonical file, by a failed rename and by a clear, which removes both. */
  datatype FileStep =
    | Open(writer: nat, ds: DesiredState)
    | Write(writer: nat)
    | Rename(writer: nat)
    | Abandon(writer: nat)
    | RemoveTemp
    | RemoveCanonical

  predicate InodesExist(f: Files) {
    && (f.canonical.Some? ==> f.canonical.value < |f.inodes|)
    && (f.temp.Some? ==> f.temp.value < |f.inodes|)
    && (forall w | w in f.open :: f.open[w].inode < |f.inodes|)
  }

  /** A write starts at the beginning of the file and leaves what lies beyond it. */
  function Overlay(new': Content, old': Content): Content {
    if |new'| < |old'| then new' + old'[|new'|..] else new'
  }

  predicate Opens(f: Files, step: FileStep) {
    step.Open? && step.writer !in f.open
  }

  /** The inode that a writer gets: the temp file's, truncated, or a fresh one. */
  function OpenedInode(f: Files): nat {
    if f.temp.Some? then f.temp.value else |f.inodes|
  }

  predicate WritesFile(f: Files, step: FileStep) {
    step.Write? && step.writer in f.open && !f.open[step.writer].written
  }

  predicate RenamesFile(f: Files, step: FileStep) {
    step.Rename? && step.writer in f.open && f.open[step.writer].written && f.temp.Some?
  }

  function NextFiles(f: Files, step: FileStep): (f': Files)
    requires InodesExist(f)
    ensures InodesExist(f')
  {
    match step
    case Open(writer, ds) =>
      if writer in f.open then f
      else if f.temp.Some? then
        f.(inodes := f.inodes[f.temp.value := []], open := f.open[writer := Handle(f.temp.value, ds, false)])
      else
        f.(inodes := f.inodes + [[]], temp := Some(|f.inodes|), open := f.open[writer := Handle(|f.inodes|, ds, false)])
    case Write(writer) =>
      if writer !in f.open || f.open[writer].written then f
      else
        var h := f.open[writer];
        f.(inodes := f.inodes[h.inode := Overlay(Encode(h.ds), f.inodes[h.inode])], open := f.open[writer := h.(written := true)])
    case Rename(writer) =>
      if writer !in f.open || !f.open[writer].written then f
      else if f.temp.None? then f.(open := f.open - {writer})
      else f.(canonical := f.temp, temp := None, open := f.open - {writer})
    case Abandon(writer) => f.(open := f.open - {writer})
    case RemoveTemp => f.(temp := None)
    case RemoveCanonical => f.(canonical := None)
  }

  function RunFiles(f: Files, steps: seq<FileStep>): (f': Files)
    requires InodesExist(f)
    ensures InodesExist(f')
  {
    if steps == [] then f else NextFiles(RunFiles(f, steps[..|steps| - 1]), steps[|steps| - 1])
  }

  const NO_FILES := Files([], None, None, map[])

  /** The files after a history of steps. */
  function After(steps: seq<FileStep>): (f: Files)
    ensures InodesExist(f)
  {
    RunFiles(NO_FILES, steps)
  }

  function CanonicalContent(f: Files): Option<Content>
    requires InodesExist(f)
  {
    if f.canonical.None? then None else Some(f.inodes[f.canonical.value])
  }

  lemma AfterNext(steps: seq<FileStep>, step: FileStep)
    ensures After(steps + [step]) == NextFiles(After(steps), step)
  {
    assert (steps + [step])[..|steps|] == steps;
  }

  // ----- what an inode holds -----

  /** The records written to an inode since it was last truncated, by whatever writers. */
  function WritesTo(steps: seq<FileStep>, inode: nat): seq<DesiredState> {
    if steps == [] then []
    else
      var before, step := steps[..|steps| - 1], steps[|steps| - 1];
      var f := After(before);
      if Opens(f, step) && OpenedInode(f) == inode then []
      else if WritesFile(f, step) && f.open[step.writer].inode == inode then WritesTo(before, inode) + [f.open[step.writer].ds]
      else WritesTo(before, inode)
  }

  /** The content that writes leave, each over the one before. */
  function Overlaid(ws: seq<DesiredState>): Content {
    if ws == [] then [] else Overlay(Encode(ws[|ws| - 1]), Overlaid(ws[..|ws| - 1]))
  }

  /** The last record written is at least as long as every other since the truncation. */
  predicate LastCovers(ws: seq<DesiredState>) {
    ws != [] && forall k | 0 <= k < |ws| :: |Encode(ws[k])| <= |Encode(ws[|ws| - 1])|
  }

  lemma OverlaidAppended(ws: seq<DesiredState>, ds: DesiredState)
    ensures Overlaid(ws + [ds]) == Overlay(Encode(ds), Overlaid(ws))
  {
    assert (ws + [ds])[..|ws|] == ws;
  }

  /** A step's effect on the content of one inode. */
  lemma StepOverlays(f: Files, step: FileStep, inode: nat)
    requires InodesExist(f) && inode < |NextFiles(f, step).inodes|
    ensures NextFiles(f, step).inodes[inode]
            == if Opens(f, step) && OpenedInode(f) == inode then []
               else if inode >= |f.inodes| then []
               else if WritesFile(f, step) && f.open[step.writer].inode == inode
                    then Overlay(Encode(f.open[step.writer].ds), f.inodes[inode])
               else f.inodes[inode]
    ensures inode >= |f.inodes| ==> Opens(f, step) && OpenedInode(f) == inode
  {
  }

  /** Every inode holds the overlay of its writes. */
  lemma {:induction false} InodesAreOverlaid(steps: seq<FileStep>, inode: nat)
    requires inode < |After(steps).inodes|
    ensures After(steps).inodes[inode] == Overlaid(WritesTo(steps, inode))
  {
    if steps != [] {
      var before, step := steps[..|steps| - 1], steps[|steps| - 1];
      var f := After(before);
      StepOverlays(f, step, inode);
      if inode < |f.inodes| {
        InodesAreOverlaid(before, inode);
        if WritesFile(f, step) {
          OverlaidAppended(WritesTo(before, inode), f.open[step.writer].ds);
        }
      }
    }
  }

  /** No write is longer than the overlay, and one is as long. */
  lemma {:induction false} OverlaidLength(ws: seq<DesiredState>)
    ensures forall k | 0 <= k < |ws| :: |Encode(ws[k])| <= |Overlaid(ws)|
    ensures ws != [] ==> exists k | 0 <= k < |ws| :: |Encode(ws[k])| == |Overlaid(ws)|
  {
    if ws != [] {
      var n := |ws| - 1;
      OverlaidLength(ws[..n]);
      LongerOfTwo(ws[..n], ws[n], Overlaid(ws[..n]));
      assert ws[..n] + [ws[n]] == ws;
    }
  }

  lemma LongerOfTwo(ws: seq<DesiredState>, last: DesiredState, under: Content)
    requires forall k | 0 <= k < |ws| :: |Encode(ws[k])| <= |under|
    requires if ws == [] then under == [] else exists k | 0 <= k < |ws| :: |Encode(ws[k])| == |under|
    ensures var all, over := ws + [last], Overlay(Encode(last), under);
            && (forall k | 0 <= k < |all| :: |Encode(all[k])| <= |over|)
            && (exists k | 0 <= k < |all| :: |Encode(all[k])| == |over|)
  {
    var all, over := ws + [last], Overlay(Encode(last), under);
    if |Encode(last)| < |under| {
      var k :| 0 <= k < |ws| && |Encode(ws[k])| == |under|;
      assert all[k] == ws[k] && |over| == |under|;
    } else {
      assert all[|ws|] == last && |over| == |Encode(last)|;
    }
  }

  /** The last write comes out whole, and it is all there is exactly if it covers the others. */
  lemma OverlaidTail(ws: seq<DesiredState>) returns (tail: Content)
    requires ws != []
    ensures Overlaid(ws) == Encode(ws[|ws| - 1]) + tail
    ensures tail == [] <==> LastCovers(ws)
  {
    var n := |ws| - 1;
    OverlaidLength(ws);
    tail := Overlaid(ws)[|Encode(ws[n])|..];
    if !LastCovers(ws) {
      var k :| 0 <= k < |ws| && |Encode(ws[k])| > |Encode(ws[n])|;
    } else {
      var k :| 0 <= k < |ws| && |Encode(ws[k])| == |Overlaid(ws)|;
    }
  }

  /** Trailing content makes a file malformed, and so does an empty one. */
  lemma TrailingIsMalformed(ds: DesiredState, tail: Content)
    ensures tail != [] ==> ReadCanonical(Disk(Some(Encode(ds) + tail), None)) == Malformed
    ensures ReadCanonical(Disk(Some([]), None)) == Malformed
  {
    ParsePrint(ToJson(ds), tail);
  }

  /** For every history of any number of writers, with removals and abandoned saves anywhere: an
      absent canonical file reads as the default; otherwise the file reads as the record last written
      to its inode if that write covers the others since the truncation, and is malformed if not. */
  lemma {:induction false} CanonicalReads(steps: seq<FileStep>)
    ensures var f := After(steps);
            ReadCanonical(Disk(CanonicalContent(f), None))
            == if f.canonical.None? then Loaded(DEFAULT_STATE)
               else
                 var ws := WritesTo(steps, f.canonical.value);
                 if LastCovers(ws) then Loaded(Canonical(ws[|ws| - 1])) else Malformed
  {
    var f := After(steps);
    if f.canonical.Some? {
      InodesAreOverlaid(steps, f.canonical.value);
      OverlaidReads(WritesTo(steps, f.canonical.value));
    }
  }

  lemma OverlaidReads(ws: seq<DesiredState>)
    ensures ReadCanonical(Disk(Some(Overlaid(ws)), None))
            == if LastCovers(ws) then Loaded(Canonical(ws[|ws| - 1])) else Malformed
  {
    if ws == [] {
      TrailingIsMalformed(DEFAULT_STATE, []);
    } else {
      var tail := OverlaidTail(ws);
      var last := ws[|ws| - 1];
      TrailingIsMalformed(last, tail);
      if tail == [] {
        assert Encode(last) + tail == Encode(last);
        EncodedReadsBack(Disk(Some(Encode(last)), None), last);
      }
    }
  }

  /** So several writers are unsafe exactly when the canonical inode's last write does not cover the
      others: it was truncated and not written since, or a shorter record was written over a longer. */
  lemma {:induction false} MalformedIff(steps: seq<FileStep>)
    ensures var f := After(steps);
            ReadCanonical(Disk(CanonicalContent(f), None)) == Malformed
            <==> f.canonical.Some? && !LastCovers(WritesTo(steps, f.canonical.value))
  {
    CanonicalReads(steps);
  }

  // ----- which saves are lost -----

  /** Since the writer opened it, the temp name has been taken away: by a rename or a removal. */
  predicate UnlinkedSince(steps: seq<FileStep>, writer: nat) {
    steps != [] &&
    var before, step := steps[..|steps| - 1], steps[|steps| - 1];
    var f := After(before);
    if Opens(f, step) && step.writer == writer then false
    else UnlinkedSince(before, writer) || RenamesFile(f, step) || (step.RemoveTemp? && f.temp.Some?)
  }

  /** The temp name still leads to a writer's file exactly if nothing has taken the name away. */
  lemma {:induction false} NameIsOwnIff(steps: seq<FileStep>, writer: nat)
    requires writer in After(steps).open
    ensures After(steps).temp == Some(After(steps).open[writer].inode) <==> !UnlinkedSince(steps, writer)
  {
    var before, step := steps[..|steps| - 1], steps[|steps| - 1];
    if writer in After(before).open {
      NameIsOwnIff(before, writer);
    }
    StepOnName(After(before), step, writer);
  }

  /** A step gives a writer the temp name, takes the name away, or leaves both alone. */
  lemma StepOnName(f: Files, step: FileStep, writer: nat)
    requires InodesExist(f)
    ensures var f' := NextFiles(f, step);
            writer in f'.open ==>
              if Opens(f, step) && step.writer == writer then f'.temp == Some(f'.open[writer].inode)
              else
                && writer in f.open && f'.open[writer].inode == f.open[writer].inode
                && (f'.temp == Some(f.open[writer].inode) <==>
                      f.temp == Some(f.open[writer].inode) && !RenamesFile(f, step) && !(step.RemoveTemp? && f.temp.Some?))
  {
  }

  /** A rename publishes its own writer's file exactly if nothing has taken the name away since the
      writer opened it.  Otherwise that save is lost: the rename fails if there is no temp file, and
      publishes another writer's if there is. */
  lemma {:induction false} RenamePublishesOwnIff(steps: seq<FileStep>, writer: nat)
    ensures var f := After(steps);
            writer in f.open && f.open[writer].written ==>
              var f' := After(steps + [Rename(writer)]);
              && f'.canonical == (if f.temp.Some? then f.temp else f.canonical)
              && (f.temp == Some(f.open[writer].inode) <==> !UnlinkedSince(steps, writer))
  {
    AfterNext(steps, Rename(writer));
    if writer in After(steps).open {
      NameIsOwnIff(steps, writer);
    }
  }

  // ----- writers that keep apart -----

  /** A writer opens the temp file, and anyone removes it, only while no other has it open. */
  predicate Alone(f: Files, step: FileStep) {
    step.Open? || step.RemoveTemp? ==> f.open == map[]
  }

  ghost predicate AloneThroughout(steps: seq<FileStep>) {
    forall i | 0 <= i < |steps| :: Alone(After(steps[..i]), steps[i])
  }

  /** The record of the last rename, unless the canonical file was removed since. */
  function LastRenamed(steps: seq<FileStep>): Option<DesiredState> {
    if steps == [] then None
    else CommittedAfter(After(steps[..|steps| - 1]), LastRenamed(steps[..|steps| - 1]), steps[|steps| - 1])
  }

  function CommittedAfter(f: Files, committed: Option<DesiredState>, step: FileStep): Option<DesiredState> {
    if RenamesFile(f, step) then Some(f.open[step.writer].ds)
    else if step.RemoveCanonical? then None
    else committed
  }

  ghost predicate FilesInv(f: Files, committed: Option<DesiredState>) {
    && InodesExist(f)
    && (forall v, w | v in f.open && w in f.open :: v == w)
    && (f.temp.Some? ==> f.canonical != f.temp)
    && (forall w | w in f.open ::
          f.temp == Some(f.open[w].inode) && f.inodes[f.open[w].inode] == if f.open[w].written then Encode(f.open[w].ds) else [])
    && CanonicalContent(f) == match committed case None => None case Some(ds) => Some(Encode(ds))
  }

  lemma StepKeepsFiles(f: Files, committed: Option<DesiredState>, step: FileStep)
    requires FilesInv(f, committed) && Alone(f, step)
    ensures FilesInv(NextFiles(f, step), CommittedAfter(f, committed, step))
  {
  }

  lemma {:induction false} AloneKeepsFiles(steps: seq<FileStep>)
    requires AloneThroughout(steps)
    ensures FilesInv(After(steps), LastRenamed(steps))
  {
    if steps != [] {
      var before, step := steps[..|steps| - 1], steps[|steps| - 1];
      forall i | 0 <= i < |before| ensures Alone(After(before[..i]), before[i]) {
        assert before[..i] == steps[..i];
      }
      AloneKeepsFiles(before);
      assert Alone(After(steps[..|before|]), steps[|before|]);
      StepKeepsFiles(After(before), LastRenamed(before), step);
    }
  }

  /** With writers that open the temp file one at a time, abandoning it at will, the canonical file
      is always absent or the whole encoding of the last record renamed, and so never malformed. */
  lemma {:induction false} AloneIsCommitted(steps: seq<FileStep>)
    requires AloneThroughout(steps)
    ensures var canonical := CanonicalContent(After(steps));
            && canonical == (match LastRenamed(steps) case None => None case Some(ds) => Some(Encode(ds)))
            && ReadCanonical(Disk(canonical, None))
               == Loaded(match LastRenamed(steps) case None => DEFAULT_STATE case Some(ds) => Canonical(ds))
  {
    AloneKeepsFiles(steps);
    if LastRenamed(steps).Some? {
      EncodedReadsBack(Disk(CanonicalContent(After(steps)), None), LastRenamed(steps).value);
    }
  }

  // ----- two runs that go wrong -----

  lemma AfterFour(a: FileStep, b: FileStep, c: FileStep, d: FileStep)
    ensures After([a, b, c, d]) == NextFiles(NextFiles(NextFiles(NextFiles(NO_FILES, a), b), c), d)
  {
    AfterNext([], a);
    AfterNext([a], b);
    AfterNext([a, b], c);
    AfterNext([a, b, c], d);
    assert [] + [a] == [a] && [a] + [b] == [a, b] && [a, b] + [c] == [a, b, c] && [a, b, c] + [d] == [a, b, c, d];
  }

  /** The second writer opens, and so truncates, the temp file that the first has written, and the
      first renames it.  The canonical file is then malformed. */
  lemma OverlappingRenameIsTorn(a: DesiredState, b: DesiredState)
    ensures var f := After([Open(0, a), Write(0), Open(1, b), Rename(0)]);
            f.canonical.Some? && ReadCanonical(Disk(CanonicalContent(f), None)) == Malformed
  {
    AfterFour(Open(0, a), Write(0), Open(1, b), Rename(0));
    var f1 := NextFiles(NO_FILES, Open(0, a));
    var f3 := NextFiles(NextFiles(f1, Write(0)), Open(1, b));
    assert f3.inodes == [[]] && f3.temp == Some(0);
  }

  /** On a fresh install a second writer's load finds no canonical file and removes the temp file that
      the first has written.  The first save is lost, and its rename fails. */
  lemma LoadLosesSave(a: DesiredState)
    ensures var f := After([Open(0, a), Write(0), RemoveTemp, Rename(0)]);
            f.canonical.None? && f.temp.None? && ReadCanonical(Disk(CanonicalContent(f), None)) == Loaded(DEFAULT_STATE)
  {
    AfterFour(Open(0, a), Write(0), RemoveTemp, Rename(0));
  }
}
