/**
  What holds of reaping in every run, with no assumption about pids: whom a
  signal can hit, and whose file a removal can take.
*/
module ReapingRuns {
  import opened Basics
  import opened ChildLedger

  lemma {:induction false} PlayAt(w: World, es: seq<Event>, j: nat)
    requires Playable(w, es) && j < |es|
    ensures Playable(w, es[..j]) && Playable(w, es[..j + 1]) && Enabled(Play(w, es[..j]), es[j])
    ensures Play(w, es[..j + 1]) == Apply(Play(w, es[..j]), es[j])
  {
    if j + 1 == |es| {
      assert es[..j + 1] == es;
    } else {
      var n := |es| - 1;
      PlayAt(w, es[..n], j);
      assert es[..n][..j] == es[..j] && es[..n][..j + 1] == es[..j + 1];
    }
  }

  /******* Whom a signal can hit *******/

  /** The reaper is in the middle of the proof for child `next` of this file. */
  predicate Proving(w: World, r: ProcessId, file: LedgerFile, next: nat)
  {
    && r in w.reapers && HasTarget(w.reapers[r]) && w.reapers[r].file == file && w.reapers[r].next == next
    && !w.reapers[r].stage.Turn?
  }

  /** Process `q` is a live member of the group. */
  predicate Member(w: World, q: ProcessId, pgid: nat)
  {
    InGroup(w.k.procs, q, pgid)
  }

  ghost predicate MemberAt(w: World, es: seq<Event>, q: ProcessId, pgid: nat)
  {
    Playable(w, es) && Member(Play(w, es), q, pgid)
  }

  /** `q` has been in the group since before event `a`. */
  ghost predicate MemberSince(w: World, es: seq<Event>, a: nat, q: ProcessId, pgid: nat)
  {
    forall n :: a <= n <= |es| ==> MemberAt(w, es[..n], q, pgid)
  }

  /** Event `a` is the first read of the proof the reaper is in. */
  ghost predicate ProofBegan(w: World, es: seq<Event>, r: ProcessId, file: LedgerFile, next: nat, a: nat)
  {
    && a < |es| && es[a] == ReadStart(r)
    && Playable(w, es[..a]) && r in Play(w, es[..a]).reapers && HasTarget(Play(w, es[..a]).reapers[r])
    && Play(w, es[..a]).reapers[r].file == file && Play(w, es[..a]).reapers[r].next == next
    && forall n :: a < n <= |es| ==> ProvingAt(w, es[..n], r, file, next)
  }

  ghost predicate ProvingAt(w: World, es: seq<Event>, r: ProcessId, file: LedgerFile, next: nat)
  {
    Playable(w, es) && Proving(Play(w, es), r, file, next)
  }

  /** A proof goes on, or begins with the read of the start time. */
  lemma ProvingStep(w: World, e: Event, r: ProcessId, file: LedgerFile, next: nat)
    requires Enabled(w, e) && Proving(Apply(w, e), r, file, next)
    ensures r in w.reapers && HasTarget(w.reapers[r]) && w.reapers[r].file == file && w.reapers[r].next == next
    ensures Proving(w, r, file, next) || e == ReadStart(r)
  {
    if ReapEvent(e) && e.r == r {
      ReapTouches(w, e);
      if ReadEvent(e) {
        ReadStays(w.k.procs, w.reapers[r], e);
      }
    } else if ReapEvent(e) {
      ReapTouches(w, e);
    }
  }

  lemma BeganLasts(w: World, es: seq<Event>, r: ProcessId, file: LedgerFile, next: nat, a: nat)
    requires es != [] && ProvingAt(w, es, r, file, next) && ProofBegan(w, es[..|es| - 1], r, file, next, a)
    ensures ProofBegan(w, es, r, file, next, a)
  {
    var m := |es| - 1;
    assert es[..m][..a] == es[..a] && es[..m][a] == es[a];
    forall n | a < n <= |es| ensures ProvingAt(w, es[..n], r, file, next) {
      if n == |es| {
        assert es[..n] == es;
      } else {
        assert es[..m][..n] == es[..n];
      }
    }
  }

  lemma {:induction false} ProofHasBegun(w: World, es: seq<Event>, r: ProcessId, file: LedgerFile, next: nat) returns (a: nat)
    requires Initial(w) && ProvingAt(w, es, r, file, next)
    ensures ProofBegan(w, es, r, file, next, a)
  {
    var m := |es| - 1;
    assert es != [];
    ProvingStep(Play(w, es[..m]), es[m], r, file, next);
    if Proving(Play(w, es[..m]), r, file, next) {
      a := ProofHasBegun(w, es[..m], r, file, next);
      BeganLasts(w, es, r, file, next, a);
    } else {
      a := m;
      assert forall n :: a < n <= |es| ==> es[..n] == es;
    }
  }

  /** What a stage says about a stranger that has been in the group since the proof began. */
  predicate Sees(stage: Stage, q: ProcessId)
  {
    match stage
    case Turn => true
    case SawStart => false
    case NoLeader => true
    case Scanning(todo, _) => q.pid in todo
    case Checking(todo, _, pid) => q.pid in todo + {pid}
    case Proven => false
  }

  /** The first read: a living leader has no strangers in its group. */
  lemma FirstReadSees(w: World, r: ProcessId, q: ProcessId)
    requires Inv(w) && Enabled(w, ReadStart(r)) && Member(w, q, Target(w.reapers[r]).process.pid)
    requires Target(w.reapers[r]).process in w.k.spawnedBy && Target(w.reapers[r]).process !in w.k.procs[q].ancestors
    ensures Sees(Read(w.k.procs, w.reapers[r], ReadStart(r)).stage, q)
  {
  }

  /** Any later read cannot overlook a stranger that is there. */
  lemma ReadSees(k: Kernel, x: Reaper, e: Event, q: ProcessId)
    requires KernelOk(k) && HasTarget(x) && ReadEvent(e) && !x.stage.Turn? && Sees(x.stage, q)
    requires e.ScanEnd? && x.stage.Scanning? ==> x.stage.todo == {}
    requires Target(x).process in k.spawnedBy && Truthful(k, k.spawnedBy[Target(x).process], Target(x))
    requires InGroup(k.procs, q, Target(x).process.pid) && Target(x).process !in k.procs[q].ancestors
    ensures Sees(Read(k.procs, x, e).stage, q)
  {
    var t, c := k.procs, Target(x).process;
    match x.stage
    case NoLeader => assert q.pid in LivePids(t);
    case Scanning(todo, _) =>
      if e.ScanStat? && q.pid == e.pid {
        assert StatInGroup(t, e.pid, c.pid);
      }
    case Checking(todo, _, pid) =>
      assert forall p <- t :: IsAlive(t, p) && p.pid == q.pid ==> p == q;
    case _ =>
  }

  lemma AncestorsStep(w: World, e: Event, q: ProcessId)
    requires Inv(w) && Enabled(w, e) && q in w.k.procs
    ensures q in Apply(w, e).k.procs && Apply(w, e).k.procs[q].ancestors == w.k.procs[q].ancestors
  {
    StepGrows(w, e);
  }

  /** Descent does not change. */
  lemma {:induction false} AncestorsSame(w: World, es: seq<Event>, n: nat, q: ProcessId)
    requires Initial(w) && Playable(w, es) && n <= |es| && Playable(w, es[..n]) && q in Play(w, es[..n]).k.procs
    ensures q in Play(w, es).k.procs && Play(w, es).k.procs[q].ancestors == Play(w, es[..n]).k.procs[q].ancestors
  {
    if n == |es| {
      assert es[..n] == es;
    } else {
      var m := |es| - 1;
      assert es[..m][..n] == es[..n];
      AncestorsSame(w, es[..m], n, q);
      RunKeepsInv(w, es[..m]);
      AncestorsStep(Play(w, es[..m]), es[m], q);
    }
  }

  lemma OtherStage(w: World, e: Event, r: ProcessId)
    requires Enabled(w, e) && r in w.reapers && !(ReapEvent(e) && e.r == r)
    ensures r in Apply(w, e).reapers && Apply(w, e).reapers[r] == w.reapers[r]
  {
  }

  lemma OwnReadSees(w: World, e: Event, r: ProcessId, q: ProcessId)
    requires Inv(w) && Enabled(w, e) && ReadEvent(e) && e.r == r && !w.reapers[r].stage.Turn?
    requires Member(w, q, Target(w.reapers[r]).process.pid) && Target(w.reapers[r]).process !in w.k.procs[q].ancestors
    requires Sees(w.reapers[r].stage, q)
    ensures Sees(Read(w.k.procs, w.reapers[r], e).stage, q)
  {
    var x := w.reapers[r];
    assert ReaperOk(w, x) && EntryOk(w, x.file.owner, Target(x));
    ReadSees(w.k, x, e, q);
  }

  lemma OwnStepIsRead(w: World, e: Event, r: ProcessId, file: LedgerFile, next: nat)
    requires Enabled(w, e) && ReapEvent(e) && e.r == r && Proving(w, r, file, next) && Proving(Apply(w, e), r, file, next)
    ensures ReadEvent(e) && Apply(w, e).reapers[r] == Read(w.k.procs, w.reapers[r], e)
  {
    ReapTouches(w, e);
  }

  /** One step of a proof that is under way, with a stranger in the group before and after. */
  lemma ProofStepSees(w: World, e: Event, r: ProcessId, file: LedgerFile, next: nat, q: ProcessId)
    requires Inv(w) && Enabled(w, e) && Proving(w, r, file, next) && Proving(Apply(w, e), r, file, next)
    requires Member(w, q, Target(w.reapers[r]).process.pid) && Target(w.reapers[r]).process !in w.k.procs[q].ancestors
    requires Sees(w.reapers[r].stage, q)
    ensures Sees(Apply(w, e).reapers[r].stage, q)
  {
    if ReapEvent(e) && e.r == r {
      OwnStepIsRead(w, e, r, file, next);
      OwnReadSees(w, e, r, q);
    } else {
      OtherStage(w, e, r);
    }
  }

  lemma SinceShrinks(w: World, es: seq<Event>, a: nat, q: ProcessId, pgid: nat)
    requires es != [] && a < |es| && MemberSince(w, es, a, q, pgid)
    ensures MemberSince(w, es[..|es| - 1], a, q, pgid) && MemberAt(w, es[..|es| - 1], q, pgid) && MemberAt(w, es[..a], q, pgid)
  {
    var m := |es| - 1;
    forall n | a <= n <= m ensures MemberAt(w, es[..m][..n], q, pgid) {
      assert es[..m][..n] == es[..n];
    }
    assert es[..m][..m] == es[..m];
  }

  lemma BeganShrinks(w: World, es: seq<Event>, r: ProcessId, file: LedgerFile, next: nat, a: nat)
    requires es != [] && a < |es| - 1 && ProofBegan(w, es, r, file, next, a)
    ensures ProofBegan(w, es[..|es| - 1], r, file, next, a)
  {
    var m := |es| - 1;
    assert es[..m][..a] == es[..a] && es[..m][a] == es[a];
    forall n | a < n <= m ensures ProvingAt(w, es[..m][..n], r, file, next) {
      assert es[..m][..n] == es[..n];
    }
  }

  /** The reaper's stage at the end of a run. */
  ghost predicate SeesAt(w: World, es: seq<Event>, r: ProcessId, q: ProcessId)
  {
    Playable(w, es) && r in Play(w, es).reapers && Play(w, es).reapers[r].At? && Sees(Play(w, es).reapers[r].stage, q)
  }

  /** `q` is a live member of the group of child `next`, and no descendant of it. */
  predicate Stranger(w: World, file: LedgerFile, next: nat, q: ProcessId)
    requires next < |file.children|
  {
    Member(w, q, file.children[next].process.pid) && file.children[next].process !in w.k.procs[q].ancestors
  }

  lemma LastStepSees(v: World, e: Event, r: ProcessId, file: LedgerFile, next: nat, q: ProcessId)
    requires Inv(v) && Enabled(v, e) && next < |file.children| && Stranger(v, file, next, q)
    requires r in v.reapers && HasTarget(v.reapers[r]) && v.reapers[r].file == file && v.reapers[r].next == next
    requires Proving(Apply(v, e), r, file, next)
    requires e == ReadStart(r) || (Proving(v, r, file, next) && Sees(v.reapers[r].stage, q))
    ensures Sees(Apply(v, e).reapers[r].stage, q)
  {
    if e == ReadStart(r) {
      FirstStepSees(v, r, file, next, q);
    } else {
      ProofStepSees(v, e, r, file, next, q);
    }
  }

  lemma StrangerBefore(w: World, es: seq<Event>, file: LedgerFile, next: nat, a: nat, q: ProcessId)
    requires Initial(w) && Playable(w, es) && a < |es| && next < |file.children| && Stranger(Play(w, es), file, next, q)
    requires MemberSince(w, es, a, q, file.children[next].process.pid)
    ensures Playable(w, es[..|es| - 1]) && Stranger(Play(w, es[..|es| - 1]), file, next, q)
    ensures MemberSince(w, es[..|es| - 1], a, q, file.children[next].process.pid)
  {
    SinceShrinks(w, es, a, q, file.children[next].process.pid);
    AncestorsSame(w, es, |es| - 1, q);
  }

  lemma ProvingAtEnds(w: World, es: seq<Event>, r: ProcessId, file: LedgerFile, next: nat, a: nat)
    requires ProofBegan(w, es, r, file, next, a)
    ensures ProvingAt(w, es, r, file, next)
  {
    assert es[..|es|] == es;
  }

  /** What `ProofBegan` says of the state before the last event. */
  lemma BeforeLast(w: World, es: seq<Event>, r: ProcessId, file: LedgerFile, next: nat, a: nat)
    requires Playable(w, es) && ProofBegan(w, es, r, file, next, a)
    ensures var v := Play(w, es[..|es| - 1]);
            && r in v.reapers && HasTarget(v.reapers[r]) && v.reapers[r].file == file && v.reapers[r].next == next
            && (a < |es| - 1 ==> Proving(v, r, file, next)) && (a == |es| - 1 ==> es[|es| - 1] == ReadStart(r))
  {
    if a < |es| - 1 {
      BeganShrinks(w, es, r, file, next, a);
      ProvingAtEnds(w, es[..|es| - 1], r, file, next, a);
    }
  }

  /** Over a whole proof. */
  lemma {:induction false} ProofSees(w: World, es: seq<Event>, r: ProcessId, file: LedgerFile, next: nat, a: nat, q: ProcessId)
    requires Initial(w) && Playable(w, es) && ProofBegan(w, es, r, file, next, a) && next < |file.children|
    requires MemberSince(w, es, a, q, file.children[next].process.pid) && Stranger(Play(w, es), file, next, q)
    ensures SeesAt(w, es, r, q)
  {
    var before := es[..|es| - 1];
    ProvingAtEnds(w, es, r, file, next, a);
    StrangerBefore(w, es, file, next, a, q);
    BeforeLast(w, es, r, file, next, a);
    RunKeepsInv(w, before);
    if a < |before| {
      BeganShrinks(w, es, r, file, next, a);
      ProofSees(w, before, r, file, next, a, q);
    }
    LastStepSees(Play(w, before), es[|es| - 1], r, file, next, q);
  }

  lemma FirstStepSees(w: World, r: ProcessId, file: LedgerFile, next: nat, q: ProcessId)
    requires Inv(w) && Enabled(w, ReadStart(r)) && w.reapers[r].file == file && w.reapers[r].next == next
    requires Member(w, q, Target(w.reapers[r]).process.pid) && Target(w.reapers[r]).process !in w.k.procs[q].ancestors
    ensures Sees(Apply(w, ReadStart(r)).reapers[r].stage, q)
  {
    var x := w.reapers[r];
    assert ReaperOk(w, x) && EntryOk(w, file.owner, Target(x));
    FirstReadSees(w, r, q);
  }

  /** `q` was not in the group at some point from event `a` on. */
  ghost predicate CameIn(w: World, es: seq<Event>, a: nat, q: ProcessId, pgid: nat)
  {
    exists n :: a <= n < |es| && Playable(w, es[..n]) && !Member(Play(w, es[..n]), q, pgid)
  }

  lemma NotSince(w: World, es: seq<Event>, a: nat, q: ProcessId, pgid: nat)
    requires Playable(w, es) && Member(Play(w, es), q, pgid) && !MemberSince(w, es, a, q, pgid)
    ensures CameIn(w, es, a, q, pgid)
  {
    var n :| a <= n <= |es| && !MemberAt(w, es[..n], q, pgid);
    assert es[..|es|] == es;
    PlayAt(w, es, n);
  }

  lemma FamilyIsOrphaned(w: World, r: ProcessId)
    requires Inv(w) && Enabled(w, ReapKill(r, true))
    ensures var x := w.reapers[r];
            forall q :: Member(w, q, Target(x).process.pid) && !Stranger(w, x.file, x.next, q) ==> Orphaned(w, q)
  {
    var x := w.reapers[r];
    assert ReaperOk(w, x) && EntryOk(w, x.file.owner, Target(x));
    assert Target(x).process in w.recorded;
  }

  /**
    For every run, whatever pids are given out: a signal hits only the recorded
    server's own family, and processes that came into the group after the first
    read of the very proof that led to it.
  */
  lemma SignalHitsNewcomers(w: World, es: seq<Event>, r: ProcessId) returns (a: nat)
    requires Initial(w) && Playable(w, es) && Enabled(Play(w, es), ReapKill(r, true))
    ensures ProofBegan(w, es, r, Play(w, es).reapers[r].file, Play(w, es).reapers[r].next, a)
    ensures var x := Play(w, es).reapers[r];
            forall q :: Stranger(Play(w, es), x.file, x.next, q) ==> CameIn(w, es, a, q, Target(x).process.pid)
    ensures var x := Play(w, es).reapers[r];
            forall q :: Member(Play(w, es), q, Target(x).process.pid) && !Stranger(Play(w, es), x.file, x.next, q) ==> Orphaned(Play(w, es), q)
  {
    var x := Play(w, es).reapers[r];
    RunKeepsInv(w, es);
    FamilyIsOrphaned(Play(w, es), r);
    a := ProofHasBegun(w, es, r, x.file, x.next);
    forall q | Stranger(Play(w, es), x.file, x.next, q) ensures CameIn(w, es, a, q, Target(x).process.pid) {
      if MemberSince(w, es, a, q, Target(x).process.pid) {
        ProofSees(w, es, r, x.file, x.next, a, q);
      } else {
        NotSince(w, es, a, q, Target(x).process.pid);
      }
    }
  }

  /******* Whose file a removal can take *******/

  predicate Handles(w: World, r: ProcessId, path: nat, file: LedgerFile)
  {
    r in w.reapers && !w.reapers[r].Idle? && w.reapers[r].path == path && w.reapers[r].file == file
  }

  ghost predicate HandlesAt(w: World, es: seq<Event>, r: ProcessId, path: nat, file: LedgerFile)
  {
    Playable(w, es) && Handles(Play(w, es), r, path, file)
  }

  predicate HasFile(w: World, path: nat, file: LedgerFile)
  {
    path in w.files && w.files[path] == file
  }

  /** Event `o` is the reaper's read of the file it handles. */
  ghost predicate OpenedAt(w: World, es: seq<Event>, r: ProcessId, path: nat, file: LedgerFile, o: nat)
  {
    && o < |es| && es[o] == ReapOpen(r, path) && Playable(w, es[..o]) && HasFile(Play(w, es[..o]), path, file)
    && forall n :: o < n <= |es| ==> HandlesAt(w, es[..n], r, path, file)
  }

  lemma HandlesStep(w: World, e: Event, r: ProcessId, path: nat, file: LedgerFile)
    requires Enabled(w, e) && Handles(Apply(w, e), r, path, file)
    ensures Handles(w, r, path, file) || (e == ReapOpen(r, path) && HasFile(w, path, file))
  {
    if ReapEvent(e) {
      ReapTouches(w, e);
      if ReadEvent(e) {
        ReadStays(w.k.procs, w.reapers[e.r], e);
      }
    }
  }

  lemma {:induction false} HandledWasOpened(w: World, es: seq<Event>, r: ProcessId, path: nat, file: LedgerFile) returns (o: nat)
    requires Initial(w) && HandlesAt(w, es, r, path, file)
    ensures OpenedAt(w, es, r, path, file, o)
  {
    var m := |es| - 1;
    assert es != [];
    HandlesStep(Play(w, es[..m]), es[m], r, path, file);
    if Handles(Play(w, es[..m]), r, path, file) {
      o := HandledWasOpened(w, es[..m], r, path, file);
      OpenedLasts(w, es, r, path, file, o);
    } else {
      o := m;
      assert forall n :: o < n <= |es| ==> es[..n] == es;
    }
  }

  lemma OpenedLasts(w: World, es: seq<Event>, r: ProcessId, path: nat, file: LedgerFile, o: nat)
    requires es != [] && HandlesAt(w, es, r, path, file) && OpenedAt(w, es[..|es| - 1], r, path, file, o)
    ensures OpenedAt(w, es, r, path, file, o)
  {
    var m := |es| - 1;
    assert es[..m][..o] == es[..o] && es[..m][o] == es[o];
    forall n | o < n <= |es| ensures HandlesAt(w, es[..n], r, path, file) {
      if n == |es| {
        assert es[..n] == es;
      } else {
        assert es[..m][..n] == es[..n];
      }
    }
  }

  /** The event saves a ledger that is not empty at this path. */
  predicate Writes(w: World, e: Event, path: nat)
    requires Enabled(w, e)
  {
    && (e.Record? || e.Forget?) && e.g.pid == path
    && (e.Forget? ==> |Rewritten(w, e)| != |w.ledgers[e.g]| && Rewritten(w, e) != [])
  }

  lemma FileStep(w: World, e: Event, path: nat)
    requires Enabled(w, e) && path in Apply(w, e).files
    ensures HasFile(w, path, Apply(w, e).files[path]) || (Writes(w, e, path) && Apply(w, e).files[path].owner == e.g)
    ensures Writes(w, e, path) ==> Apply(w, e).files[path].owner == e.g
  {
    if ReapEvent(e) {
      ReapTouches(w, e);
    }
  }

  ghost predicate FileAt(w: World, es: seq<Event>, path: nat, file: LedgerFile)
  {
    Playable(w, es) && HasFile(Play(w, es), path, file)
  }

  ghost predicate FileSince(w: World, es: seq<Event>, path: nat, file: LedgerFile, j: nat)
  {
    forall n :: j <= n <= |es| ==> FileAt(w, es[..n], path, file)
  }

  ghost predicate WritesAt(w: World, es: seq<Event>, path: nat, i: nat)
  {
    i < |es| && Playable(w, es[..i]) && Enabled(Play(w, es[..i]), es[i]) && Writes(Play(w, es[..i]), es[i], path)
  }

  lemma FileLasts(w: World, es: seq<Event>, path: nat, file: LedgerFile, j: nat)
    requires es != [] && j <= |es| && FileAt(w, es, path, file) && (j < |es| ==> FileSince(w, es[..|es| - 1], path, file, j))
    ensures FileSince(w, es, path, file, j)
  {
    forall n | j <= n <= |es| ensures FileAt(w, es[..n], path, file) {
      if n == |es| {
        assert es[..n] == es;
      } else {
        assert es[..|es| - 1][..n] == es[..n];
      }
    }
  }

  /** A file that is there now was there at `j`, or its owner saved it since and it has stood unchanged. */
  lemma {:induction false} FileOrigin(w: World, es: seq<Event>, path: nat, file: LedgerFile, j: nat)
    requires FileAt(w, es, path, file) && j <= |es|
    ensures FileSince(w, es, path, file, j)
            || exists i :: j <= i && WritesAt(w, es, path, i) && es[i].g == file.owner && FileSince(w, es, path, file, i + 1)
  {
    if j == |es| {
      if es == [] {
        assert forall n :: 0 <= n <= 0 ==> es[..n] == es;
      } else {
        FileLasts(w, es, path, file, j);
      }
    } else {
      var m := |es| - 1;
      FileStep(Play(w, es[..m]), es[m], path);
      if Writes(Play(w, es[..m]), es[m], path) {
        FileLasts(w, es, path, file, m + 1);
        assert WritesAt(w, es, path, m);
      } else {
        FileOrigin(w, es[..m], path, file, j);
        if FileSince(w, es[..m], path, file, j) {
          FileLasts(w, es, path, file, j);
        } else {
          var i: nat :| j <= i && WritesAt(w, es[..m], path, i) && es[..m][i].g == file.owner && FileSince(w, es[..m], path, file, i + 1);
          assert es[..m][..i] == es[..i] && es[..m][i] == es[i];
          FileLasts(w, es, path, file, i + 1);
          assert WritesAt(w, es, path, i);
        }
      }
    }
  }

  ghost predicate KeptAt(w: World, es: seq<Event>, path: nat)
  {
    Playable(w, es) && path in Play(w, es).files
  }

  /** Event `i` is a save by another gateway with the owner's pid, and there has been a file at that path ever since. */
  ghost predicate NamesakeSaved(w: World, es: seq<Event>, path: nat, owner: ProcessId, i: nat)
  {
    WritesAt(w, es, path, i) && es[i].g != owner && forall n :: i < n <= |es| ==> KeptAt(w, es[..n], path)
  }

  /** The path holds someone else's file, and the old owner is dead. */
  predicate HoldsOther(w: World, path: nat, owner: ProcessId)
  {
    path in w.files && w.files[path].owner != owner && !IsAlive(w.k.procs, owner)
  }

  lemma WriteTakesOver(w: World, e: Event, path: nat, owner: ProcessId)
    requires Inv(w) && Enabled(w, e) && Writes(w, e, path) && e.g != owner && owner.pid == path && path in Apply(w, e).files
    ensures HoldsOther(Apply(w, e), path, owner)
  {
    FileStep(w, e, path);
    assert IsAlive(w.k.procs, e.g);
    StepGrows(w, e);
    assert !IsAlive(w.k.procs, owner);
    TableStays(w, e);
  }

  lemma OtherStays(w: World, e: Event, path: nat, owner: ProcessId)
    requires Inv(w) && Enabled(w, e) && HoldsOther(w, path, owner) && owner in w.k.procs && path in Apply(w, e).files
    ensures HoldsOther(Apply(w, e), path, owner)
  {
    FileStep(w, e, path);
    StepGrows(w, e);
  }

  lemma SavedIsThere(w: World, es: seq<Event>, path: nat, owner: ProcessId, i: nat)
    requires NamesakeSaved(w, es, path, owner, i)
    ensures KeptAt(w, es, path) && es != []
  {
    assert es[..|es|] == es;
  }

  lemma {:induction false} SavedIsOther(w: World, es: seq<Event>, path: nat, owner: ProcessId, i: nat)
    requires Initial(w) && Playable(w, es) && NamesakeSaved(w, es, path, owner, i) && owner.pid == path
    requires Playable(w, es[..i]) && owner in Play(w, es[..i]).k.procs
    ensures HoldsOther(Play(w, es), path, owner)
  {
    var m := |es| - 1;
    SavedIsThere(w, es, path, owner, i);
    RunKeepsInv(w, es[..m]);
    if i == m {
      WriteTakesOver(Play(w, es[..m]), es[m], path, owner);
    } else {
      SavedShrinks(w, es, path, owner, i);
      assert es[..m][..i] == es[..i];
      SavedIsOther(w, es[..m], path, owner, i);
      AncestorsSame(w, es[..m], i, owner);
      OtherStays(Play(w, es[..m]), es[m], path, owner);
    }
  }

  lemma SavedShrinks(w: World, es: seq<Event>, path: nat, owner: ProcessId, i: nat)
    requires es != [] && i < |es| - 1 && NamesakeSaved(w, es, path, owner, i)
    ensures NamesakeSaved(w, es[..|es| - 1], path, owner, i)
  {
    var m := |es| - 1;
    assert es[..m][..i] == es[..i] && es[..m][i] == es[i];
    forall n | i < n <= m ensures KeptAt(w, es[..m][..n], path) {
      assert es[..m][..n] == es[..n];
    }
  }

  lemma OwnerKnown(w: World, es: seq<Event>, o: nat, i: nat, path: nat, file: LedgerFile)
    requires Initial(w) && Playable(w, es) && o <= i <= |es| && FileAt(w, es[..o], path, file)
    ensures Playable(w, es[..i]) && file.owner in Play(w, es[..i]).k.procs && file.owner.pid == path
  {
    RunKeepsInv(w, es[..o]);
    assert FileOk(Play(w, es[..o]), path, file);
    if i < |es| {
      PlayAt(w, es, i);
    } else {
      assert es[..i] == es;
    }
    assert es[..i][..o] == es[..o];
    AncestorsSame(w, es[..i], o, file.owner);
  }

  /**
    Exactly when a reaper's removal takes a file that is not the dead owner's
    it checked, for every run: another gateway with that pid saved its ledger
    after the reaper opened the file, and there has been a file since.
  */
  lemma RemovesAnotherIff(w: World, es: seq<Event>, r: ProcessId) returns (o: nat)
    requires Initial(w) && Playable(w, es) && Enabled(Play(w, es), ReapRemove(r))
    ensures var x := Play(w, es).reapers[r];
            && OpenedAt(w, es, r, x.path, x.file, o)
            && (HoldsOther(Play(w, es), x.path, x.file.owner) <==> exists i :: o < i && NamesakeSaved(w, es, x.path, x.file.owner, i))
  {
    var x := Play(w, es).reapers[r];
    o := HandledWasOpened(w, es, r, x.path, x.file);
    if HoldsOther(Play(w, es), x.path, x.file.owner) {
      OtherWasSaved(w, es, x.path, x.file, o, r);
    }
    if i: nat :| o < i && NamesakeSaved(w, es, x.path, x.file.owner, i) {
      OwnerKnown(w, es, o, i, x.path, x.file);
      SavedIsOther(w, es, x.path, x.file.owner, i);
    }
  }

  lemma OtherWasSaved(w: World, es: seq<Event>, path: nat, file: LedgerFile, o: nat, r: ProcessId)
    requires Initial(w) && Playable(w, es) && OpenedAt(w, es, r, path, file, o) && HoldsOther(Play(w, es), path, file.owner)
    ensures exists i :: o < i && NamesakeSaved(w, es, path, file.owner, i)
  {
    var now := Play(w, es).files[path];
    FileOrigin(w, es, path, now, o);
    assert !FileSince(w, es, path, now, o);
    var i: nat :| o <= i && WritesAt(w, es, path, i) && es[i].g == now.owner && FileSince(w, es, path, now, i + 1);
    forall n | i < n <= |es| ensures KeptAt(w, es[..n], path) {
      assert FileAt(w, es[..n], path, now);
    }
    assert NamesakeSaved(w, es, path, file.owner, i) && i != o;
  }
}
