/**
  One uninterrupted `reap_orphans` pass, with its loops: over the directory in
  whatever order it is listed, over each dead owner's children, and over the
  process table to test a leaderless group.
*/
module OrphanReaper {
  import opened Basics
  import opened ChildLedger

  /******* What counts as a proof *******/

  /** The recorded server lives and leads its own group. */
  predicate LedByServer(t: Table, c: ChildEntry)
  {
    c.process in t && t[c.process].alive && t[c.process].pgrp == c.process.pid
  }

  predicate PidUnused(t: Table, pid: nat)
  {
    forall p <- t :: t[p].alive ==> p.pid != pid
  }

  /** The group has live members, and every one of them carries the recorded tag. */
  predicate AllTagged(t: Table, c: ChildEntry)
  {
    && c.tag.Some?
    && (exists p <- t :: t[p].alive && t[p].pgrp == c.process.pid)
    && forall p <- t :: t[p].alive && t[p].pgrp == c.process.pid ==> t[p].tag == c.tag
  }

  /** What must be killed: a recorded server with its group, or what a server that is gone left of it. */
  predicate LeftBehind(t: Table, c: ChildEntry)
  {
    LedByServer(t, c) || (PidUnused(t, c.process.pid) && AllTagged(t, c))
  }

  lemma ProvableIffLeftBehind(t: Table, c: ChildEntry)
    ensures Provable(t, c) <==> LeftBehind(t, c)
  {
    if Provable(t, c) && !IsAlive(t, c.process) {
      var p :| p in t && InGroup(t, p, c.process.pid);
      assert t[p].alive && t[p].pgrp == c.process.pid;
    }
    if AllTagged(t, c) {
      var p :| p in t && t[p].alive && t[p].pgrp == c.process.pid;
      assert InGroup(t, p, c.process.pid);
    }
  }

  /** Killing other groups can free the pid of a tagged group; then it, too, is left behind. */
  lemma KillCanFreeThePid()
    ensures var t := map[
              ProcessId(10, 5) := Proc(true, 20, None, {}),
              ProcessId(11, 2) := Proc(true, 10, Some(7), {}),
              ProcessId(20, 1) := Proc(true, 20, None, {})];
            var c := ChildEntry(ProcessId(10, 1), Some(7));
            !LeftBehind(t, c) && LeftBehind(KillGroup(t, 20), c)
  {
    var t := map[
      ProcessId(10, 5) := Proc(true, 20, None, {}),
      ProcessId(11, 2) := Proc(true, 10, Some(7), {}),
      ProcessId(20, 1) := Proc(true, 20, None, {})];
    assert ProcessId(10, 5) in t && t[ProcessId(10, 5)].alive;
    var t' := KillGroup(t, 20);
    assert ProcessId(11, 2) in t' && t'[ProcessId(11, 2)].alive && t'[ProcessId(11, 2)].pgrp == 10;
  }

  /******* One pass *******/

  function KillGroups(t: Table, groups: set<nat>): Table
  {
    map p | p in t :: if t[p].pgrp in groups then t[p].(alive := false) else t[p]
  }

  predicate GroupEmpty(t: Table, pgid: nat)
  {
    forall p <- t :: !InGroup(t, p, pgid)
  }

  lemma KillOneMore(t: Table, groups: set<nat>, pgid: nat)
    ensures KillGroup(KillGroups(t, groups), pgid) == KillGroups(t, groups + {pgid})
  {
  }

  /** Killing other groups does not spoil a proof. */
  lemma ProvableLasts(t: Table, groups: set<nat>, c: ChildEntry)
    requires Provable(t, c) && c.process.pid !in groups
    ensures Provable(KillGroups(t, groups), c)
  {
    var t' := KillGroups(t, groups);
    if !IsAlive(t, c.process) {
      var p :| p in t && InGroup(t, p, c.process.pid);
      assert InGroup(t', p, c.process.pid);
      assert forall q <- t' :: InGroup(t', q, c.process.pid) ==> InGroup(t, q, c.process.pid);
    }
  }

  lemma ProvableHasMember(t: Table, c: ChildEntry)
    requires Provable(t, c)
    ensures !GroupEmpty(t, c.process.pid)
  {
    assert IsAlive(t, c.process) && t[c.process].pgrp == c.process.pid ==> InGroup(t, c.process, c.process.pid);
  }

  lemma KilledGroupsAreEmpty(t: Table, groups: set<nat>, pgid: nat)
    requires pgid in groups
    ensures GroupEmpty(KillGroups(t, groups), pgid)
  {
  }

  /** `group_carries_tag` over the processes listed under /proc. */
  method CarriesTag(t: Table, listing: seq<ProcessId>, pgid: nat, tag: nat) returns (yes: bool)
    requires forall p :: p in listing <==> IsAlive(t, p)
    ensures yes == GroupCarriesTag(t, pgid, tag)
  {
    var members := 0;
    for i := 0 to |listing|
      invariant members > 0 <==> exists j :: 0 <= j < i && InGroup(t, listing[j], pgid)
      invariant forall j :: 0 <= j < i && InGroup(t, listing[j], pgid) ==> t[listing[j]].tag == Some(tag)
    {
      assert IsAlive(t, listing[i]);
      if t[listing[i]].pgrp != pgid {
        continue;
      }
      if t[listing[i]].tag != Some(tag) {
        assert InGroup(t, listing[i], pgid);
        return false;
      }
      members := members + 1;
    }
    assert members > 0 ==> exists j :: 0 <= j < |listing| && InGroup(t, listing[j], pgid);
    assert forall p <- t :: InGroup(t, p, pgid) ==> p in listing;
    return members > 0;
  }

  method ListLive(t: Table) returns (listing: seq<ProcessId>)
    ensures forall p :: p in listing <==> IsAlive(t, p)
  {
    listing := [];
    var todo := t.Keys;
    while todo != {}
      invariant todo <= t.Keys
      invariant forall p :: p in listing <==> IsAlive(t, p) && p !in todo
    {
      var p :| p in todo;
      todo := todo - {p};
      if t[p].alive {
        listing := listing + [p];
      }
    }
  }

  /** Why a group was signalled: some recorded child was provable when its turn came, after the groups `before` of those killed. */
  ghost predicate Reason(t: Table, children: seq<ChildEntry>, pgid: nat, killed: set<nat>)
  {
    exists before: set<nat>, i :: 0 <= i < |children| && before <= killed && ReasonBy(t, children[i], pgid, before)
  }

  predicate ReasonBy(t: Table, c: ChildEntry, pgid: nat, before: set<nat>)
  {
    c.process.pid == pgid && pgid !in before && Provable(KillGroups(t, before), c)
  }

  ghost predicate Justified(t: Table, pgid: nat, killed: set<nat>, files: map<nat, Option<LedgerFile>>, removed: set<nat>)
  {
    exists path <- removed :: path in files && files[path].Some? && Reason(t, files[path].value.children, pgid, killed)
  }

  lemma ReasonGrows(t: Table, children: seq<ChildEntry>, pgid: nat, killed: set<nat>, more: set<nat>)
    requires Reason(t, children, pgid, killed)
    ensures Reason(t, children, pgid, killed + more)
  {
    var before: set<nat>, i :| 0 <= i < |children| && before <= killed && ReasonBy(t, children[i], pgid, before);
    assert before <= killed + more;
  }

  lemma JustifiedGrows(
    t: Table, pgid: nat, killed: set<nat>, more: set<nat>, files: map<nat, Option<LedgerFile>>, removed: set<nat>, path: nat)
    requires Justified(t, pgid, killed, files, removed)
    ensures Justified(t, pgid, killed + more, files, removed + {path})
  {
    var p :| p in removed && p in files && files[p].Some? && Reason(t, files[p].value.children, pgid, killed);
    ReasonGrows(t, files[p].value.children, pgid, killed, more);
    assert p in removed + {path};
  }

  /**
    What a signalled group was before the pass: led by the recorded server, or
    all tagged, and then whoever had its pid was killed with another group.
  */
  predicate Signallable(first: Table, killed: set<nat>, c: ChildEntry)
  {
    || LedByServer(first, c)
    || (AllTagged(first, c)
        && forall p <- first :: first[p].alive && p.pid == c.process.pid ==> first[p].pgrp in killed - {c.process.pid})
  }

  lemma SignalledWasSignallable(first: Table, killed: set<nat>, c: ChildEntry, before: set<nat>)
    requires before <= killed && ReasonBy(first, c, c.process.pid, before)
    ensures Signallable(first, killed, c)
  {
    var t := KillGroups(first, before);
    ProvableIffLeftBehind(t, c);
    if !LedByServer(first, c) {
      assert AllTagged(t, c) && PidUnused(t, c.process.pid);
      var q :| q in t && t[q].alive && t[q].pgrp == c.process.pid;
      assert q in first && first[q].alive && first[q].pgrp == c.process.pid;
      forall p <- first | first[p].alive && first[p].pgrp == c.process.pid ensures first[p].tag == c.tag {
        assert p in t && t[p].alive && t[p].tag == first[p].tag;
      }
      forall p <- first | first[p].alive && p.pid == c.process.pid ensures first[p].pgrp in killed - {c.process.pid} {
        assert p in t && !t[p].alive;
      }
    }
  }

  /** The groups in `killed` are dead and everything else is as it was. */
  ghost predicate After(first: Table, killed: set<nat>, now: Table)
  {
    now == KillGroups(first, killed)
  }

  /** A child's turn: its group may join the dead ones if it is provable, which it is if it was at first. */
  lemma TurnTaken(first: Table, killed: set<nat>, c: ChildEntry, now: Table)
    requires After(first, killed, now)
    ensures Provable(now, c) ==>
              && After(first, killed + {c.process.pid}, KillGroup(now, c.process.pid)) && c.process.pid !in killed
              && ReasonBy(first, c, c.process.pid, killed)
    ensures Provable(first, c) && c.process.pid !in killed ==> Provable(now, c)
  {
    if Provable(first, c) && c.process.pid !in killed {
      ProvableLasts(first, killed, c);
    }
    if Provable(now, c) {
      KillOneMore(first, killed, c.process.pid);
      ProvableHasMember(now, c);
    }
  }

  /** The first `i` children had their turn, which added the groups `more` to the dead. */
  ghost predicate Turned(
    first: Table, killed: set<nat>, more: set<nat>, refused: set<nat>, children: seq<ChildEntry>, i: nat, now: Table)
    requires i <= |children|
  {
    && After(first, killed + more, now) && more !! killed
    && (forall j :: 0 <= j < i && Provable(first, children[j]) ==> children[j].process.pid in killed + more + refused)
    && (forall pgid <- more :: pgid !in refused && Reason(first, children, pgid, killed + more))
  }

  lemma HitAdds(first: Table, killed: set<nat>, more: set<nat>, refused: set<nat>, children: seq<ChildEntry>, i: nat, now: Table)
    requires i < |children| && Turned(first, killed, more, refused, children, i, now)
    requires Provable(now, children[i]) && children[i].process.pid !in refused
    ensures children[i].process.pid !in more
    ensures Turned(first, killed, more + {children[i].process.pid}, refused, children, i + 1, KillGroup(now, children[i].process.pid))
  {
    var pgid := children[i].process.pid;
    TurnTaken(first, killed + more, children[i], now);
    assert killed + more + {pgid} == killed + (more + {pgid});
    assert killed + more <= killed + (more + {pgid}) && ReasonBy(first, children[i], pgid, killed + more);
    forall g <- more ensures Reason(first, children, g, killed + (more + {pgid})) {
      ReasonGrows(first, children, g, killed + more, {pgid});
    }
  }

  lemma MissAdds(first: Table, killed: set<nat>, more: set<nat>, refused: set<nat>, children: seq<ChildEntry>, i: nat, now: Table)
    requires i < |children| && Turned(first, killed, more, refused, children, i, now)
    requires !Provable(now, children[i]) || children[i].process.pid in refused
    ensures Turned(first, killed, more, refused, children, i + 1, now)
  {
    TurnTaken(first, killed + more, children[i], now);
  }

  /** The state of a pass over `files` that has not yet come to the paths in `todo`. */
  ghost predicate Passing(
    first: Table, files: map<nat, Option<LedgerFile>>, me: nat, refused: set<nat>, todo: set<nat>, killed: set<nat>, removed: set<nat>, now: Table)
  {
    && todo <= files.Keys && removed <= files.Keys - todo && After(first, killed, now)
    && (forall path <- removed :: Reapable(now, files[path], me))
    && (forall path <- files.Keys - todo :: Reapable(first, files[path], me) ==> path in removed)
    && (forall path <- removed, c <- Children(files[path]) :: Provable(first, c) ==> c.process.pid in killed + refused)
    && (forall pgid <- killed :: pgid !in refused && Justified(first, pgid, killed, files, removed))
  }

  function Children(file: Option<LedgerFile>): seq<ChildEntry>
  {
    if file.Some? then file.value.children else []
  }

  /** A readable ledger of an owner that is dead and whose pid is not the reaper's. */
  predicate Reapable(t: Table, file: Option<LedgerFile>, me: nat)
  {
    file.Some? && file.value.owner.pid != me && !IsAlive(t, file.value.owner)
  }

  lemma MinusOneMore(files: map<nat, Option<LedgerFile>>, removed: set<nat>, path: nat)
    ensures (files - removed) - {path} == files - (removed + {path})
  {
  }

  lemma PassBegins(first: Table, files: map<nat, Option<LedgerFile>>, me: nat, refused: set<nat>)
    ensures Passing(first, files, me, refused, files.Keys, {}, {}, first)
  {
    assert KillGroups(first, {}) == first;
  }

  lemma SkipPasses(
    first: Table, files: map<nat, Option<LedgerFile>>, me: nat, refused: set<nat>, todo: set<nat>, killed: set<nat>, removed: set<nat>, now: Table,
    path: nat)
    requires Passing(first, files, me, refused, todo, killed, removed, now) && path in todo && !Reapable(now, files[path], me)
    ensures Passing(first, files, me, refused, todo - {path}, killed, removed, now)
  {
    assert !Reapable(first, files[path], me);
  }

  lemma ReapPasses(
    first: Table, files: map<nat, Option<LedgerFile>>, me: nat, refused: set<nat>, todo: set<nat>, killed: set<nat>, removed: set<nat>, now: Table,
    path: nat, more: set<nat>, now': Table)
    requires Passing(first, files, me, refused, todo, killed, removed, now) && path in todo && Reapable(now, files[path], me)
    requires Turned(first, killed, more, refused, files[path].value.children, |files[path].value.children|, now')
    ensures Passing(first, files, me, refused, todo - {path}, killed + more, removed + {path}, now')
  {
    assert forall p :: IsAlive(now', p) ==> IsAlive(now, p);
    forall p <- removed + {path} ensures Reapable(now', files[p], me) {
      assert p != path ==> Reapable(now, files[p], me);
    }
    forall pgid <- killed + more ensures Justified(first, pgid, killed + more, files, removed + {path}) {
      if pgid in killed {
        JustifiedGrows(first, pgid, killed, more, files, removed, path);
      } else {
        assert path in removed + {path} && Reason(first, files[path].value.children, pgid, killed + more);
      }
    }
    TurnedAll(first, killed, more, refused, files[path].value.children, now');
    forall p <- removed + {path}, c <- Children(files[p]) | Provable(first, c) ensures c.process.pid in killed + more + refused {
    }
  }

  lemma TurnedAll(first: Table, killed: set<nat>, more: set<nat>, refused: set<nat>, children: seq<ChildEntry>, now: Table)
    requires Turned(first, killed, more, refused, children, |children|, now)
    ensures forall c <- children :: Provable(first, c) ==> c.process.pid in killed + more + refused
  {
  }

  /** What a finished pass means. */
  lemma PassMeans(
    first: Table, files: map<nat, Option<LedgerFile>>, me: nat, refused: set<nat>, killed: set<nat>, removed: set<nat>, now: Table)
    requires Passing(first, files, me, refused, {}, killed, removed, now)
    ensures Passed(first, files, me, refused, killed, removed, now)
  {
    forall path <- removed, c <- Children(files[path]) | LeftBehind(first, c) && c.process.pid !in refused
      ensures c.process.pid in killed && GroupEmpty(now, c.process.pid)
    {
      ProvableIffLeftBehind(first, c);
      KilledGroupsAreEmpty(first, killed, c.process.pid);
    }
    forall pgid <- killed ensures RecordedAndSignallable(first, pgid, killed, files, removed) {
      var path :| path in removed && path in files && files[path].Some? && Reason(first, files[path].value.children, pgid, killed);
      var before: set<nat>, i :| 0 <= i < |files[path].value.children| && before <= killed
                                 && ReasonBy(first, files[path].value.children[i], pgid, before);
      SignalledWasSignallable(first, killed, files[path].value.children[i], before);
      assert files[path].value.children[i] in Children(files[path]);
    }
    assert files.Keys - {} == files.Keys;
  }

  /** A removed ledger recorded a child with this pid whose group was one to signal. */
  predicate RecordedAndSignallable(
    first: Table, pgid: nat, killed: set<nat>, files: map<nat, Option<LedgerFile>>, removed: set<nat>)
    requires removed <= files.Keys
  {
    exists path <- removed :: exists c <- Children(files[path]) :: c.process.pid == pgid && Signallable(first, killed, c)
  }

  /**
    The ledgers of owners that were dead at first are among those removed, and
    only ledgers of owners that are dead now. Every group that a removed
    ledger's child left behind at first is killed and empty now, unless the
    kernel refuses to signal it. Every group that was killed is one a removed
    ledger recorded, led by the recorded server or all tagged, and nothing
    else has changed.
  */
  ghost predicate Passed(
    first: Table, files: map<nat, Option<LedgerFile>>, me: nat, refused: set<nat>, killed: set<nat>, removed: set<nat>, now: Table)
  {
    && now == KillGroups(first, killed) && removed <= files.Keys
    && (forall path <- removed :: Reapable(now, files[path], me))
    && (forall path <- files :: Reapable(first, files[path], me) ==> path in removed)
    && (forall path <- removed, c <- Children(files[path]) :: LeftBehind(first, c) && c.process.pid !in refused ==>
          c.process.pid in killed && GroupEmpty(now, c.process.pid))
    && killed !! refused
    && (forall pgid <- killed :: RecordedAndSignallable(first, pgid, killed, files, removed))
    && (forall pgid <- killed :: Justified(first, pgid, killed, files, removed))
  }

  /** A group that no removed ledger's child leads or tags is untouched: its processes live on. */
  lemma OthersAreUntouched(
    first: Table, files: map<nat, Option<LedgerFile>>, me: nat, refused: set<nat>, killed: set<nat>, removed: set<nat>, now: Table,
    p: ProcessId)
    requires Passed(first, files, me, refused, killed, removed, now) && IsAlive(first, p)
    requires forall path <- removed, c <- Children(files[path]) :: c.process.pid == first[p].pgrp ==>
               !LedByServer(first, c) && !AllTagged(first, c)
    ensures IsAlive(now, p) && now[p] == first[p]
  {
    assert first[p].pgrp in killed ==> RecordedAndSignallable(first, first[p].pgrp, killed, files, removed);
  }

  class Host {
    var procs: Table
    var files: map<nat, Option<LedgerFile>>
    /** The groups for which `killpg` fails, say for lack of permission. */
    const refused: set<nat>

    constructor (procs: Table, files: map<nat, Option<LedgerFile>>, refused: set<nat>)
      ensures this.procs == procs && this.files == files && this.refused == refused
    {
      this.procs, this.files, this.refused := procs, files, refused;
    }

    /** `kill_orphan_group`; a signal is sent exactly to a group that was left behind, and counts if it was not refused. */
    method KillOrphanGroup(c: ChildEntry) returns (hit: bool)
      modifies this`procs
      ensures hit <==> LeftBehind(old(procs), c) && c.process.pid !in refused
      ensures procs == if hit then KillGroup(old(procs), c.process.pid) else old(procs)
    {
      ProvableIffLeftBehind(procs, c);
      var leader := IsAlive(procs, c.process) && procs[c.process].pgrp == c.process.pid;
      var provable := leader;
      if !leader && c.tag.Some? && NoProcess(procs, c.process.pid) {
        var listing := ListLive(procs);
        provable := CarriesTag(procs, listing, c.process.pid, c.tag.value);
      }
      if provable && c.process.pid !in refused {
        procs := KillGroup(procs, c.process.pid);
        return true;
      }
      return false;
    }

    /** The inner loop of `reap_orphans`. */
    method ReapFile(file: LedgerFile, ghost first: Table, ghost killed: set<nat>) returns (signalled: nat, ghost more: set<nat>)
      requires After(first, killed, procs)
      modifies this`procs
      ensures Turned(first, killed, more, refused, file.children, |file.children|, procs) && signalled == |more|
    {
      signalled, more := 0, {};
      assert killed + {} == killed;
      for i := 0 to |file.children|
        invariant Turned(first, killed, more, refused, file.children, i, procs) && signalled == |more|
      {
        ghost var now := procs;
        ProvableIffLeftBehind(now, file.children[i]);
        var hit := KillOrphanGroup(file.children[i]);
        if hit {
          HitAdds(first, killed, more, refused, file.children, i, now);
          more := more + {file.children[i].process.pid};
          signalled := signalled + 1;
        } else {
          MissAdds(first, killed, more, refused, file.children, i, now);
        }
      }
    }

    /** One directory entry of `reap_orphans`. */
    method Visit(
      path: nat, me: nat, ghost first: Table, ghost all: map<nat, Option<LedgerFile>>, ghost todo: set<nat>,
      ghost killed: set<nat>, ghost removed: set<nat>)
      returns (signalled: nat, ghost more: set<nat>, ghost gone: set<nat>)
      requires Passing(first, all, me, refused, todo, killed, removed, procs) && files == all - removed && path in todo
      modifies this
      ensures Passing(first, all, me, refused, todo - {path}, killed + more, removed + gone, procs)
      ensures more !! killed && signalled == |more| && files == all - (removed + gone)
    {
      signalled, more, gone := 0, {}, {};
      assert path !in removed && files[path] == all[path];
      if files[path].None? || files[path].value.owner.pid == me || IsAlive(procs, files[path].value.owner) {
        SkipPasses(first, all, me, refused, todo, killed, removed, procs, path);
        assert killed + {} == killed && removed + {} == removed;
        return;
      }
      ghost var now := procs;
      assert Reapable(now, all[path], me) && After(first, killed, now);
      signalled, more := ReapFile(files[path].value, first, killed);
      assert more !! killed;
      ReapPasses(first, all, me, refused, todo, killed, removed, now, path, more, procs);
      gone := {path};
      MinusOneMore(all, removed, path);
      files := files - {path};
    }

    /** `reap_orphans` in the process with pid `me`. */
    method ReapOrphans(me: nat) returns (signalled: nat, ghost killed: set<nat>, ghost removed: set<nat>)
      modifies this
      ensures Passed(old(procs), old(files), me, refused, killed, removed, procs)
      ensures files == old(files) - removed && signalled == |killed|
    {
      signalled, killed, removed := 0, {}, {};
      ghost var first, all := procs, files;
      var todo := files.Keys;
      PassBegins(first, all, me, refused);
      while todo != {}
        invariant Passing(first, all, me, refused, todo, killed, removed, procs)
        invariant files == all - removed && signalled == |killed|
      {
        var path :| path in todo;
        var n, more, gone := Visit(path, me, first, all, todo, killed, removed);
        signalled, killed, removed := signalled + n, killed + more, removed + gone;
        todo := todo - {path};
      }
      PassMeans(first, all, me, refused, killed, removed, procs);
    }
  }

  /** Whoever a justified signal kills descends from a server that a removed ledger truthfully recorded. */
  lemma SignalHitsRecorded(
    k: Kernel, pgid: nat, killed: set<nat>, files: map<nat, Option<LedgerFile>>, removed: set<nat>, q: ProcessId) returns (c: ChildEntry, path: nat)
    requires KernelOk(k) && Justified(k.procs, pgid, killed, files, removed) && InGroup(k.procs, q, pgid)
    requires forall p <- removed :: p in files && files[p].Some? && forall x <- files[p].value.children :: Truthful(k, files[p].value.owner, x)
    ensures path in removed && path in files && files[path].Some? && c in files[path].value.children
    ensures c.process in k.procs[q].ancestors && c.process in k.spawnedBy && k.spawnedBy[c.process] == files[path].value.owner
  {
    var before: set<nat>;
    path :| path in removed && path in files && files[path].Some? && Reason(k.procs, files[path].value.children, pgid, killed);
    var i;
    before, i :| 0 <= i < |files[path].value.children| && before <= killed && ReasonBy(k.procs, files[path].value.children[i], pgid, before);
    c := files[path].value.children[i];
    KillsKeepKernel(k, before);
    var k' := k.(procs := KillGroups(k.procs, before));
    assert Truthful(k, files[path].value.owner, c);
    ProvableIsSafe(k', c);
    assert InGroup(k'.procs, q, pgid);
  }

  lemma KillsKeepKernel(k: Kernel, groups: set<nat>)
    requires KernelOk(k)
    ensures KernelOk(k.(procs := KillGroups(k.procs, groups)))
  {
    var t := KillGroups(k.procs, groups);
    assert forall q <- t, g: nat :: InGroup(t, q, g) ==> InGroup(k.procs, q, g);
    assert forall q <- t :: IsAlive(t, q) ==> IsAlive(k.procs, q);
  }

  /******* The proof, read by read *******/

  /** The read that is next at this stage. */
  predicate Fits(e: Event, stage: Stage)
  {
    match stage
    case Turn => e.ReadStart?
    case SawStart => e.ReadGroup?
    case NoLeader => e.ReadAbsent?
    case Scanning(todo, _) => e.ScanStat? || (e.ScanEnd? && todo == {})
    case Checking(_, _, _) => e.ScanEnviron?
    case Proven => false
  }

  /** The group's members outside `todo` have been seen to carry the tag, and `members` counts them or some of them again. */
  ghost predicate Seen(t: Table, c: ChildEntry, todo: set<nat>, members: nat)
  {
    && c.tag.Some? && !LedByServer(t, c) && PidUnused(t, c.process.pid)
    && (forall p <- t :: InGroup(t, p, c.process.pid) && p.pid !in todo ==> t[p].tag == c.tag && members > 0)
    && (members > 0 ==> exists p <- t :: InGroup(t, p, c.process.pid))
  }

  /** What each stage of the proof has established about a table that stands still. */
  ghost predicate Established(t: Table, c: ChildEntry, stage: Stage)
  {
    match stage
    case Turn => true
    case SawStart => IsAlive(t, c.process)
    case NoLeader => c.tag.Some? && !LedByServer(t, c)
    case Scanning(todo, members) => Seen(t, c, todo, members)
    case Checking(todo, members, pid) => Seen(t, c, todo + {pid}, members) && StatInGroup(t, pid, c.process.pid)
    case Proven => LeftBehind(t, c)
  }

  lemma LeaderIsServer(t: Table, c: ChildEntry)
    requires PidsOk(t) && IsAlive(t, c.process)
    ensures LeadsGroup(t, c.process.pid) <==> LedByServer(t, c)
    ensures !PidUnused(t, c.process.pid)
  {
    if LedByServer(t, c) {
      assert InGroup(t, c.process, c.process.pid);
    }
  }

  lemma ScanStep(t: Table, x: Reaper, e: Event)
    requires PidsOk(t) && HasTarget(x) && ReadEvent(e) && x.stage.Scanning? && Fits(e, x.stage) && Established(t, Target(x), x.stage)
    ensures var x' := Read(t, x, e);
            if x'.next == x.next then Established(t, Target(x), x'.stage) else !LeftBehind(t, Target(x))
  {
    var c := Target(x);
    if e.ScanEnd? {
      if x.stage.members > 0 {
        var p :| p in t && InGroup(t, p, c.process.pid);
        assert t[p].alive && t[p].pgrp == c.process.pid;
        assert forall q <- t :: t[q].alive && t[q].pgrp == c.process.pid ==> InGroup(t, q, c.process.pid);
      } else {
        assert forall p <- t :: !InGroup(t, p, c.process.pid);
        assert forall p <- t :: t[p].alive && t[p].pgrp == c.process.pid ==> InGroup(t, p, c.process.pid);
      }
    } else if StatInGroup(t, e.pid, c.process.pid) {
      assert (x.stage.todo - {e.pid}) + {e.pid} == x.stage.todo + {e.pid};
    }
  }

  lemma CheckStep(t: Table, x: Reaper, e: Event)
    requires PidsOk(t) && HasTarget(x) && ReadEvent(e) && x.stage.Checking? && Established(t, Target(x), x.stage)
    ensures var x' := Read(t, x, e);
            if x'.next == x.next then Established(t, Target(x), x'.stage) else !LeftBehind(t, Target(x))
  {
    var c, pid := Target(x), x.stage.pid;
    var p :| p in t && InGroup(t, p, c.process.pid) && p.pid == pid;
    assert forall q <- t :: InGroup(t, q, c.process.pid) && q.pid == pid ==> q == p;
    assert EnvironHas(t, pid, c.tag.value) <==> t[p].tag == c.tag;
    assert t[p].alive && t[p].pgrp == c.process.pid;
  }

  /** One read keeps what is established, and gives a child up only if its group is not one to kill. */
  lemma StillRead(t: Table, x: Reaper, e: Event)
    requires PidsOk(t) && HasTarget(x) && ReadEvent(e) && Fits(e, x.stage) && Established(t, Target(x), x.stage)
    ensures var x' := Read(t, x, e);
            && x'.At? && x'.file == x.file
            && if x'.next == x.next then Established(t, Target(x), x'.stage) else !LeftBehind(t, Target(x))
  {
    var c := Target(x);
    match x.stage
    case Turn => if IsAlive(t, c.process) { LeaderIsServer(t, c); }
    case SawStart => LeaderIsServer(t, c);
    case NoLeader =>
      assert NoProcess(t, c.process.pid) <==> PidUnused(t, c.process.pid);
      assert forall p <- t :: InGroup(t, p, c.process.pid) ==> p.pid in LivePids(t);
    case Scanning(_, _) => ScanStep(t, x, e);
    case Checking(_, _, _) => CheckStep(t, x, e);
  }

  /** The reads `es` fit the stages they meet until the proof of this child is over. */
  ghost predicate Proves(t: Table, x: Reaper, es: seq<Event>, x': Reaper)
    requires x.At?
    decreases |es|
  {
    if es == [] then x' == x
    else
      && HasTarget(x) && ReadEvent(es[0]) && Fits(es[0], x.stage)
      && if Read(t, x, es[0]).next == x.next then Proves(t, Read(t, x, es[0]), es[1..], x') else es == [es[0]] && x' == Read(t, x, es[0])
  }

  lemma {:induction false} StillReads(t: Table, x: Reaper, es: seq<Event>, x': Reaper)
    requires PidsOk(t) && HasTarget(x) && Established(t, Target(x), x.stage) && Proves(t, x, es, x')
    ensures x'.At? && (x'.next == x.next && x'.stage.Proven? ==> LeftBehind(t, Target(x)))
    ensures x'.next != x.next ==> !LeftBehind(t, Target(x))
    decreases |es|
  {
    if es != [] {
      StillRead(t, x, es[0]);
      if Read(t, x, es[0]).next == x.next {
        StillReads(t, Read(t, x, es[0]), es[1..], x');
      }
    }
  }

  /**
    While the table stands still, the proof made of separate reads, in
    whatever order the pids are looked at, ends proven if the group is one to
    kill and gives the child up if it is not.
  */
  lemma StillProofIsExact(t: Table, x: Reaper, es: seq<Event>, x': Reaper)
    requires PidsOk(t) && HasTarget(x) && x.stage.Turn? && Proves(t, x, es, x')
    requires x'.At? && (x'.next != x.next || x'.stage.Proven?)
    ensures x'.next == x.next <==> LeftBehind(t, Target(x))
  {
    StillReads(t, x, es, x');
  }

  /**
    The steps around the proof: a ledger is worked through exactly if its
    owner is dead and its pid is not the reaper's, a signal that works empties
    the group and touches no other process, and the finished ledger is removed.
  */
  lemma ReaperSteps(w: World, e: Event)
    requires Enabled(w, e) && (e.ReapCheck? || e.ReapKill? || e.ReapRemove?)
    ensures e.ReapCheck? ==>
              var file := w.reapers[e.r].file;
              && (Apply(w, e).reapers[e.r].At? <==> Reapable(w.k.procs, Some(file), e.r.pid))
              && (Apply(w, e).reapers[e.r].At? ==> Apply(w, e).reapers[e.r] == At(w.reapers[e.r].path, file, 0, Turn))
    ensures e.ReapKill? && e.works ==>
              var pgid := Target(w.reapers[e.r]).process.pid;
              && GroupEmpty(Apply(w, e).k.procs, pgid)
              && forall p <- w.k.procs :: w.k.procs[p].pgrp != pgid ==> p in Apply(w, e).k.procs && Apply(w, e).k.procs[p] == w.k.procs[p]
    ensures e.ReapKill? ==> Apply(w, e).reapers[e.r].next == w.reapers[e.r].next + 1 && Apply(w, e).reapers[e.r].stage.Turn?
    ensures e.ReapRemove? ==> Apply(w, e).files == w.files - {w.reapers[e.r].path}
  {
    match e
    case ReapCheck(_) =>
    case ReapKill(_, _) =>
    case ReapRemove(_) =>
  }
}
