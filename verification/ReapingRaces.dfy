/**
  Runs of the ledger and its reapers that break a promise because a pid is
  given out again, or a stranger is born, while a proof or a removal is under
  way. Each is the reason for one assumption of `ReapingIsSafe` or
  `LiveFilesAreLedgers`.
*/
module ReapingRaces {
  import opened Basics
  import opened ChildLedger

  lemma Snoc(w: World, es: seq<Event>, e: Event)
    requires Playable(w, es) && Enabled(Play(w, es), e)
    ensures Playable(w, es + [e]) && Play(w, es + [e]) == Apply(Play(w, es), e)
  {
    assert (es + [e])[..|es + [e]| - 1] == es;
  }

  const GATEWAY := ProcessId(1, 0)
  const STRANGER := ProcessId(2, 0)
  const REAPER := ProcessId(3, 0)
  const SERVER := ProcessId(5, 1)
  const ENTRY := ChildEntry(SERVER, Some(7))
  const FILE := LedgerFile(GATEWAY, [ENTRY])

  /** One gateway, one reaper and a bystander. */
  function Trio(): World
  {
    World(Kernel(map[GATEWAY := Proc(true, 1, None, {GATEWAY}), STRANGER := Proc(true, 2, None, {STRANGER}),
                     REAPER := Proc(true, 3, None, {REAPER})], map[], map[]),
          map[], map[], {}, map[], {})
  }

  /** The gateway has spawned and recorded a server. */
  function Recorded(): World
  {
    World(Kernel(Trio().k.procs[SERVER := Proc(true, 5, Some(7), {GATEWAY} + {SERVER})], map[SERVER := GATEWAY], map[7 := SERVER]),
          map[1 := FILE], map[GATEWAY := [ENTRY]], {SERVER}, map[], {})
  }

  /** The processes once the gateway has died. */
  function Left(): Kernel
  {
    Recorded().k.(procs := Recorded().k.procs[GATEWAY := Proc(false, 1, None, {GATEWAY})])
  }

  /** A world in which only the processes and the one reaper have moved on. */
  function View(k: Kernel, x: Reaper): World
  {
    Recorded().(k := k, reapers := map[REAPER := x])
  }

  function Child(next: nat, stage: Stage): Reaper
  {
    At(1, FILE, next, stage)
  }

  lemma ServerRecorded() returns (es: seq<Event>)
    ensures Initial(Trio()) && Playable(Trio(), es) && Play(Trio(), es) == Recorded()
  {
    var spawn, record := Process(Spawn(GATEWAY, SERVER, 7)), Record(GATEWAY, SERVER, 7);
    Snoc(Trio(), [], Bind(GATEWAY));
    var a := [] + [Bind(GATEWAY)];
    Snoc(Trio(), a, spawn);
    var w := Recorded().(files := map[], ledgers := map[GATEWAY := []], recorded := {});
    assert Play(Trio(), a + [spawn]) == w;
    FirstRecord(w, record);
    Snoc(Trio(), a + [spawn], record);
    es := a + [spawn] + [record];
  }

  lemma FirstRecord(w: World, record: Event)
    requires record == Record(GATEWAY, SERVER, 7)
    requires w == Recorded().(files := map[], ledgers := map[GATEWAY := []], recorded := {})
    ensures Enabled(w, record) && Apply(w, record) == Recorded()
  {
    assert Rewritten(w, record) == [ENTRY];
    assert Apply(w, record).files == Recorded().files && Apply(w, record).ledgers == Recorded().ledgers;
  }

  /** The reaper opens the dead gateway's file and finds the owner gone. */
  lemma OwnerFoundDead(w: World)
    requires w == Recorded().(k := Left())
    ensures Enabled(w, ReapOpen(REAPER, 1)) && Apply(w, ReapOpen(REAPER, 1)) == View(Left(), Opened(1, FILE))
    ensures var v := View(Left(), Opened(1, FILE));
            Enabled(v, ReapCheck(REAPER)) && Apply(v, ReapCheck(REAPER)) == View(Left(), Child(0, Turn))
  {
    var v := View(Left(), Opened(1, FILE));
    assert Apply(w, ReapOpen(REAPER, 1)).reapers == v.reapers;
    assert Apply(v, ReapCheck(REAPER)).reapers == map[REAPER := Child(0, Turn)];
  }

  lemma OrphanFound() returns (es: seq<Event>)
    ensures Initial(Trio()) && Playable(Trio(), es) && Play(Trio(), es) == View(Left(), Child(0, Turn))
  {
    var a := ServerRecorded();
    Snoc(Trio(), a, Process(Exit(GATEWAY)));
    var b := a + [Process(Exit(GATEWAY))];
    OwnerFoundDead(Play(Trio(), b));
    Snoc(Trio(), b, ReapOpen(REAPER, 1));
    var c := b + [ReapOpen(REAPER, 1)];
    Snoc(Trio(), c, ReapCheck(REAPER));
    es := c + [ReapCheck(REAPER)];
  }

  /******* Steps of such worlds *******/

  lemma ProcessMoves(es: seq<Event>, k: Kernel, x: Reaper, e: ProcEvent) returns (es': seq<Event>)
    requires Playable(Trio(), es) && Play(Trio(), es) == View(k, x) && Can(k, e) && !e.Kill?
    ensures es' == es + [Process(e)] && Playable(Trio(), es') && Play(Trio(), es') == View(Do(k, e), x)
  {
    Snoc(Trio(), es, Process(e));
    es' := es + [Process(e)];
  }

  /** `e` is the read that a reaper at this stage makes. */
  predicate Fits(x: Reaper, e: Event)
    requires HasTarget(x)
  {
    match x.stage
    case Turn => e == ReadStart(REAPER)
    case SawStart => e == ReadGroup(REAPER)
    case NoLeader => e == ReadAbsent(REAPER)
    case Scanning(todo, _) => (e.ScanStat? && e.r == REAPER) || (e == ScanEnd(REAPER) && todo == {})
    case Checking(_, _, _) => e == ScanEnviron(REAPER)
    case Proven => false
  }

  lemma ReaperReads(es: seq<Event>, k: Kernel, x: Reaper, e: Event) returns (es': seq<Event>)
    requires Playable(Trio(), es) && Play(Trio(), es) == View(k, x)
    requires IsAlive(k.procs, REAPER) && HasTarget(x) && Fits(x, e)
    ensures ReadEvent(e) && es' == es + [e] && Playable(Trio(), es') && Play(Trio(), es') == View(k, Read(k.procs, x, e))
  {
    Snoc(Trio(), es, e);
    es' := es + [e];
    assert Play(Trio(), es').reapers == map[REAPER := Read(k.procs, x, e)];
  }

  /** A signal that hits someone outside the recorded server's family breaks the promise. */
  lemma SignalHits(es: seq<Event>, k: Kernel, victim: ProcessId) returns (es': seq<Event>)
    requires Playable(Trio(), es) && Play(Trio(), es) == View(k, Child(0, Proven)) && IsAlive(k.procs, REAPER)
    requires InGroup(k.procs, victim, 5) && SERVER !in k.procs[victim].ancestors
    ensures es' == es + [ReapKill(REAPER, true)] && Playable(Trio(), es') && !SignalledOk(Play(Trio(), es'))
  {
    var v := View(k, Child(0, Proven));
    assert Target(v.reapers[REAPER]) == ENTRY;
    Snoc(Trio(), es, ReapKill(REAPER, true));
    es' := es + [ReapKill(REAPER, true)];
    assert victim in Play(Trio(), es').signalled && Play(Trio(), es').recorded == {SERVER};
    assert Play(Trio(), es').k.procs[victim].ancestors == k.procs[victim].ancestors;
  }

  /******* A pid given out between proof and signal, or inside the proof *******/

  const VICTIM := ProcessId(5, 2)

  lemma LeftFacts()
    ensures var t := Left().procs;
            && IsAlive(t, SERVER) && t[SERVER].pgrp == 5 && IsAlive(t, STRANGER) && IsAlive(t, REAPER) && LeadsGroup(t, 5)
            && t[STRANGER] == Proc(true, 2, None, {STRANGER}) && t[SERVER].tag == Some(7)
  {
    assert InGroup(Left().procs, SERVER, 5);
  }

  /** The server exits, and its pid goes to a child of the bystander, in a group of its own. */
  lemma VictimMayStart(k: Kernel)
    requires k == Left()
    ensures Can(k, Exit(SERVER)) && Can(Do(k, Exit(SERVER)), Fork(STRANGER, VICTIM))
    ensures k.procs[STRANGER].ancestors == {STRANGER} && IsAlive(Do(k, Exit(SERVER)).procs, REAPER)
  {
  }

  lemma PidRecycled(es: seq<Event>, x: Reaper) returns (es': seq<Event>, k: Kernel)
    requires Playable(Trio(), es) && Play(Trio(), es) == View(Left(), x)
    ensures es' == es + [Process(Exit(SERVER))] + [Process(Fork(STRANGER, VICTIM))] + [Process(OwnGroup(VICTIM))]
    ensures Playable(Trio(), es') && Play(Trio(), es') == View(k, x) && IsAlive(k.procs, REAPER)
    ensures InGroup(k.procs, VICTIM, 5) && k.procs[VICTIM].ancestors == {STRANGER, VICTIM}
  {
    var k0 := Left();
    VictimMayStart(k0);
    var a := ProcessMoves(es, k0, x, Exit(SERVER));
    var k1 := Do(k0, Exit(SERVER));
    var b := ProcessMoves(a, k1, x, Fork(STRANGER, VICTIM));
    var k2 := Do(k1, Fork(STRANGER, VICTIM));
    es' := ProcessMoves(b, k2, x, OwnGroup(VICTIM));
    k := Do(k2, OwnGroup(VICTIM));
  }

  lemma StartSeen() returns (es: seq<Event>)
    ensures Initial(Trio()) && Playable(Trio(), es) && Play(Trio(), es) == View(Left(), Child(0, SawStart))
  {
    var a := OrphanFound();
    LeftFacts();
    assert Target(Child(0, Turn)) == ENTRY;
    es := ReaperReads(a, Left(), Child(0, Turn), ReadStart(REAPER));
  }

  lemma OrphanProven() returns (es: seq<Event>)
    ensures Initial(Trio()) && Playable(Trio(), es) && Play(Trio(), es) == View(Left(), Child(0, Proven))
  {
    var a := StartSeen();
    LeftFacts();
    assert Target(Child(0, SawStart)) == ENTRY;
    es := ReaperReads(a, Left(), Child(0, SawStart), ReadGroup(REAPER));
  }

  /** If the proven server exits and its pid is reused before the signal, a stranger's process is killed. */
  lemma RecycledPidIsSignalled() returns (es: seq<Event>)
    ensures Initial(Trio()) && Playable(Trio(), es) && !SignalledOk(Play(Trio(), es))
  {
    var a := OrphanProven();
    var b, k := PidRecycled(a, Child(0, Proven));
    es := SignalHits(b, k, VICTIM);
  }

  /**
    If that happens between the two reads of the proof, the group id read is
    the stranger's and the signal follows at once: no pid is given out between
    the end of the proof and the signal.
  */
  lemma RecycledInsideProof() returns (es: seq<Event>)
    ensures Initial(Trio()) && Playable(Trio(), es) && !SignalledOk(Play(Trio(), es))
    ensures |es| >= 2 && es[|es| - 2..] == [ReadGroup(REAPER), ReapKill(REAPER, true)]
  {
    var a := StartSeen();
    var b, k := PidRecycled(a, Child(0, SawStart));
    assert Target(Child(0, SawStart)) == ENTRY;
    assert LeadsGroup(k.procs, 5);
    var c := ReaperReads(b, k, Child(0, SawStart), ReadGroup(REAPER));
    es := SignalHits(c, k, VICTIM);
  }

  /******* The owner's pid given out before its file is removed *******/

  /** A signal that the kernel refuses; the reaper goes on to the end of the file. */
  lemma AllTurnsTaken() returns (es: seq<Event>)
    ensures Initial(Trio()) && Playable(Trio(), es) && Play(Trio(), es) == View(Left(), Child(1, Turn))
  {
    var a := OrphanProven();
    LeftFacts();
    var v := View(Left(), Child(0, Proven));
    assert Target(v.reapers[REAPER]) == ENTRY;
    Snoc(Trio(), a, ReapKill(REAPER, false));
    es := a + [ReapKill(REAPER, false)];
    assert Play(Trio(), es).reapers == map[REAPER := Child(1, Turn)];
  }

  const SUCCESSOR := ProcessId(1, 9)
  const SECOND := ProcessId(6, 9)

  lemma SuccessorMayStart(k: Kernel)
    requires k == Left()
    ensures Can(k, Fork(STRANGER, SUCCESSOR)) && k.tagged == map[7 := SERVER] && IsAlive(k.procs, REAPER)
    ensures forall p <- k.procs :: p.pid < 6 && k.procs[p].pgrp < 6
  {
  }

  lemma SecondMayStart(k: Kernel)
    requires Can(k, Fork(STRANGER, SUCCESSOR)) && 8 !in k.tagged && forall p <- k.procs :: p.pid < 6 && k.procs[p].pgrp < 6
    ensures Can(Do(k, Fork(STRANGER, SUCCESSOR)), Spawn(SUCCESSOR, SECOND, 8))
  {
  }

  /** The dead owner's pid goes to a new gateway, which spawns a server. */
  lemma OwnerPidRecycled() returns (es: seq<Event>, k: Kernel)
    ensures Initial(Trio()) && Playable(Trio(), es) && Play(Trio(), es) == View(k, Child(1, Turn))
    ensures IsAlive(k.procs, SUCCESSOR) && IsAlive(k.procs, REAPER)
    ensures SECOND in k.spawnedBy && k.spawnedBy[SECOND] == SUCCESSOR && 8 in k.tagged && k.tagged[8] == SECOND
  {
    var a := AllTurnsTaken();
    var k0 := Left();
    SuccessorMayStart(k0);
    SecondMayStart(k0);
    var b := ProcessMoves(a, k0, Child(1, Turn), Fork(STRANGER, SUCCESSOR));
    var k1 := Do(k0, Fork(STRANGER, SUCCESSOR));
    es := ProcessMoves(b, k1, Child(1, Turn), Spawn(SUCCESSOR, SECOND, 8));
    k := Do(k1, Spawn(SUCCESSOR, SECOND, 8));
  }

  /** If a new gateway gets the dead owner's pid and records a server before the removal, its file is removed. */
  lemma SuccessorFileIsRemoved() returns (es: seq<Event>)
    ensures Initial(Trio()) && Playable(Trio(), es) && !LiveFilesOk(Play(Trio(), es))
  {
    var a, k := OwnerPidRecycled();
    Snoc(Trio(), a, Bind(SUCCESSOR));
    var b := a + [Bind(SUCCESSOR)];
    Snoc(Trio(), b, Record(SUCCESSOR, SECOND, 8));
    var c := b + [Record(SUCCESSOR, SECOND, 8)];
    assert !HasTarget(Child(1, Turn));
    Snoc(Trio(), c, ReapRemove(REAPER));
    es := c + [ReapRemove(REAPER)];
    assert IsAlive(Play(Trio(), es).k.procs, SUCCESSOR) && Play(Trio(), es).ledgers[SUCCESSOR] != [];
    assert SUCCESSOR.pid !in Play(Trio(), es).files;
  }

  /******* A stranger born while a leaderless group is scanned *******/

  const ORPHAN := ProcessId(6, 1)
  const LEADER := ProcessId(5, 2)
  const MEMBER := ProcessId(7, 2)
  const NEWBORN := ProcessId(8, 2)

  const DEAD_GATEWAY := Proc(false, 1, None, {GATEWAY})
  const FAMILY := {GATEWAY, SERVER, ORPHAN}
  const OUTSIDERS := {STRANGER, LEADER, MEMBER}

  /** The processes of these runs, by what happens to the five that matter. */
  function Tables(server: Proc, more: Table): Table
  {
    map[GATEWAY := DEAD_GATEWAY, STRANGER := Proc(true, 2, None, {STRANGER}), REAPER := Proc(true, 3, None, {REAPER}),
        SERVER := server] + more
  }

  const ALIVE_SERVER := Proc(true, 5, Some(7), {GATEWAY, SERVER})
  const DEAD_SERVER := Proc(false, 5, Some(7), {GATEWAY, SERVER})

  function Family(pgrp: nat): Proc
  {
    Proc(true, pgrp, Some(7), FAMILY)
  }

  function Leader(alive: bool, pgrp: nat): Proc
  {
    Proc(alive, pgrp, None, {STRANGER, LEADER})
  }

  function Member(alive: bool): Proc
  {
    Proc(alive, 5, None, OUTSIDERS)
  }

  /** The server's child has left for a group of its own, and the server is dead. */
  function Apart(): Table
  {
    Tables(DEAD_SERVER, map[ORPHAN := Family(6)])
  }

  /** The server's pid was a stranger's for a while; that one left a member behind, whose group the orphan joined. */
  function Mixed(): Table
  {
    Tables(DEAD_SERVER, map[ORPHAN := Family(5), LEADER := Leader(false, 5), MEMBER := Member(true)])
  }

  /** The member has forked and exited. */
  function Replaced(): Table
  {
    Tables(DEAD_SERVER, map[ORPHAN := Family(5), LEADER := Leader(false, 5), MEMBER := Member(false),
                            NEWBORN := Proc(true, 5, None, OUTSIDERS + {NEWBORN})])
  }

  function On(t: Table): Kernel
  {
    Kernel(t, map[SERVER := GATEWAY], map[7 := SERVER])
  }

  predicate Leads(t: Table, e: ProcEvent, t': Table)
  {
    Can(On(t), e) && Do(On(t), e) == On(t')
  }

  lemma LeftIs()
    ensures Left() == On(Tables(ALIVE_SERVER, map[]))
  {
    assert {GATEWAY} + {SERVER} == {GATEWAY, SERVER};
    assert Left().procs == Tables(ALIVE_SERVER, map[]);
  }

  lemma OrphanFresh()
    ensures FreshPid(Tables(ALIVE_SERVER, map[]), ORPHAN) && IsAlive(Tables(ALIVE_SERVER, map[]), SERVER)
  {
  }

  lemma OrphanForked()
    ensures Left() == On(Tables(ALIVE_SERVER, map[]))
    ensures Leads(Tables(ALIVE_SERVER, map[]), Fork(SERVER, ORPHAN), Tables(ALIVE_SERVER, map[ORPHAN := Family(5)]))
  {
    LeftIs();
    OrphanFresh();
    assert {GATEWAY, SERVER} + {ORPHAN} == FAMILY;
    assert Do(On(Tables(ALIVE_SERVER, map[])), Fork(SERVER, ORPHAN)).procs == Tables(ALIVE_SERVER, map[ORPHAN := Family(5)]);
  }

  lemma OrphanLeaves()
    ensures Leads(Tables(ALIVE_SERVER, map[ORPHAN := Family(5)]), OwnGroup(ORPHAN), Tables(ALIVE_SERVER, map[ORPHAN := Family(6)]))
    ensures Leads(Tables(ALIVE_SERVER, map[ORPHAN := Family(6)]), Exit(SERVER), Apart())
  {
    assert Do(On(Tables(ALIVE_SERVER, map[ORPHAN := Family(5)])), OwnGroup(ORPHAN)).procs == Tables(ALIVE_SERVER, map[ORPHAN := Family(6)]);
    assert Do(On(Tables(ALIVE_SERVER, map[ORPHAN := Family(6)])), Exit(SERVER)).procs == Apart();
  }

  lemma Moves(es: seq<Event>, t: Table, x: Reaper, e: ProcEvent, t': Table) returns (es': seq<Event>)
    requires Playable(Trio(), es) && Play(Trio(), es) == View(On(t), x) && Leads(t, e, t') && !e.Kill?
    ensures Playable(Trio(), es') && Play(Trio(), es') == View(On(t'), x)
  {
    es' := ProcessMoves(es, On(t), x, e);
  }

  lemma ReachApart(es: seq<Event>, x: Reaper) returns (es': seq<Event>)
    requires Playable(Trio(), es) && Play(Trio(), es) == View(Left(), x)
    ensures Playable(Trio(), es') && Play(Trio(), es') == View(On(Apart()), x)
  {
    OrphanForked();
    OrphanLeaves();
    var t1, t2 := Tables(ALIVE_SERVER, map[ORPHAN := Family(5)]), Tables(ALIVE_SERVER, map[ORPHAN := Family(6)]);
    var a := Moves(es, Tables(ALIVE_SERVER, map[]), x, Fork(SERVER, ORPHAN), t1);
    var b := Moves(a, t1, x, OwnGroup(ORPHAN), t2);
    es' := Moves(b, t2, x, Exit(SERVER), Apart());
  }

  function Led(alive: bool, pgrp: nat): Table
  {
    Tables(DEAD_SERVER, map[ORPHAN := Family(6), LEADER := Leader(alive, pgrp)])
  }

  function Joined(alive: bool): Table
  {
    Tables(DEAD_SERVER, map[ORPHAN := Family(6), LEADER := Leader(alive, 5), MEMBER := Member(true)])
  }

  lemma LeaderSteps()
    ensures Leads(Apart(), Fork(STRANGER, LEADER), Led(true, 2)) && Leads(Led(true, 2), OwnGroup(LEADER), Led(true, 5))
  {
    assert {STRANGER} + {LEADER} == {STRANGER, LEADER};
    assert Do(On(Apart()), Fork(STRANGER, LEADER)).procs == Led(true, 2);
    assert Do(On(Led(true, 2)), OwnGroup(LEADER)).procs == Led(true, 5);
  }

  lemma MemberFresh()
    ensures FreshPid(Led(true, 5), MEMBER) && IsAlive(Led(true, 5), LEADER)
  {
  }

  lemma MemberForked()
    ensures Leads(Led(true, 5), Fork(LEADER, MEMBER), Joined(true))
  {
    MemberFresh();
    assert {STRANGER, LEADER} + {MEMBER} == OUTSIDERS;
    assert Do(On(Led(true, 5)), Fork(LEADER, MEMBER)).procs == Joined(true);
  }

  lemma LeaderLeaves()
    ensures Leads(Joined(true), Exit(LEADER), Joined(false))
  {
    assert Do(On(Joined(true)), Exit(LEADER)).procs == Joined(false);
  }

  lemma JoinStep()
    ensures Leads(Joined(false), JoinGroup(ORPHAN, MEMBER), Mixed())
  {
    assert Do(On(Joined(false)), JoinGroup(ORPHAN, MEMBER)).procs == Mixed();
  }

  lemma ReachMixed(es: seq<Event>, x: Reaper) returns (es': seq<Event>)
    requires Playable(Trio(), es) && Play(Trio(), es) == View(On(Apart()), x)
    ensures Playable(Trio(), es') && Play(Trio(), es') == View(On(Mixed()), x)
  {
    LeaderSteps();
    MemberForked();
    LeaderLeaves();
    JoinStep();
    var a := Moves(es, Apart(), x, Fork(STRANGER, LEADER), Led(true, 2));
    var b := Moves(a, Led(true, 2), x, OwnGroup(LEADER), Led(true, 5));
    var c := Moves(b, Led(true, 5), x, Fork(LEADER, MEMBER), Joined(true));
    var d := Moves(c, Joined(true), x, Exit(LEADER), Joined(false));
    es' := Moves(d, Joined(false), x, JoinGroup(ORPHAN, MEMBER), Mixed());
  }

  lemma MixedFacts()
    ensures var t := Mixed();
            && IsAlive(t, REAPER) && !IsAlive(t, SERVER) && NoProcess(t, 5) && LivePids(t) == {2, 3, 6, 7}
            && StatInGroup(t, 6, 5) && EnvironHas(t, 6, 7)
  {
    var t := Mixed();
    assert InGroup(t, ORPHAN, 5) && IsAlive(t, ORPHAN);
    assert IsAlive(t, STRANGER) && IsAlive(t, REAPER) && IsAlive(t, MEMBER);
  }

  lemma FirstReads(t: Table)
    requires NoProcess(t, 5) && !IsAlive(t, SERVER) && LivePids(t) == {2, 3, 6, 7} && StatInGroup(t, 6, 5) && EnvironHas(t, 6, 7)
    ensures Read(t, Child(0, Turn), ReadStart(REAPER)) == Child(0, NoLeader)
    ensures Read(t, Child(0, NoLeader), ReadAbsent(REAPER)) == Child(0, Scanning({2, 3, 6, 7}, 0))
    ensures Read(t, Child(0, Scanning({2, 3, 6, 7}, 0)), ScanStat(REAPER, 6)) == Child(0, Checking({2, 3, 7}, 0, 6))
    ensures Read(t, Child(0, Checking({2, 3, 7}, 0, 6)), ScanEnviron(REAPER)) == Child(0, Scanning({2, 3, 7}, 1))
  {
    assert {2, 3, 6, 7} - {6} == {2, 3, 7};
  }

  /** The scan sees the orphan's tag first. */
  lemma ScanBegun(es: seq<Event>) returns (es': seq<Event>)
    requires Playable(Trio(), es) && Play(Trio(), es) == View(On(Mixed()), Child(0, Turn))
    ensures Playable(Trio(), es') && Play(Trio(), es') == View(On(Mixed()), Child(0, Scanning({2, 3, 7}, 1)))
  {
    var k := On(Mixed());
    MixedFacts();
    FirstReads(k.procs);
    var a := ReaperReads(es, k, Child(0, Turn), ReadStart(REAPER));
    var b := ReaperReads(a, k, Child(0, NoLeader), ReadAbsent(REAPER));
    var c := ReaperReads(b, k, Child(0, Scanning({2, 3, 6, 7}, 0)), ScanStat(REAPER, 6));
    es' := ReaperReads(c, k, Child(0, Checking({2, 3, 7}, 0, 6)), ScanEnviron(REAPER));
  }

  function Crowded(): Table
  {
    Tables(DEAD_SERVER, map[ORPHAN := Family(5), LEADER := Leader(false, 5), MEMBER := Member(true),
                            NEWBORN := Proc(true, 5, None, OUTSIDERS + {NEWBORN})])
  }

  lemma NewbornFresh()
    ensures FreshPid(Mixed(), NEWBORN) && IsAlive(Mixed(), MEMBER)
  {
  }

  lemma NewbornForked()
    ensures Leads(Mixed(), Fork(MEMBER, NEWBORN), Crowded())
  {
    NewbornFresh();
    assert Do(On(Mixed()), Fork(MEMBER, NEWBORN)).procs == Crowded();
  }

  lemma MemberLeaves()
    ensures Leads(Crowded(), Exit(MEMBER), Replaced())
  {
    assert Do(On(Crowded()), Exit(MEMBER)).procs == Replaced();
  }

  lemma MemberReplaced(es: seq<Event>, x: Reaper) returns (es': seq<Event>)
    requires Playable(Trio(), es) && Play(Trio(), es) == View(On(Mixed()), x)
    ensures Playable(Trio(), es') && Play(Trio(), es') == View(On(Replaced()), x)
  {
    NewbornForked();
    MemberLeaves();
    var a := Moves(es, Mixed(), x, Fork(MEMBER, NEWBORN), Crowded());
    es' := Moves(a, Crowded(), x, Exit(MEMBER), Replaced());
  }

  lemma ReplacedFacts()
    ensures var t := Replaced();
            && IsAlive(t, REAPER) && InGroup(t, NEWBORN, 5) && SERVER !in t[NEWBORN].ancestors
            && !StatInGroup(t, 2, 5) && !StatInGroup(t, 3, 5) && !StatInGroup(t, 7, 5)
  {
  }

  lemma ScanEnded(es: seq<Event>) returns (es': seq<Event>)
    requires Playable(Trio(), es) && Play(Trio(), es) == View(On(Replaced()), Child(0, Scanning({2, 3, 7}, 1)))
    ensures Playable(Trio(), es') && Play(Trio(), es') == View(On(Replaced()), Child(0, Proven))
  {
    ReplacedFacts();
    var k := On(Replaced());
    var a := ReaperReads(es, k, Child(0, Scanning({2, 3, 7}, 1)), ScanStat(REAPER, 7));
    assert {2, 3, 7} - {7} == {2, 3} && {2, 3} - {3} == {2} && {2} - {2} == {};
    var b := ReaperReads(a, k, Child(0, Scanning({2, 3}, 1)), ScanStat(REAPER, 3));
    var c := ReaperReads(b, k, Child(0, Scanning({2}, 1)), ScanStat(REAPER, 2));
    es' := ReaperReads(c, k, Child(0, Scanning({}, 1)), ScanEnd(REAPER));
  }

  /**
    The scan can miss a stranger without any pid being given out twice in it:
    an untagged member forks after the pids were listed and exits before its
    turn, and its child is killed with the group.
  */
  lemma NewbornIsSignalled() returns (es: seq<Event>)
    ensures Initial(Trio()) && Playable(Trio(), es) && !SignalledOk(Play(Trio(), es))
  {
    var a := OrphanFound();
    var b := ReachApart(a, Child(0, Turn));
    var c := ReachMixed(b, Child(0, Turn));
    var d := ScanBegun(c);
    var e := MemberReplaced(d, Child(0, Scanning({2, 3, 7}, 1)));
    var f := ScanEnded(e);
    ReplacedFacts();
    es := SignalHits(f, On(Replaced()), NEWBORN);
  }
}
