/**
  The ledger of spawned servers and the reaping of orphans, over a process
  table in which pids are recycled. A process instance is a pid with a start
  time; groups and tags pass from parent to child.
*/
module ChildLedger {
  import opened Basics

  datatype ProcessId = ProcessId(pid: nat, start: nat)

  /** `ancestors` (itself included) is history: it states who descends from whom. */
  datatype Proc = Proc(alive: bool, pgrp: nat, tag: Option<nat>, ancestors: set<ProcessId>)

  datatype ChildEntry = ChildEntry(process: ProcessId, tag: Option<nat>)

  datatype LedgerFile = LedgerFile(owner: ProcessId, children: seq<ChildEntry>)

  type Table = map<ProcessId, Proc>

  predicate IsAlive(t: Table, p: ProcessId)
  {
    p in t && t[p].alive
  }

  /** `process_start(pid)` is `None`. */
  predicate NoProcess(t: Table, pid: nat)
  {
    forall p <- t :: p.pid == pid ==> !t[p].alive
  }

  predicate InGroup(t: Table, p: ProcessId, pgid: nat)
  {
    IsAlive(t, p) && t[p].pgrp == pgid
  }

  predicate GroupCarriesTag(t: Table, pgid: nat, tag: nat)
  {
    (exists p <- t :: InGroup(t, p, pgid)) && forall p <- t :: InGroup(t, p, pgid) ==> t[p].tag == Some(tag)
  }

  /** The test in `kill_orphan_group`: the recorded leader, or a leaderless group all of whose members are tagged. */
  predicate Provable(t: Table, c: ChildEntry)
  {
    || (IsAlive(t, c.process) && t[c.process].pgrp == c.process.pid)
    || (c.tag.Some? && NoProcess(t, c.process.pid) && GroupCarriesTag(t, c.process.pid, c.tag.value))
  }

  function KillGroup(t: Table, pgid: nat): Table
  {
    map p | p in t :: if t[p].pgrp == pgid then t[p].(alive := false) else t[p]
  }

  /******* The kernel's side *******/

  /** `spawnedBy` and `tagged` are history: which gateway started which server, with which tag. */
  datatype Kernel = Kernel(procs: Table, spawnedBy: map<ProcessId, ProcessId>, tagged: map<nat, ProcessId>)

  datatype ProcEvent =
    | Fork(parent: ProcessId, child: ProcessId)
    | Spawn(g: ProcessId, server: ProcessId, tag: nat)
    | OwnGroup(p: ProcessId)
    | JoinGroup(p: ProcessId, peer: ProcessId)
    | DropTag(p: ProcessId)
    | Exit(p: ProcessId)
    | Kill(pgid: nat)

  /** Pid and start time name one process ever, and a pid in use as a pid or as a group is not given out. */
  predicate FreshPid(t: Table, p: ProcessId)
  {
    p !in t && NoProcess(t, p.pid) && forall q <- t :: t[q].alive ==> t[q].pgrp != p.pid
  }

  /** Signalling group `c.pid` would hit only `c` and its descendants, and its pid names nobody else. */
  predicate Safe(t: Table, c: ProcessId)
  {
    && (forall q <- t :: InGroup(t, q, c.pid) ==> c in t[q].ancestors)
    && (forall p <- t :: t[p].alive && p.pid == c.pid ==> p == c)
  }

  /** A group that is still a server's own is joined only by that server's descendants. */
  predicate MayJoin(k: Kernel, p: ProcessId, pgid: nat)
    requires p in k.procs
  {
    forall c <- k.spawnedBy :: c.pid == pgid && Safe(k.procs, c) ==> c in k.procs[p].ancestors
  }

  predicate Can(k: Kernel, e: ProcEvent)
  {
    match e
    case Fork(parent, child) => IsAlive(k.procs, parent) && FreshPid(k.procs, child)
    case Spawn(g, server, tag) => IsAlive(k.procs, g) && FreshPid(k.procs, server) && tag !in k.tagged
    case OwnGroup(p) => IsAlive(k.procs, p)
    case JoinGroup(p, peer) => IsAlive(k.procs, p) && IsAlive(k.procs, peer) && MayJoin(k, p, k.procs[peer].pgrp)
    case DropTag(p) => IsAlive(k.procs, p)
    case Exit(p) => IsAlive(k.procs, p)
    case Kill(_) => true
  }

  function Do(k: Kernel, e: ProcEvent): Kernel
    requires Can(k, e)
  {
    match e
    case Fork(parent, child) =>
      k.(procs := k.procs[child := k.procs[parent].(ancestors := k.procs[parent].ancestors + {child})])
    case Spawn(g, server, tag) =>
      Kernel(k.procs[server := Proc(true, server.pid, Some(tag), k.procs[g].ancestors + {server})],
             k.spawnedBy[server := g], k.tagged[tag := server])
    case OwnGroup(p) => k.(procs := k.procs[p := k.procs[p].(pgrp := p.pid)])
    case JoinGroup(p, peer) => k.(procs := k.procs[p := k.procs[p].(pgrp := k.procs[peer].pgrp)])
    case DropTag(p) => k.(procs := k.procs[p := k.procs[p].(tag := None)])
    case Exit(p) => k.(procs := k.procs[p := k.procs[p].(alive := false)])
    case Kill(pgid) => k.(procs := KillGroup(k.procs, pgid))
  }

  predicate PidsOk(t: Table)
  {
    && (forall p <- t :: p in t[p].ancestors)
    && (forall p <- t, q <- t :: t[p].alive && t[q].alive && p.pid == q.pid ==> p == q)
  }

  /** The live members of a live server's group descend from it. */
  predicate GroupsOk(k: Kernel)
  {
    && (forall c <- k.spawnedBy :: c in k.procs && k.spawnedBy[c] in k.procs)
    && (forall c <- k.spawnedBy, q <- k.procs :: IsAlive(k.procs, c) && InGroup(k.procs, q, c.pid) ==> c in k.procs[q].ancestors)
  }

  /** A tag is carried only by the server it was made for and its descendants. */
  predicate TagsOk(k: Kernel)
  {
    forall p <- k.procs :: k.procs[p].tag.Some? ==>
      k.procs[p].tag.value in k.tagged && k.tagged[k.procs[p].tag.value] in k.procs[p].ancestors
  }

  predicate KernelOk(k: Kernel)
  {
    PidsOk(k.procs) && GroupsOk(k) && TagsOk(k)
  }

  lemma DoKeepsPids(k: Kernel, e: ProcEvent)
    requires PidsOk(k.procs) && Can(k, e)
    ensures PidsOk(Do(k, e).procs)
  {
    match e
    case Fork(_, _) =>
    case Spawn(_, _, _) =>
    case OwnGroup(_) =>
    case JoinGroup(_, _) =>
    case DropTag(_) =>
    case Exit(_) =>
    case Kill(_) =>
  }

  lemma DoKeepsTags(k: Kernel, e: ProcEvent)
    requires TagsOk(k) && Can(k, e)
    ensures TagsOk(Do(k, e))
  {
    match e
    case Fork(_, _) =>
    case Spawn(_, _, _) =>
    case OwnGroup(_) =>
    case JoinGroup(_, _) =>
    case DropTag(_) =>
    case Exit(_) =>
    case Kill(_) =>
  }

  lemma NewKeepsGroups(k: Kernel, e: ProcEvent)
    requires KernelOk(k) && Can(k, e) && (e.Fork? || e.Spawn?)
    ensures GroupsOk(Do(k, e))
  {
    match e
    case Fork(_, _) =>
    case Spawn(_, _, _) =>
  }

  lemma RegroupKeepsGroups(k: Kernel, e: ProcEvent)
    requires KernelOk(k) && Can(k, e) && (e.OwnGroup? || e.JoinGroup?)
    ensures GroupsOk(Do(k, e))
  {
    match e
    case OwnGroup(_) =>
    case JoinGroup(_, peer) =>
      assert forall c <- k.spawnedBy :: c.pid == k.procs[peer].pgrp && IsAlive(k.procs, c) ==> Safe(k.procs, c);
  }

  lemma DoKeepsGroups(k: Kernel, e: ProcEvent)
    requires KernelOk(k) && Can(k, e)
    ensures GroupsOk(Do(k, e))
  {
    match e
    case Fork(_, _) => NewKeepsGroups(k, e);
    case Spawn(_, _, _) => NewKeepsGroups(k, e);
    case OwnGroup(_) => RegroupKeepsGroups(k, e);
    case JoinGroup(_, _) => RegroupKeepsGroups(k, e);
    case DropTag(_) =>
    case Exit(_) =>
    case Kill(_) =>
  }

  /** Processes appear and die, and history only grows. */
  predicate Grows(k: Kernel, k': Kernel)
  {
    && (forall p <- k.procs :: p in k'.procs && k'.procs[p].ancestors == k.procs[p].ancestors
          && (k'.procs[p].alive ==> k.procs[p].alive))
    && (forall c <- k.spawnedBy :: c in k'.spawnedBy && k'.spawnedBy[c] == k.spawnedBy[c])
    && (forall t <- k.tagged :: t in k'.tagged && k'.tagged[t] == k.tagged[t])
  }

  lemma TableGrows(k: Kernel, e: ProcEvent, p: ProcessId)
    requires Can(k, e) && p in k.procs
    ensures p in Do(k, e).procs && Do(k, e).procs[p].ancestors == k.procs[p].ancestors
    ensures Do(k, e).procs[p].alive ==> k.procs[p].alive
  {
  }

  lemma DoGrows(k: Kernel, e: ProcEvent)
    requires KernelOk(k) && Can(k, e)
    ensures Grows(k, Do(k, e))
  {
    forall p <- k.procs
      ensures p in Do(k, e).procs && Do(k, e).procs[p].ancestors == k.procs[p].ancestors && (Do(k, e).procs[p].alive ==> k.procs[p].alive)
    {
      TableGrows(k, e, p);
    }
    assert e.Spawn? ==> e.server !in k.spawnedBy;
  }

  /** The entry names a server its owner started, with the tag that server was given. */
  predicate Truthful(k: Kernel, owner: ProcessId, c: ChildEntry)
  {
    && c.process in k.spawnedBy && k.spawnedBy[c.process] == owner
    && (c.tag.Some? ==> c.tag.value in k.tagged && k.tagged[c.tag.value] == c.process)
  }

  /** The proof that `kill_orphan_group` asks for is a proof: what it passes is safe to signal. */
  lemma ProvableIsSafe(k: Kernel, c: ChildEntry)
    requires KernelOk(k) && Provable(k.procs, c)
    requires c.process in k.spawnedBy && Truthful(k, k.spawnedBy[c.process], c)
    ensures Safe(k.procs, c.process)
  {
    if !IsAlive(k.procs, c.process) {
      forall q <- k.procs | InGroup(k.procs, q, c.process.pid) ensures c.process in k.procs[q].ancestors {
        assert k.procs[q].tag == Some(c.tag.value);
      }
    }
  }

  /** `e` gives the pid to a new process. */
  predicate Recycles(e: ProcEvent, pid: nat)
  {
    (e.Fork? && e.child.pid == pid) || (e.Spawn? && e.server.pid == pid)
  }

  /** `e` brings a process into group `c.pid` that does not descend from `c`. */
  predicate StrangerEnters(k: Kernel, e: ProcEvent, c: ProcessId)
    requires Can(k, e)
  {
    || (e.Fork? && InGroup(k.procs, e.parent, c.pid) && c !in k.procs[e.parent].ancestors)
    || (e.JoinGroup? && k.procs[e.peer].pgrp == c.pid && c !in k.procs[e.p].ancestors)
  }

  /** Nothing but handing its pid to a new process makes a safe target unsafe. */
  lemma DoKeepsSafe(k: Kernel, e: ProcEvent, c: ProcessId)
    requires KernelOk(k) && Can(k, e) && c in k.spawnedBy && Safe(k.procs, c) && !Recycles(e, c.pid)
    ensures Safe(Do(k, e).procs, c)
  {
    match e
    case Fork(_, _) =>
    case Spawn(_, _, _) =>
    case OwnGroup(_) =>
    case JoinGroup(_, _) =>
    case DropTag(_) =>
    case Exit(_) =>
    case Kill(_) =>
  }

  /** No process but `c` itself has its pid. */
  predicate Sole(t: Table, c: ProcessId)
  {
    forall p <- t :: t[p].alive && p.pid == c.pid ==> p == c
  }

  lemma DoKeepsSole(k: Kernel, e: ProcEvent, c: ProcessId)
    requires Can(k, e) && Sole(k.procs, c) && !Recycles(e, c.pid)
    ensures Sole(Do(k, e).procs, c)
  {
  }

  /** Nobody has the pid, and the members of its group that do not descend from `c` have pids in `unseen`. */
  predicate Scanned(t: Table, c: ProcessId, unseen: set<nat>)
  {
    && NoProcess(t, c.pid)
    && forall q <- t :: InGroup(t, q, c.pid) && c !in t[q].ancestors ==> q.pid in unseen
  }

  lemma DoKeepsScanned(k: Kernel, e: ProcEvent, c: ProcessId, unseen: set<nat>)
    requires Can(k, e) && Scanned(k.procs, c, unseen) && !Recycles(e, c.pid) && !StrangerEnters(k, e, c)
    ensures Scanned(Do(k, e).procs, c, unseen)
  {
    match e
    case Fork(_, _) =>
    case Spawn(_, _, _) =>
    case OwnGroup(_) =>
    case JoinGroup(_, _) =>
    case DropTag(_) =>
    case Exit(_) =>
    case Kill(_) =>
  }

  /******* Gateways and reapers, interleaved *******/

  /**
    How far `kill_orphan_group` is with the next child: before its first read,
    the start time seen, the leader ruled out, the /proc scan with the pids
    listed and not yet looked at, one pid's group read and its environment
    not, and the group taken as proven.
  */
  datatype Stage =
    | Turn
    | SawStart
    | NoLeader
    | Scanning(todo: set<nat>, members: nat)
    | Checking(todo: set<nat>, members: nat, pid: nat)
    | Proven

  /** A reaper: idle, with a file read, or past the owner check and at child `next`. */
  datatype Reaper = Idle | Opened(path: nat, file: LedgerFile) | At(path: nat, file: LedgerFile, next: nat, stage: Stage)

  /**
    `files` are keyed by the owner pid in their name. `recorded` and
    `signalled` are history: which servers were put in a ledger, and which
    processes were sent SIGKILL.
  */
  datatype World = World(
    k: Kernel, files: map<nat, LedgerFile>, ledgers: map<ProcessId, seq<ChildEntry>>,
    recorded: set<ProcessId>, reapers: map<ProcessId, Reaper>, signalled: set<ProcessId>)

  datatype Event =
    | Process(e: ProcEvent)
    | Bind(g: ProcessId)
    | Record(g: ProcessId, server: ProcessId, tag: nat)
    | Forget(g: ProcessId, pid: nat)
    | ReapOpen(r: ProcessId, path: nat)
    | ReapCheck(r: ProcessId)
    | ReadStart(r: ProcessId)
    | ReadGroup(r: ProcessId)
    | ReadAbsent(r: ProcessId)
    | ScanStat(r: ProcessId, pid: nat)
    | ScanEnviron(r: ProcessId)
    | ScanEnd(r: ProcessId)
    | ReapKill(r: ProcessId, works: bool)
    | ReapRemove(r: ProcessId)

  predicate HasTarget(x: Reaper)
  {
    x.At? && x.next < |x.file.children|
  }

  function Target(x: Reaper): ChildEntry
    requires HasTarget(x)
  {
    x.file.children[x.next]
  }

  /** The reaper lives and is at a child with this stage. */
  predicate Facing(w: World, r: ProcessId)
  {
    r in w.reapers && IsAlive(w.k.procs, r) && HasTarget(w.reapers[r])
  }

  predicate Enabled(w: World, e: Event)
  {
    match e
    case Process(p) => Can(w.k, p) && !p.Kill?
    case Bind(g) => IsAlive(w.k.procs, g) && g !in w.ledgers
    case Record(g, server, tag) =>
      && IsAlive(w.k.procs, g) && g in w.ledgers && server in w.k.spawnedBy && w.k.spawnedBy[server] == g
      && tag in w.k.tagged && w.k.tagged[tag] == server
    case Forget(g, _) => IsAlive(w.k.procs, g) && g in w.ledgers
    case ReapOpen(r, path) => IsAlive(w.k.procs, r) && path in w.files && (r in w.reapers ==> w.reapers[r].Idle?)
    case ReapCheck(r) => r in w.reapers && IsAlive(w.k.procs, r) && w.reapers[r].Opened?
    case ReadStart(r) => Facing(w, r) && w.reapers[r].stage.Turn?
    case ReadGroup(r) => Facing(w, r) && w.reapers[r].stage.SawStart?
    case ReadAbsent(r) => Facing(w, r) && w.reapers[r].stage.NoLeader?
    case ScanStat(r, _) => Facing(w, r) && w.reapers[r].stage.Scanning?
    case ScanEnviron(r) => Facing(w, r) && w.reapers[r].stage.Checking?
    case ScanEnd(r) => Facing(w, r) && w.reapers[r].stage.Scanning? && w.reapers[r].stage.todo == {}
    case ReapKill(r, _) => Facing(w, r) && w.reapers[r].stage.Proven?
    case ReapRemove(r) =>
      r in w.reapers && IsAlive(w.k.procs, r) && w.reapers[r].At? && w.reapers[r].stage.Turn? && !HasTarget(w.reapers[r])
  }

  predicate ReapEvent(e: Event)
  {
    ReadEvent(e) || e.ReapOpen? || e.ReapCheck? || e.ReapKill? || e.ReapRemove?
  }

  /** A read of the process table. */
  predicate ReadEvent(e: Event)
  {
    e.ReadStart? || e.ReadGroup? || e.ReadAbsent? || e.ScanStat? || e.ScanEnviron? || e.ScanEnd?
  }

  function Without(children: seq<ChildEntry>, pid: nat): seq<ChildEntry>
  {
    if children == [] then []
    else
      var rest := Without(children[1..], pid);
      if children[0].process.pid != pid then [children[0]] + rest else rest
  }

  /** `save`: an empty ledger removes its file. */
  function Save(w: World, g: ProcessId, children: seq<ChildEntry>): World
  {
    w.(ledgers := w.ledgers[g := children],
       files := if children == [] then w.files - {g.pid} else w.files[g.pid := LedgerFile(g, children)])
  }

  /** What a `record` or `forget` leaves in the ledger. */
  function Rewritten(w: World, e: Event): seq<ChildEntry>
    requires (e.Record? || e.Forget?) && Enabled(w, e)
  {
    if e.Record? then Without(w.ledgers[e.g], e.server.pid) + [ChildEntry(e.server, Some(e.tag))]
    else Without(w.ledgers[e.g], e.pid)
  }

  /** `getpgid(pid) == pid`, asked of whoever has the pid now. */
  predicate LeadsGroup(t: Table, pid: nat)
  {
    exists p <- t :: InGroup(t, p, pid) && p.pid == pid
  }

  /** `linux_stat(pid)` shows a process of the group. */
  predicate StatInGroup(t: Table, pid: nat, pgid: nat)
  {
    exists p <- t :: InGroup(t, p, pgid) && p.pid == pid
  }

  /** `/proc/<pid>/environ` can be read and holds the tag. */
  predicate EnvironHas(t: Table, pid: nat, tag: nat)
  {
    exists p <- t :: IsAlive(t, p) && p.pid == pid && t[p].tag == Some(tag)
  }

  /** The pids listed under /proc. */
  function LivePids(t: Table): set<nat>
  {
    set p <- t | t[p].alive :: p.pid
  }

  function Next(x: Reaper): Reaper
    requires x.At?
  {
    x.(next := x.next + 1, stage := Turn)
  }

  /** Not the recorded leader: a tagged child is looked for by its tag. */
  function Fallback(x: Reaper): Reaper
    requires HasTarget(x)
  {
    if Target(x).tag.Some? then x.(stage := NoLeader) else Next(x)
  }

  /** One read of the proof, on the table as it is at that moment. */
  function Read(t: Table, x: Reaper, e: Event): Reaper
    requires ReadEvent(e) && HasTarget(x)
  {
    var c := Target(x);
    match x.stage
    case Turn => if IsAlive(t, c.process) then x.(stage := SawStart) else Fallback(x)
    case SawStart => if LeadsGroup(t, c.process.pid) then x.(stage := Proven) else Fallback(x)
    case NoLeader => if NoProcess(t, c.process.pid) then x.(stage := Scanning(LivePids(t), 0)) else Next(x)
    case Scanning(todo, members) =>
      if e.ScanEnd? then (if members > 0 then x.(stage := Proven) else Next(x))
      else if !e.ScanStat? then x
      else if StatInGroup(t, e.pid, c.process.pid) then x.(stage := Checking(todo - {e.pid}, members, e.pid))
      else x.(stage := Scanning(todo - {e.pid}, members))
    case Checking(todo, members, pid) =>
      if c.tag.Some? && EnvironHas(t, pid, c.tag.value) then x.(stage := Scanning(todo, members + 1)) else Next(x)
    case Proven => x
  }

  function Advance(w: World, e: Event): Reaper
    requires Enabled(w, e) && ReapEvent(e)
  {
    if e.ReapOpen? then Opened(e.path, w.files[e.path])
    else
      var x := w.reapers[e.r];
      if e.ReapCheck? then
        if x.file.owner.pid == e.r.pid || IsAlive(w.k.procs, x.file.owner) then Idle else At(x.path, x.file, 0, Turn)
      else if e.ReapKill? then Next(x)
      else if e.ReapRemove? then Idle
      else Read(w.k.procs, x, e)
  }

  function Apply(w: World, e: Event): World
    requires Enabled(w, e)
  {
    match e
    case Process(p) => w.(k := Do(w.k, p))
    case Bind(g) => w.(ledgers := w.ledgers[g := []])
    case Record(g, server, _) => Save(w, g, Rewritten(w, e)).(recorded := w.recorded + {server})
    case Forget(g, _) => if |Rewritten(w, e)| == |w.ledgers[g]| then w else Save(w, g, Rewritten(w, e))
    case ReapKill(r, works) =>
      var pgid := Target(w.reapers[r]).process.pid;
      var w' := w.(reapers := w.reapers[r := Advance(w, e)]);
      if !works then w'
      else w'.(k := Do(w.k, Kill(pgid)), signalled := w.signalled + set q | q in w.k.procs && InGroup(w.k.procs, q, pgid))
    case ReapRemove(r) => w.(reapers := w.reapers[r := Advance(w, e)], files := w.files - {w.reapers[r].path})
    case _ => w.(reapers := w.reapers[e.r := Advance(w, e)])
  }

  predicate Initial(w: World)
  {
    && w.files == map[] && w.ledgers == map[] && w.reapers == map[] && w.recorded == {} && w.signalled == {}
    && w.k.spawnedBy == map[] && w.k.tagged == map[] && PidsOk(w.k.procs)
    && forall p <- w.k.procs :: w.k.procs[p].tag.None?
  }

  predicate Playable(w: World, es: seq<Event>)
    decreases |es|, 0
  {
    es == [] || (Playable(w, es[..|es| - 1]) && Enabled(Play(w, es[..|es| - 1]), es[|es| - 1]))
  }

  function Play(w: World, es: seq<Event>): World
    requires Playable(w, es)
    decreases |es|, 1
  {
    if es == [] then w else Apply(Play(w, es[..|es| - 1]), es[|es| - 1])
  }

  /******* What every step keeps *******/

  predicate EntryOk(w: World, owner: ProcessId, c: ChildEntry)
  {
    c.process in w.recorded && Truthful(w.k, owner, c)
  }

  predicate ChildrenOk(w: World, owner: ProcessId, children: seq<ChildEntry>)
  {
    owner in w.k.procs && forall c <- children :: EntryOk(w, owner, c)
  }

  predicate FileOk(w: World, path: nat, file: LedgerFile)
  {
    file.owner.pid == path && ChildrenOk(w, file.owner, file.children)
  }

  predicate ReaperOk(w: World, x: Reaper)
  {
    || x.Idle?
    || (&& FileOk(w, x.path, x.file)
        && (x.At? ==> !w.k.procs[x.file.owner].alive && x.next <= |x.file.children| && (HasTarget(x) || x.stage.Turn?)))
  }

  ghost predicate Inv(w: World)
  {
    && KernelOk(w.k)
    && (forall g <- w.ledgers :: ChildrenOk(w, g, w.ledgers[g]))
    && (forall path <- w.files :: FileOk(w, path, w.files[path]))
    && (forall r <- w.reapers :: ReaperOk(w, w.reapers[r]))
  }

  lemma FileStaysOk(w: World, w': World, path: nat, file: LedgerFile)
    requires Grows(w.k, w'.k) && w.recorded <= w'.recorded && FileOk(w, path, file)
    ensures FileOk(w', path, file)
  {
    forall c <- file.children ensures EntryOk(w', file.owner, c) {
      assert EntryOk(w, file.owner, c);
    }
  }

  lemma ReaperStaysOk(w: World, w': World, x: Reaper)
    requires Grows(w.k, w'.k) && w.recorded <= w'.recorded && ReaperOk(w, x)
    ensures ReaperOk(w', x)
  {
    if !x.Idle? {
      FileStaysOk(w, w', x.path, x.file);
    }
  }

  /** Records that a step leaves alone stay truthful; the ones it changes are checked apart. */
  lemma RecordsStayOk(w: World, w': World)
    requires Inv(w) && Grows(w.k, w'.k) && w.recorded <= w'.recorded && KernelOk(w'.k)
    requires forall g <- w'.ledgers :: (g in w.ledgers && w'.ledgers[g] == w.ledgers[g]) || ChildrenOk(w', g, w'.ledgers[g])
    requires forall p <- w'.files :: (p in w.files && w'.files[p] == w.files[p]) || FileOk(w', p, w'.files[p])
    requires forall r <- w'.reapers :: (r in w.reapers && w'.reapers[r] == w.reapers[r]) || ReaperOk(w', w'.reapers[r])
    ensures Inv(w')
  {
    forall g <- w'.ledgers ensures ChildrenOk(w', g, w'.ledgers[g]) {
      if g in w.ledgers && w'.ledgers[g] == w.ledgers[g] {
        FileStaysOk(w, w', g.pid, LedgerFile(g, w.ledgers[g]));
      }
    }
    forall p <- w'.files ensures FileOk(w', p, w'.files[p]) {
      if p in w.files && w'.files[p] == w.files[p] {
        FileStaysOk(w, w', p, w.files[p]);
      }
    }
    forall r <- w'.reapers ensures ReaperOk(w', w'.reapers[r]) {
      if r in w.reapers && w'.reapers[r] == w.reapers[r] {
        ReaperStaysOk(w, w', w.reapers[r]);
      }
    }
  }

  lemma DoKeepsKernel(k: Kernel, e: ProcEvent)
    requires KernelOk(k) && Can(k, e)
    ensures KernelOk(Do(k, e)) && Grows(k, Do(k, e))
  {
    DoKeepsPids(k, e);
    DoKeepsTags(k, e);
    DoKeepsGroups(k, e);
    DoGrows(k, e);
  }

  lemma WithoutMembers(children: seq<ChildEntry>, pid: nat)
    ensures forall c <- Without(children, pid) :: c in children && c.process.pid != pid
    ensures forall c <- children :: c.process.pid != pid ==> c in Without(children, pid)
    ensures |Without(children, pid)| <= |children|
    ensures |Without(children, pid)| == |children| ==> Without(children, pid) == children
  {
    if children != [] {
      WithoutMembers(children[1..], pid);
      assert children == [children[0]] + children[1..];
    }
  }

  lemma RewriteOk(w: World, e: Event)
    requires Inv(w) && (e.Record? || e.Forget?) && Enabled(w, e)
    ensures ChildrenOk(Apply(w, e), e.g, Rewritten(w, e))
  {
    assert ChildrenOk(w, e.g, w.ledgers[e.g]);
    WithoutMembers(w.ledgers[e.g], if e.Record? then e.server.pid else e.pid);
    forall c <- Rewritten(w, e) ensures EntryOk(Apply(w, e), e.g, c) {
      if c in w.ledgers[e.g] {
        assert EntryOk(w, e.g, c);
      }
    }
  }

  /** A save touches its own ledger and its own file. */
  lemma SaveTouches(w: World, e: Event)
    requires (e.Record? || e.Forget?) && Enabled(w, e)
    ensures var w' := Apply(w, e);
            && w'.k == w.k && w'.reapers == w.reapers && w.recorded <= w'.recorded
            && (forall g <- w'.ledgers :: (g in w.ledgers && w'.ledgers[g] == w.ledgers[g]) || (g == e.g && w'.ledgers[g] == Rewritten(w, e)))
            && (forall p <- w'.files :: (p in w.files && w'.files[p] == w.files[p])
                                        || (p == e.g.pid && w'.files[p] == LedgerFile(e.g, Rewritten(w, e))))
  {
  }

  lemma SaveKeepsInv(w: World, e: Event)
    requires Inv(w) && (e.Record? || e.Forget?) && Enabled(w, e)
    ensures Inv(Apply(w, e))
  {
    RewriteOk(w, e);
    SaveTouches(w, e);
    RecordsStayOk(w, Apply(w, e));
  }

  lemma ReadStays(t: Table, x: Reaper, e: Event)
    requires ReadEvent(e) && HasTarget(x)
    ensures var x' := Read(t, x, e);
            && x'.At? && x'.path == x.path && x'.file == x.file
            && (x'.next == x.next || (x'.next == x.next + 1 && x'.stage.Turn?))
  {
  }

  lemma AdvanceOk(w: World, e: Event)
    requires Inv(w) && ReapEvent(e) && Enabled(w, e)
    ensures ReaperOk(w, Advance(w, e))
  {
    if !e.ReapOpen? {
      assert ReaperOk(w, w.reapers[e.r]);
    }
    if ReadEvent(e) {
      ReadStays(w.k.procs, w.reapers[e.r], e);
    }
  }

  lemma ReapKeepsInv(w: World, e: Event)
    requires Inv(w) && ReapEvent(e) && Enabled(w, e)
    ensures Inv(Apply(w, e))
  {
    AdvanceOk(w, e);
    var w' := Apply(w, e);
    if e.ReapKill? {
      DoKeepsKernel(w.k, Kill(Target(w.reapers[e.r]).process.pid));
    }
    ReapTouches(w, e);
    ReaperStaysOk(w, w', Advance(w, e));
    RecordsStayOk(w, w');
  }

  lemma ReapTouches(w: World, e: Event)
    requires ReapEvent(e) && Enabled(w, e)
    ensures var w' := Apply(w, e);
            && w'.ledgers == w.ledgers && w'.recorded == w.recorded && w'.reapers == w.reapers[e.r := Advance(w, e)]
            && (w'.k == w.k || (e.ReapKill? && e.works && w'.k == Do(w.k, Kill(Target(w.reapers[e.r]).process.pid))))
            && (forall p <- w'.files :: p in w.files && w'.files[p] == w.files[p])
  {
  }

  lemma StepKeepsInv(w: World, e: Event)
    requires Inv(w) && Enabled(w, e)
    ensures Inv(Apply(w, e))
  {
    match e
    case Process(p) =>
      DoKeepsKernel(w.k, p);
      RecordsStayOk(w, Apply(w, e));
    case Bind(_) => RecordsStayOk(w, Apply(w, e));
    case Record(_, _, _) => SaveKeepsInv(w, e);
    case Forget(_, _) => SaveKeepsInv(w, e);
    case _ => ReapKeepsInv(w, e);
  }

  lemma {:induction false} RunKeepsInv(w: World, es: seq<Event>)
    requires Initial(w) && Playable(w, es)
    ensures Inv(Play(w, es))
  {
    if es != [] {
      RunKeepsInv(w, es[..|es| - 1]);
      StepKeepsInv(Play(w, es[..|es| - 1]), es[|es| - 1]);
    }
  }

  /******* Safety over runs *******/

  predicate Reading(x: Reaper)
  {
    HasTarget(x) && (x.stage.SawStart? || x.stage.Scanning? || x.stage.Checking? || x.stage.Proven?)
  }

  predicate Scans(x: Reaper)
  {
    HasTarget(x) && (x.stage.Scanning? || x.stage.Checking?)
  }

  /** What a process event must not do to a reaper's proof while that is under way. */
  predicate Undisturbed(k: Kernel, e: ProcEvent, x: Reaper)
    requires Can(k, e)
  {
    && (Reading(x) ==> !Recycles(e, Target(x).process.pid))
    && (Scans(x) ==> !StrangerEnters(k, e, Target(x).process))
  }

  /**
    No proof is disturbed: from the first read that counts towards it until the
    signal its pid is not given to a new process, and while a leaderless group
    is scanned no stranger comes into it.
  */
  predicate ProofsUndisturbed(w: World, e: Event)
    requires Enabled(w, e)
  {
    e.Process? ==> forall r <- w.reapers :: Undisturbed(w.k, e.e, w.reapers[r])
  }

  predicate UndisturbedRun(w: World, es: seq<Event>)
    requires Playable(w, es)
  {
    es == [] || (UndisturbedRun(w, es[..|es| - 1]) && ProofsUndisturbed(Play(w, es[..|es| - 1]), es[|es| - 1]))
  }

  /** While a dead owner's file is being handled, no later gateway with that pid records a server. */
  predicate NoNamesake(w: World, e: Event)
  {
    e.Record? ==> forall r <- w.reapers :: !w.reapers[r].Idle? && w.reapers[r].path == e.g.pid ==> w.reapers[r].file.owner == e.g
  }

  predicate NamesakeFreeRun(w: World, es: seq<Event>)
    requires Playable(w, es)
  {
    es == [] || (NamesakeFreeRun(w, es[..|es| - 1]) && NoNamesake(Play(w, es[..|es| - 1]), es[|es| - 1]))
  }

  /** What a proof has established so far about the group it is after. */
  predicate StageOk(t: Table, x: Reaper)
    requires HasTarget(x)
  {
    var c := Target(x).process;
    match x.stage
    case Turn => true
    case SawStart => Sole(t, c)
    case NoLeader => true
    case Scanning(todo, _) => Scanned(t, c, todo)
    case Checking(todo, _, pid) => Scanned(t, c, todo + {pid})
    case Proven => Safe(t, c)
  }

  predicate ProofsOk(w: World)
  {
    forall r <- w.reapers :: HasTarget(w.reapers[r]) ==> StageOk(w.k.procs, w.reapers[r])
  }

  lemma DoKeepsStage(k: Kernel, e: ProcEvent, x: Reaper)
    requires KernelOk(k) && Can(k, e) && HasTarget(x) && Target(x).process in k.spawnedBy
    requires Undisturbed(k, e, x) && StageOk(k.procs, x)
    ensures StageOk(Do(k, e).procs, x)
  {
    var c := Target(x).process;
    match x.stage
    case Turn =>
    case SawStart => DoKeepsSole(k, e, c);
    case NoLeader =>
    case Scanning(todo, _) => DoKeepsScanned(k, e, c, todo);
    case Checking(todo, _, pid) => DoKeepsScanned(k, e, c, todo + {pid});
    case Proven => DoKeepsSafe(k, e, c);
  }

  /** The leader seen alive, and then a group leader under its pid that can only be itself. */
  lemma LeaderIsSafe(k: Kernel, c: ProcessId)
    requires KernelOk(k) && c in k.spawnedBy && Sole(k.procs, c) && LeadsGroup(k.procs, c.pid)
    ensures Safe(k.procs, c)
  {
    var p :| p in k.procs && InGroup(k.procs, p, c.pid) && p.pid == c.pid;
    assert p == c;
  }

  lemma AbsentStarts(t: Table, c: ProcessId)
    requires NoProcess(t, c.pid)
    ensures Scanned(t, c, LivePids(t))
  {
  }

  /** A pid whose process is not in the group needs no second look. */
  lemma StatClears(t: Table, c: ProcessId, todo: set<nat>, pid: nat)
    requires Scanned(t, c, todo) && !StatInGroup(t, pid, c.pid)
    ensures Scanned(t, c, todo - {pid})
  {
    forall q <- t | InGroup(t, q, c.pid) && c !in t[q].ancestors ensures q.pid in todo - {pid} {
      assert q.pid in todo;
    }
  }

  /** Neither does one whose process carries the tag. */
  lemma TagClears(k: Kernel, c: ProcessId, tag: nat, todo: set<nat>, pid: nat)
    requires KernelOk(k) && Scanned(k.procs, c, todo + {pid}) && EnvironHas(k.procs, pid, tag)
    requires tag in k.tagged && k.tagged[tag] == c
    ensures Scanned(k.procs, c, todo)
  {
    var p :| p in k.procs && IsAlive(k.procs, p) && p.pid == pid && k.procs[p].tag == Some(tag);
    forall q <- k.procs | InGroup(k.procs, q, c.pid) && c !in k.procs[q].ancestors ensures q.pid in todo {
      assert q.pid == pid ==> q == p;
    }
  }

  lemma ReadKeepsStage(k: Kernel, x: Reaper, e: Event)
    requires KernelOk(k) && HasTarget(x) && ReadEvent(e) && StageOk(k.procs, x)
    requires e.ScanEnd? && x.stage.Scanning? ==> x.stage.todo == {}
    requires Target(x).process in k.spawnedBy && Truthful(k, k.spawnedBy[Target(x).process], Target(x))
    ensures HasTarget(Read(k.procs, x, e)) ==> StageOk(k.procs, Read(k.procs, x, e))
  {
    var t, c := k.procs, Target(x).process;
    match x.stage
    case Turn =>
    case SawStart =>
      if LeadsGroup(t, c.pid) {
        LeaderIsSafe(k, c);
      }
    case NoLeader =>
      if NoProcess(t, c.pid) {
        AbsentStarts(t, c);
      }
    case Scanning(todo, _) =>
      if e.ScanStat? {
        if !StatInGroup(t, e.pid, c.pid) {
          StatClears(t, c, todo, e.pid);
        }
      }
    case Checking(todo, _, pid) =>
      if Target(x).tag.Some? && EnvironHas(t, pid, Target(x).tag.value) {
        TagClears(k, c, Target(x).tag.value, todo, pid);
      }
    case Proven =>
  }

  lemma ProofStaysOk(w: World, e: Event, r: ProcessId)
    requires Inv(w) && Enabled(w, e) && ProofsUndisturbed(w, e) && ProofsOk(w)
    requires r in w.reapers && HasTarget(w.reapers[r]) && !(ReapEvent(e) && e.r == r)
    ensures StageOk(Apply(w, e).k.procs, w.reapers[r])
  {
    var x := w.reapers[r];
    assert ReaperOk(w, x);
    assert EntryOk(w, x.file.owner, Target(x));
    if e.Process? {
      DoKeepsStage(w.k, e.e, x);
    } else if e.ReapKill? && e.works {
      DoKeepsStage(w.k, Kill(Target(w.reapers[e.r]).process.pid), x);
    } else {
      TableStays(w, e);
    }
  }

  lemma TableStays(w: World, e: Event)
    requires Enabled(w, e) && !e.Process? && !(e.ReapKill? && e.works)
    ensures Apply(w, e).k == w.k
  {
  }

  lemma OwnProofOk(w: World, e: Event)
    requires Inv(w) && Enabled(w, e) && ReapEvent(e) && ProofsOk(w) && HasTarget(Advance(w, e))
    ensures StageOk(Apply(w, e).k.procs, Advance(w, e))
  {
    if ReadEvent(e) {
      var x := w.reapers[e.r];
      assert ReaperOk(w, x) && EntryOk(w, x.file.owner, Target(x));
      ReadKeepsStage(w.k, x, e);
    }
  }

  lemma StepKeepsProofs(w: World, e: Event)
    requires Inv(w) && Enabled(w, e) && ProofsUndisturbed(w, e) && ProofsOk(w)
    ensures ProofsOk(Apply(w, e))
  {
    var w' := Apply(w, e);
    if ReapEvent(e) {
      ReapTouches(w, e);
    }
    forall r <- w'.reapers | HasTarget(w'.reapers[r]) ensures StageOk(w'.k.procs, w'.reapers[r]) {
      if ReapEvent(e) && e.r == r {
        OwnProofOk(w, e);
      } else {
        ProofStaysOk(w, e, r);
      }
    }
  }

  /** The process is, or descends from, a recorded server whose gateway is dead. */
  ghost predicate Orphaned(w: World, q: ProcessId)
  {
    && q in w.k.procs
    && exists c <- w.recorded :: c in w.k.procs[q].ancestors && c in w.k.spawnedBy
         && w.k.spawnedBy[c] in w.k.procs && !w.k.procs[w.k.spawnedBy[c]].alive
  }

  /** No reaper holds a file in the name of another owner than the one on disk. */
  predicate PathsOk(w: World)
  {
    forall r <- w.reapers :: !w.reapers[r].Idle? && w.reapers[r].path in w.files ==>
      w.files[w.reapers[r].path].owner == w.reapers[r].file.owner
  }

  /** A live gateway's file is its ledger. */
  predicate LiveFilesOk(w: World)
  {
    forall g <- w.ledgers :: IsAlive(w.k.procs, g) && w.ledgers[g] != [] ==>
      g.pid in w.files && w.files[g.pid] == LedgerFile(g, w.ledgers[g])
  }

  /** Whoever was orphaned stays so. */
  lemma OrphanedStays(w: World, w': World, q: ProcessId)
    requires Grows(w.k, w'.k) && w.recorded <= w'.recorded && Orphaned(w, q)
    ensures Orphaned(w', q)
  {
    var c :| c in w.recorded && c in w.k.procs[q].ancestors && c in w.k.spawnedBy
      && w.k.spawnedBy[c] in w.k.procs && !w.k.procs[w.k.spawnedBy[c]].alive;
    assert c in w'.recorded && c in w'.k.procs[q].ancestors && c in w'.k.spawnedBy;
  }

  lemma KillHitsOrphans(w: World, r: ProcessId, q: ProcessId)
    requires Inv(w) && ProofsOk(w) && Enabled(w, ReapKill(r, true))
    requires InGroup(w.k.procs, q, Target(w.reapers[r]).process.pid)
    ensures Orphaned(w, q)
  {
    var x := w.reapers[r];
    assert ReaperOk(w, x) && EntryOk(w, x.file.owner, Target(x));
    assert Safe(w.k.procs, Target(x).process);
    assert Target(x).process in w.recorded && Target(x).process in w.k.procs[q].ancestors;
  }

  lemma StepGrows(w: World, e: Event)
    requires Inv(w) && Enabled(w, e)
    ensures Grows(w.k, Apply(w, e).k) && w.recorded <= Apply(w, e).recorded
  {
    if e.Process? {
      DoGrows(w.k, e.e);
    } else if e.ReapKill? && e.works {
      DoGrows(w.k, Kill(Target(w.reapers[e.r]).process.pid));
    }
  }

  ghost predicate SignalledOk(w: World)
  {
    forall q <- w.signalled :: Orphaned(w, q)
  }

  lemma NewlySignalled(w: World, e: Event, q: ProcessId)
    requires Enabled(w, e) && q in Apply(w, e).signalled && q !in w.signalled
    ensures e.ReapKill? && e.works && InGroup(w.k.procs, q, Target(w.reapers[e.r]).process.pid)
  {
  }

  lemma StepKeepsSignalled(w: World, e: Event)
    requires Inv(w) && Enabled(w, e) && ProofsOk(w) && SignalledOk(w)
    ensures SignalledOk(Apply(w, e))
  {
    var w' := Apply(w, e);
    StepGrows(w, e);
    forall q <- w'.signalled ensures Orphaned(w', q) {
      if q !in w.signalled {
        NewlySignalled(w, e, q);
        KillHitsOrphans(w, e.r, q);
      }
      OrphanedStays(w, w', q);
    }
  }

  lemma SaveKeepsPaths(w: World, e: Event)
    requires (e.Record? || e.Forget?) && Enabled(w, e) && NoNamesake(w, e) && PathsOk(w) && LiveFilesOk(w)
    ensures PathsOk(Apply(w, e))
  {
    // What a forgetting gateway saves over is its own file: its ledger was not empty.
    WithoutMembers(w.ledgers[e.g], if e.Record? then e.server.pid else e.pid);
    SaveTouches(w, e);
  }

  lemma ReapKeepsPaths(w: World, e: Event)
    requires Enabled(w, e) && ReapEvent(e) && PathsOk(w)
    ensures PathsOk(Apply(w, e))
  {
    ReapTouches(w, e);
    if ReadEvent(e) {
      ReadStays(w.k.procs, w.reapers[e.r], e);
    }
  }

  lemma StepKeepsPaths(w: World, e: Event)
    requires Enabled(w, e) && NoNamesake(w, e) && PathsOk(w) && LiveFilesOk(w)
    ensures PathsOk(Apply(w, e))
  {
    if e.Record? || e.Forget? {
      SaveKeepsPaths(w, e);
    } else if ReapEvent(e) {
      ReapKeepsPaths(w, e);
    }
  }

  lemma LiveFileStays(w: World, e: Event, g: ProcessId)
    requires Inv(w) && Enabled(w, e) && PathsOk(w) && LiveFilesOk(w)
    requires g in w.ledgers && IsAlive(w.k.procs, g) && w.ledgers[g] != []
    requires !((e.Record? || e.Forget?) && e.g == g)
    ensures g.pid in Apply(w, e).files && Apply(w, e).files[g.pid] == w.files[g.pid] == LedgerFile(g, w.ledgers[g])
  {
    if e.ReapRemove? {
      assert ReaperOk(w, w.reapers[e.r]);
    }
  }

  lemma StepKeepsLiveFiles(w: World, e: Event)
    requires Inv(w) && Enabled(w, e) && PathsOk(w) && LiveFilesOk(w)
    ensures LiveFilesOk(Apply(w, e))
  {
    var w' := Apply(w, e);
    StepGrows(w, e);
    forall g <- w'.ledgers | IsAlive(w'.k.procs, g) && w'.ledgers[g] != []
      ensures g.pid in w'.files && w'.files[g.pid] == LedgerFile(g, w'.ledgers[g])
    {
      if (e.Record? || e.Forget?) && e.g == g {
        WithoutMembers(w.ledgers[g], if e.Record? then e.server.pid else e.pid);
      } else {
        LiveFileStays(w, e, g);
      }
    }
  }

  /** Over every run in which no proof is disturbed, only orphans of dead gateways are signalled. */
  lemma {:induction false} ReapingIsSafe(w: World, es: seq<Event>)
    requires Initial(w) && Playable(w, es) && UndisturbedRun(w, es)
    ensures SignalledOk(Play(w, es)) && ProofsOk(Play(w, es))
  {
    if es != [] {
      var v, e := Play(w, es[..|es| - 1]), es[|es| - 1];
      ReapingIsSafe(w, es[..|es| - 1]);
      RunKeepsInv(w, es[..|es| - 1]);
      StepKeepsProofs(v, e);
      StepKeepsSignalled(v, e);
    }
  }

  /** Over every run without namesakes, whatever pids and groups do, the file of every live gateway is exactly its ledger. */
  lemma {:induction false} LiveFilesAreLedgers(w: World, es: seq<Event>)
    requires Initial(w) && Playable(w, es) && NamesakeFreeRun(w, es)
    ensures LiveFilesOk(Play(w, es)) && PathsOk(Play(w, es))
  {
    if es != [] {
      var v, e := Play(w, es[..|es| - 1]), es[|es| - 1];
      LiveFilesAreLedgers(w, es[..|es| - 1]);
      RunKeepsInv(w, es[..|es| - 1]);
      StepKeepsPaths(v, e);
      StepKeepsLiveFiles(v, e);
    }
  }

  /** After such a run no step but its own gateway's touches a live gateway's file. */
  lemma LiveLedgerUntouched(w: World, es: seq<Event>, e: Event, g: ProcessId)
    requires Initial(w) && Playable(w, es) && NamesakeFreeRun(w, es) && Enabled(Play(w, es), e)
    requires g in Play(w, es).ledgers && IsAlive(Play(w, es).k.procs, g) && Play(w, es).ledgers[g] != []
    requires !((e.Record? || e.Forget?) && e.g == g)
    ensures g.pid in Apply(Play(w, es), e).files
    ensures Apply(Play(w, es), e).files[g.pid] == LedgerFile(g, Play(w, es).ledgers[g])
  {
    RunKeepsInv(w, es);
    LiveFilesAreLedgers(w, es);
    LiveFileStays(Play(w, es), e, g);
  }

  /** What a reaper removes is then the file of the dead owner it checked, and nothing else. */
  lemma RemovesOnlyTheDead(w: World, es: seq<Event>, r: ProcessId)
    requires Initial(w) && Playable(w, es) && NamesakeFreeRun(w, es) && Enabled(Play(w, es), ReapRemove(r))
    ensures var v := Play(w, es); var path := v.reapers[r].path;
            && Apply(v, ReapRemove(r)).files == v.files - {path}
            && (path in v.files ==> v.files[path].owner == v.reapers[r].file.owner && !IsAlive(v.k.procs, v.files[path].owner))
  {
    RunKeepsInv(w, es);
    LiveFilesAreLedgers(w, es);
    assert ReaperOk(Play(w, es), Play(w, es).reapers[r]);
  }
}
