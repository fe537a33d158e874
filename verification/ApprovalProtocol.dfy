/**
  Human approval, gateway and broker composed. Any number of gateways dial a
  broker, at most twice each; broker handlers, disconnect watchers, the human
  and the allow lists act on the parked waiters. Every lock-protected action
  is one event, so a run is any interleaving of them.
*/
module ApprovalProtocol {
  import opened Basics

  datatype Decision = Approved | Denied | Timeout | Unreachable | Withdrawn

  datatype Request = Request(
    token: string, id: nat, server: string, tool: string,
    fingerprint: Option<string>, urlElicitation: bool, piiRelease: bool)

  const MAX_PENDING: nat := 64

  /******* Preflight *******/

  datatype Preflight = Deny | AutoApprove | AskHuman

  function AllowKey(server: string, tool: string, fingerprint: string): string
  {
    server + "/" + tool + "/" + fingerprint
  }

  function PreflightOf(req: Request, brokerToken: string, allowed: set<string>): Preflight
  {
    if req.token == "" || req.token != brokerToken then Deny
    else if !req.urlElicitation && !req.piiRelease && req.fingerprint.Some?
         && AllowKey(req.server, req.tool, req.fingerprint.value) in allowed then AutoApprove
    else AskHuman
  }

  /** A fingerprint-bound allow covers an authenticated call that releases nothing else. */
  predicate AllowCovers(req: Request, brokerToken: string, allowed: set<string>)
  {
    && req.token == brokerToken != ""
    && !req.urlElicitation && !req.piiRelease
    && exists key <- allowed :: req.fingerprint.Some? && key == AllowKey(req.server, req.tool, req.fingerprint.value)
  }

  lemma AutoApproveIffCovered(req: Request, brokerToken: string, allowed: set<string>)
    ensures PreflightOf(req, brokerToken, allowed).AutoApprove? <==> AllowCovers(req, brokerToken, allowed)
  {
  }

  /** What a human allows: one tool of one server, with the definition it has now. */
  datatype Grant = Grant(server: string, tool: string, fingerprint: string)

  function KeyOf(g: Grant): string
  {
    AllowKey(g.server, g.tool, g.fingerprint)
  }

  /** Two texts cut at their first slash are cut alike. */
  lemma {:induction false} FirstSlash(a: string, x: string, b: string, y: string)
    requires a + "/" + x == b + "/" + y && '/' !in a && '/' !in b
    ensures a == b && x == y
  {
    assert (a + "/" + x)[|a|] == '/' && (b + "/" + y)[|b|] == '/';
    assert |a| == |b|;
    assert a == (a + "/" + x)[..|a|] && b == (b + "/" + y)[..|b|];
    assert x == (a + "/" + x)[|a| + 1..] && y == (b + "/" + y)[|b| + 1..];
  }

  lemma KeyNests(g: Grant)
    ensures KeyOf(g) == g.server + "/" + (g.tool + "/" + g.fingerprint)
  {
  }

  lemma NoSlashAfter(a: string, x: string, i: nat)
    requires '/' !in x && |a| < i < |a| + 1 + |x|
    ensures (a + "/" + x)[i] != '/'
  {
    assert (a + "/" + x)[i] == x[i - |a| - 1];
  }

  /** Two texts cut at their last slash are cut alike. */
  lemma {:induction false} LastSlash(a: string, x: string, b: string, y: string)
    requires a + "/" + x == b + "/" + y && '/' !in x && '/' !in y
    ensures a == b && x == y
  {
    var s := a + "/" + x;
    assert s[|a|] == '/' && s[|b|] == '/';
    assert |s| == |a| + 1 + |x| == |b| + 1 + |y|;
    forall i: nat | |a| < i < |s| ensures s[i] != '/' {
      NoSlashAfter(a, x, i);
    }
    forall i: nat | |b| < i < |s| ensures s[i] != '/' {
      NoSlashAfter(b, y, i);
    }
    assert a == s[..|a|] && b == s[..|b|] && x == s[|a| + 1..] && y == s[|b| + 1..];
  }

  /** Server ids have no slash, and either the fingerprints or the tool names have none. */
  predicate CutAlike(grants: set<Grant>)
  {
    && (forall g <- grants :: '/' !in g.server)
    && ((forall g <- grants :: '/' !in g.fingerprint) || (forall g <- grants :: '/' !in g.tool))
  }

  /** Among such grants an allow key is one grant's and no other's. */
  lemma KeyDetermines(g: Grant, h: Grant)
    requires CutAlike({g, h}) && KeyOf(g) == KeyOf(h)
    ensures g == h
  {
    assert g in {g, h} && h in {g, h};
    KeyNests(g);
    KeyNests(h);
    FirstSlash(g.server, g.tool + "/" + g.fingerprint, h.server, h.tool + "/" + h.fingerprint);
    if '/' !in g.fingerprint && '/' !in h.fingerprint {
      LastSlash(g.tool, g.fingerprint, h.tool, h.fingerprint);
    } else {
      FirstSlash(g.tool, g.fingerprint, h.tool, h.fingerprint);
    }
  }

  lemma SplitAtSlash(s: string) returns (a: string, b: string)
    requires '/' in s
    ensures s == a + "/" + b
  {
    var i :| 0 <= i < |s| && s[i] == '/';
    a, b := s[..i], s[i + 1..];
  }

  lemma Slashes(a: string, b: string, c: string, d: string)
    ensures AllowKey(a + "/" + b, c, d) == AllowKey(a, b + "/" + c, d)
    ensures AllowKey(a, b, c + "/" + d) == AllowKey(a, b + "/" + c, d)
  {
    assert a + "/" + b + "/" + c + "/" + d == a + "/" + (b + "/" + c) + "/" + d;
    assert a + "/" + b + "/" + (c + "/" + d) == a + "/" + (b + "/" + c) + "/" + d;
  }

  /** Any slash in a grant gives it a different grant with the same key. */
  lemma SlashCollides(g: Grant) returns (h: Grant)
    requires '/' in g.server || '/' in g.tool || '/' in g.fingerprint
    ensures h != g && KeyOf(h) == KeyOf(g)
  {
    if '/' in g.server {
      var a, b := SplitAtSlash(g.server);
      Slashes(a, b, g.tool, g.fingerprint);
      h := Grant(a, b + "/" + g.tool, g.fingerprint);
    } else if '/' in g.tool {
      var a, b := SplitAtSlash(g.tool);
      Slashes(g.server, a, b, g.fingerprint);
      h := Grant(g.server + "/" + a, b, g.fingerprint);
      assert |h.server| > |g.server|;
    } else {
      var a, b := SplitAtSlash(g.fingerprint);
      Slashes(g.server, g.tool, a, b);
      h := Grant(g.server, g.tool + "/" + a, b);
      assert |h.tool| > |g.tool|;
    }
  }

  lemma {:induction false} CountSlashes(s: string, t: string)
    ensures SlashCount(s + t) == SlashCount(s) + SlashCount(t)
  {
    if s == "" {
      assert s + t == t;
    } else {
      assert (s + t)[1..] == s[1..] + t;
      CountSlashes(s[1..], t);
    }
  }

  function SlashCount(s: string): nat
  {
    if s == "" then 0 else (if s[0] == '/' then 1 else 0) + SlashCount(s[1..])
  }

  lemma {:induction false} NoSlashes(s: string)
    ensures SlashCount(s) == 0 <==> '/' !in s
  {
    if s != "" {
      NoSlashes(s[1..]);
      assert s == [s[0]] + s[1..];
    }
  }

  lemma KeySlashes(g: Grant)
    ensures SlashCount(KeyOf(g)) == SlashCount(g.server) + SlashCount(g.tool) + SlashCount(g.fingerprint) + 2
  {
    assert SlashCount("/") == 1;
    CountSlashes(g.server, "/");
    CountSlashes(g.server + "/", g.tool);
    CountSlashes(g.server + "/" + g.tool, "/");
    CountSlashes(g.server + "/" + g.tool + "/", g.fingerprint);
  }

  /** An allow key stands for one grant only if and only if no part of the grant has a slash. */
  lemma KeyUniqueIff(g: Grant)
    ensures (forall h :: KeyOf(h) == KeyOf(g) ==> h == g)
            <==> '/' !in g.server && '/' !in g.tool && '/' !in g.fingerprint
  {
    if '/' in g.server || '/' in g.tool || '/' in g.fingerprint {
      var h := SlashCollides(g);
    } else {
      forall h | KeyOf(h) == KeyOf(g) ensures h == g {
        KeySlashes(g);
        KeySlashes(h);
        NoSlashes(g.server);
        NoSlashes(g.tool);
        NoSlashes(g.fingerprint);
        NoSlashes(h.server);
        NoSlashes(h.tool);
        KeyDetermines(g, h);
      }
    }
  }

  /**
    What an automatic approval means, whatever the tools are called: the call
    is authenticated, releases nothing else, and this very tool of this very
    server was allowed with the definition it has now.
  */
  lemma AutoApproveIffGranted(req: Request, brokerToken: string, grants: set<Grant>)
    requires CutAlike(grants + if req.fingerprint.Some? then {Grant(req.server, req.tool, req.fingerprint.value)} else {})
    ensures PreflightOf(req, brokerToken, set g <- grants :: KeyOf(g)).AutoApprove? <==>
              && req.token == brokerToken != "" && !req.urlElicitation && !req.piiRelease
              && req.fingerprint.Some? && Grant(req.server, req.tool, req.fingerprint.value) in grants
    ensures PreflightOf(req, brokerToken, set g <- grants :: KeyOf(g)).Deny? <==> req.token != brokerToken || req.token == ""
  {
    var allowed := set g <- grants :: KeyOf(g);
    if req.fingerprint.Some? {
      var mine := Grant(req.server, req.tool, req.fingerprint.value);
      if KeyOf(mine) in allowed {
        var g :| g in grants && KeyOf(g) == KeyOf(mine);
        assert g in grants + {mine} && mine in grants + {mine};
        assert CutAlike({g, mine});
        KeyDetermines(g, mine);
      }
    }
  }

  /** With a slash in a server id, allowing one server's tool approves another server's. */
  lemma AnotherToolIsApproved(token: string, fp: string)
    requires token != ""
    ensures var req := Request(token, 0, "a/b", "c", Some(fp), false, false);
            && PreflightOf(req, token, {KeyOf(Grant("a", "b/c", fp))}).AutoApprove?
            && Grant(req.server, req.tool, fp) != Grant("a", "b/c", fp)
  {
    Slashes("a", "b", "c", fp);
    assert "a" + "/" + "b" == "a/b" && "b" + "/" + "c" == "b/c";
  }

  /******* State *******/

  /** The request line on the socket: not sent, cut before its newline, or sent whole. */
  datatype Wire = Unsent | Cut | Sent

  datatype Handler =
    | Reading
    | ToPark
    | Parked
    | Woken(decision: Decision)
    | Cleaned(decision: Decision)
    | Finished(answer: Option<Decision>)

  /** `inbox` is the decision channel; `late` marks a message sent after its handler stopped waiting. */
  datatype Conn = Conn(
    gateway: nat, req: Request, wire: Wire, handler: Handler,
    inbox: seq<Decision>, late: bool, prompted: bool, watching: bool)

  datatype GatewayPc = Dialing | Writing(k: nat) | Awaiting(k: nat) | Final(decision: Decision)

  datatype Gateway = Gateway(req: Request, pc: GatewayPc, retried: bool, cancellable: bool, cancelled: bool)

  datatype System = System(
    token: string, allowed: set<string>, pending: map<nat, nat>,
    conns: map<nat, Conn>, gateways: map<nat, Gateway>)

  /******* Gateway side *******/

  datatype Attempt = Decided(decision: Decision) | NotReached

  /** `broker_attempt_after_cancel` */
  function AfterCancel(a: Attempt, cancelled: bool): Attempt
  {
    if a == Decided(Approved) || a == Decided(Denied) || !cancelled then a else Decided(Withdrawn)
  }

  /** End one dial: a decision is final, an unreached broker is dialled once more. */
  function EndDial(g: Gateway, a: Attempt): Gateway
  {
    match AfterCancel(a, g.cancelled)
    case Decided(d) => g.(pc := Final(d))
    case NotReached => if g.retried then g.(pc := Final(Unreachable)) else g.(pc := Dialing, retried := true)
  }

  /******* Events *******/

  datatype Event =
    | Start(g: nat, req: Request, cancellable: bool)
    | Cancel(g: nat)
    | DialFails(g: nat)
    | DialOk(g: nat, k: nat)
    | WriteDone(g: nat)
    | WriteCut(g: nat)
    | ReadEof(g: nat)
    | ReadAnswer(g: nat)
    | ReadFails(g: nat)
    | SeesCancel(g: nat)
    | ReadRequest(k: nat)
    | RejectRequest(k: nat)
    | Park(k: nat)
    | Decide(id: nat, approved: bool)
    | WatcherFires(k: nat, d: Decision)
    | Receive(k: nat)
    | StopWaiting(k: nat)
    | Cleanup(k: nat)
    | Reply(k: nat)
    | Allow(key: string)
    | Disallow(key: string)

  predicate GatewayAt(s: System, g: nat)
  {
    g in s.gateways
  }

  predicate AwaitingConn(s: System, g: nat)
  {
    g in s.gateways && s.gateways[g].pc.Awaiting? && s.gateways[g].pc.k in s.conns
  }

  predicate WritingConn(s: System, g: nat)
  {
    g in s.gateways && s.gateways[g].pc.Writing? && s.gateways[g].pc.k in s.conns
  }

  predicate Enabled(s: System, e: Event)
  {
    match e
    case Start(g, _, _) => g !in s.gateways
    case Cancel(g) => GatewayAt(s, g) && s.gateways[g].cancellable
    case DialFails(g) => GatewayAt(s, g) && s.gateways[g].pc.Dialing?
    case DialOk(g, k) => GatewayAt(s, g) && s.gateways[g].pc.Dialing? && !s.gateways[g].cancelled && k !in s.conns
    case WriteDone(g) => WritingConn(s, g)
    case WriteCut(g) => WritingConn(s, g)
    case ReadEof(g) => AwaitingConn(s, g)
    case ReadAnswer(g) => AwaitingConn(s, g) && s.conns[s.gateways[g].pc.k].handler.Finished?
                          && s.conns[s.gateways[g].pc.k].handler.answer.Some?
    case ReadFails(g) => AwaitingConn(s, g)
    case SeesCancel(g) =>
      GatewayAt(s, g) && s.gateways[g].cancelled && !s.gateways[g].pc.Final?
    case ReadRequest(k) => k in s.conns && s.conns[k].handler.Reading? && s.conns[k].wire.Sent?
    case RejectRequest(k) => k in s.conns && s.conns[k].handler.Reading?
    case Park(k) => k in s.conns && s.conns[k].handler.ToPark?
    case Decide(id, _) => id in s.pending && s.pending[id] in s.conns
    case WatcherFires(k, d) => k in s.conns && s.conns[k].watching && (d.Denied? || d.Timeout?)
                               && (s.conns[k].req.id in s.pending ==> s.pending[s.conns[k].req.id] in s.conns)
    case Receive(k) => k in s.conns && s.conns[k].handler.Parked? && s.conns[k].inbox != []
    case StopWaiting(k) => k in s.conns && s.conns[k].handler.Parked? && s.conns[k].inbox == []
    case Cleanup(k) => k in s.conns && s.conns[k].handler.Woken?
    case Reply(k) => k in s.conns && s.conns[k].handler.Cleaned?
    case Allow(_) => true
    case Disallow(_) => true
  }

  function SetConn(s: System, k: nat, c: Conn): System
  {
    s.(conns := s.conns[k := c])
  }

  function SetGateway(s: System, g: nat, x: Gateway): System
  {
    s.(gateways := s.gateways[g := x])
  }

  /** Remove the waiter under `id`, if any, and send it `d`. */
  function Resolve(s: System, id: nat, d: Decision): System
    requires id in s.pending ==> s.pending[id] in s.conns
  {
    if id !in s.pending then s
    else
      var k := s.pending[id];
      var c := s.conns[k];
      SetConn(s, k, c.(inbox := c.inbox + [d], late := !c.handler.Parked?)).(pending := s.pending - {id})
  }

  function StepPark(s: System, k: nat): System
    requires k in s.conns
  {
    var c := s.conns[k];
    if |s.pending| >= MAX_PENDING || c.req.id in s.pending then
      SetConn(s, k, c.(handler := Finished(Some(Denied))))
    else
      SetConn(s, k, c.(handler := Parked, prompted := true, watching := true)).(pending := s.pending[c.req.id := k])
  }

  function StepRequest(s: System, c: Conn): Conn
  {
    match PreflightOf(c.req, s.token, s.allowed)
    case Deny => c.(handler := Finished(Some(Denied)))
    case AutoApprove => c.(handler := Finished(Some(Approved)))
    case AskHuman => c.(handler := ToPark)
  }

  function Apply(s: System, e: Event): System
    requires Enabled(s, e)
  {
    match e
    case Start(g, req, cancellable) => SetGateway(s, g, Gateway(req, Dialing, false, cancellable, false))
    case Cancel(g) => SetGateway(s, g, s.gateways[g].(cancelled := true))
    case DialFails(g) => SetGateway(s, g, EndDial(s.gateways[g], NotReached))
    case DialOk(g, k) =>
      SetConn(SetGateway(s, g, s.gateways[g].(pc := Writing(k))), k,
              Conn(g, s.gateways[g].req, Unsent, Reading, [], false, false, false))
    case WriteDone(g) =>
      var k := s.gateways[g].pc.k;
      SetConn(SetGateway(s, g, s.gateways[g].(pc := Awaiting(k))), k, s.conns[k].(wire := Sent))
    case WriteCut(g) =>
      var k := s.gateways[g].pc.k;
      SetConn(SetGateway(s, g, EndDial(s.gateways[g], NotReached)), k, s.conns[k].(wire := Cut))
    case ReadEof(g) => SetGateway(s, g, EndDial(s.gateways[g], NotReached))
    case ReadAnswer(g) =>
      SetGateway(s, g, EndDial(s.gateways[g], Decided(s.conns[s.gateways[g].pc.k].handler.answer.value)))
    case ReadFails(g) => SetGateway(s, g, EndDial(s.gateways[g], Decided(Timeout)))
    case SeesCancel(g) => SetGateway(s, g, EndDial(s.gateways[g], Decided(Withdrawn)))
    case ReadRequest(k) => SetConn(s, k, StepRequest(s, s.conns[k]))
    case RejectRequest(k) => SetConn(s, k, s.conns[k].(handler := Finished(None)))
    case Park(k) => StepPark(s, k)
    case Decide(id, approved) => Resolve(s, id, if approved then Approved else Denied)
    case WatcherFires(k, d) =>
      var r := Resolve(s, s.conns[k].req.id, d);
      SetConn(r, k, r.conns[k].(watching := false))
    case Receive(k) => SetConn(s, k, s.conns[k].(handler := Woken(s.conns[k].inbox[0])))
    case StopWaiting(k) => SetConn(s, k, s.conns[k].(handler := Woken(Timeout)))
    case Cleanup(k) =>
      SetConn(s, k, s.conns[k].(handler := Cleaned(s.conns[k].handler.decision))).(pending := s.pending - {s.conns[k].req.id})
    case Reply(k) => SetConn(s, k, s.conns[k].(handler := Finished(Some(s.conns[k].handler.decision))))
    case Allow(key) => s.(allowed := s.allowed + {key})
    case Disallow(key) => s.(allowed := s.allowed - {key})
  }

  predicate Initial(s: System)
  {
    s.pending == map[] && s.conns == map[] && s.gateways == map[]
  }

  predicate Playable(s: System, es: seq<Event>)
    decreases |es|, 0
  {
    es == [] || (Playable(s, es[..|es| - 1]) && Enabled(Play(s, es[..|es| - 1]), es[|es| - 1]))
  }

  function Play(s: System, es: seq<Event>): System
    requires Playable(s, es)
    decreases |es|, 1
  {
    if es == [] then s else Apply(Play(s, es[..|es| - 1]), es[|es| - 1])
  }

  /******* What every step keeps *******/

  /** The decision a prompted handler acts on is fixed by what was in its channel in time. */
  function Owed(c: Conn): Decision
  {
    if c.inbox == [] || c.late then Timeout else c.inbox[0]
  }

  predicate ConnOk(c: Conn)
  {
    && |c.inbox| <= 1
    && (!c.prompted ==> c.inbox == [] && !c.late && !c.watching && (c.handler.Reading? || c.handler.ToPark? || c.handler.Finished?))
    && (c.prompted ==> !c.handler.Reading? && !c.handler.ToPark? && c.handler != Finished(None))
    && (c.late ==> c.inbox != [] && !c.handler.Parked?)
    && (c.handler.Woken? || c.handler.Cleaned? ==> c.handler.decision == Owed(c))
    && (c.prompted && c.handler.Finished? ==> c.handler.answer == Some(Owed(c)))
    && (!c.wire.Sent? ==> c.handler.Reading? || c.handler == Finished(None))
  }

  predicate WaiterOk(s: System, id: nat)
    requires id in s.pending
  {
    var k := s.pending[id];
    && k in s.conns && s.conns[k].req.id == id && s.conns[k].prompted && s.conns[k].inbox == []
    && (s.conns[k].handler.Parked? || s.conns[k].handler.Woken?)
  }

  ghost predicate Inv(s: System)
  {
    && |s.pending| <= MAX_PENDING
    && (forall k <- s.conns :: ConnOk(s.conns[k]))
    && (forall id <- s.pending :: WaiterOk(s, id))
  }

  lemma ResolveKeepsInv(s: System, id: nat, d: Decision)
    requires Inv(s)
    ensures id in s.pending ==> s.pending[id] in s.conns
    ensures Inv(Resolve(s, id, d))
    ensures Resolve(s, id, d).conns.Keys == s.conns.Keys
  {
    if id in s.pending {
      assert WaiterOk(s, id);
      var s' := Resolve(s, id, d);
      forall i <- s'.pending ensures WaiterOk(s', i) {
        assert WaiterOk(s, i);
      }
    }
  }

  /** A connection that keeps its id and stays fit for its waiter may change freely. */
  lemma SetConnKeepsInv(s: System, k: nat, c: Conn)
    requires Inv(s) && ConnOk(c)
    requires forall id <- s.pending :: s.pending[id] == k ==>
               c.req.id == id && c.prompted && c.inbox == [] && (c.handler.Parked? || c.handler.Woken?)
    ensures Inv(SetConn(s, k, c))
  {
    var s' := SetConn(s, k, c);
    forall id <- s'.pending ensures WaiterOk(s', id) {
      assert WaiterOk(s, id);
    }
  }

  lemma FewerPending(m: map<nat, nat>, id: nat)
    ensures |m - {id}| <= |m|
  {
    assert (m - {id}).Keys == m.Keys - {id};
    if id in m {
      assert m.Keys == (m.Keys - {id}) + {id};
    } else {
      assert m - {id} == m;
    }
    assert |m.Keys| == |m| && |(m - {id}).Keys| == |m - {id}|;
  }

  lemma OneMorePending(m: map<nat, nat>, id: nat, k: nat)
    requires id !in m
    ensures |m[id := k]| == |m| + 1
  {
    assert m[id := k].Keys == m.Keys + {id};
    assert |m[id := k].Keys| == |m[id := k]| && |m.Keys| == |m|;
  }

  lemma ParkKeepsInv(s: System, k: nat)
    requires Inv(s) && Enabled(s, Park(k))
    ensures Inv(StepPark(s, k))
  {
    var c := s.conns[k];
    assert ConnOk(c);
    assert forall id <- s.pending :: WaiterOk(s, id);
    if |s.pending| >= MAX_PENDING || c.req.id in s.pending {
      SetConnKeepsInv(s, k, c.(handler := Finished(Some(Denied))));
    } else {
      var c' := c.(handler := Parked, prompted := true, watching := true);
      SetConnKeepsInv(s, k, c');
      OneMorePending(s.pending, c.req.id, k);
      ListKeepsInv(SetConn(s, k, c'), c.req.id, k);
    }
  }

  lemma ListKeepsInv(s: System, id: nat, k: nat)
    requires Inv(s) && id !in s.pending && |s.pending[id := k]| <= MAX_PENDING
    requires k in s.conns && s.conns[k].req.id == id && s.conns[k].prompted && s.conns[k].inbox == [] && s.conns[k].handler.Parked?
    ensures Inv(s.(pending := s.pending[id := k]))
  {
    var s' := s.(pending := s.pending[id := k]);
    forall i <- s'.pending ensures WaiterOk(s', i) {
      assert i != id ==> WaiterOk(s, i);
    }
  }

  lemma DropKeepsInv(s: System, id: nat)
    requires Inv(s)
    ensures Inv(s.(pending := s.pending - {id}))
  {
    FewerPending(s.pending, id);
    var s' := s.(pending := s.pending - {id});
    forall i <- s'.pending ensures WaiterOk(s', i) {
      assert WaiterOk(s, i);
    }
  }

  lemma CleanupKeepsInv(s: System, k: nat)
    requires Inv(s) && Enabled(s, Cleanup(k))
    ensures Inv(Apply(s, Cleanup(k)))
  {
    var c, id := s.conns[k], s.conns[k].req.id;
    assert ConnOk(c);
    var c' := c.(handler := Cleaned(c.handler.decision));
    assert ConnOk(c');
    DropKeepsInv(s, id);
    var r := s.(pending := s.pending - {id});
    forall i <- r.pending ensures r.pending[i] != k {
      assert WaiterOk(r, i);
    }
    SetConnKeepsInv(r, k, c');
  }

  lemma UnwatchKeepsInv(s: System, k: nat)
    requires Inv(s) && k in s.conns
    ensures Inv(SetConn(s, k, s.conns[k].(watching := false)))
  {
    assert ConnOk(s.conns[k]);
    forall id <- s.pending ensures WaiterOk(s, id) {
    }
    SetConnKeepsInv(s, k, s.conns[k].(watching := false));
  }

  lemma WatcherKeepsInv(s: System, k: nat, d: Decision)
    requires Inv(s) && Enabled(s, WatcherFires(k, d))
    ensures Inv(Apply(s, WatcherFires(k, d)))
  {
    ResolveKeepsInv(s, s.conns[k].req.id, d);
    UnwatchKeepsInv(Resolve(s, s.conns[k].req.id, d), k);
  }

  /** The step of a handler on its own connection, and nothing else. */
  function HandlerMove(s: System, c: Conn, e: Event): Conn
    requires e.Receive? ==> c.inbox != []
    requires e.Reply? ==> c.handler.Cleaned?
  {
    if e.Receive? then c.(handler := Woken(c.inbox[0]))
    else if e.StopWaiting? then c.(handler := Woken(Timeout))
    else if e.Reply? then c.(handler := Finished(Some(c.handler.decision)))
    else if e.ReadRequest? then StepRequest(s, c)
    else c.(handler := Finished(None))
  }

  lemma HandlerMoves(s: System, e: Event)
    requires Enabled(s, e) && (e.Receive? || e.StopWaiting? || e.Reply? || e.ReadRequest? || e.RejectRequest?)
    ensures Apply(s, e) == SetConn(s, e.k, HandlerMove(s, s.conns[e.k], e))
  {
  }

  /** A handler's own step keeps its connection in order and its waiter fit. */
  lemma HandlerConnOk(s: System, c: Conn, e: Event)
    requires ConnOk(c) && (e.Receive? || e.StopWaiting? || e.Reply? || e.ReadRequest? || e.RejectRequest?)
    requires e.Receive? ==> c.handler.Parked? && c.inbox != []
    requires e.StopWaiting? ==> c.handler.Parked? && c.inbox == []
    requires e.Reply? ==> c.handler.Cleaned?
    requires e.ReadRequest? ==> c.handler.Reading? && c.wire.Sent?
    requires e.RejectRequest? ==> c.handler.Reading?
    ensures ConnOk(HandlerMove(s, c, e)) && HandlerMove(s, c, e).req == c.req
    ensures e.StopWaiting? ==> HandlerMove(s, c, e).handler.Woken? && HandlerMove(s, c, e).prompted && HandlerMove(s, c, e).inbox == []
  {
  }

  lemma HandlerKeepsInv(s: System, e: Event)
    requires Inv(s) && Enabled(s, e)
    requires e.Receive? || e.StopWaiting? || e.Reply? || e.ReadRequest? || e.RejectRequest?
    ensures Inv(Apply(s, e))
  {
    assert ConnOk(s.conns[e.k]);
    HandlerMoves(s, e);
    HandlerConnOk(s, s.conns[e.k], e);
    assert forall i <- s.pending :: WaiterOk(s, i);
    SetConnKeepsInv(s, e.k, HandlerMove(s, s.conns[e.k], e));
  }

  predicate Answered(s: System, k: nat, d: Decision)
  {
    k in s.conns && s.conns[k].handler == Finished(Some(d))
  }

  /** Which connection a gateway is on, and that it is its own. */
  predicate GatewayOk(s: System, g: nat, x: Gateway)
  {
    && (x.cancelled ==> x.cancellable)
    && (x.pc.Writing? || x.pc.Awaiting? ==> x.pc.k in s.conns && s.conns[x.pc.k].gateway == g)
    && (x.pc.Writing? ==> s.conns[x.pc.k].wire.Unsent?)
    && (x.pc.Awaiting? ==> s.conns[x.pc.k].wire.Sent?)
  }

  ghost predicate Homes(s: System)
  {
    && (forall g <- s.gateways :: GatewayOk(s, g, s.gateways[g]))
    && (forall k <- s.conns :: s.conns[k].gateway in s.gateways && s.conns[k].req == s.gateways[s.conns[k].gateway].req)
  }

  predicate GatewayEvent(e: Event)
  {
    e.Start? || e.Cancel? || e.DialFails? || e.DialOk? || e.WriteDone? || e.WriteCut? || e.ReadEof?
    || e.ReadAnswer? || e.ReadFails? || e.SeesCancel?
  }

  lemma GatewayKeepsInv(s: System, e: Event)
    requires Inv(s) && Homes(s) && Enabled(s, e) && GatewayEvent(e)
    ensures Inv(Apply(s, e))
  {
    var s' := Apply(s, e);
    if e.WriteDone? || e.WriteCut? {
      assert GatewayOk(s, e.g, s.gateways[e.g]);
      assert ConnOk(s.conns[s.gateways[e.g].pc.k]);
    }
    assert s'.pending == s.pending;
    forall k <- s'.conns ensures ConnOk(s'.conns[k]) {
      assert k in s.conns ==> ConnOk(s.conns[k]);
    }
    forall id <- s'.pending ensures WaiterOk(s', id) {
      assert WaiterOk(s, id);
    }
  }

  /** A step that is not of gateway `g` leaves it alone. */
  lemma OtherGateways(s: System, e: Event, g: nat)
    requires Enabled(s, e) && !(GatewayEvent(e) && e.g == g)
    ensures g in Apply(s, e).gateways <==> g in s.gateways
    ensures g in s.gateways ==> Apply(s, e).gateways[g] == s.gateways[g]
  {
    if !GatewayEvent(e) {
      BrokerKeepsGateways(s, e);
    }
  }

  lemma BrokerKeepsGateways(s: System, e: Event)
    requires Enabled(s, e) && !GatewayEvent(e)
    ensures Apply(s, e).gateways == s.gateways
  {
    match e
    case ReadRequest(_) =>
    case RejectRequest(_) =>
    case Park(_) =>
    case Decide(_, _) =>
    case WatcherFires(_, _) =>
    case Receive(_) =>
    case StopWaiting(_) =>
    case Cleanup(_) =>
    case Reply(_) =>
    case Allow(_) =>
    case Disallow(_) =>
  }

  /** A gateway changes nothing about a connection but what is on the wire of its own. */
  lemma GatewayAnswersNothing(s: System, e: Event, k: nat)
    requires Enabled(s, e) && GatewayEvent(e) && k in Apply(s, e).conns
    ensures k in s.conns ==> Apply(s, e).conns[k] == s.conns[k].(wire := Apply(s, e).conns[k].wire)
    ensures k in s.conns && Apply(s, e).conns[k] != s.conns[k] ==> WritingConn(s, e.g) && s.gateways[e.g].pc.k == k
    ensures k !in s.conns ==> !Apply(s, e).conns[k].prompted && Apply(s, e).conns[k].handler.Reading? && Apply(s, e).conns[k].inbox == []
    ensures k !in s.conns ==> e.DialOk? && Apply(s, e).conns[k].gateway == e.g && Apply(s, e).conns[k].req == s.gateways[e.g].req
  {
    match e
    case Start(_, _, _) =>
    case Cancel(_) =>
    case DialFails(_) =>
    case DialOk(_, _) =>
    case WriteDone(_) =>
    case WriteCut(_) =>
    case ReadEof(_) =>
    case ReadAnswer(_) =>
    case ReadFails(_) =>
    case SeesCancel(_) =>
  }

  lemma GatewayKeepsAll(s: System, e: Event, k: nat)
    requires Enabled(s, e) && GatewayEvent(e) && k in s.conns
    ensures k in Apply(s, e).conns
  {
  }

  /** Where a gateway goes next, from where it is. */
  lemma OwnStep(s: System, e: Event)
    requires Enabled(s, e) && GatewayEvent(e)
    ensures e.g in Apply(s, e).gateways
    ensures var x' := Apply(s, e).gateways[e.g];
            if e.g !in s.gateways then x' == Gateway(e.req, Dialing, false, e.cancellable, false)
            else
              var x := s.gateways[e.g];
              && x'.req == x.req && x'.cancellable == x.cancellable && (x'.cancelled == x.cancelled || (e.Cancel? && x.cancellable))
              && (e.Cancel? ==> x'.pc == x.pc)
              && (e.DialOk? ==> x'.pc == Writing(e.k))
              && (e.WriteDone? ==> x'.pc == Awaiting(x.pc.k))
              && (!e.Cancel? && !e.DialOk? && !e.WriteDone? ==> x'.pc.Dialing? || x'.pc.Final?)
              && (x'.pc.Dialing? ==> x.pc.Dialing? || e.WriteCut? || e.ReadEof?)
              && (x'.pc == Final(Approved) ==> x.pc == Final(Approved) || (e.ReadAnswer? && Answered(s, x.pc.k, Approved)))
  {
    match e
    case Start(_, _, _) =>
    case Cancel(_) =>
    case DialFails(_) =>
    case DialOk(_, _) =>
    case WriteDone(_) =>
    case WriteCut(_) =>
    case ReadEof(_) =>
    case ReadAnswer(_) =>
    case ReadFails(_) =>
    case SeesCancel(_) =>
  }

  lemma GatewayKeepsRequest(s: System, e: Event, g: nat)
    requires Enabled(s, e) && g in Apply(s, e).gateways
    ensures g in s.gateways ==> Apply(s, e).gateways[g].req == s.gateways[g].req
    ensures g !in s.gateways ==> e.Start? && e.g == g && Apply(s, e).gateways[g].req == e.req
  {
    if GatewayEvent(e) && e.g == g {
      OwnStep(s, e);
    } else {
      OtherGateways(s, e, g);
    }
  }

  lemma GatewayKeepsHomes(s: System, e: Event)
    requires Homes(s) && Enabled(s, e) && GatewayEvent(e)
    ensures Homes(Apply(s, e))
  {
    var s' := Apply(s, e);
    forall g <- s'.gateways ensures GatewayOk(s', g, s'.gateways[g]) {
      if g == e.g {
        OwnGatewayOk(s, e);
      } else {
        OtherGatewayOk(s, e, g);
      }
    }
    forall k <- s'.conns
      ensures s'.conns[k].gateway in s'.gateways && s'.conns[k].req == s'.gateways[s'.conns[k].gateway].req
    {
      GatewayKeepsConn(s, e, k);
    }
  }

  lemma OwnGatewayOk(s: System, e: Event)
    requires Homes(s) && Enabled(s, e) && GatewayEvent(e)
    ensures e.g in Apply(s, e).gateways && GatewayOk(Apply(s, e), e.g, Apply(s, e).gateways[e.g])
  {
    assert e.g in s.gateways ==> GatewayOk(s, e.g, s.gateways[e.g]);
    match e
    case Start(_, _, _) =>
    case Cancel(_) =>
    case DialOk(_, _) =>
    case WriteDone(_) =>
    case _ => OwnStep(s, e);
  }

  lemma OtherGatewayOk(s: System, e: Event, g: nat)
    requires Homes(s) && Enabled(s, e) && GatewayEvent(e) && g in Apply(s, e).gateways && g != e.g
    ensures GatewayOk(Apply(s, e), g, Apply(s, e).gateways[g])
  {
    OtherGateways(s, e, g);
    var x := s.gateways[g];
    assert GatewayOk(s, g, x);
    assert e.g in s.gateways ==> GatewayOk(s, e.g, s.gateways[e.g]);
    if x.pc.Writing? || x.pc.Awaiting? {
      GatewayKeepsAll(s, e, x.pc.k);
      GatewayAnswersNothing(s, e, x.pc.k);
    }
  }

  lemma GatewayKeepsConn(s: System, e: Event, k: nat)
    requires Homes(s) && Enabled(s, e) && GatewayEvent(e) && k in Apply(s, e).conns
    ensures var s' := Apply(s, e);
            s'.conns[k].gateway in s'.gateways && s'.conns[k].req == s'.gateways[s'.conns[k].gateway].req
  {
    GatewayAnswersNothing(s, e, k);
    var g := Apply(s, e).conns[k].gateway;
    assert g in s.gateways;
    if g == e.g {
      OwnStep(s, e);
    } else {
      OtherGateways(s, e, g);
    }
  }

  /** What no step of the broker changes about a connection. */
  predicate SameCall(c: Conn, c': Conn)
  {
    c'.gateway == c.gateway && c'.req == c.req && c'.wire == c.wire
  }

  lemma ResolveKeepsConns(s: System, id: nat, d: Decision, k: nat)
    requires k in s.conns && (id in s.pending ==> s.pending[id] in s.conns)
    ensures k in Resolve(s, id, d).conns && SameCall(s.conns[k], Resolve(s, id, d).conns[k])
  {
  }

  lemma WatcherKeepsConns(s: System, w: nat, d: Decision, k: nat)
    requires Enabled(s, WatcherFires(w, d)) && k in s.conns
    ensures k in Apply(s, WatcherFires(w, d)).conns && SameCall(s.conns[k], Apply(s, WatcherFires(w, d)).conns[k])
  {
    ResolveKeepsConns(s, s.conns[w].req.id, d, k);
    ResolveKeepsConns(s, s.conns[w].req.id, d, w);
  }

  lemma HandlerKeepsConns(s: System, e: Event, k: nat)
    requires Enabled(s, e) && k in s.conns
    requires e.ReadRequest? || e.RejectRequest? || e.Park? || e.Receive? || e.StopWaiting? || e.Cleanup? || e.Reply?
    ensures k in Apply(s, e).conns && SameCall(s.conns[k], Apply(s, e).conns[k])
    ensures k != e.k ==> Apply(s, e).conns[k] == s.conns[k]
  {
    match e
    case ReadRequest(_) =>
    case RejectRequest(_) =>
    case Park(_) =>
    case Receive(_) =>
    case StopWaiting(_) =>
    case Cleanup(_) =>
    case Reply(_) =>
  }

  lemma BrokerKeepsConns(s: System, e: Event, k: nat)
    requires Enabled(s, e) && !GatewayEvent(e) && k in s.conns
    ensures k in Apply(s, e).conns && SameCall(s.conns[k], Apply(s, e).conns[k])
  {
    match e
    case Decide(id, approved) => ResolveKeepsConns(s, id, if approved then Approved else Denied, k);
    case WatcherFires(w, d) => WatcherKeepsConns(s, w, d, k);
    case Allow(_) =>
    case Disallow(_) =>
    case _ => HandlerKeepsConns(s, e, k);
  }

  lemma BrokerKeepsHomes(s: System, e: Event)
    requires Homes(s) && Enabled(s, e) && !GatewayEvent(e)
    ensures Homes(Apply(s, e))
  {
    var s' := Apply(s, e);
    assert s'.gateways == s.gateways && s'.conns.Keys == s.conns.Keys;
    forall k <- s'.conns
      ensures s'.conns[k].gateway in s'.gateways && s'.conns[k].req == s'.gateways[s'.conns[k].gateway].req
    {
      BrokerKeepsConns(s, e, k);
    }
    forall g <- s'.gateways ensures GatewayOk(s', g, s'.gateways[g]) {
      assert GatewayOk(s, g, s.gateways[g]);
      if s.gateways[g].pc.Writing? || s.gateways[g].pc.Awaiting? {
        BrokerKeepsConns(s, e, s.gateways[g].pc.k);
      }
    }
  }

  lemma BrokerKeepsInv(s: System, e: Event)
    requires Inv(s) && Enabled(s, e) && !GatewayEvent(e)
    ensures Inv(Apply(s, e))
  {
    match e
    case Park(k) => ParkKeepsInv(s, k);
    case Decide(id, approved) => ResolveKeepsInv(s, id, if approved then Approved else Denied);
    case WatcherFires(k, d) => WatcherKeepsInv(s, k, d);
    case Cleanup(k) => CleanupKeepsInv(s, k);
    case Allow(_) => assert forall id <- s.pending :: WaiterOk(s, id);
    case Disallow(_) => assert forall id <- s.pending :: WaiterOk(s, id);
    case Receive(_) => HandlerKeepsInv(s, e);
    case StopWaiting(_) => HandlerKeepsInv(s, e);
    case Reply(_) => HandlerKeepsInv(s, e);
    case ReadRequest(_) => HandlerKeepsInv(s, e);
    case RejectRequest(_) => HandlerKeepsInv(s, e);
  }

  lemma StepKeepsInv(s: System, e: Event)
    requires Inv(s) && Homes(s) && Enabled(s, e)
    ensures Inv(Apply(s, e)) && Homes(Apply(s, e))
  {
    if GatewayEvent(e) {
      GatewayKeepsInv(s, e);
      GatewayKeepsHomes(s, e);
    } else {
      BrokerKeepsInv(s, e);
      BrokerKeepsHomes(s, e);
    }
  }

  lemma {:induction false} RunKeepsInv(s: System, es: seq<Event>)
    requires Initial(s) && Playable(s, es)
    ensures Inv(Play(s, es)) && Homes(Play(s, es))
  {
    if es != [] {
      RunKeepsInv(s, es[..|es| - 1]);
      StepKeepsInv(Play(s, es[..|es| - 1]), es[|es| - 1]);
    }
  }

  /******* The allow list *******/

  /** Event `j` allows the key, and nothing has taken that back. */
  predicate AllowedAt(es: seq<Event>, key: string, j: nat)
  {
    j < |es| && es[j] == Allow(key) && forall n :: j < n < |es| ==> es[n] != Disallow(key)
  }

  lemma AllowStep(s: System, e: Event, key: string)
    requires Enabled(s, e)
    ensures key in Apply(s, e).allowed <==> e == Allow(key) || (key in s.allowed && e != Disallow(key))
  {
  }

  /** A key is allowed exactly if it was allowed, at first or since, and that was not taken back. */
  lemma {:induction false} AllowedIff(s: System, es: seq<Event>, key: string)
    requires Playable(s, es)
    ensures key in Play(s, es).allowed <==>
              (key in s.allowed && Disallow(key) !in es) || exists j :: AllowedAt(es, key, j)
  {
    if es != [] {
      var n := |es| - 1;
      var before := es[..n];
      AllowedIff(s, before, key);
      AllowStep(Play(s, before), es[n], key);
      assert es == before + [es[n]];
      forall j: nat | j < n ensures AllowedAt(es, key, j) <==> AllowedAt(before, key, j) && es[n] != Disallow(key) {
        assert forall m :: 0 <= m < n ==> before[m] == es[m];
      }
      assert AllowedAt(es, key, n) <==> es[n] == Allow(key);
    }
  }

  /******* Only a holder of the token reaches the human *******/

  /** A connection on its way to a prompt, or past one, is the call of a process that holds the broker's token. */
  predicate HasToken(token: string, c: Conn)
  {
    c.handler.ToPark? || c.prompted ==> c.req.token == token != ""
  }

  ghost predicate Authentic(s: System)
  {
    forall k <- s.conns :: HasToken(s.token, s.conns[k])
  }

  lemma TokenStays(s: System, e: Event)
    requires Enabled(s, e)
    ensures Apply(s, e).token == s.token
  {
  }

  lemma ResolvePromptsNobody(s: System, e: Event, k: nat)
    requires Enabled(s, e) && (e.Decide? || e.WatcherFires?) && k in Apply(s, e).conns
    ensures k in s.conns
    ensures var c, c' := s.conns[k], Apply(s, e).conns[k]; c'.req == c.req && c'.handler == c.handler && c'.prompted == c.prompted
  {
  }

  lemma HandlerStaysAuthentic(s: System, e: Event)
    requires e.ReadRequest? || e.RejectRequest? || e.Park? || e.Receive? || e.StopWaiting? || e.Cleanup? || e.Reply?
    requires Enabled(s, e) && HasToken(s.token, s.conns[e.k])
    ensures HasToken(s.token, Apply(s, e).conns[e.k])
  {
    HandlerKeepsConns(s, e, e.k);
    match e
    case ReadRequest(_) =>
    case RejectRequest(_) =>
    case Park(_) =>
    case Receive(_) =>
    case StopWaiting(_) =>
    case Cleanup(_) =>
    case Reply(_) =>
  }

  lemma ConnStaysAuthentic(s: System, e: Event, k: nat)
    requires Authentic(s) && Enabled(s, e) && k in Apply(s, e).conns
    ensures HasToken(s.token, Apply(s, e).conns[k])
  {
    assert k in s.conns ==> HasToken(s.token, s.conns[k]);
    if GatewayEvent(e) {
      GatewayAnswersNothing(s, e, k);
    } else if e.Decide? || e.WatcherFires? {
      ResolvePromptsNobody(s, e, k);
    } else if !e.Allow? && !e.Disallow? {
      assert k in s.conns;
      HandlerKeepsConns(s, e, k);
      if k == e.k {
        HandlerStaysAuthentic(s, e);
      }
    }
  }

  lemma {:induction false} RunStaysAuthentic(s: System, es: seq<Event>)
    requires Initial(s) && Playable(s, es)
    ensures Authentic(Play(s, es)) && Play(s, es).token == s.token
  {
    if es != [] {
      var v, e := Play(s, es[..|es| - 1]), es[|es| - 1];
      RunStaysAuthentic(s, es[..|es| - 1]);
      TokenStays(v, e);
      forall k <- Play(s, es).conns ensures HasToken(s.token, Play(s, es).conns[k]) {
        ConnStaysAuthentic(v, e, k);
      }
    }
  }

  /** In every run the human is asked only about calls of gateways that hold the broker's token, and never if the broker has none. */
  lemma PromptedIsAuthentic(s: System, es: seq<Event>, k: nat)
    requires Initial(s) && Playable(s, es) && k in Play(s, es).conns && Play(s, es).conns[k].prompted
    ensures var c := Play(s, es).conns[k];
            && c.req.token == s.token != ""
            && c.gateway in Play(s, es).gateways && Play(s, es).gateways[c.gateway].req.token == s.token
  {
    RunKeepsInv(s, es);
    RunStaysAuthentic(s, es);
    assert HasToken(s.token, Play(s, es).conns[k]);
  }

  /**
    What the broker makes of a request it has read, whatever happened before:
    without its token it is denied, with a covering allow it is approved, and
    every other authenticated request goes on to the prompt.
  */
  lemma ReadRequestOutcome(s: System, es: seq<Event>, k: nat)
    requires Initial(s) && Playable(s, es) && Enabled(Play(s, es), ReadRequest(k))
    ensures var req, allowed := Play(s, es).conns[k].req, Play(s, es).allowed;
            var h := Apply(Play(s, es), ReadRequest(k)).conns[k].handler;
            && (h == Finished(Some(Denied)) <==> req.token != s.token || req.token == "")
            && (h == Finished(Some(Approved)) <==>
                  && req.token == s.token != "" && !req.urlElicitation && !req.piiRelease
                  && req.fingerprint.Some? && req.server + "/" + req.tool + "/" + req.fingerprint.value in allowed)
            && (h == ToPark <==>
                  && req.token == s.token != ""
                  && (req.urlElicitation || req.piiRelease || req.fingerprint.None?
                      || req.server + "/" + req.tool + "/" + req.fingerprint.value !in allowed))
  {
    RunStaysAuthentic(s, es);
  }

  /** A request on its way to the prompt is shown if there is room and its id is free, and denied otherwise. */
  lemma PromptedIffRoom(s: System, es: seq<Event>, k: nat)
    requires Initial(s) && Playable(s, es) && Enabled(Play(s, es), Park(k))
    ensures var v, v' := Play(s, es), Apply(Play(s, es), Park(k));
            if |v.pending| < 64 && v.conns[k].req.id !in v.pending
            then v'.conns[k].prompted && v'.conns[k].handler.Parked? && v'.pending == v.pending[v.conns[k].req.id := k]
            else !v'.conns[k].prompted && Answered(v', k, Denied) && v'.pending == v.pending
  {
    RunKeepsInv(s, es);
    assert ConnOk(Play(s, es).conns[k]);
  }

  /******* Approval is always justified *******/

  /**
    `e` is a covering allow matched for `k`, or a human approval while `k`'s
    waiter was in the map; and the caller holds the broker's token.
  */
  predicate Justifies(s: System, e: Event, k: nat)
  {
    && k in s.conns
    && (|| (e == ReadRequest(k) && AllowCovers(s.conns[k].req, s.token, s.allowed))
        || (e.Decide? && e.approved && e.id in s.pending && s.pending[e.id] == k))
    && s.conns[k].req.token == s.token != ""
  }

  predicate Approving(s: System, k: nat)
  {
    && k in s.conns
    && (s.conns[k].inbox == [Approved] || (!s.conns[k].prompted && s.conns[k].handler == Finished(Some(Approved))))
  }

  lemma ResolveSends(s: System, id: nat, d: Decision, k: nat)
    requires Inv(s) && k in s.conns && (id in s.pending ==> s.pending[id] in s.conns)
    ensures k in Resolve(s, id, d).conns
    ensures var c, c' := s.conns[k], Resolve(s, id, d).conns[k];
            && c'.handler == c.handler && c'.prompted == c.prompted
            && (c'.inbox == c.inbox || (id in s.pending && s.pending[id] == k && c'.inbox == [d]))
  {
    if id in s.pending {
      assert WaiterOk(s, id);
    }
  }

  lemma DecideJustifies(s: System, e: Event, k: nat)
    requires Inv(s) && Authentic(s) && Enabled(s, e) && (e.Decide? || e.WatcherFires?) && Approving(Apply(s, e), k)
    ensures Approving(s, k) || Justifies(s, e, k)
  {
    assert k in s.conns && HasToken(s.token, s.conns[k]);
    assert e.Decide? ==> WaiterOk(s, e.id);
    if e.Decide? {
      ResolveSends(s, e.id, if e.approved then Approved else Denied, k);
    } else {
      ResolveSends(s, s.conns[e.k].req.id, e.d, k);
    }
  }

  lemma StepJustifies(s: System, e: Event, k: nat)
    requires Inv(s) && Authentic(s) && Enabled(s, e) && Approving(Apply(s, e), k)
    ensures Approving(s, k) || Justifies(s, e, k)
  {
    if e.Decide? || e.WatcherFires? {
      DecideJustifies(s, e, k);
    } else {
      HandlerJustifies(s, e, k);
    }
  }

  lemma HandlerJustifies(s: System, e: Event, k: nat)
    requires Inv(s) && Enabled(s, e) && Approving(Apply(s, e), k) && !e.Decide? && !e.WatcherFires?
    ensures Approving(s, k) || Justifies(s, e, k)
  {
    assert k in s.conns ==> ConnOk(s.conns[k]);
    if GatewayEvent(e) {
      GatewayAnswersNothing(s, e, k);
    } else if !e.Allow? && !e.Disallow? {
      if k == e.k {
        OwnHandlerJustifies(s, e);
      } else {
        assert k in s.conns;
        HandlerKeepsConns(s, e, k);
      }
    }
  }

  lemma OwnHandlerJustifies(s: System, e: Event)
    requires e.ReadRequest? || e.RejectRequest? || e.Park? || e.Receive? || e.StopWaiting? || e.Cleanup? || e.Reply?
    requires Inv(s) && Enabled(s, e) && Approving(Apply(s, e), e.k)
    ensures Approving(s, e.k) || Justifies(s, e, e.k)
  {
    assert ConnOk(s.conns[e.k]);
    if e.ReadRequest? {
      AutoApproveIffCovered(s.conns[e.k].req, s.token, s.allowed);
    } else if e.Park? || e.Cleanup? {
      ParkOrCleanupApproves(s, e);
    } else {
      HandlerMoves(s, e);
    }
  }

  lemma ParkOrCleanupApproves(s: System, e: Event)
    requires (e.Park? || e.Cleanup?) && Enabled(s, e) && ConnOk(s.conns[e.k]) && Approving(Apply(s, e), e.k)
    ensures Approving(s, e.k)
  {
  }

  lemma {:induction false} ApprovingHasCause(s: System, es: seq<Event>, k: nat) returns (j: nat)
    requires Initial(s) && Playable(s, es) && Approving(Play(s, es), k)
    ensures j < |es| && Playable(s, es[..j]) && Justifies(Play(s, es[..j]), es[j], k)
  {
    var n := |es| - 1;
    assert es != [];
    var before := Play(s, es[..n]);
    assert Approving(before, k) || Justifies(before, es[n], k) by {
      RunKeepsInv(s, es[..n]);
      RunStaysAuthentic(s, es[..n]);
      StepJustifies(before, es[n], k);
    }
    if Justifies(before, es[n], k) {
      j := n;
    } else {
      j := ApprovingHasCause(s, es[..n], k);
      assert es[..n][..j] == es[..j];
    }
  }

  /**
    In every run: at most 64 parked calls, at most one message per channel,
    and an Approved answer has a justifying event earlier in the same run.
  */
  lemma ApprovalIsJustified(s: System, es: seq<Event>, k: nat)
    requires Initial(s) && Playable(s, es) && k in Play(s, es).conns
    ensures |Play(s, es).pending| <= MAX_PENDING
    ensures |Play(s, es).conns[k].inbox| <= 1
    ensures Answered(Play(s, es), k, Approved) ==>
              exists j :: 0 <= j < |es| && Playable(s, es[..j]) && Justifies(Play(s, es[..j]), es[j], k)
  {
    RunKeepsInv(s, es);
    assert ConnOk(Play(s, es).conns[k]);
    if Answered(Play(s, es), k, Approved) {
      var j := ApprovingHasCause(s, es, k);
    }
  }

  /** A prompted call is answered with the message that reached it in time, and otherwise Timeout. */
  lemma PromptedAnswer(s: System, es: seq<Event>, k: nat, d: Decision)
    requires Initial(s) && Playable(s, es) && Answered(Play(s, es), k, d) && Play(s, es).conns[k].prompted
    ensures var c := Play(s, es).conns[k];
            d == (if c.inbox != [] && !c.late then c.inbox[0] else Timeout)
  {
    RunKeepsInv(s, es);
    assert ConnOk(Play(s, es).conns[k]);
  }

  /** A channel that holds a message keeps it, and nothing is added. */
  lemma InboxStays(s: System, e: Event, k: nat)
    requires Inv(s) && Enabled(s, e) && k in s.conns && s.conns[k].inbox != []
    ensures k in Apply(s, e).conns && Apply(s, e).conns[k].inbox == s.conns[k].inbox && Apply(s, e).conns[k].late == s.conns[k].late
    ensures Apply(s, e).conns[k].prompted == s.conns[k].prompted
  {
    assert ConnOk(s.conns[k]);
    if GatewayEvent(e) {
      GatewayKeepsAll(s, e, k);
      GatewayAnswersNothing(s, e, k);
    } else if e.Decide? {
      ResolveSkips(s, e.id, if e.approved then Approved else Denied, k);
    } else if e.WatcherFires? {
      ResolveSkips(s, s.conns[e.k].req.id, e.d, k);
    } else if !e.Allow? && !e.Disallow? {
      if k != e.k {
        HandlerKeepsConns(s, e, k);
      } else {
        OwnInboxStays(s, e);
      }
    }
  }

  lemma ResolveSkips(s: System, id: nat, d: Decision, k: nat)
    requires Inv(s) && k in s.conns && s.conns[k].inbox != [] && (id in s.pending ==> s.pending[id] in s.conns)
    ensures k in Resolve(s, id, d).conns && Resolve(s, id, d).conns[k] == s.conns[k]
  {
    if id in s.pending {
      assert WaiterOk(s, id);
    }
  }

  lemma OwnInboxStays(s: System, e: Event)
    requires e.ReadRequest? || e.RejectRequest? || e.Park? || e.Receive? || e.StopWaiting? || e.Cleanup? || e.Reply?
    requires Enabled(s, e) && ConnOk(s.conns[e.k]) && s.conns[e.k].inbox != []
    ensures var c, c' := s.conns[e.k], Apply(s, e).conns[e.k]; c'.inbox == c.inbox && c'.late == c.late && c'.prompted == c.prompted
  {
  }

  lemma {:induction false} InboxSince(s: System, es: seq<Event>, k: nat, j: nat)
    requires Initial(s) && Playable(s, es) && j <= |es| && Playable(s, es[..j])
    requires k in Play(s, es[..j]).conns && Play(s, es[..j]).conns[k].inbox != []
    ensures k in Play(s, es).conns
    ensures var c, c' := Play(s, es[..j]).conns[k], Play(s, es).conns[k];
            c'.inbox == c.inbox && c'.late == c.late && c'.prompted == c.prompted
  {
    if j == |es| {
      assert es[..j] == es;
    } else {
      var n := |es| - 1;
      assert es[..n][..j] == es[..j];
      InboxSince(s, es[..n], k, j);
      RunKeepsInv(s, es[..n]);
      InboxStays(Play(s, es[..n]), es[n], k);
    }
  }

  lemma DecideSends(s: System, id: nat, approved: bool, k: nat)
    requires Inv(s) && id in s.pending && s.pending[id] == k && Enabled(s, Decide(id, approved))
    ensures var c := Apply(s, Decide(id, approved)).conns[k];
            && k in Apply(s, Decide(id, approved)).conns && c.prompted
            && c.inbox == [if approved then Approved else Denied] && c.late == !s.conns[k].handler.Parked?
  {
    assert WaiterOk(s, id);
  }

  /**
    What a human's decision is worth: the caller it was made for is answered
    with it if its handler was still waiting at that moment, and Timeout otherwise.
  */
  lemma DecisionCountsIffWaiting(s: System, es: seq<Event>, j: nat, k: nat, d: Decision)
    requires Initial(s) && Playable(s, es) && j < |es| && Playable(s, es[..j]) && es[j].Decide?
    requires es[j].id in Play(s, es[..j]).pending && Play(s, es[..j]).pending[es[j].id] == k && k in Play(s, es[..j]).conns
    requires Answered(Play(s, es), k, d)
    ensures d == if !Play(s, es[..j]).conns[k].handler.Parked? then Timeout else if es[j].approved then Approved else Denied
  {
    PlayAt(s, es, j);
    RunKeepsInv(s, es[..j]);
    DecideSends(Play(s, es[..j]), es[j].id, es[j].approved, k);
    InboxSince(s, es, k, j + 1);
    RunKeepsInv(s, es);
    assert ConnOk(Play(s, es).conns[k]);
  }

  lemma WatcherSends(s: System, w: nat, d: Decision, k: nat)
    requires Inv(s) && Enabled(s, WatcherFires(w, d)) && s.conns[w].req.id in s.pending && s.pending[s.conns[w].req.id] == k
    ensures var v := Apply(s, WatcherFires(w, d));
            && k in v.conns && v.conns[k].prompted && v.conns[k].inbox == [d] && v.conns[k].late == !s.conns[k].handler.Parked?
            && s.conns[w].req.id !in v.pending
  {
    assert WaiterOk(s, s.conns[w].req.id);
  }

  /**
    A caller that hangs up, or stays silent too long, takes its own prompt
    down: the waiter under its id is answered with what its watcher saw if it
    was still waiting then, and Timeout otherwise.
  */
  lemma WatcherCountsIffWaiting(s: System, es: seq<Event>, j: nat, k: nat, d: Decision)
    requires Initial(s) && Playable(s, es) && j < |es| && Playable(s, es[..j]) && es[j].WatcherFires?
    requires es[j].k in Play(s, es[..j]).conns && k in Play(s, es[..j]).conns
    requires var v := Play(s, es[..j]); var id := v.conns[es[j].k].req.id; id in v.pending && v.pending[id] == k
    requires Answered(Play(s, es), k, d)
    ensures d == if Play(s, es[..j]).conns[k].handler.Parked? then es[j].d else Timeout
  {
    PlayAt(s, es, j);
    RunKeepsInv(s, es[..j]);
    WatcherSends(Play(s, es[..j]), es[j].k, es[j].d, k);
    InboxSince(s, es, k, j + 1);
    RunKeepsInv(s, es);
    assert ConnOk(Play(s, es).conns[k]);
  }

  lemma {:induction false} PlayAt(s: System, es: seq<Event>, j: nat)
    requires Playable(s, es) && j < |es|
    ensures Playable(s, es[..j]) && Playable(s, es[..j + 1]) && Enabled(Play(s, es[..j]), es[j])
    ensures Play(s, es[..j + 1]) == Apply(Play(s, es[..j]), es[j])
  {
    if j + 1 == |es| {
      assert es[..j + 1] == es;
    } else {
      var n := |es| - 1;
      PlayAt(s, es[..n], j);
      assert es[..n][..j] == es[..j] && es[..n][..j + 1] == es[..j + 1];
    }
  }

  lemma AnswerStays(s: System, e: Event, k: nat, d: Decision)
    requires Inv(s) && Enabled(s, e) && Answered(s, k, d)
    ensures Answered(Apply(s, e), k, d) && Apply(s, e).conns[k].gateway == s.conns[k].gateway
  {
    if GatewayEvent(e) {
      GatewayKeepsAll(s, e, k);
      GatewayAnswersNothing(s, e, k);
    } else {
      BrokerKeepsConns(s, e, k);
      if e.Decide? {
        ResolveSends(s, e.id, if e.approved then Approved else Denied, k);
      } else if e.WatcherFires? {
        ResolveSends(s, s.conns[e.k].req.id, e.d, k);
      } else if !e.Allow? && !e.Disallow? && k != e.k {
        HandlerKeepsConns(s, e, k);
      }
    }
  }

  lemma StepToApproved(s: System, e: Event, g: nat)
    requires Homes(s) && Enabled(s, e) && g in Apply(s, e).gateways && Apply(s, e).gateways[g].pc == Final(Approved)
    ensures g in s.gateways
    ensures s.gateways[g].pc == Final(Approved)
            || (AwaitingConn(s, g) && Answered(s, s.gateways[g].pc.k, Approved) && s.conns[s.gateways[g].pc.k].gateway == g)
  {
    if GatewayEvent(e) && e.g == g {
      OwnStep(s, e);
      assert GatewayOk(s, g, s.gateways[g]);
    } else {
      OtherGateways(s, e, g);
    }
  }

  lemma {:induction false} GatewayApprovalHasConn(s: System, es: seq<Event>, g: nat) returns (k: nat)
    requires Initial(s) && Playable(s, es) && g in Play(s, es).gateways
    requires Play(s, es).gateways[g].pc == Final(Approved)
    ensures Answered(Play(s, es), k, Approved) && Play(s, es).conns[k].gateway == g
  {
    var n := |es| - 1;
    assert es != [];
    var before := Play(s, es[..n]);
    RunKeepsInv(s, es[..n]);
    StepToApproved(before, es[n], g);
    if before.gateways[g].pc == Final(Approved) {
      k := GatewayApprovalHasConn(s, es[..n], g);
    } else {
      k := before.gateways[g].pc.k;
    }
    AnswerStays(before, es[n], k, Approved);
  }

  /** Fail closed end to end: a gateway lets a call run only on a justified approval of its own connection. */
  lemma GatewayApprovalIsJustified(s: System, es: seq<Event>, g: nat)
    requires Initial(s) && Playable(s, es) && g in Play(s, es).gateways
    requires Play(s, es).gateways[g].pc == Final(Approved)
    ensures exists k, j :: 0 <= j < |es| && Playable(s, es[..j]) && Justifies(Play(s, es[..j]), es[j], k)
                           && k in Play(s, es).conns && Play(s, es).conns[k].gateway == g
  {
    var k := GatewayApprovalHasConn(s, es, g);
    ApprovalIsJustified(s, es, k);
  }

  /******* How a gateway's call ends *******/

  /** Event `n` of the run ends gateway `g`'s call. */
  ghost predicate EndsAt(s: System, es: seq<Event>, g: nat, n: nat)
  {
    && n < |es| && Playable(s, es[..n]) && Playable(s, es[..n + 1])
    && g in Play(s, es[..n]).gateways && !Play(s, es[..n]).gateways[g].pc.Final?
    && g in Play(s, es[..n + 1]).gateways && Play(s, es[..n + 1]).gateways[g].pc.Final?
  }

  /** The event reads an answer `d` off the connection the gateway waits on. */
  predicate ReadsAnswer(s: System, e: Event, g: nat, d: Decision)
  {
    e == ReadAnswer(g) && AwaitingConn(s, g) && Answered(s, s.gateways[g].pc.k, d)
  }

  /** The one step that ends a call, and what it makes of cancellation. */
  lemma EndStep(s: System, e: Event, g: nat, d: Decision)
    requires Enabled(s, e) && g in s.gateways && !s.gateways[g].pc.Final?
    requires g in Apply(s, e).gateways && Apply(s, e).gateways[g].pc == Final(d)
    ensures d.Approved? || d.Denied? <==> ReadsAnswer(s, e, g, Approved) || ReadsAnswer(s, e, g, Denied)
    ensures d.Approved? || d.Denied? ==> ReadsAnswer(s, e, g, d)
    ensures s.gateways[g].cancelled && !d.Approved? && !d.Denied? ==> d.Withdrawn?
    ensures !s.gateways[g].cancelled && !e.ReadAnswer? ==>
              (d.Unreachable? <==> e != ReadFails(g)) && (d.Timeout? <==> e == ReadFails(g)) && (d.Unreachable? ==> s.gateways[g].retried)
  {
    if !(GatewayEvent(e) && e.g == g) {
      OtherGateways(s, e, g);
    }
    match e
    case ReadAnswer(_) =>
    case ReadFails(_) =>
    case SeesCancel(_) =>
    case ReadEof(_) =>
    case WriteCut(_) =>
    case DialFails(_) =>
    case _ =>
  }

  lemma FinalStays(s: System, e: Event, g: nat)
    requires Enabled(s, e) && g in s.gateways && s.gateways[g].pc.Final?
    ensures g in Apply(s, e).gateways && Apply(s, e).gateways[g].pc == s.gateways[g].pc
  {
    if GatewayEvent(e) && e.g == g {
      OwnStep(s, e);
    } else {
      OtherGateways(s, e, g);
    }
  }

  lemma BornDialing(s: System, e: Event, g: nat)
    requires Enabled(s, e) && g !in s.gateways && g in Apply(s, e).gateways
    ensures Apply(s, e).gateways[g].pc.Dialing?
  {
    if GatewayEvent(e) && e.g == g {
      OwnStep(s, e);
    } else {
      OtherGateways(s, e, g);
    }
  }

  lemma {:induction false} FinalHasEnd(s: System, es: seq<Event>, g: nat) returns (n: nat)
    requires Initial(s) && Playable(s, es) && g in Play(s, es).gateways && Play(s, es).gateways[g].pc.Final?
    ensures EndsAt(s, es, g, n) && Play(s, es[..n + 1]).gateways[g].pc == Play(s, es).gateways[g].pc
  {
    var m := |es| - 1;
    assert es != [] && es[..m + 1] == es;
    var v := Play(s, es[..m]);
    if g !in v.gateways {
      BornDialing(v, es[m], g);
    }
    if v.gateways[g].pc.Final? {
      FinalStays(v, es[m], g);
      n := FinalHasEnd(s, es[..m], g);
      assert es[..m][..n] == es[..n] && es[..m][..n + 1] == es[..n + 1];
    } else {
      n := m;
    }
  }

  /**
    For every run: a call ends Approved or Denied if and only if the gateway
    read that answer on its own connection. If it was cancelled before its last
    dial ended, it ends Withdrawn in every other case, never Timeout or Unreachable.
  */
  lemma AnswerBeatsCancellation(s: System, es: seq<Event>, g: nat, d: Decision) returns (n: nat)
    requires Initial(s) && Playable(s, es) && g in Play(s, es).gateways && Play(s, es).gateways[g].pc == Final(d)
    ensures EndsAt(s, es, g, n)
    ensures var v, e := Play(s, es[..n]), es[n];
            && (d.Approved? || d.Denied? <==> ReadsAnswer(v, e, g, Approved) || ReadsAnswer(v, e, g, Denied))
            && (d.Approved? || d.Denied? ==> ReadsAnswer(v, e, g, d))
            && (v.gateways[g].cancelled && !d.Approved? && !d.Denied? ==> d.Withdrawn?)
  {
    n := FinalHasEnd(s, es, g);
    assert es[..n + 1][..n] == es[..n];
    EndStep(Play(s, es[..n]), es[n], g, d);
  }

  /** A dial that does not reach the broker: withdrawn if cancelled, tried once more if it was the first, and else unreachable. */
  lemma UnreachedDial(s: System, e: Event)
    requires Enabled(s, e) && (e.DialFails? || e.WriteCut? || e.ReadEof?)
    ensures var x, x' := s.gateways[e.g], Apply(s, e).gateways[e.g];
            && (x'.pc == Final(Withdrawn) <==> x.cancelled)
            && (x'.pc == Dialing <==> !x.cancelled && !x.retried)
            && (x'.pc == Final(Unreachable) <==> !x.cancelled && x.retried)
            && x'.retried == (x.retried || !x.cancelled)
  {
    match e
    case DialFails(_) =>
    case WriteCut(_) =>
    case ReadEof(_) =>
  }

  function ConnsOf(s: System, g: nat): set<nat>
  {
    set k <- s.conns | s.conns[k].gateway == g
  }

  /** How many dials a gateway may have made where it is. */
  function Dials(x: Gateway): nat
  {
    (if x.pc.Dialing? then 0 else 1) + (if x.retried then 1 else 0)
  }

  lemma RetryStep(s: System, e: Event)
    requires Enabled(s, e) && GatewayEvent(e) && e.g in s.gateways
    ensures e.g in Apply(s, e).gateways
    ensures var x, x' := s.gateways[e.g], Apply(s, e).gateways[e.g]; Dials(x') >= Dials(x) + if e.DialOk? then 1 else 0
  {
    match e
    case Start(_, _, _) =>
    case Cancel(_) =>
    case DialFails(_) =>
    case DialOk(_, _) =>
    case WriteDone(_) =>
    case WriteCut(_) =>
    case ReadEof(_) =>
    case ReadAnswer(_) =>
    case ReadFails(_) =>
    case SeesCancel(_) =>
  }

  lemma ConnsOfStep(s: System, e: Event, g: nat)
    requires Enabled(s, e)
    ensures ConnsOf(Apply(s, e), g) <= ConnsOf(s, g) + if e.DialOk? && e.g == g then {e.k} else {}
  {
    forall k <- ConnsOf(Apply(s, e), g) ensures k in ConnsOf(s, g) || (e.DialOk? && e.g == g && k == e.k) {
      if GatewayEvent(e) {
        GatewayAnswersNothing(s, e, k);
      } else {
        BrokerAddsNone(s, e);
        BrokerKeepsConns(s, e, k);
      }
    }
  }

  lemma BrokerAddsNone(s: System, e: Event)
    requires Enabled(s, e) && !GatewayEvent(e)
    ensures Apply(s, e).conns.Keys == s.conns.Keys
  {
  }

  lemma SubsetSize(a: set<nat>, b: set<nat>)
    requires a <= b
    ensures |a| <= |b|
  {
    assert b == a + (b - a);
  }

  lemma DialsStep(s: System, e: Event, g: nat)
    requires Enabled(s, e) && g in Apply(s, e).gateways
    requires if g in s.gateways then |ConnsOf(s, g)| <= Dials(s.gateways[g]) else ConnsOf(s, g) == {}
    ensures |ConnsOf(Apply(s, e), g)| <= Dials(Apply(s, e).gateways[g])
  {
    ConnsOfStep(s, e, g);
    SubsetSize(ConnsOf(Apply(s, e), g), ConnsOf(s, g) + if e.DialOk? && e.g == g then {e.k} else {});
    if !(GatewayEvent(e) && e.g == g) {
      OtherGateways(s, e, g);
    } else if g in s.gateways {
      RetryStep(s, e);
    }
  }

  /** A call opens at most two connections, the second only after the first did not reach the broker. */
  lemma {:induction false} TwoDials(s: System, es: seq<Event>, g: nat)
    requires Initial(s) && Playable(s, es)
    ensures g !in Play(s, es).gateways ==> ConnsOf(Play(s, es), g) == {}
    ensures g in Play(s, es).gateways ==>
              |ConnsOf(Play(s, es), g)| <= Dials(Play(s, es).gateways[g]) <= 2
              && (|ConnsOf(Play(s, es), g)| == 2 ==> Play(s, es).gateways[g].retried)
  {
    if es != [] {
      var v, e := Play(s, es[..|es| - 1]), es[|es| - 1];
      TwoDials(s, es[..|es| - 1], g);
      if g in Apply(v, e).gateways {
        DialsStep(v, e, g);
      } else {
        RunKeepsInv(s, es);
      }
    }
  }

  /******* No double prompt *******/

  /**
    A broker that has parked a request survives and delivers its answer: the
    socket ends unanswered only on a handler that finished without a prompt,
    its own answer lost or none given.
  */
  predicate Delivers(s: System, e: Event)
    requires Enabled(s, e)
  {
    e.ReadEof? ==> s.conns[s.gateways[e.g].pc.k].handler.Finished? && !s.conns[s.gateways[e.g].pc.k].prompted
  }

  /** Correlation ids are fresh (128 random bits). */
  ghost predicate FreshId(s: System, e: Event)
  {
    e.Start? ==> forall g <- s.gateways :: s.gateways[g].req.id != e.req.id
  }

  ghost predicate Sound(s: System, es: seq<Event>)
    requires Playable(s, es)
  {
    es == [] || (Sound(s, es[..|es| - 1]) && Delivers(Play(s, es[..|es| - 1]), es[|es| - 1])
                 && FreshId(Play(s, es[..|es| - 1]), es[|es| - 1]))
  }

  /** Never prompted, and never will be. */
  predicate Spent(c: Conn)
  {
    !c.prompted && (c.handler.Finished? || c.wire.Cut?)
  }

  predicate NotCurrent(pc: GatewayPc, k: nat)
  {
    pc.Dialing? || ((pc.Writing? || pc.Awaiting?) && pc.k != k)
  }

  ghost predicate OneChance(s: System)
  {
    && (forall k <- s.conns :: s.conns[k].gateway in s.gateways && NotCurrent(s.gateways[s.conns[k].gateway].pc, k) ==>
          Spent(s.conns[k]))
    && (forall k <- s.conns, k' <- s.conns :: k != k' && s.conns[k].gateway == s.conns[k'].gateway ==>
          Spent(s.conns[k]) || Spent(s.conns[k']))
    && (forall g <- s.gateways, g' <- s.gateways :: g != g' ==> s.gateways[g].req.id != s.gateways[g'].req.id)
  }

  lemma SpentStays(s: System, e: Event, k: nat)
    requires Inv(s) && Homes(s) && Enabled(s, e) && k in s.conns && Spent(s.conns[k])
    ensures k in Apply(s, e).conns && Spent(Apply(s, e).conns[k])
  {
    assert ConnOk(s.conns[k]);
    if GatewayEvent(e) {
      GatewayKeepsAll(s, e, k);
      GatewayAnswersNothing(s, e, k);
      CutStaysCut(s, e, k);
    } else {
      BrokerKeepsConns(s, e, k);
      if e.Decide? {
        ResolveSends(s, e.id, if e.approved then Approved else Denied, k);
      } else if e.WatcherFires? {
        ResolveSends(s, s.conns[e.k].req.id, e.d, k);
      } else if !e.Allow? && !e.Disallow? {
        if k != e.k {
          HandlerKeepsConns(s, e, k);
        } else {
          OwnSpentStays(s, e);
        }
      }
    }
  }

  lemma OwnSpentStays(s: System, e: Event)
    requires e.ReadRequest? || e.RejectRequest? || e.Park? || e.Receive? || e.StopWaiting? || e.Cleanup? || e.Reply?
    requires Inv(s) && Enabled(s, e) && Spent(s.conns[e.k])
    ensures e.k in Apply(s, e).conns && Spent(Apply(s, e).conns[e.k])
  {
    assert ConnOk(s.conns[e.k]);
  }

  lemma CutStaysCut(s: System, e: Event, k: nat)
    requires Homes(s) && Enabled(s, e) && GatewayEvent(e) && k in s.conns && k in Apply(s, e).conns
    ensures s.conns[k].wire.Cut? ==> Apply(s, e).conns[k].wire.Cut?
  {
    assert e.g in s.gateways ==> GatewayOk(s, e.g, s.gateways[e.g]);
    match e
    case WriteDone(_) =>
    case WriteCut(_) =>
    case DialOk(_, _) =>
    case _ =>
  }

  lemma RedialEvents(s: System, e: Event, g: nat)
    requires Enabled(s, e) && g in s.gateways && !s.gateways[g].pc.Dialing?
    requires g in Apply(s, e).gateways && Apply(s, e).gateways[g].pc.Dialing?
    ensures (e == WriteCut(g) || e == ReadEof(g)) && (s.gateways[g].pc.Writing? || s.gateways[g].pc.Awaiting?)
  {
    if GatewayEvent(e) && e.g == g {
      OwnStep(s, e);
    } else {
      OtherGateways(s, e, g);
    }
  }

  /** A gateway leaves a connection behind only when that has ended unprompted or was cut. */
  lemma LeavingMeansSpent(s: System, e: Event, k: nat, s': System)
    requires Inv(s) && Homes(s) && Enabled(s, e) && Delivers(s, e) && s' == Apply(s, e)
    requires k in s.conns && s.conns[k].gateway in s.gateways && s.conns[k].gateway in s'.gateways
    requires !NotCurrent(s.gateways[s.conns[k].gateway].pc, k) && NotCurrent(s'.gateways[s.conns[k].gateway].pc, k)
    ensures k in s'.conns && Spent(s'.conns[k])
  {
    var g := s.conns[k].gateway;
    assert GatewayOk(s, g, s.gateways[g]);
    assert ConnOk(s.conns[k]);
    if s'.gateways[g].pc.Dialing? {
      RedialEvents(s, e, g);
    } else {
      StaysOnConn(s, e, g);
    }
  }

  lemma StaysOnConn(s: System, e: Event, g: nat)
    requires Enabled(s, e) && g in s.gateways && !s.gateways[g].pc.Dialing?
    requires g in Apply(s, e).gateways && (Apply(s, e).gateways[g].pc.Writing? || Apply(s, e).gateways[g].pc.Awaiting?)
    ensures (s.gateways[g].pc.Writing? || s.gateways[g].pc.Awaiting?) && Apply(s, e).gateways[g].pc.k == s.gateways[g].pc.k
  {
    if GatewayEvent(e) && e.g == g {
      OwnStep(s, e);
    } else {
      OtherGateways(s, e, g);
    }
  }

  lemma NotCurrentMeansSpent(s: System, e: Event, k: nat, s': System)
    requires Inv(s) && Homes(s) && OneChance(s) && Enabled(s, e) && Delivers(s, e) && s' == Apply(s, e)
    requires k in s.conns && s.conns[k].gateway in s.gateways && s.conns[k].gateway in s'.gateways
    requires NotCurrent(s'.gateways[s.conns[k].gateway].pc, k)
    ensures k in s'.conns && Spent(s'.conns[k])
  {
    if NotCurrent(s.gateways[s.conns[k].gateway].pc, k) {
      SpentStays(s, e, k);
    } else {
      LeavingMeansSpent(s, e, k, s');
    }
  }

  lemma ConnKeepsGateway(s: System, e: Event, k: nat)
    requires Enabled(s, e) && k in s.conns
    ensures k in Apply(s, e).conns && Apply(s, e).conns[k].gateway == s.conns[k].gateway
    ensures Apply(s, e).conns[k].req == s.conns[k].req
  {
    if !GatewayEvent(e) {
      BrokerKeepsConns(s, e, k);
    }
  }

  lemma NewConn(s: System, e: Event, k: nat)
    requires Enabled(s, e) && k !in s.conns && k in Apply(s, e).conns
    ensures e.DialOk? && e.k == k && e.g in s.gateways && s.gateways[e.g].pc.Dialing?
    ensures Apply(s, e).conns[k].gateway == e.g && Apply(s, e).gateways[e.g].pc == Writing(k)
  {
    match e
    case DialOk(_, _) =>
    case _ =>
  }

  lemma StepKeepsChance(s: System, e: Event)
    requires Inv(s) && Homes(s) && OneChance(s) && Enabled(s, e) && Delivers(s, e) && FreshId(s, e)
    ensures OneChance(Apply(s, e))
  {
    var s' := Apply(s, e);
    forall k <- s'.conns | s'.conns[k].gateway in s'.gateways && NotCurrent(s'.gateways[s'.conns[k].gateway].pc, k)
      ensures Spent(s'.conns[k])
    {
      if k in s.conns {
        ConnKeepsGateway(s, e, k);
        NotCurrentMeansSpent(s, e, k, s');
      } else {
        NewConn(s, e, k);
      }
    }
    forall k <- s'.conns, k' <- s'.conns | k != k' && s'.conns[k].gateway == s'.conns[k'].gateway
      ensures Spent(s'.conns[k]) || Spent(s'.conns[k'])
    {
      PairKeepsChance(s, e, k, k');
    }
    forall g <- s'.gateways, g' <- s'.gateways | g != g' ensures s'.gateways[g].req.id != s'.gateways[g'].req.id {
      GatewayKeepsRequest(s, e, g);
      GatewayKeepsRequest(s, e, g');
    }
  }

  lemma PairKeepsChance(s: System, e: Event, k: nat, k': nat)
    requires Inv(s) && Homes(s) && OneChance(s) && Enabled(s, e) && k != k'
    requires k in Apply(s, e).conns && k' in Apply(s, e).conns
    requires Apply(s, e).conns[k].gateway == Apply(s, e).conns[k'].gateway
    ensures Spent(Apply(s, e).conns[k]) || Spent(Apply(s, e).conns[k'])
  {
    if k in s.conns {
      ConnKeepsGateway(s, e, k);
      if Spent(s.conns[k]) {
        SpentStays(s, e, k);
      }
    } else {
      NewConn(s, e, k);
    }
    if k' in s.conns {
      ConnKeepsGateway(s, e, k');
      if Spent(s.conns[k']) {
        SpentStays(s, e, k');
      }
    } else {
      NewConn(s, e, k');
    }
  }

  lemma {:induction false} SoundRunKeepsChance(s: System, es: seq<Event>)
    requires Initial(s) && Playable(s, es) && Sound(s, es)
    ensures OneChance(Play(s, es))
  {
    if es != [] {
      SoundRunKeepsChance(s, es[..|es| - 1]);
      RunKeepsInv(s, es[..|es| - 1]);
      StepKeepsChance(Play(s, es[..|es| - 1]), es[|es| - 1]);
    }
  }

  /** One call prompts a human at most once across its two dials, and no two prompts share an id. */
  lemma NoDoublePrompt(s: System, es: seq<Event>, k: nat, k': nat)
    requires Initial(s) && Playable(s, es) && Sound(s, es)
    requires k in Play(s, es).conns && k' in Play(s, es).conns
    requires Play(s, es).conns[k].prompted && Play(s, es).conns[k'].prompted
    requires Play(s, es).conns[k].gateway == Play(s, es).conns[k'].gateway
             || Play(s, es).conns[k].req.id == Play(s, es).conns[k'].req.id
    ensures k == k'
  {
    SoundRunKeepsChance(s, es);
    RunKeepsInv(s, es);
  }

  /** Every caller still waiting for a human is in the pending map, where it can be decided. */
  ghost predicate WaitersListed(s: System)
  {
    forall k <- s.conns :: s.conns[k].handler.Parked? && s.conns[k].inbox == [] ==>
      s.conns[k].req.id in s.pending && s.pending[s.conns[k].req.id] == k
  }

  predicate OwnRemoval(s: System, e: Event, id: nat)
    requires id in s.pending
  {
    e.Decide? || (e.WatcherFires? && e.k == s.pending[id]) || (e.Cleanup? && e.k == s.pending[id])
  }

  lemma OnePromptPerId(s: System, k: nat, k': nat)
    requires Inv(s) && Homes(s) && OneChance(s) && k in s.conns && k' in s.conns
    requires s.conns[k].prompted && s.conns[k'].prompted && s.conns[k].req.id == s.conns[k'].req.id
    ensures k == k'
  {
  }

  lemma RemovalEvents(s: System, e: Event, id: nat)
    requires Inv(s) && Enabled(s, e)
    requires id in s.pending && (id !in Apply(s, e).pending || Apply(s, e).pending[id] != s.pending[id])
    ensures e.Decide?
            || ((e.WatcherFires? || e.Cleanup?) && s.conns[e.k].req.id == id && s.conns[e.k].prompted)
  {
    if !e.Decide? && !e.WatcherFires? && !e.Cleanup? && !e.Park? {
      PendingStays(s, e);
    } else if e.Park? {
      ParkRemovesNothing(s, e.k, id);
    } else if !e.Decide? {
      assert ConnOk(s.conns[e.k]);
    }
  }

  lemma ParkRemovesNothing(s: System, k: nat, id: nat)
    requires k in s.conns && id in s.pending
    ensures id in StepPark(s, k).pending && StepPark(s, k).pending[id] == s.pending[id]
  {
  }

  lemma PendingStays(s: System, e: Event)
    requires Enabled(s, e) && !e.Decide? && !e.WatcherFires? && !e.Cleanup? && !e.Park?
    ensures Apply(s, e).pending == s.pending
  {
  }

  /** With unshared ids, only the human, a caller's own watcher and its own cleanup remove its waiter. */
  lemma RemovedOnlyByOwner(s: System, e: Event, id: nat)
    requires Inv(s) && Homes(s) && OneChance(s) && Enabled(s, e)
    requires id in s.pending && (id !in Apply(s, e).pending || Apply(s, e).pending[id] != s.pending[id])
    ensures OwnRemoval(s, e, id)
  {
    RemovalEvents(s, e, id);
    if !e.Decide? {
      assert WaiterOk(s, id);
      OnePromptPerId(s, e.k, s.pending[id]);
    }
  }

  lemma ResolveFills(s: System, id: nat, d: Decision, of: nat)
    requires Inv(s) && id in s.pending && s.pending[id] in s.conns && of in s.pending
    requires of !in Resolve(s, id, d).pending
    ensures of == id && s.pending[id] in Resolve(s, id, d).conns && Resolve(s, id, d).conns[s.pending[id]].inbox != []
  {
  }

  lemma StartsWaiting(s: System, e: Event, k: nat)
    requires Inv(s) && Enabled(s, e)
    requires k in Apply(s, e).conns && Apply(s, e).conns[k].handler.Parked? && Apply(s, e).conns[k].inbox == []
    ensures e == Park(k) || (k in s.conns && s.conns[k].handler.Parked? && s.conns[k].inbox == [])
  {
    if GatewayEvent(e) {
      GatewayAnswersNothing(s, e, k);
    } else if e.Decide? {
      ResolveSends(s, e.id, if e.approved then Approved else Denied, k);
    } else if e.WatcherFires? {
      ResolveSends(s, s.conns[e.k].req.id, e.d, k);
    } else if !e.Allow? && !e.Disallow? && k != e.k {
      assert k in s.conns;
      HandlerKeepsConns(s, e, k);
    }
  }

  /** The handler of `k` waits and nobody has sent it anything. */
  predicate Waiting(s: System, k: nat)
  {
    k in s.conns && s.conns[k].handler.Parked? && s.conns[k].inbox == []
  }

  /** The pending map leads to `k`, so it can be decided. */
  predicate Listed(s: System, k: nat)
    requires k in s.conns
  {
    s.conns[k].req.id in s.pending && s.pending[s.conns[k].req.id] == k
  }

  /** Another connection with the same id cleans up. */
  predicate ForeignCleanup(s: System, e: Event, k: nat)
    requires k in s.conns
  {
    e.Cleanup? && e.k != k && e.k in s.conns && s.conns[e.k].req.id == s.conns[k].req.id
  }

  /** A waiter is listed when it parks. */
  lemma ParkLists(s: System, k: nat)
    requires Enabled(s, Park(k)) && Waiting(Apply(s, Park(k)), k)
    ensures Listed(Apply(s, Park(k)), k)
  {
  }

  lemma NobodyElseLists(s: System, e: Event, k: nat, id: nat)
    requires Enabled(s, e) && e != Park(k) && id in Apply(s, e).pending && Apply(s, e).pending[id] == k
    ensures id in s.pending && s.pending[id] == k
  {
    if !e.Decide? && !e.WatcherFires? && !e.Cleanup? && !e.Park? {
      PendingStays(s, e);
    }
  }

  lemma CleanupUnlists(s: System, e: Event, k: nat)
    requires Enabled(s, e) && k in s.conns && ForeignCleanup(s, e, k)
    ensures s.conns[k].req.id !in Apply(s, e).pending
  {
  }

  /** Whoever takes a waiter off the map ends its wait, unless it is another connection's cleanup. */
  lemma RemovalEndsWait(s: System, e: Event, k: nat, id: nat)
    requires Inv(s) && Enabled(s, e) && id in s.pending && s.pending[id] == k && k in s.conns && s.conns[k].req.id == id
    requires e.Decide? || ((e.WatcherFires? || e.Cleanup?) && s.conns[e.k].req.id == id)
    requires id !in Apply(s, e).pending && !ForeignCleanup(s, e, k)
    ensures !Waiting(Apply(s, e), k)
  {
    if e.Decide? {
      ResolveFills(s, e.id, if e.approved then Approved else Denied, id);
    } else if e.WatcherFires? {
      ResolveFills(s, s.conns[e.k].req.id, e.d, id);
    }
  }

  lemma RemovedMeansGone(s: System, e: Event, id: nat)
    requires Enabled(s, e) && id in s.pending && (e.Decide? || e.WatcherFires? || e.Cleanup?)
    requires id !in Apply(s, e).pending || Apply(s, e).pending[id] != s.pending[id]
    ensures id !in Apply(s, e).pending
  {
  }

  /** A listed waiter that goes on waiting goes on being listed, unless another connection's cleanup takes its id away. */
  lemma ListedStays(s: System, e: Event, k: nat, s': System)
    requires Inv(s) && Enabled(s, e) && s' == Apply(s, e) && k in s.conns && Waiting(s', k) && Listed(s, k) && !ForeignCleanup(s, e, k)
    requires s'.conns[k].req == s.conns[k].req
    ensures Listed(s', k)
  {
    var id := s.conns[k].req.id;
    if id !in s'.pending || s'.pending[id] != k {
      RemovalEvents(s, e, id);
      RemovedMeansGone(s, e, id);
      RemovalEndsWait(s, e, k, id);
    }
  }

  /** What one step does to a waiter's place in the map. */
  lemma WaitStep(s: System, e: Event, k: nat)
    requires Inv(s) && Enabled(s, e) && Waiting(Apply(s, e), k)
    ensures e == Park(k) ==> Listed(Apply(s, e), k)
    ensures e != Park(k) ==> Waiting(s, k) && (Listed(Apply(s, e), k) <==> Listed(s, k) && !ForeignCleanup(s, e, k))
  {
    StartsWaiting(s, e, k);
    if e == Park(k) {
      ParkLists(s, k);
    } else {
      ConnKeepsGateway(s, e, k);
      if Listed(Apply(s, e), k) {
        NobodyElseLists(s, e, k, s.conns[k].req.id);
      }
      if ForeignCleanup(s, e, k) {
        CleanupUnlists(s, e, k);
      } else if Listed(s, k) {
        ListedStays(s, e, k, Apply(s, e));
      }
    }
  }

  /** While `k` waited, event `j` was another connection's cleanup of the same id. */
  ghost predicate LostAt(s: System, es: seq<Event>, k: nat, j: nat)
  {
    && j < |es| && Playable(s, es[..j]) && Enabled(Play(s, es[..j]), es[j])
    && Waiting(Play(s, es[..j]), k) && ForeignCleanup(Play(s, es[..j]), es[j], k)
  }

  lemma PromptedStays(s: System, e: Event, k: nat)
    requires Inv(s) && Enabled(s, e) && k in s.conns && s.conns[k].prompted
    ensures k in Apply(s, e).conns && Apply(s, e).conns[k].prompted
  {
    if GatewayEvent(e) {
      GatewayKeepsAll(s, e, k);
      GatewayAnswersNothing(s, e, k);
    } else if e.Decide? {
      ResolveSends(s, e.id, if e.approved then Approved else Denied, k);
    } else if e.WatcherFires? {
      ResolveSends(s, s.conns[e.k].req.id, e.d, k);
    } else if !e.Allow? && !e.Disallow? {
      if k != e.k {
        HandlerKeepsConns(s, e, k);
      } else {
        OwnPromptedStays(s, e);
      }
    }
  }

  lemma OwnPromptedStays(s: System, e: Event)
    requires e.ReadRequest? || e.RejectRequest? || e.Park? || e.Receive? || e.StopWaiting? || e.Cleanup? || e.Reply?
    requires Inv(s) && Enabled(s, e) && s.conns[e.k].prompted
    ensures e.k in Apply(s, e).conns && Apply(s, e).conns[e.k].prompted
  {
    assert ConnOk(s.conns[e.k]);
  }

  lemma {:induction false} PromptedSince(s: System, es: seq<Event>, k: nat, j: nat)
    requires Initial(s) && Playable(s, es) && j <= |es| && Playable(s, es[..j])
    requires k in Play(s, es[..j]).conns && Play(s, es[..j]).conns[k].prompted
    ensures k in Play(s, es).conns && Play(s, es).conns[k].prompted
  {
    if j == |es| {
      assert es[..j] == es;
    } else {
      var n := |es| - 1;
      assert es[..n][..j] == es[..j];
      PromptedSince(s, es[..n], k, j);
      RunKeepsInv(s, es[..n]);
      PromptedStays(Play(s, es[..n]), es[n], k);
    }
  }

  lemma WaitingIsPrompted(s: System, k: nat)
    requires Inv(s) && Waiting(s, k)
    ensures s.conns[k].prompted
  {
    assert ConnOk(s.conns[k]);
  }

  lemma PromptedCannotPark(s: System, k: nat)
    requires Inv(s) && k in s.conns && s.conns[k].prompted
    ensures !Enabled(s, Park(k))
  {
    assert ConnOk(s.conns[k]);
  }

  /** A connection that has waited does not park again. */
  lemma ParksOnce(s: System, es: seq<Event>, k: nat, j: nat)
    requires Initial(s) && Playable(s, es) && j <= |es| && Playable(s, es[..j]) && Waiting(Play(s, es[..j]), k)
    ensures !Enabled(Play(s, es), Park(k))
  {
    RunKeepsInv(s, es[..j]);
    WaitingIsPrompted(Play(s, es[..j]), k);
    PromptedSince(s, es, k, j);
    RunKeepsInv(s, es);
    PromptedCannotPark(Play(s, es), k);
  }

  ghost predicate Lost(s: System, es: seq<Event>, k: nat)
  {
    exists j :: LostAt(s, es, k, j)
  }

  lemma LostSnoc(s: System, before: seq<Event>, es: seq<Event>, k: nat)
    requires es != [] && before == es[..|es| - 1] && Playable(s, es) && Waiting(Play(s, before), k)
    ensures Lost(s, es, k) <==> Lost(s, before, k) || ForeignCleanup(Play(s, before), es[|es| - 1], k)
  {
    var n := |es| - 1;
    forall j: nat | j < n ensures LostAt(s, es, k, j) <==> LostAt(s, before, k, j) {
      assert before[..j] == es[..j] && before[j] == es[j];
    }
    assert LostAt(s, es, k, n) <==> ForeignCleanup(Play(s, before), es[n], k);
  }

  lemma ParkedNotLost(s: System, before: seq<Event>, es: seq<Event>, k: nat)
    requires Initial(s) && Playable(s, es) && es != [] && before == es[..|es| - 1] && es[|es| - 1] == Park(k)
    ensures !Lost(s, es, k)
  {
    forall j: nat ensures !LostAt(s, es, k, j) {
      if j < |before| && LostAt(s, es, k, j) {
        assert before[..j] == es[..j];
        ParksOnce(s, before, k, j);
      }
    }
  }

  /**
    Exactly when a caller still waiting for a human cannot be decided any more,
    for every run and whatever ids are used: another connection with the same
    id cleaned up while it waited.
  */
  lemma {:induction false} UnlistedIffCleanedUp(s: System, es: seq<Event>, k: nat)
    requires Initial(s) && Playable(s, es) && Waiting(Play(s, es), k)
    ensures !Listed(Play(s, es), k) <==> exists j :: LostAt(s, es, k, j)
  {
    var n := |es| - 1;
    assert es != [];
    RunKeepsInv(s, es[..n]);
    WaitStep(Play(s, es[..n]), es[n], k);
    if es[n] == Park(k) {
      ParkedNotLost(s, es[..n], es, k);
    } else {
      UnlistedIffCleanedUp(s, es[..n], k);
      LostSnoc(s, es[..n], es, k);
    }
  }

  lemma {:induction false} SoundPrefix(s: System, es: seq<Event>, j: nat)
    requires Playable(s, es) && Sound(s, es) && j <= |es|
    ensures Playable(s, es[..j]) && Sound(s, es[..j])
  {
    if j == |es| {
      assert es[..j] == es;
    } else {
      SoundPrefix(s, es[..|es| - 1], j);
      assert es[..|es| - 1][..j] == es[..j];
    }
  }

  lemma SoundStateCleansItsOwn(s: System, e: Event, k: nat)
    requires Inv(s) && Homes(s) && OneChance(s) && Enabled(s, e) && Waiting(s, k)
    ensures !ForeignCleanup(s, e, k)
  {
    assert ConnOk(s.conns[k]);
    if ForeignCleanup(s, e, k) {
      assert ConnOk(s.conns[e.k]);
      OnePromptPerId(s, k, e.k);
    }
  }

  lemma SoundLosesNobody(s: System, es: seq<Event>, k: nat, j: nat)
    requires Initial(s) && Playable(s, es) && Sound(s, es)
    ensures !LostAt(s, es, k, j)
  {
    if LostAt(s, es, k, j) {
      SoundPrefix(s, es, j);
      SoundRunKeepsChance(s, es[..j]);
      RunKeepsInv(s, es[..j]);
      SoundStateCleansItsOwn(Play(s, es[..j]), es[j], k);
    }
  }

  /** With fresh ids and a broker that delivers, every caller still waiting can be decided. */
  lemma SoundRunListsWaiters(s: System, es: seq<Event>)
    requires Initial(s) && Playable(s, es) && Sound(s, es)
    ensures WaitersListed(Play(s, es))
  {
    forall k <- Play(s, es).conns | Waiting(Play(s, es), k) ensures Listed(Play(s, es), k) {
      UnlistedIffCleanedUp(s, es, k);
      forall j: nat ensures !LostAt(s, es, k, j) {
        SoundLosesNobody(s, es, k, j);
      }
    }
  }

  /******* What fails without the assumptions *******/

  lemma Snoc(s: System, es: seq<Event>, e: Event)
    requires Playable(s, es) && Enabled(Play(s, es), e)
    ensures Playable(s, es + [e]) && Play(s, es + [e]) == Apply(Play(s, es), e)
  {
    assert (es + [e])[..|es + [e]| - 1] == es;
  }

  function ParkedConn(g: nat, req: Request): Conn
  {
    Conn(g, req, Sent, Parked, [], false, true, true)
  }

  /** A gateway that has sent its request on connection `k`. */
  function WithSent(v: System, g: nat, k: nat, req: Request): System
  {
    v.(conns := v.conns[k := Conn(g, req, Sent, Reading, [], false, false, false)],
       gateways := v.gateways[g := Gateway(req, Awaiting(k), false, false, false)])
  }

  function WithParked(v: System, g: nat, k: nat, req: Request): System
  {
    WithSent(v, g, k, req).(conns := v.conns[k := ParkedConn(g, req)], pending := v.pending[req.id := k])
  }

  lemma SendSteps(v: System, g: nat, k: nat, req: Request)
    requires g !in v.gateways && k !in v.conns
    ensures Enabled(v, Start(g, req, false))
    ensures var v1 := Apply(v, Start(g, req, false)); Enabled(v1, DialOk(g, k))
    ensures var v2 := Apply(Apply(v, Start(g, req, false)), DialOk(g, k));
            Enabled(v2, WriteDone(g)) && Apply(v2, WriteDone(g)) == WithSent(v, g, k, req)
  {
  }

  lemma ReachSent(s: System, es: seq<Event>, g: nat, k: nat, req: Request) returns (es': seq<Event>)
    requires Playable(s, es) && g !in Play(s, es).gateways && k !in Play(s, es).conns
    ensures Playable(s, es') && Play(s, es') == WithSent(Play(s, es), g, k, req)
  {
    SendSteps(Play(s, es), g, k, req);
    Snoc(s, es, Start(g, req, false));
    var e1 := es + [Start(g, req, false)];
    Snoc(s, e1, DialOk(g, k));
    var e2 := e1 + [DialOk(g, k)];
    Snoc(s, e2, WriteDone(g));
    es' := e2 + [WriteDone(g)];
  }

  lemma ParkSteps(v: System, g: nat, k: nat, req: Request)
    requires PreflightOf(req, v.token, v.allowed).AskHuman? && req.id !in v.pending && |v.pending| < MAX_PENDING
    ensures var w := WithSent(v, g, k, req);
            && Enabled(w, ReadRequest(k)) && Enabled(Apply(w, ReadRequest(k)), Park(k))
            && Apply(Apply(w, ReadRequest(k)), Park(k)) == WithParked(v, g, k, req)
  {
    var w := WithSent(v, g, k, req);
    var c := w.conns[k].(handler := ToPark);
    assert Apply(w, ReadRequest(k)).conns == v.conns[k := c];
    assert v.conns[k := c][k := ParkedConn(g, req)] == v.conns[k := ParkedConn(g, req)];
  }

  /** Any fresh gateway can bring an authenticated, uncovered request as far as a prompt. */
  lemma ReachPrompt(s: System, es: seq<Event>, g: nat, k: nat, req: Request) returns (es': seq<Event>)
    requires Playable(s, es) && g !in Play(s, es).gateways && k !in Play(s, es).conns
    requires PreflightOf(req, Play(s, es).token, Play(s, es).allowed).AskHuman?
    requires req.id !in Play(s, es).pending && |Play(s, es).pending| < MAX_PENDING
    ensures Playable(s, es') && Play(s, es') == WithParked(Play(s, es), g, k, req)
  {
    ParkSteps(Play(s, es), g, k, req);
    var e3 := ReachSent(s, es, g, k, req);
    Snoc(s, e3, ReadRequest(k));
    var e4 := e3 + [ReadRequest(k)];
    Snoc(s, e4, Park(k));
    es' := e4 + [Park(k)];
  }

  lemma StopThenDecide(v: System, k: nat, req: Request)
    requires k in v.conns && v.conns[k] == ParkedConn(k, req) && req.id in v.pending && v.pending[req.id] == k
    ensures Enabled(v, StopWaiting(k)) && Enabled(Apply(v, StopWaiting(k)), Decide(req.id, true))
    ensures var w := Apply(Apply(v, StopWaiting(k)), Decide(req.id, true));
            k in w.conns && w.conns[k].handler == Woken(Timeout)
  {
  }

  lemma CleanupThenReply(v: System, k: nat, d: Decision)
    requires k in v.conns && v.conns[k].handler == Woken(d)
    ensures Enabled(v, Cleanup(k)) && Enabled(Apply(v, Cleanup(k)), Reply(k))
    ensures Answered(Apply(Apply(v, Cleanup(k)), Reply(k)), k, d)
  {
  }

  /** The human's approval is accepted, yet the caller is answered Timeout: it had stopped waiting. */
  lemma LateApprovalIsLost(s: System, req: Request) returns (es: seq<Event>)
    requires Initial(s) && PreflightOf(req, s.token, s.allowed).AskHuman?
    ensures Playable(s, es) && Decide(req.id, true) in es && Answered(Play(s, es), 0, Timeout)
  {
    var a := ReachPrompt(s, [], 0, 0, req);
    StopThenDecide(Play(s, a), 0, req);
    Snoc(s, a, StopWaiting(0));
    var b := a + [StopWaiting(0)];
    Snoc(s, b, Decide(req.id, true));
    var c := b + [Decide(req.id, true)];
    CleanupThenReply(Play(s, c), 0, Timeout);
    Snoc(s, c, Cleanup(0));
    var d := c + [Cleanup(0)];
    Snoc(s, d, Reply(0));
    es := d + [Reply(0)];
    assert c[|b|] == Decide(req.id, true) && es[|b|] == c[|b|];
  }

  lemma DecideStep(v: System, k: nat, req: Request)
    requires k in v.conns && v.conns[k] == ParkedConn(k, req) && v.pending == map[req.id := k]
    ensures Enabled(v, Decide(req.id, true))
    ensures var w := Apply(v, Decide(req.id, true));
            && w.pending == map[] && w.gateways == v.gateways && w.token == v.token && w.allowed == v.allowed
            && w.conns == v.conns[k := ParkedConn(k, req).(inbox := [Approved])]
  {
    assert [] + [Approved] == [Approved];
    assert map[req.id := k] - {req.id} == map[];
  }

  lemma ReceiveThenCleanup(v: System, req: Request)
    requires 0 in v.conns && 1 in v.conns && v.conns[0] == ParkedConn(0, req).(inbox := [Approved]) && v.conns[1] == ParkedConn(1, req)
    ensures Enabled(v, Receive(0)) && Enabled(Apply(v, Receive(0)), Cleanup(0))
    ensures !WaitersListed(Apply(Apply(v, Receive(0)), Cleanup(0)))
  {
    var w := Apply(Apply(v, Receive(0)), Cleanup(0));
    assert 1 in w.conns && w.conns[1] == ParkedConn(1, req) && req.id !in w.pending;
  }

  /** Two callers with one id: the first one's cleanup removes the second one's waiter. */
  lemma SharedIdLosesWaiter(s: System, req: Request) returns (es: seq<Event>)
    requires Initial(s) && PreflightOf(req, s.token, s.allowed).AskHuman?
    ensures Playable(s, es) && !WaitersListed(Play(s, es))
  {
    var a := ReachPrompt(s, [], 0, 0, req);
    DecideStep(Play(s, a), 0, req);
    Snoc(s, a, Decide(req.id, true));
    var b := a + [Decide(req.id, true)];
    var c := ReachPrompt(s, b, 1, 1, req);
    ReceiveThenCleanup(Play(s, c), req);
    Snoc(s, c, Receive(0));
    var d := c + [Receive(0)];
    Snoc(s, d, Cleanup(0));
    es := d + [Cleanup(0)];
  }

  /******* The request line *******/

  const MAX_APPROVAL_REQUEST_BYTES: nat := 1024 * 1024
  const NEWLINE: Byte := 10

  /**
    `read_approval_request`: at most one byte over the limit is read, up to and
    including a newline. A line cut before its newline, or too long, is refused,
    so it is never parsed and never parked.
  */
  method ReadApprovalRequest(input: seq<Byte>) returns (r: Option<seq<Byte>>)
    ensures r.Some? ==> r.value <= input && r.value != [] && r.value[|r.value| - 1] == NEWLINE
                        && NEWLINE !in r.value[..|r.value| - 1] && |r.value| <= MAX_APPROVAL_REQUEST_BYTES
    ensures r.None? <==> forall n :: 0 <= n < |input| && n < MAX_APPROVAL_REQUEST_BYTES ==> input[n] != NEWLINE
  {
    var line: seq<Byte> := [];
    while |line| < |input| && |line| < MAX_APPROVAL_REQUEST_BYTES + 1 && (line == [] || line[|line| - 1] != NEWLINE)
      invariant |line| <= |input| && |line| <= MAX_APPROVAL_REQUEST_BYTES + 1
      invariant line == input[..|line|]
      invariant line != [] ==> NEWLINE !in line[..|line| - 1]
      decreases |input| - |line|
    {
      assert line == [] || NEWLINE !in line by {
        assert line != [] ==> line == line[..|line| - 1] + [line[|line| - 1]];
      }
      line := line + [input[|line|]];
      assert line[..|line| - 1] == input[..|line| - 1];
    }
    if line == [] || |line| > MAX_APPROVAL_REQUEST_BYTES || line[|line| - 1] != NEWLINE {
      r := None;
      assert forall n :: 0 <= n < |line| ==> input[n] == line[n];
      assert forall n :: 0 <= n < |line| - 1 ==> line[n] == line[..|line| - 1][n];
    } else {
      r := Some(line);
    }
  }

  /******* One exchange *******/

  datatype ReadEvent = Eof | Blank | Line(decision: Option<Decision>) | Blocked | Broken

  const DEFAULT_TIMEOUT_MS: nat := 120000

  /** How long the first `n` reads took together. */
  function Elapsed(cost: nat -> nat, n: nat): nat
  {
    if n == 0 then 0 else Elapsed(cost, n - 1) + cost(n - 1)
  }

  /** The first `n` reads were blocked, in time and before any cancellation. */
  ghost predicate Waited(met: nat -> ReadEvent, cost: nat -> nat, cancelled: nat -> bool, n: nat)
  {
    forall i :: 0 <= i < n ==> met(i).Blocked? && !cancelled(i) && Elapsed(cost, i) < DEFAULT_TIMEOUT_MS
  }

  /** What the read that ends the wait makes of the attempt. */
  function AttemptOf(met: ReadEvent): Attempt
  {
    match met
    case Eof => NotReached
    case Blank => NotReached
    case Line(d) => Decided(if d.Some? then d.value else Timeout)
    case Broken => Decided(Timeout)
    case Blocked => Decided(Timeout)
  }

  /** What the wait comes to at read `n`, the first that is not just blocked. */
  predicate WaitEnds(met: nat -> ReadEvent, cost: nat -> nat, cancelled: nat -> bool, n: nat, a: Attempt)
  {
    if cancelled(n) then a == Decided(Withdrawn)
    else if Elapsed(cost, n) >= DEFAULT_TIMEOUT_MS then a == Decided(Timeout)
    else
      && (a.NotReached? <==> met(n).Eof? || met(n).Blank?)
      && (met(n).Line? && met(n).decision.Some? ==> a == Decided(met(n).decision.value))
      && ((met(n).Line? && met(n).decision.None?) || met(n).Broken? || met(n).Blocked? ==> a == Decided(Timeout))
  }

  /** Read `n` meets the answer `d`, in time and before a cancellation. */
  predicate AnswerRead(met: nat -> ReadEvent, cost: nat -> nat, cancelled: nat -> bool, n: nat, d: Decision)
  {
    met(n).Line? && met(n).decision == Some(d) && !cancelled(n) && Elapsed(cost, n) < DEFAULT_TIMEOUT_MS
  }

  /**
    The read loop of `exchange_approval_request_with_cancel`: the n-th read
    meets `met(n)` and takes `cost(n)` milliseconds, and `cancelled(n)` is what
    the caller's flag says before it. A blocked read is retried only on the
    cancellable path.
  */
  method AwaitReply(cancellable: bool, met: nat -> ReadEvent, cost: nat -> nat, cancelled: nat -> bool) returns (a: Attempt, n: nat)
    requires forall i :: met(i).Blocked? ==> cost(i) > 0
    ensures Waited(met, cost, cancelled, n) && (!cancellable ==> n == 0)
    ensures WaitEnds(met, cost, cancelled, n, a)
    ensures !cancelled(n) && Elapsed(cost, n) < DEFAULT_TIMEOUT_MS && met(n).Blocked? ==> !cancellable
  {
    n := 0;
    var clock := 0;
    while true
      invariant clock == Elapsed(cost, n) && Waited(met, cost, cancelled, n) && (!cancellable ==> n == 0)
      decreases DEFAULT_TIMEOUT_MS - clock
    {
      if cancelled(n) {
        return Decided(Withdrawn), n;
      }
      if clock >= DEFAULT_TIMEOUT_MS {
        return Decided(Timeout), n;
      }
      if !met(n).Blocked? || !cancellable {
        return AttemptOf(met(n)), n;
      }
      clock, n := clock + cost(n), n + 1;
    }
  }

  /**
    `exchange_approval_request_with_cancel`: a decision read in time and before
    a cancellation is the answer, exactly as read; the broker counts as not
    reached if the request was not written or the socket ended without an
    answer; and everything else is a timeout or a withdrawal.
  */
  method Exchange(
    serialized: bool, written: bool, cancellable: bool, met: nat -> ReadEvent, cost: nat -> nat, cancelled: nat -> bool)
    returns (a: Attempt, n: nat)
    requires forall i :: met(i).Blocked? ==> cost(i) > 0
    ensures !serialized ==> a == Decided(Timeout)
    ensures serialized && !written ==> a.NotReached?
    ensures serialized && written ==> Waited(met, cost, cancelled, n) && WaitEnds(met, cost, cancelled, n, a)
    ensures a.NotReached? <==>
              serialized && (!written || (!cancelled(n) && Elapsed(cost, n) < DEFAULT_TIMEOUT_MS && (met(n).Eof? || met(n).Blank?)))
    ensures a == Decided(Approved) <==> serialized && written && AnswerRead(met, cost, cancelled, n, Approved)
    ensures a == Decided(Denied) <==> serialized && written && AnswerRead(met, cost, cancelled, n, Denied)
    ensures serialized && written && cancelled(n) ==> a == Decided(Withdrawn)
  {
    n := 0;
    if !serialized {
      return Decided(Timeout), 0;
    }
    if !written {
      return NotReached, 0;
    }
    a, n := AwaitReply(cancellable, met, cost, cancelled);
  }
}
