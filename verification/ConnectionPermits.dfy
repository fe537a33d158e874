/**
  The counter that bounds the approval broker's connection workers: a
  compare-and-exchange loop that any number of threads run at once, and a
  release when a permit is dropped.
*/
module ConnectionPermits {

  const MAX_CONNECTION_WORKERS: nat := 96

  datatype Thread = Trying(current: nat) | Holding | Refused

  datatype Pool = Pool(active: nat, threads: map<nat, Thread>)

  datatype Event =
    | Load(t: nat)
    | Exchange(t: nat, spurious: bool)
    | Release(t: nat)

  predicate Enabled(p: Pool, e: Event)
  {
    match e
    case Load(t) => t !in p.threads
    case Exchange(t, _) => t in p.threads && p.threads[t].Trying?
    case Release(t) => t in p.threads && p.threads[t].Holding?
  }

  /** One load, one pass of the loop, or one drop. `fetch_sub` would wrap at zero. */
  function Apply(p: Pool, e: Event): Pool
    requires Enabled(p, e)
  {
    match e
    case Load(t) => p.(threads := p.threads[t := Trying(p.active)])
    case Exchange(t, spurious) =>
      var current := p.threads[t].current;
      if current >= MAX_CONNECTION_WORKERS then p.(threads := p.threads[t := Refused])
      else if p.active == current && !spurious then Pool(p.active + 1, p.threads[t := Holding])
      else p.(threads := p.threads[t := Trying(p.active)])
    case Release(t) =>
      p.(active := if p.active == 0 then 0xffff_ffff_ffff_ffff else p.active - 1, threads := p.threads - {t})
  }

  predicate Playable(es: seq<Event>)
    decreases |es|, 0
  {
    es == [] || (Playable(es[..|es| - 1]) && Enabled(Play(es[..|es| - 1]), es[|es| - 1]))
  }

  function Play(es: seq<Event>): Pool
    requires Playable(es)
    decreases |es|, 1
  {
    if es == [] then Pool(0, map[]) else Apply(Play(es[..|es| - 1]), es[|es| - 1])
  }

  function Holders(p: Pool): set<nat>
  {
    set t | t in p.threads && p.threads[t].Holding?
  }

  /** The counter is the number of permits out, and no thread has read more than the cap. */
  ghost predicate Inv(p: Pool)
  {
    && p.active == |Holders(p)| && p.active <= MAX_CONNECTION_WORKERS
    && forall t <- p.threads :: p.threads[t].Trying? ==> p.threads[t].current <= MAX_CONNECTION_WORKERS
  }

  lemma OneMore(a: set<nat>, b: set<nat>, t: nat)
    requires t !in a && b == a + {t}
    ensures |b| == |a| + 1
  {
  }

  lemma ExchangeCounts(p: Pool, t: nat, spurious: bool)
    requires p.active == |Holders(p)| && Enabled(p, Exchange(t, spurious))
    ensures Apply(p, Exchange(t, spurious)).active == |Holders(Apply(p, Exchange(t, spurious)))|
  {
    var p' := Apply(p, Exchange(t, spurious));
    if p'.threads[t].Holding? {
      OneMore(Holders(p), Holders(p'), t);
    } else {
      assert Holders(p') == Holders(p);
    }
  }

  lemma StepCounts(p: Pool, e: Event)
    requires p.active == |Holders(p)| && Enabled(p, e)
    ensures Apply(p, e).active == |Holders(Apply(p, e))|
  {
    var p' := Apply(p, e);
    match e
    case Load(t) => assert Holders(p') == Holders(p);
    case Exchange(t, spurious) => ExchangeCounts(p, t, spurious);
    case Release(t) =>
      assert t in Holders(p);
      OneMore(Holders(p'), Holders(p), t);
  }

  lemma StepKeepsInv(p: Pool, e: Event)
    requires Inv(p) && Enabled(p, e)
    ensures Inv(Apply(p, e))
  {
    StepCounts(p, e);
    if e.Release? {
      assert e.t in Holders(p);
    }
  }

  /**
    Over every interleaving: the counter counts the permits that are out, never
    passes the cap and never wraps.
  */
  lemma {:induction false} PermitsAreBounded(es: seq<Event>)
    requires Playable(es)
    ensures Inv(Play(es))
  {
    if es != [] {
      PermitsAreBounded(es[..|es| - 1]);
      StepKeepsInv(Play(es[..|es| - 1]), es[|es| - 1]);
    }
  }

  predicate StepOf(e: Event, t: nat)
  {
    e.t == t
  }

  /** Event `n` is thread `t`'s latest read of the counter, and it read `v`. */
  ghost predicate LastRead(es: seq<Event>, t: nat, v: nat, n: nat)
  {
    && n < |es| && StepOf(es[n], t) && !es[n].Release? && Playable(es[..n]) && Play(es[..n]).active == v
    && forall i :: n < i < |es| ==> !StepOf(es[i], t)
  }

  lemma {:induction false} TryingHasRead(es: seq<Event>, t: nat) returns (n: nat)
    requires Playable(es) && t in Play(es).threads && Play(es).threads[t].Trying?
    ensures LastRead(es, t, Play(es).threads[t].current, n)
  {
    var m := |es| - 1;
    assert es != [];
    if StepOf(es[m], t) {
      n := m;
    } else {
      n := TryingHasRead(es[..m], t);
      assert es[..m][..n] == es[..n] && forall i :: n <= i < m ==> es[..m][i] == es[i];
    }
  }

  /**
    A connection is turned away only on its own evidence: the counter was at
    the cap when this very thread last read it, before the refusal at `m`.
  */
  lemma {:induction false} RefusedSawFull(es: seq<Event>, t: nat) returns (n: nat, m: nat)
    requires Playable(es) && t in Play(es).threads && Play(es).threads[t].Refused?
    ensures n < m < |es| && LastRead(es[..m], t, MAX_CONNECTION_WORKERS, n) && es[m].Exchange? && es[m].t == t
    ensures forall i :: m < i < |es| ==> !StepOf(es[i], t)
  {
    var p := |es| - 1;
    assert es != [];
    PermitsAreBounded(es[..p]);
    if StepOf(es[p], t) {
      m := p;
      n := TryingHasRead(es[..p], t);
    } else {
      n, m := RefusedSawFull(es[..p], t);
      assert es[..p][..m] == es[..m] && forall i :: m <= i < p ==> es[..p][i] == es[i];
    }
  }

  /**
    How a pass of the loop ends, from the thread's last read of the counter: a
    permit exactly if that was below the cap and still stands, a refusal
    exactly if it was at the cap, and otherwise another pass.
  */
  lemma PassEnds(es: seq<Event>, t: nat, spurious: bool) returns (n: nat)
    requires Playable(es) && Enabled(Play(es), Exchange(t, spurious))
    ensures n < |es| && Playable(es[..n]) && LastRead(es, t, Play(es[..n]).active, n)
    ensures var read, p, p' := Play(es[..n]).active, Play(es), Apply(Play(es), Exchange(t, spurious));
            && (p'.threads[t].Holding? <==> read < 96 && p.active == read && !spurious)
            && (p'.threads[t].Refused? <==> read == 96)
            && p'.active == p.active + (if p'.threads[t].Holding? then 1 else 0)
  {
    PermitsAreBounded(es);
    n := TryingHasRead(es, t);
  }
}
