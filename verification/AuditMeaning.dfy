/**
  What the audit statistics mean, row by row: which rows are calls, what each
  count, rate, mean, percentile and time stamp says of them. Nothing here
  refers to the aggregation itself.
*/
module AuditMeaning {
  import opened Basics
  import opened AuditStats

  /** A row counts as a call if it says how it ended and is none of the governance rows. */
  predicate CountsAsCall(r: Row)
  {
    && r.ok.Some?
    && r.tool != Some("sync_environment_refused")
    && r.kind != Some("approval") && r.kind != Some("routine") && r.kind != Some("advisor")
    && r.kind != Some("suggestion") && r.kind != Some("candidate") && r.kind != Some("telemetry_gap")
    && r.kind != Some("internal") && r.kind != Some("session")
  }

  function Named(field: Option<string>): string
  {
    if field == None then "?" else field.value
  }

  function Count<T>(xs: seq<T>, p: T -> bool): nat
  {
    if xs == [] then 0 else Count(xs[..|xs| - 1], p) + if p(xs[|xs| - 1]) then 1 else 0
  }

  /** Those of the rows with `p` that failed, that tell how long they took, and that took less than, or at most, `v`. */
  function FailedOf(p: Row -> bool): Row -> bool
  {
    r => p(r) && r.ok == Some(false)
  }

  function TimedOf(p: Row -> bool): Row -> bool
  {
    r => p(r) && r.dur.Some?
  }

  function BelowOf(p: Row -> bool, v: nat): Row -> bool
  {
    r => p(r) && r.dur.Some? && r.dur.value < v
  }

  function UpToOf(p: Row -> bool, v: nat): Row -> bool
  {
    r => p(r) && r.dur.Some? && r.dur.value <= v
  }

  /** Milliseconds of all the rows with `p` that tell how long they took. */
  function TimedSum(rows: seq<Row>, p: Row -> bool): nat
  {
    if rows == [] then 0
    else
      var last := rows[|rows| - 1];
      TimedSum(rows[..|rows| - 1], p) + if p(last) && last.dur.Some? then last.dur.value else 0
  }

  /** Records the log says were dropped. */
  function GapSum(rows: seq<Row>): nat
  {
    if rows == [] then 0
    else
      var last := rows[|rows| - 1];
      GapSum(rows[..|rows| - 1]) + if last.kind == Some("telemetry_gap") && last.dropped.Some? then last.dropped.value else 0
  }

  predicate RateOk(rate: real, errors: nat, calls: nat)
  {
    if calls == 0 then rate == 0.0 else rate * calls as real == errors as real
  }

  /** The whole milliseconds of the mean, of a sum that stops at the largest 64-bit number. */
  predicate MeanOk(avg: Option<nat>, sum: nat, n: nat)
  {
    if n == 0 then avg.None?
    else avg.Some? && avg.value * n <= Min(sum, U64_MAX) < (avg.value + 1) * n
  }

  /** `v` stands at position `at`, counted from zero, among the durations of the rows with `p`. */
  ghost predicate StandsAt(rows: seq<Row>, p: Row -> bool, v: nat, at: nat)
  {
    && (exists r <- rows :: p(r) && r.dur == Some(v))
    && Count(rows, BelowOf(p, v)) <= at < Count(rows, UpToOf(p, v))
  }

  /** `ts` is the greatest time stamp of the rows with `p`, and 0 if they have none. */
  ghost predicate LatestOk(rows: seq<Row>, p: Row -> bool, ts: nat)
  {
    && (forall r <- rows :: p(r) && r.ts.Some? ==> r.ts.value <= ts)
    && (ts == 0 || exists r <- rows :: p(r) && r.ts == Some(ts))
  }

  /** A line of the statistics says the truth about the call rows with `p`. */
  ghost predicate Describes(rows: seq<Row>, p: Row -> bool, st: Stat, rank: nat -> nat)
  {
    var timed := Count(rows, TimedOf(p));
    && st.calls == Count(rows, p)
    && st.errors == Count(rows, FailedOf(p))
    && RateOk(st.rate, st.errors, st.calls)
    && MeanOk(st.latency.avg, TimedSum(rows, p), timed)
    && (if timed == 0 then st.latency.p95.None?
        else st.latency.p95.Some? && StandsAt(rows, p, st.latency.p95.value, Min(Max(rank(timed) - 1, 0), timed - 1)))
    && LatestOk(rows, p, st.lastTs)
  }

  /******* Counting what is collected *******/

  lemma CallIffCounts(r: Row)
    ensures IsCall(r) <==> CountsAsCall(r)
    ensures ToolCallOk(r) == Some(false) <==> CountsAsCall(r) && r.ok == Some(false)
  {
  }

  lemma {:induction false} CountSplit<T>(a: seq<T>, b: seq<T>, p: T -> bool)
    ensures Count(a + b, p) == Count(a, p) + Count(b, p)
  {
    if b == [] {
      assert a + b == a;
    } else {
      assert (a + b)[..|a + b| - 1] == a + b[..|b| - 1];
      CountSplit(a, b[..|b| - 1], p);
    }
  }

  lemma CountOne<T>(x: T, p: T -> bool)
    ensures Count([x], p) == if p(x) then 1 else 0
  {
    assert [x][..0] == [];
  }

  lemma {:induction false} CountAll<T(!new)>(xs: seq<T>, p: T -> bool)
    requires forall x :: p(x)
    ensures Count(xs, p) == |xs|
  {
    if xs != [] {
      CountAll(xs[..|xs| - 1], p);
    }
  }

  /** Counting what `pick` takes, if it takes from each row just what `q` says. */
  lemma {:induction false} CountCollected<T>(rows: seq<Row>, pick: Row -> seq<T>, p: T -> bool, q: Row -> bool)
    requires forall r <- rows :: Count(pick(r), p) == if q(r) then 1 else 0
    ensures Count(Collect(rows, pick), p) == Count(rows, q)
  {
    if rows != [] {
      var init, last := rows[..|rows| - 1], rows[|rows| - 1];
      assert last in rows;
      CountCollected(init, pick, p, q);
      CountSplit(Collect(init, pick), pick(last), p);
    }
  }

  lemma {:induction false} InCollected<T>(rows: seq<Row>, pick: Row -> seq<T>, x: T)
    ensures x in Collect(rows, pick) <==> exists r <- rows :: x in pick(r)
  {
    if rows != [] {
      var init, last := rows[..|rows| - 1], rows[|rows| - 1];
      InCollected(init, pick, x);
      assert rows == init + [last];
    }
  }

  /** The rows with `p`, as the aggregation has them: those `pick` takes. */
  ghost predicate Picks(pick: Row -> seq<Row>, p: Row -> bool)
  {
    forall r :: pick(r) == if p(r) then [r] else []
  }

  lemma CountPicked(rows: seq<Row>, pick: Row -> seq<Row>, p: Row -> bool, q: Row -> bool)
    requires Picks(pick, p)
    ensures Count(Collect(rows, pick), q) == Count(rows, (r: Row) => p(r) && q(r))
  {
    var both := (r: Row) => p(r) && q(r);
    forall r <- rows ensures Count(pick(r), q) == if both(r) then 1 else 0 {
      CountOne(r, q);
    }
    CountCollected(rows, pick, q, both);
  }

  lemma CountSame<T>(xs: seq<T>, p: T -> bool, q: T -> bool)
    requires forall x <- xs :: p(x) == q(x)
    ensures Count(xs, p) == Count(xs, q)
  {
    if xs != [] {
      CountSame(xs[..|xs| - 1], p, q);
    }
  }

  lemma {:induction false} SumPicked(rows: seq<Row>, pick: Row -> seq<Row>, p: Row -> bool)
    requires Picks(pick, p)
    ensures Sum(Durations(Collect(rows, pick))) == TimedSum(rows, p)
  {
    if rows != [] {
      var init, last := rows[..|rows| - 1], rows[|rows| - 1];
      SumPicked(init, pick, p);
      CollectSplit(Collect(init, pick), pick(last), IfTimed);
      SumSplit(Durations(Collect(init, pick)), Durations(pick(last)));
      assert [last][..0] == [] && p(last) ==> Durations(pick(last)) == IfTimed(last);
      SumOfOne(last);
    }
  }

  lemma SumOfOne(r: Row)
    ensures Sum(IfTimed(r)) == if r.dur.Some? then r.dur.value else 0
    ensures Durations([r]) == IfTimed(r) && Durations([]) == [] && Sum([]) == 0
  {
    assert [r][..0] == [];
    assert Durations([r]) == Durations([]) + IfTimed(r) == IfTimed(r);
    assert r.dur.Some? ==> [r.dur.value][..0] == [];
  }

  lemma CountDurations(rows: seq<Row>, p: nat -> bool)
    ensures Count(Durations(rows), p) == Count(rows, (r: Row) => r.dur.Some? && p(r.dur.value))
  {
    var q := (r: Row) => r.dur.Some? && p(r.dur.value);
    forall r <- rows ensures Count(IfTimed(r), p) == if q(r) then 1 else 0 {
      if r.dur.Some? {
        CountOne(r.dur.value, p);
      }
    }
    CountCollected(rows, IfTimed, p, q);
  }

  lemma CountTimed(rows: seq<Row>)
    ensures |Durations(rows)| == Count(rows, (r: Row) => r.dur.Some?)
  {
    CountAll(Durations(rows), (n: nat) => true);
    CountDurations(rows, (n: nat) => true);
    CountSame(rows, (r: Row) => r.dur.Some?, (r: Row) => r.dur.Some? && ((n: nat) => true)(r.dur.value));
  }

  lemma {:induction false} CountPermuted(xs: seq<nat>, ys: seq<nat>, p: nat -> bool)
    requires multiset(xs) == multiset(ys)
    ensures Count(xs, p) == Count(ys, p)
  {
    SameSize(xs, ys);
    if xs != [] {
      var a, b := Locate(xs, ys);
      CountPermuted(xs[..|xs| - 1], a + b, p);
      CountSplit(a, b, p);
      CountSplit(a + [xs[|xs| - 1]], b, p);
      CountSplit(a, [xs[|xs| - 1]], p);
      CountOne(xs[|xs| - 1], p);
    }
  }

  /******* Mean, rank, latest *******/

  lemma MeanIsOk(sum: nat, n: nat)
    requires n > 0
    ensures var m := Min(U64_MAX, sum); m / n * n <= m < (m / n + 1) * n
  {
    var m := Min(U64_MAX, sum);
    assert m == m / n * n + m % n;
    assert (m / n + 1) * n == m / n * n + n;
  }

  lemma RateIsOk(errors: nat, calls: nat)
    ensures RateOk(ErrorRate(errors, calls), errors, calls)
  {
  }

  lemma InOrder(xs: seq<nat>, i: nat, j: nat)
    requires Ascending(xs) && i <= j < |xs|
    ensures xs[i] <= xs[j]
  {
    AscendingPrefixes(xs, j + 1);
    LastIsGreatest(xs[..j + 1], i);
  }

  lemma FewBelow(xs: seq<nat>, at: nat, v: nat)
    requires Ascending(xs) && at < |xs| && xs[at] == v
    ensures Count(xs, (n: nat) => n < v) <= at
  {
    var below, a, b := (n: nat) => n < v, xs[..at], xs[at..];
    assert xs == a + b;
    CountSplit(a, b, below);
    CountAtMost(a, below);
    NoneCount(b, below) by {
      forall i: nat | at <= i < |xs| ensures v <= xs[i] {
        InOrder(xs, at, i);
      }
    }
  }

  lemma ManyUpTo(xs: seq<nat>, at: nat, v: nat)
    requires Ascending(xs) && at < |xs| && xs[at] == v
    ensures at < Count(xs, (n: nat) => n <= v)
  {
    var upTo, a, b := (n: nat) => n <= v, xs[..at + 1], xs[at + 1..];
    assert xs == a + b;
    NoneAbove(xs, at);
    CountSplit(a, b, upTo);
    AllCount(a, upTo);
  }

  lemma {:induction false} AllCount(xs: seq<nat>, p: nat -> bool)
    requires forall x <- xs :: p(x)
    ensures Count(xs, p) == |xs|
  {
    if xs != [] {
      AllCount(xs[..|xs| - 1], p);
    }
  }

  lemma {:induction false} NoneCount(xs: seq<nat>, p: nat -> bool)
    requires forall x <- xs :: !p(x)
    ensures Count(xs, p) == 0
  {
    if xs != [] {
      NoneCount(xs[..|xs| - 1], p);
    }
  }

  lemma {:induction false} CountAtMost(xs: seq<nat>, p: nat -> bool)
    ensures Count(xs, p) <= |xs|
  {
    if xs != [] {
      CountAtMost(xs[..|xs| - 1], p);
    }
  }

  lemma {:induction false} LatestIsOk(rows: seq<Row>)
    ensures LatestOk(rows, (r: Row) => true, Latest(rows))
  {
    if rows != [] {
      var init, last := rows[..|rows| - 1], rows[|rows| - 1];
      LatestIsOk(init);
      assert rows == init + [last] && last in rows;
    }
  }

  /** The value at a rank of a list of rows is one of theirs, with no more than its rank below it. */
  lemma RankIsOk(rows: seq<Row>, rank: nat -> nat)
    requires Durations(rows) != []
    ensures var v, at := LatencyOf(Durations(rows), rank).p95, Rank(rank, |Durations(rows)|);
            && v.Some? && v.value in Durations(rows)
            && Count(Durations(rows), (n: nat) => n < v.value) <= at < Count(Durations(rows), (n: nat) => n <= v.value)
  {
    var durs := Durations(rows);
    var at := Rank(rank, |durs|);
    var v := SortNats(durs)[at];
    PercentileIsSample(durs, rank);
    FewBelow(SortNats(durs), at, v);
    ManyUpTo(SortNats(durs), at, v);
    CountPermuted(SortNats(durs), durs, (n: nat) => n < v);
    CountPermuted(SortNats(durs), durs, (n: nat) => n <= v);
  }

  /******* One line of the statistics *******/

  lemma PickedCounts(rows: seq<Row>, pick: Row -> seq<Row>, p: Row -> bool)
    requires Picks(pick, p) && forall r :: p(r) ==> CountsAsCall(r)
    ensures |Collect(rows, pick)| == Count(rows, p)
    ensures |Failed(Collect(rows, pick))| == Count(rows, FailedOf(p))
  {
    var picked := Collect(rows, pick);
    CountAll(picked, (r: Row) => true);
    CountPicked(rows, pick, p, (r: Row) => true);
    CountSame(rows, p, (r: Row) => p(r) && ((r: Row) => true)(r));
    CountAll(Failed(picked), (r: Row) => true);
    var failed := (r: Row) => ToolCallOk(r) == Some(false);
    forall r <- picked ensures Count(IfFailed(r), (r: Row) => true) == if failed(r) then 1 else 0 {
      CountOne(r, (r: Row) => true);
    }
    CountCollected(picked, IfFailed, (r: Row) => true, failed);
    CountPicked(rows, pick, p, failed);
    forall r <- rows ensures (p(r) && failed(r)) == (p(r) && r.ok == Some(false)) {
      CallIffCounts(r);
    }
    CountSame(rows, (r: Row) => p(r) && failed(r), FailedOf(p));
  }

  lemma PickedDurations(rows: seq<Row>, pick: Row -> seq<Row>, p: Row -> bool, d: nat -> bool, pd: Row -> bool)
    requires Picks(pick, p) && forall r :: pd(r) <==> p(r) && r.dur.Some? && d(r.dur.value)
    ensures Count(Durations(Collect(rows, pick)), d) == Count(rows, pd)
  {
    var q := (r: Row) => r.dur.Some? && d(r.dur.value);
    CountDurations(Collect(rows, pick), d);
    CountPicked(rows, pick, p, q);
    CountSame(rows, (r: Row) => p(r) && q(r), pd);
  }

  lemma PickedTimed(rows: seq<Row>, pick: Row -> seq<Row>, p: Row -> bool)
    requires Picks(pick, p)
    ensures |Durations(Collect(rows, pick))| == Count(rows, TimedOf(p))
  {
    var q := (r: Row) => r.dur.Some?;
    CountTimed(Collect(rows, pick));
    CountPicked(rows, pick, p, q);
    CountSame(rows, (r: Row) => p(r) && q(r), TimedOf(p));
  }

  lemma PickedRank(rows: seq<Row>, pick: Row -> seq<Row>, p: Row -> bool, rank: nat -> nat)
    requires Picks(pick, p) && Durations(Collect(rows, pick)) != []
    ensures var durs := Durations(Collect(rows, pick));
            LatencyOf(durs, rank).p95.Some? && StandsAt(rows, p, LatencyOf(durs, rank).p95.value, Rank(rank, |durs|))
  {
    var picked := Collect(rows, pick);
    var durs := Durations(picked);
    RankIsOk(picked, rank);
    var v := LatencyOf(durs, rank).p95.value;
    PickedDurations(rows, pick, p, (n: nat) => n < v, BelowOf(p, v));
    PickedDurations(rows, pick, p, (n: nat) => n <= v, UpToOf(p, v));
    InCollected(picked, IfTimed, v);
    var r :| r in picked && v in IfTimed(r);
    InCollected(rows, pick, r);
    assert p(r) && r.dur == Some(v) && r in rows;
  }

  lemma PickedLatest(rows: seq<Row>, pick: Row -> seq<Row>, p: Row -> bool)
    requires Picks(pick, p)
    ensures LatestOk(rows, p, Latest(Collect(rows, pick)))
  {
    var picked := Collect(rows, pick);
    LatestIsOk(picked);
    forall r: Row ensures r in picked <==> r in rows && p(r) {
      InCollected(rows, pick, r);
      assert r in rows && p(r) ==> r in pick(r);
    }
  }

  lemma PickedMean(rows: seq<Row>, pick: Row -> seq<Row>, p: Row -> bool, rank: nat -> nat)
    requires Picks(pick, p)
    ensures var durs := Durations(Collect(rows, pick)); MeanOk(LatencyOf(durs, rank).avg, TimedSum(rows, p), |durs|)
  {
    var durs := Durations(Collect(rows, pick));
    SumPicked(rows, pick, p);
    if durs != [] {
      MeanIsOk(Sum(durs), |durs|);
    }
  }

  /** The statistics of the rows with `p` describe them. */
  lemma StatDescribes(rows: seq<Row>, pick: Row -> seq<Row>, p: Row -> bool, rank: nat -> nat)
    requires Picks(pick, p) && forall r :: p(r) ==> CountsAsCall(r)
    ensures Describes(rows, p, StatOf(Collect(rows, pick), rank), rank)
  {
    var picked := Collect(rows, pick);
    var durs := Durations(picked);
    PickedCounts(rows, pick, p);
    RateIsOk(|Failed(picked)|, |picked|);
    PickedTimed(rows, pick, p);
    PickedLatest(rows, pick, p);
    PickedMean(rows, pick, p, rank);
    if durs != [] {
      PickedRank(rows, pick, p, rank);
    }
  }

  /******* The whole report *******/

  function AtServer(server: string): Row -> bool
  {
    r => CountsAsCall(r) && Named(r.server) == server
  }

  function AtTool(server: string, tool: string): Row -> bool
  {
    r => CountsAsCall(r) && Named(r.server) == server && Named(r.tool) == tool
  }

  function Pick(p: Row -> bool): Row -> seq<Row>
  {
    r => if p(r) then [r] else []
  }

  /** Rows picked twice are rows picked by both tests. */
  lemma {:induction false} CollectTwice(
    rows: seq<Row>, f: Row -> seq<Row>, g: Row -> seq<Row>, h: Row -> seq<Row>, p: Row -> bool, q: Row -> bool)
    requires Picks(f, p) && Picks(g, q) && forall r :: h(r) == if p(r) && q(r) then [r] else []
    ensures Collect(Collect(rows, f), g) == Collect(rows, h)
  {
    if rows != [] {
      var init, last := rows[..|rows| - 1], rows[|rows| - 1];
      CollectTwice(init, f, g, h, p, q);
      CollectSplit(Collect(init, f), f(last), g);
      assert [last][..0] == [];
      assert Collect([last], g) == Collect([], g) + g(last) == g(last);
    }
  }

  lemma CallRowsPicked()
    ensures Picks(IfCall, CountsAsCall)
  {
    forall r ensures IfCall(r) == if CountsAsCall(r) then [r] else [] {
      CallIffCounts(r);
    }
  }

  lemma ServerRowsPicked(rows: seq<Row>, server: string)
    ensures KeyRows(CallRows(rows), ServerName, server) == Collect(rows, Pick(AtServer(server)))
  {
    CallRowsPicked();
    var named := (r: Row) => Named(r.server) == server;
    CollectTwice(rows, IfCall, IfKey(ServerName, server), Pick(AtServer(server)), CountsAsCall, named);
  }

  lemma ToolRowsPicked(rows: seq<Row>, server: string, tool: string)
    ensures KeyRows(KeyRows(CallRows(rows), ServerName, server), ToolName, tool) == Collect(rows, Pick(AtTool(server, tool)))
  {
    ServerRowsPicked(rows, server);
    var named := (r: Row) => Named(r.tool) == tool;
    CollectTwice(rows, Pick(AtServer(server)), IfKey(ToolName, tool), Pick(AtTool(server, tool)), AtServer(server), named);
  }

  /** A name is listed if and only if some row has it. */
  lemma ListedIff<T(!new)>(rows: seq<Row>, key: Row -> string, xs: seq<Entry<T>>, rank: nat -> nat, k: string)
    requires Covers(rows, key, xs, rank)
    ensures k in Names(xs) <==> exists r <- rows :: key(r) == k
  {
    assert k in Names(xs) <==> k in Keys(rows, key);
  }

  lemma {:induction false} GapsAdd(rows: seq<Row>)
    ensures Dropped(rows) == Min(U64_MAX, GapSum(rows))
  {
    if rows != [] {
      GapsAdd(rows[..|rows| - 1]);
    }
  }

  /** The totals of a report, from the rows alone. */
  lemma TotalsMean(rows: seq<Row>, st: Stats, rank: nat -> nat)
    requires Meets(rows, st, rank)
    ensures st.total == Count(rows, CountsAsCall)
    ensures st.errors == Count(rows, FailedOf(CountsAsCall))
    ensures RateOk(st.rate, st.errors, st.total)
    ensures st.dropped == Min(U64_MAX, GapSum(rows))
  {
    CallRowsPicked();
    PickedCounts(rows, IfCall, CountsAsCall);
    RateIsOk(st.errors, st.total);
    GapsAdd(rows);
  }

  /** Each line of `xs` describes the rows with its name, and exactly the names that occur have one. */
  ghost predicate LinesMean<T(!new)>(rows: seq<Row>, at: string -> Row -> bool, xs: seq<Entry<T>>, rank: nat -> nat)
  {
    && (forall i :: 0 <= i < |xs| ==> Describes(rows, at(xs[i].name), xs[i].stat, rank))
    && (forall k :: k in Names(xs) <==> exists r <- rows :: at(k)(r))
  }

  /** If the rows with a name are those picked for it, the lines about them mean what they should. */
  lemma LinesDescribe<T(!new)>(
    rows: seq<Row>, mine: seq<Row>, key: Row -> string, at: string -> Row -> bool, xs: seq<Entry<T>>, rank: nat -> nat)
    requires Covers(mine, key, xs, rank)
    requires forall k :: KeyRows(mine, key, k) == Collect(rows, Pick(at(k)))
    requires forall k, r :: at(k)(r) ==> CountsAsCall(r)
    ensures LinesMean(rows, at, xs, rank)
  {
    forall i | 0 <= i < |xs| ensures Describes(rows, at(xs[i].name), xs[i].stat, rank) {
      assert KeyRows(mine, key, xs[i].name) == Collect(rows, Pick(at(xs[i].name)));
      StatDescribes(rows, Pick(at(xs[i].name)), at(xs[i].name), rank);
    }
    forall k ensures k in Names(xs) <==> exists r <- rows :: at(k)(r) {
      ListedIff(mine, key, xs, rank, k);
      NameOccurs(rows, mine, key, at(k), k);
    }
  }

  lemma NameOccurs(rows: seq<Row>, mine: seq<Row>, key: Row -> string, p: Row -> bool, k: string)
    requires KeyRows(mine, key, k) == Collect(rows, Pick(p))
    ensures (exists r <- mine :: key(r) == k) <==> exists r <- rows :: p(r)
  {
    if r :| r in mine && key(r) == k {
      InCollected(mine, IfKey(key, k), r);
      InCollected(rows, Pick(p), r);
    }
    if r :| r in rows && p(r) {
      InCollected(rows, Pick(p), r);
      InCollected(mine, IfKey(key, k), r);
    }
  }

  /** Each server's line describes the calls to that server, and exactly the servers that were called have one. */
  lemma ServersMean(rows: seq<Row>, st: Stats, rank: nat -> nat)
    requires Meets(rows, st, rank)
    ensures LinesMean(rows, AtServer, st.servers, rank)
  {
    forall k ensures KeyRows(CallRows(rows), ServerName, k) == Collect(rows, Pick(AtServer(k))) {
      ServerRowsPicked(rows, k);
    }
    LinesDescribe(rows, CallRows(rows), ServerName, AtServer, st.servers, rank);
  }

  /** So does each tool's line below it. */
  lemma ToolsMean(rows: seq<Row>, st: Stats, rank: nat -> nat, i: nat)
    requires Meets(rows, st, rank) && i < |st.servers|
    ensures LinesMean(rows, tool => AtTool(st.servers[i].name, tool), st.servers[i].detail, rank)
  {
    var server := st.servers[i].name;
    var mine := KeyRows(CallRows(rows), ServerName, server);
    forall k ensures KeyRows(mine, ToolName, k) == Collect(rows, Pick(AtTool(server, k))) {
      ToolRowsPicked(rows, server, k);
    }
    LinesDescribe(rows, mine, ToolName, tool => AtTool(st.servers[i].name, tool), st.servers[i].detail, rank);
  }
}
