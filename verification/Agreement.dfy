/**
  packages/watchdog/src/agreement.ts: the buffer that promotes two agreeing
  observations of one run into an alert, with lazy eviction of old ones.

  A JavaScript `Map` keeps insertion order, so the per-signal store is a
  sequence of observations with distinct signals.
 */
module Agreement {
  import opened StringOrder
  import opened Wrappers

  datatype Confidence = Unknown | Low | Medium | High

  /** The four signals, in alphabetical order of their names. */
  datatype Signal = CheckpointLag | CostVelocity | NoWriteActivity | ToolLoop

  datatype Pair = Pair(first: Signal, second: Signal)

  datatype Observation = Observation(
    signal: Signal, runId: string, vendor: Option<string>, role: Option<string>,
    confidence: Confidence, at: int, reason: string, detail: string)

  datatype ObservedPair = ObservedPair(first: Observation, second: Observation)

  datatype Hint = Hint(runId: string, signal: Signal, confidence: Confidence, at: int, reason: string, detail: string)

  datatype Alert = Alert(
    runId: string, role: Option<string>, vendor: Option<string>, signals: Pair,
    confidence: Confidence, at: int, observations: ObservedPair)

  datatype IngestResult = IngestResult(hint: Hint, alert: Option<Alert>)

  datatype Bucket = Bucket(perSignal: seq<Observation>, alertedPairs: set<Pair>)

  const EMPTY := Bucket([], {})

  // ----- the pure parts -----------------------------------------------------

  predicate Counts(c: Confidence) {
    c.Medium? || c.High?
  }

  function Rank(s: Signal): nat {
    match s case CheckpointLag => 0 case CostVelocity => 1 case NoWriteActivity => 2 case ToolLoop => 3
  }

  function NameOf(s: Signal): string {
    match s
    case CheckpointLag => "checkpoint_lag"
    case CostVelocity => "cost_velocity"
    case NoWriteActivity => "no_write_activity"
    case ToolLoop => "tool_loop"
  }

  lemma FirstLetter(s: Signal)
    ensures NameOf(s)[0] == if s.NoWriteActivity? then 'n' else if s.ToolLoop? then 't' else 'c'
  {
  }

  /** The ranks order the signals as their names. */
  lemma RankIsAlphabetical(a: Signal, b: Signal)
    ensures Rank(a) < Rank(b) <==> Less(NameOf(a), NameOf(b))
  {
    var x, y := NameOf(a), NameOf(b);
    LessOrder(x, y, x);
    FirstLetter(a);
    FirstLetter(b);
    if a.CheckpointLag? && b.CostVelocity? { SecondDecides(x, y); }
    if a.CostVelocity? && b.CheckpointLag? { SecondDecides(y, x); }
  }

  lemma SecondDecides(x: string, y: string)
    requires |x| > 1 && |y| > 1 && x[0] == y[0] && x[1] < y[1]
    ensures Less(x, y)
  {
    assert x[1..][0] == x[1] && y[1..][0] == y[1];
  }

  /** The two signals in alphabetical order, whichever way round they come. */
  function SortedPair(a: Signal, b: Signal): (p: Pair)
    ensures Rank(p.first) <= Rank(p.second) && {p.first, p.second} == {a, b}
  {
    if Rank(a) < Rank(b) then Pair(a, b) else Pair(b, a)
  }

  function ToHint(o: Observation): Hint {
    Hint(o.runId, o.signal, o.confidence, o.at, o.reason, o.detail)
  }

  function Or<T>(a: Option<T>, b: Option<T>): Option<T> {
    if a.Some? then a else b
  }

  function ToAlert(latest: Observation, prior: Observation): Alert {
    var signals := SortedPair(latest.signal, prior.signal);
    Alert(latest.runId, Or(latest.role, prior.role), Or(latest.vendor, prior.vendor), signals,
          if latest.confidence.High? || prior.confidence.High? then High else Medium,
          if latest.at >= prior.at then latest.at else prior.at,
          if latest.signal == signals.first then ObservedPair(latest, prior) else ObservedPair(prior, latest))
  }

  // ----- one bucket ---------------------------------------------------------

  /** The observations that are not older than `cutoff`, in order. */
  function Keep(per: seq<Observation>, cutoff: int): seq<Observation> {
    if per == [] then []
    else if per[0].at >= cutoff then [per[0]] + Keep(per[1..], cutoff)
    else Keep(per[1..], cutoff)
  }

  lemma {:induction false} KeepContents(per: seq<Observation>, cutoff: int)
    ensures forall o :: o in Keep(per, cutoff) <==> o in per && o.at >= cutoff
  {
    if per != [] {
      KeepContents(per[1..], cutoff);
      assert per == [per[0]] + per[1..];
    }
  }

  lemma {:induction false} KeepExtend(per: seq<Observation>, o: Observation, cutoff: int)
    ensures Keep(per + [o], cutoff) == Keep(per, cutoff) + (if o.at >= cutoff then [o] else [])
  {
    if per == [] {
      assert per + [o] == [o] && [o][1..] == [];
    } else {
      KeepExtend(per[1..], o, cutoff);
      assert (per + [o])[1..] == per[1..] + [o];
    }
  }

  function ExpiredSignals(per: seq<Observation>, cutoff: int): set<Signal> {
    set o | o in per && o.at < cutoff :: o.signal
  }

  function Unmentioned(pairs: set<Pair>, gone: set<Signal>): set<Pair> {
    set p | p in pairs && p.first !in gone && p.second !in gone
  }

  lemma ExpiredExtend(per: seq<Observation>, o: Observation, cutoff: int)
    ensures ExpiredSignals(per + [o], cutoff) == ExpiredSignals(per, cutoff) +
      (if o.at < cutoff then {o.signal} else {})
  {
    assert o in per + [o];
  }

  lemma DropSignal(pairs: set<Pair>, gone: set<Signal>, sig: Signal)
    ensures (set p | p in Unmentioned(pairs, gone) && p.first != sig &&
      p.second != sig) == Unmentioned(pairs, gone + {sig})
  {
  }

  function SweepBucket(b: Bucket, cutoff: int): Bucket {
    Bucket(Keep(b.perSignal, cutoff), Unmentioned(b.alertedPairs, ExpiredSignals(b.perSignal, cutoff)))
  }

  /** `Map.set`: replace in place, or append a new key. */
  function Put(per: seq<Observation>, obs: Observation): seq<Observation> {
    if per == [] then [obs]
    else if per[0].signal == obs.signal then [obs] + per[1..]
    else [per[0]] + Put(per[1..], obs)
  }

  predicate Eligible(b: Bucket, obs: Observation, prior: Observation) {
    && prior.signal != obs.signal && Counts(prior.confidence)
    && SortedPair(prior.signal, obs.signal) !in b.alertedPairs
  }

  /** The first eligible partner in insertion order. */
  function Partner(b: Bucket, obs: Observation, from: nat): (p: Option<Observation>)
    requires from <= |b.perSignal|
    ensures p.Some? ==> p.value in b.perSignal[from..] && Eligible(b, obs, p.value)
    ensures p.None? ==> forall o :: o in b.perSignal[from..] ==> !Eligible(b, obs, o)
    decreases |b.perSignal| - from
  {
    if from == |b.perSignal| then None
    else if Eligible(b, obs, b.perSignal[from]) then Some(b.perSignal[from])
    else Partner(b, obs, from + 1)
  }

  function Found(b: Bucket, obs: Observation): Option<Observation> {
    if Counts(obs.confidence) then Partner(b, obs, 0) else None
  }

  /** Ingest on a bucket that has just been swept. */
  function IngestBucket(b: Bucket, obs: Observation): Bucket {
    var p := Found(b, obs);
    Bucket(Put(b.perSignal, obs),
           if p.Some? then b.alertedPairs + {SortedPair(p.value.signal, obs.signal)} else b.alertedPairs)
  }

  function ResultOf(b: Bucket, obs: Observation): IngestResult {
    var p := Found(b, obs);
    IngestResult(ToHint(obs), if p.Some? then Some(ToAlert(obs, p.value)) else None)
  }

  // ----- the whole buffer ---------------------------------------------------

  type Runs = map<string, Bucket>

  function SweptRun(m: Runs, run: string, cutoff: int): Runs {
    if run !in m then m
    else
      var b := SweepBucket(m[run], cutoff);
      if b == EMPTY then m - {run} else m[run := b]
  }

  function SweepAll(m: Runs, cutoff: int): Runs {
    map run | run in m && SweepBucket(m[run], cutoff) != EMPTY :: SweepBucket(m[run], cutoff)
  }

  /** What is left of a run at a cutoff. Ingest looks at nothing else. */
  function View(m: Runs, run: string, cutoff: int): Bucket {
    if run in m then SweepBucket(m[run], cutoff) else EMPTY
  }

  function Ingested(m: Runs, obs: Observation, windowMs: int): Runs {
    m[obs.runId := IngestBucket(View(m, obs.runId, obs.at - windowMs), obs)]
  }

  /** Ingest on the run's bucket after a sweep of that run. */
  lemma SweptIngest(m: Runs, obs: Observation, w: int)
    ensures var s := SweptRun(m, obs.runId, obs.at - w);
      var b := if obs.runId in s then s[obs.runId] else EMPTY;
      s[obs.runId := IngestBucket(b, obs)] == Ingested(m, obs, w) && ResultOf(b, obs) == ResultIn(m, obs, w)
  {
    var s, cutoff := SweptRun(m, obs.runId, obs.at - w), obs.at - w;
    assert View(m, obs.runId, cutoff) == if obs.runId in s then s[obs.runId] else EMPTY;
  }

  predicate StoredIn(m: Runs, run: string, o: Observation) {
    run in m && o in m[run].perSignal
  }

  predicate MarkedIn(m: Runs, run: string, p: Pair) {
    run in m && p in m[run].alertedPairs
  }

  lemma SweepStores(m: Runs, cutoff: int, run: string, o: Observation)
    ensures StoredIn(SweepAll(m, cutoff), run, o) <==> StoredIn(m, run, o) && o.at >= cutoff
  {
    if run in m { KeepContents(m[run].perSignal, cutoff); }
  }

  lemma SweepContents(m: Runs, now: int, w: int)
    ensures forall run, o :: StoredIn(SweepAll(m, now - w), run, o) <==> StoredIn(m, run, o) && now - o.at <= w
    ensures forall run, p :: MarkedIn(SweepAll(m, now - w), run, p) ==> MarkedIn(m, run, p)
  {
    forall run, o ensures StoredIn(SweepAll(m, now - w), run, o) <==> StoredIn(m, run, o) && now - o.at <= w {
      SweepStores(m, now - w, run, o);
    }
  }

  // ----- the buffer as the source updates it --------------------------------

  class AgreementBuffer {
    const windowMs: int
    var perRun: Runs

    constructor (windowMs: int)
      requires windowMs > 0
      ensures this.windowMs == windowMs && perRun == map[]
    {
      this.windowMs := windowMs;
      perRun := map[];
    }

    method Ingest(obs: Observation) returns (r: IngestResult)
      modifies this`perRun
      ensures perRun == Ingested(old(perRun), obs, windowMs)
      ensures r == ResultIn(old(perRun), obs, windowMs)
    {
      SweptIngest(perRun, obs, windowMs);
      SweepRun(obs.runId, obs.at);
      var bucket := if obs.runId in perRun then perRun[obs.runId] else EMPTY;
      if !Counts(obs.confidence) {
        perRun := perRun[obs.runId := bucket.(perSignal := Put(bucket.perSignal, obs))];
        return IngestResult(ToHint(obs), None);
      }
      var partner := ScanForPartner(bucket, obs);
      var alert: Option<Alert>, pairs := None, bucket.alertedPairs;
      if partner.Some? {
        alert := Some(ToAlert(obs, partner.value));
        pairs := pairs + {SortedPair(partner.value.signal, obs.signal)};
      }
      perRun := perRun[obs.runId := Bucket(Put(bucket.perSignal, obs), pairs)];
      r := IngestResult(ToHint(obs), alert);
    }

    /** The loop over the stored observations, which stops at the first that may be joined. */
    method ScanForPartner(bucket: Bucket, obs: Observation) returns (p: Option<Observation>)
      ensures p == Partner(bucket, obs, 0)
    {
      for i := 0 to |bucket.perSignal|
        invariant Partner(bucket, obs, 0) == Partner(bucket, obs, i)
      {
        var prior := bucket.perSignal[i];
        if prior.signal != obs.signal && Counts(prior.confidence) &&
          SortedPair(prior.signal, obs.signal) !in bucket.alertedPairs {
          return Some(prior);
        }
      }
      return None;
    }

    method Sweep(now: int)
      modifies this`perRun
      ensures perRun == SweepAll(old(perRun), now - windowMs)
      ensures forall run, o :: StoredIn(perRun, run, o) <==> StoredIn(old(perRun), run, o) && now - o.at <= windowMs
      ensures forall run, p :: MarkedIn(perRun, run, p) ==> MarkedIn(old(perRun), run, p)
    {
      SweepContents(perRun, now, windowMs);
      var pending := perRun.Keys;
      while pending != {}
        invariant pending <= perRun.Keys <= old(perRun).Keys
        invariant forall run :: run in pending ==> perRun[run] == old(perRun)[run]
        invariant forall run :: run in old(perRun) && run !in pending ==>
          (run in perRun <==> SweepBucket(old(perRun)[run], now - windowMs) != EMPTY)
          && (run in perRun ==> perRun[run] == SweepBucket(old(perRun)[run], now - windowMs))
        decreases pending
      {
        var run :| run in pending;
        SweepRun(run, now);
        pending := pending - {run};
      }
      assert perRun == SweepAll(old(perRun), now - windowMs);
    }

    method SweepRun(run: string, now: int)
      modifies this`perRun
      ensures perRun == SweptRun(old(perRun), run, now - windowMs)
    {
      if run !in perRun { return; }
      var bucket := perRun[run];
      var cutoff := now - windowMs;
      var kept, expired := [], {};
      for i := 0 to |bucket.perSignal|
        invariant perRun == old(perRun)
        invariant kept == Keep(bucket.perSignal[..i], cutoff)
        invariant expired == ExpiredSignals(bucket.perSignal[..i], cutoff)
      {
        var obs := bucket.perSignal[i];
        assert bucket.perSignal[..i + 1] == bucket.perSignal[..i] + [obs];
        KeepExtend(bucket.perSignal[..i], obs, cutoff);
        ExpiredExtend(bucket.perSignal[..i], obs, cutoff);
        if obs.at < cutoff { expired := expired + {obs.signal}; } else { kept := kept + [obs]; }
      }
      assert bucket.perSignal[..|bucket.perSignal|] == bucket.perSignal;
      var pairs, pending := bucket.alertedPairs, expired;
      while pending != {}
        invariant perRun == old(perRun) && pending <= expired
        invariant pairs == Unmentioned(bucket.alertedPairs, expired - pending)
        decreases pending
      {
        var sig :| sig in pending;
        DropSignal(bucket.alertedPairs, expired - pending, sig);
        assert expired - pending + {sig} == expired - (pending - {sig});
        pairs := set p | p in pairs && p.first != sig && p.second != sig;
        pending := pending - {sig};
      }
      assert expired - {} == expired;
      assert Bucket(kept, pairs) == SweepBucket(bucket, cutoff);
      if kept == [] && pairs == {} {
        perRun := perRun - {run};
      } else {
        perRun := perRun[run := Bucket(kept, pairs)];
      }
    }
  }

  // ----- lazy eviction cannot be observed -----------------------------------

  datatype Op = Observe(obs: Observation) | Sweep(now: int)

  function Time(op: Op): int {
    match op case Observe(obs) => obs.at case Sweep(now) => now
  }

  ghost predicate Monotone(ops: seq<Op>) {
    forall i, j :: 0 <= i < j < |ops| ==> Time(ops[i]) <= Time(ops[j])
  }

  function Apply(m: Runs, op: Op, w: int): Runs {
    match op
    case Observe(obs) => Ingested(m, obs, w)
    case Sweep(now) => SweepAll(m, now - w)
  }

  /** The buffer after a run of calls. */
  function After(m: Runs, ops: seq<Op>, w: int): Runs
    decreases |ops|
  {
    if ops == [] then m else After(Apply(m, ops[0], w), ops[1..], w)
  }

  /** The results of the ingest calls of a run, in order. */
  function Results(m: Runs, ops: seq<Op>, w: int): seq<IngestResult>
    decreases |ops|
  {
    if ops == [] then []
    else if ops[0].Observe? then
      [ResultIn(m, ops[0].obs, w)] + Results(Apply(m, ops[0], w), ops[1..], w)
    else Results(Apply(m, ops[0], w), ops[1..], w)
  }

  /** The same run without its sweeps. */
  function Observes(ops: seq<Op>): seq<Op> {
    if ops == [] then []
    else if ops[0].Observe? then [ops[0]] + Observes(ops[1..])
    else Observes(ops[1..])
  }

  lemma {:induction false} KeepTwice(per: seq<Observation>, c: int, c': int)
    requires c <= c'
    ensures Keep(Keep(per, c), c') == Keep(per, c')
  {
    if per != [] {
      KeepTwice(per[1..], c, c');
      if per[0].at >= c {
        assert ([per[0]] + Keep(per[1..], c))[1..] == Keep(per[1..], c);
      }
    }
  }

  lemma SweepTwice(b: Bucket, c: int, c': int)
    requires c <= c'
    ensures SweepBucket(SweepBucket(b, c), c') == SweepBucket(b, c')
  {
    KeepTwice(b.perSignal, c, c');
    KeepContents(b.perSignal, c);
    var gone, gone' := ExpiredSignals(b.perSignal, c), ExpiredSignals(Keep(b.perSignal, c), c');
    assert ExpiredSignals(b.perSignal, c') == gone + gone';
  }

  /** The two buffers look alike to everything that happens from time `cutoff` on. */
  ghost predicate SameFrom(m: Runs, n: Runs, cutoff: int) {
    forall run, c :: cutoff <= c ==> SameView(m, n, run, c)
  }

  predicate SameView(m: Runs, n: Runs, run: string, c: int) {
    View(m, run, c) == View(n, run, c)
  }

  lemma SweepPreservesViews(m: Runs, cutoff: int)
    ensures SameFrom(SweepAll(m, cutoff), m, cutoff)
  {
    forall run, c | cutoff <= c ensures SameView(SweepAll(m, cutoff), m, run, c) {
      if run in m {
        SweepTwice(m[run], cutoff, c);
        assert SweepBucket(EMPTY, c) == EMPTY;
      }
    }
  }

  lemma IngestKeepsSame(m: Runs, n: Runs, cutoff: int, obs: Observation, w: int)
    requires SameFrom(m, n, cutoff) && cutoff <= obs.at - w
    ensures ResultIn(m, obs, w) == ResultIn(n, obs, w)
    ensures SameFrom(Ingested(m, obs, w), Ingested(n, obs, w), obs.at - w)
  {
    assert SameView(m, n, obs.runId, obs.at - w);
    forall run, c | obs.at - w <= c ensures SameView(Ingested(m, obs, w), Ingested(n, obs, w), run, c) {
      assert SameView(m, n, run, c);
    }
  }

  lemma SweepKeepsSame(m: Runs, n: Runs, cutoff: int, cutoff': int)
    requires SameFrom(m, n, cutoff) && cutoff <= cutoff'
    ensures SameFrom(SweepAll(m, cutoff'), n, cutoff')
  {
    SweepPreservesViews(m, cutoff');
    forall run, c | cutoff' <= c ensures SameView(SweepAll(m, cutoff'), n, run, c) {
      assert SameView(m, n, run, c) && SameView(SweepAll(m, cutoff'), m, run, c);
    }
  }

  /** What an ingest call returns. */
  function ResultIn(m: Runs, obs: Observation, w: int): IngestResult {
    ResultOf(View(m, obs.runId, obs.at - w), obs)
  }

  lemma ResultsCons(m: Runs, obs: Observation, rest: seq<Op>, w: int)
    ensures Results(m, [Observe(obs)] + rest, w) == [ResultIn(m, obs, w)] + Results(Ingested(m, obs, w), rest, w)
  {
    assert ([Observe(obs)] + rest)[1..] == rest;
  }

  lemma ResultsSweep(m: Runs, now: int, rest: seq<Op>, w: int)
    ensures Results(m, [Sweep(now)] + rest, w) == Results(SweepAll(m, now - w), rest, w)
  {
    assert ([Sweep(now)] + rest)[1..] == rest;
  }

  lemma ObservesCons(op: Op, rest: seq<Op>)
    ensures Observes([op] + rest) == if op.Observe? then [op] + Observes(rest) else Observes(rest)
  {
    assert ([op] + rest)[1..] == rest;
  }

  lemma MonotoneRest(ops: seq<Op>)
    requires ops != [] && Monotone(ops)
    ensures Monotone(ops[1..]) && (|ops| > 1 ==> Time(ops[0]) <= Time(ops[1..][0]))
  {
  }

  lemma {:induction false} SweepsChangeNothing(m: Runs, n: Runs, cutoff: int, ops: seq<Op>, w: int)
    requires SameFrom(m, n, cutoff) && Monotone(ops) && (ops != [] ==> cutoff <= Time(ops[0]) - w)
    ensures Results(m, ops, w) == Results(n, Observes(ops), w)
    decreases |ops|
  {
    if ops != [] {
      var op, rest := ops[0], ops[1..];
      MonotoneRest(ops);
      assert ops == [op] + rest;
      ObservesCons(op, rest);
      match op
      case Observe(obs) =>
        IngestKeepsSame(m, n, cutoff, obs, w);
        SweepsChangeNothing(Ingested(m, obs, w), Ingested(n, obs, w), obs.at - w, rest, w);
        ResultsCons(m, obs, rest, w);
        ResultsCons(n, obs, Observes(rest), w);
      case Sweep(now) =>
        SweepKeepsSame(m, n, cutoff, now - w);
        SweepsChangeNothing(SweepAll(m, now - w), n, now - w, rest, w);
        ResultsSweep(m, now, rest, w);
    }
  }

  /** Two runs that make the same observations, however they are swept, give the same hints and alerts. */
  lemma LazyEvictionUnobservable(ops: seq<Op>, ops': seq<Op>, w: int)
    requires Monotone(ops) && Monotone(ops') && Observes(ops) == Observes(ops')
    ensures Results(map[], ops, w) == Results(map[], ops', w)
  {
    SweepsChangeNothing(map[], map[], if ops == [] then 0 else Time(ops[0]) - w, ops, w);
    SweepsChangeNothing(map[], map[], if ops' == [] then 0 else Time(ops'[0]) - w, ops', w);
  }

  // ----- the buffer against the plain history -------------------------------

  ghost predicate InOrder(h: seq<Observation>) {
    forall i, j :: 0 <= i < j < |h| ==> h[i].at <= h[j].at
  }

  /** The buffer after the first `n` observations of a history. */
  function AfterHistory(h: seq<Observation>, n: nat, w: int): Runs
    requires n <= |h|
  {
    if n == 0 then map[] else Ingested(AfterHistory(h, n - 1, w), h[n - 1], w)
  }

  /** The buffer's bucket for a run as it stands, unswept. */
  function Stored(h: seq<Observation>, n: nat, run: string, w: int): Bucket
    requires n <= |h|
  {
    var m := AfterHistory(h, n, w);
    if run in m then m[run] else EMPTY
  }

  /** The bucket the `n`-th observation sees. */
  function Seen(h: seq<Observation>, n: nat, w: int): Bucket
    requires n < |h|
  {
    View(AfterHistory(h, n, w), h[n].runId, h[n].at - w)
  }

  /** `o` is the last observation of its signal in its run among the first `n`. */
  predicate IsLatest(h: seq<Observation>, n: nat, run: string, o: Observation)
    requires n <= |h|
  {
    n != 0 &&
    if h[n - 1].runId == run && h[n - 1].signal == o.signal then o == h[n - 1] else IsLatest(h, n - 1, run, o)
  }

  lemma {:induction false} LatestIsObserved(h: seq<Observation>, n: nat, run: string, o: Observation)
    requires n <= |h| && IsLatest(h, n, run, o)
    ensures o.runId == run
    ensures exists i ::
      0 <= i < n && h[i] == o && (forall j :: i < j < n ==> h[j].runId != run || h[j].signal != o.signal)
  {
    if h[n - 1].runId == run && h[n - 1].signal == o.signal {
      assert h[n - 1] == o;
    } else {
      LatestIsObserved(h, n - 1, run, o);
    }
  }

  ghost predicate DistinctSignals(per: seq<Observation>) {
    forall i, j :: 0 <= i < j < |per| ==> per[i].signal != per[j].signal
  }

  lemma {:induction false} KeepDistinct(per: seq<Observation>, c: int)
    requires DistinctSignals(per)
    ensures DistinctSignals(Keep(per, c))
  {
    if per != [] {
      KeepDistinct(per[1..], c);
      KeepContents(per[1..], c);
      forall i | 0 <= i < |Keep(per[1..], c)| ensures Keep(per[1..], c)[i].signal != per[0].signal {
        var k :| 0 <= k < |per[1..]| && per[1..][k] == Keep(per[1..], c)[i];
        assert per[k + 1] == per[1..][k];
      }
    }
  }

  lemma {:induction false} PutContents(per: seq<Observation>, obs: Observation)
    requires DistinctSignals(per)
    ensures forall o :: o in Put(per, obs) <==> o == obs || (o in per && o.signal != obs.signal)
    ensures DistinctSignals(Put(per, obs))
  {
    if per != [] {
      var rest := per[1..];
      PutContents(rest, obs);
      assert per == [per[0]] + rest;
      forall i | 0 <= i < |rest| ensures rest[i].signal != per[0].signal { assert rest[i] == per[i + 1]; }
      if per[0].signal != obs.signal {
        forall i | 0 <= i < |Put(rest, obs)| ensures Put(rest, obs)[i].signal != per[0].signal {
          assert Put(rest, obs)[i] in Put(rest, obs);
        }
      }
    }
  }

  /** Every marker names two different stored signals. */
  ghost predicate MarkersStored(b: Bucket) {
    forall p :: p in b.alertedPairs ==>
      p.first != p.second && (exists o :: o in b.perSignal && o.signal == p.first) &&
        (exists o :: o in b.perSignal && o.signal == p.second)
  }

  ghost predicate BucketOk(b: Bucket) {
    DistinctSignals(b.perSignal) && MarkersStored(b)
  }

  lemma SweepKeepsOk(b: Bucket, c: int)
    requires BucketOk(b)
    ensures BucketOk(SweepBucket(b, c))
  {
    KeepDistinct(b.perSignal, c);
    KeepContents(b.perSignal, c);
  }

  lemma IngestKeepsOk(b: Bucket, obs: Observation)
    requires BucketOk(b)
    ensures BucketOk(IngestBucket(b, obs))
  {
    PutContents(b.perSignal, obs);
    var b' := IngestBucket(b, obs);
    forall p | p in b'.alertedPairs
      ensures p.first != p.second && (exists o :: o in b'.perSignal && o.signal == p.first) &&
        (exists o :: o in b'.perSignal && o.signal == p.second)
    {
      assert obs in b'.perSignal;
      if p in b.alertedPairs {
        var o0 :| o0 in b.perSignal && o0.signal == p.first;
        var o1 :| o1 in b.perSignal && o1.signal == p.second;
        assert o0.signal == obs.signal || o0 in b'.perSignal;
        assert o1.signal == obs.signal || o1 in b'.perSignal;
      } else {
        var q := Found(b, obs).value;
        assert q in b.perSignal && q in b'.perSignal;
      }
    }
  }

  /** No empty bucket survives a call, and markers always name stored signals. */
  ghost predicate BufferOk(m: Runs) {
    forall run :: run in m ==> BucketOk(m[run]) && m[run].perSignal != []
  }

  lemma IngestKeepsBuffer(m: Runs, obs: Observation, w: int)
    requires BufferOk(m)
    ensures BufferOk(Ingested(m, obs, w))
    ensures BucketOk(View(m, obs.runId, obs.at - w))
  {
    var v := View(m, obs.runId, obs.at - w);
    if obs.runId in m { SweepKeepsOk(m[obs.runId], obs.at - w); }
    assert BucketOk(v);
    IngestKeepsOk(v, obs);
    PutNonEmpty(v.perSignal, obs);
  }

  lemma SweepKeepsBuffer(m: Runs, cutoff: int)
    requires BufferOk(m)
    ensures BufferOk(SweepAll(m, cutoff))
  {
    forall run | run in SweepAll(m, cutoff)
      ensures BucketOk(SweepBucket(m[run], cutoff)) && SweepBucket(m[run], cutoff).perSignal != []
    {
      SweepKeepsOk(m[run], cutoff);
    }
  }

  lemma PutNonEmpty(per: seq<Observation>, obs: Observation)
    ensures Put(per, obs) != []
  {
  }

  lemma ApplyKeepsBuffer(m: Runs, op: Op, w: int)
    requires BufferOk(m)
    ensures BufferOk(Apply(m, op, w))
  {
    match op
    case Observe(obs) => IngestKeepsBuffer(m, obs, w);
    case Sweep(now) => SweepKeepsBuffer(m, now - w);
  }

  lemma {:induction false} BufferStaysOk(m: Runs, ops: seq<Op>, w: int)
    requires BufferOk(m)
    ensures BufferOk(After(m, ops, w))
    decreases |ops|
  {
    if ops != [] {
      ApplyKeepsBuffer(m, ops[0], w);
      BufferStaysOk(Apply(m, ops[0], w), ops[1..], w);
    }
  }

  lemma {:induction false} HistoryOk(h: seq<Observation>, n: nat, w: int)
    requires n <= |h|
    ensures BufferOk(AfterHistory(h, n, w))
  {
    if n != 0 {
      HistoryOk(h, n - 1, w);
      IngestKeepsBuffer(AfterHistory(h, n - 1, w), h[n - 1], w);
    }
  }

  /** What is stored is the latest of its signal; what is latest and not older than `cutoff` is stored. */
  ghost predicate Mirrors(per: seq<Observation>, h: seq<Observation>, n: nat, run: string, cutoff: int)
    requires n <= |h|
  {
    && (forall o :: o in per ==> IsLatest(h, n, run, o))
    && (forall o :: IsLatest(h, n, run, o) && o.at >= cutoff ==> o in per)
  }

  lemma PutMirrors(per: seq<Observation>, h: seq<Observation>, n: nat, run: string, cutoff: int)
    requires n < |h| && h[n].runId == run && DistinctSignals(per) && Mirrors(per, h, n, run, cutoff)
    ensures Mirrors(Put(per, h[n]), h, n + 1, run, cutoff)
  {
    PutContents(per, h[n]);
  }

  lemma KeepMirrors(per: seq<Observation>, h: seq<Observation>, n: nat, run: string, cutoff: int)
    requires n <= |h| && Mirrors(per, h, n, run, cutoff)
    ensures Mirrors(Keep(per, cutoff), h, n, run, cutoff)
  {
    KeepContents(per, cutoff);
  }

  lemma StoredStep(h: seq<Observation>, k: nat, w: int)
    requires k < |h|
    ensures Stored(h, k + 1, h[k].runId, w).perSignal == Put(Keep(Stored(h, k, h[k].runId, w).perSignal, h[k].at - w),
      h[k])
  {
  }

  lemma OwnMirrors(h: seq<Observation>, k: nat, w: int)
    requires k < |h| && Mirrors(Stored(h, k, h[k].runId, w).perSignal, h, k, h[k].runId, h[k].at - w)
    ensures Mirrors(Stored(h, k + 1, h[k].runId, w).perSignal, h, k + 1, h[k].runId, h[k].at - w)
  {
    StoredDistinct(h, k, h[k].runId, w);
    KeepPutMirrors(Stored(h, k, h[k].runId, w).perSignal, h, k, h[k].at - w);
    StoredStep(h, k, w);
  }

  lemma KeepPutMirrors(per: seq<Observation>, h: seq<Observation>, k: nat, cutoff: int)
    requires k < |h| && DistinctSignals(per) && Mirrors(per, h, k, h[k].runId, cutoff)
    ensures Mirrors(Put(Keep(per, cutoff), h[k]), h, k + 1, h[k].runId, cutoff)
  {
    KeepDistinct(per, cutoff);
    KeepMirrors(per, h, k, h[k].runId, cutoff);
    PutMirrors(Keep(per, cutoff), h, k, h[k].runId, cutoff);
  }

  lemma StoredDistinct(h: seq<Observation>, n: nat, run: string, w: int)
    requires n <= |h|
    ensures DistinctSignals(Stored(h, n, run, w).perSignal)
  {
    HistoryOk(h, n, w);
  }

  lemma OtherMirrors(h: seq<Observation>, k: nat, run: string, w: int, cutoff: int)
    requires k < |h| && h[k].runId != run && Mirrors(Stored(h, k, run, w).perSignal, h, k, run, cutoff)
    ensures Mirrors(Stored(h, k + 1, run, w).perSignal, h, k + 1, run, cutoff)
  {
    assert Stored(h, k + 1, run, w) == Stored(h, k, run, w);
  }

  lemma LaterMirrors(per: seq<Observation>, h: seq<Observation>, n: nat, run: string, cutoff: int, later: int)
    requires n <= |h| && cutoff <= later && Mirrors(per, h, n, run, cutoff)
    ensures Mirrors(per, h, n, run, later)
  {
  }

  lemma MirrorsStep(h: seq<Observation>, k: nat, run: string, w: int, t: int)
    requires k < |h| && h[k].at <= t && Mirrors(Stored(h, k, run, w).perSignal, h, k, run, h[k].at - w)
    ensures Mirrors(Stored(h, k + 1, run, w).perSignal, h, k + 1, run, t - w)
  {
    if h[k].runId == run {
      OwnMirrors(h, k, w);
    } else {
      OtherMirrors(h, k, run, w, h[k].at - w);
    }
    LaterMirrors(Stored(h, k + 1, run, w).perSignal, h, k + 1, run, h[k].at - w, t - w);
  }

  lemma NothingMirrors(h: seq<Observation>, run: string, w: int, cutoff: int)
    ensures Mirrors(Stored(h, 0, run, w).perSignal, h, 0, run, cutoff)
  {
  }

  lemma {:induction false} StoredMirrors(h: seq<Observation>, n: nat, run: string, w: int, t: int)
    requires InOrder(h) && n <= |h| && (n > 0 ==> h[n - 1].at <= t)
    ensures Mirrors(Stored(h, n, run, w).perSignal, h, n, run, t - w)
  {
    if n == 0 {
      NothingMirrors(h, run, w, t - w);
    } else {
      StoredMirrors(h, n - 1, run, w, h[n - 1].at);
      MirrorsStep(h, n - 1, run, w, t);
    }
  }

  /** The candidates an observation sees are exactly the latest observations of its run still in the window. */
  lemma SeenIsLatestInWindow(h: seq<Observation>, n: nat, w: int, o: Observation)
    requires InOrder(h) && n < |h|
    ensures o in Seen(h, n, w).perSignal <==> IsLatest(h, n, h[n].runId, o) && h[n].at - o.at <= w
  {
    KeptOfStored(h, n, h[n].runId, w, h[n].at, o);
    SeenIsKept(h, n, w);
  }

  lemma KeptOfStored(h: seq<Observation>, n: nat, run: string, w: int, t: int, o: Observation)
    requires InOrder(h) && n <= |h| && (n > 0 ==> h[n - 1].at <= t)
    ensures o in Keep(Stored(h, n, run, w).perSignal, t - w) <==> IsLatest(h, n, run, o) && o.at >= t - w
  {
    KeptIn(h, n, run, w, t - w, o) by { StoredMirrors(h, n, run, w, t); }
  }

  lemma KeptIn(h: seq<Observation>, n: nat, run: string, w: int, cutoff: int, o: Observation)
    requires n <= |h| && Mirrors(Stored(h, n, run, w).perSignal, h, n, run, cutoff)
    ensures o in Keep(Stored(h, n, run, w).perSignal, cutoff) <==> IsLatest(h, n, run, o) && o.at >= cutoff
  {
    KeptIsLatest(Stored(h, n, run, w).perSignal, h, n, run, cutoff, o);
  }

  lemma KeptIsLatest(per: seq<Observation>, h: seq<Observation>, n: nat, run: string, cutoff: int, o: Observation)
    requires n <= |h| && Mirrors(per, h, n, run, cutoff)
    ensures o in Keep(per, cutoff) <==> IsLatest(h, n, run, o) && o.at >= cutoff
  {
    KeepContents(per, cutoff);
  }

  lemma SeenIsKept(h: seq<Observation>, n: nat, w: int)
    requires n < |h|
    ensures Seen(h, n, w).perSignal == Keep(Stored(h, n, h[n].runId, w).perSignal, h[n].at - w)
  {
  }

  /** The alert raised by the `n`-th observation, if any. */
  function AlertAt(h: seq<Observation>, n: nat, w: int): Option<Alert>
    requires n < |h|
  {
    ResultIn(AfterHistory(h, n, w), h[n], w).alert
  }

  /** What an alert says about the two observations it joins. */
  lemma AlertContents(latest: Observation, prior: Observation)
    requires latest.signal != prior.signal && prior.at <= latest.at
    ensures var a := ToAlert(latest, prior);
      && Rank(a.signals.first) < Rank(a.signals.second)
      && a.observations.first.signal == a.signals.first && a.observations.second.signal == a.signals.second
      && multiset{a.observations.first, a.observations.second} == multiset{latest, prior}
      && a.runId == latest.runId && a.at == latest.at
      && (latest.role.Some? ==> a.role == latest.role) && (latest.role.None? ==> a.role == prior.role)
      && (latest.vendor.Some? ==> a.vendor == latest.vendor) && (latest.vendor.None? ==> a.vendor == prior.vendor)
      && a.confidence == if latest.confidence == High || prior.confidence == High then High else Medium
  {
  }

  // ----- when the same pair may alert again ---------------------------------

  /** At the `k`-th observation, the run's last observation of a signal had left the window. */
  ghost predicate AgedOut(h: seq<Observation>, k: nat, run: string, s: Signal, w: int)
    requires k < |h|
  {
    h[k].runId == run && exists o :: IsLatest(h, k, run, o) && o.signal == s && o.at < h[k].at - w
  }

  lemma MarkerSurvives(h: seq<Observation>, k: nat, run: string, p: Pair, w: int)
    requires InOrder(h) && k < |h| && p in Stored(h, k, run, w).alertedPairs
    requires !AgedOut(h, k, run, p.first, w) && !AgedOut(h, k, run, p.second, w)
    ensures p in Stored(h, k + 1, run, w).alertedPairs
    ensures h[k].runId == run ==> p in Seen(h, k, w).alertedPairs
  {
    StoredMirrors(h, k, run, w, h[k].at);
  }

  lemma {:induction false} MarkerStays(h: seq<Observation>, i: nat, k: nat, run: string, p: Pair, w: int)
    requires InOrder(h) && i <= k <= |h| && p in Stored(h, i, run, w).alertedPairs
    requires forall n :: i <= n < k ==> !AgedOut(h, n, run, p.first, w) && !AgedOut(h, n, run, p.second, w)
    ensures p in Stored(h, k, run, w).alertedPairs
  {
    if i < k {
      MarkerStays(h, i, k - 1, run, p, w);
      MarkerSurvives(h, k - 1, run, p, w);
    }
  }

  /** The `k`-th observation raises an alert for this run and pair. */
  ghost predicate Alerts(h: seq<Observation>, k: nat, run: string, p: Pair, w: int)
    requires k < |h|
  {
    var a := AlertAt(h, k, w);
    a.Some? && a.value.runId == run && a.value.signals == p
  }

  lemma AlertMarks(h: seq<Observation>, k: nat, run: string, p: Pair, w: int)
    requires k < |h| && Alerts(h, k, run, p, w)
    ensures h[k].runId == run
    ensures p !in Seen(h, k, w).alertedPairs
    ensures p in Stored(h, k + 1, run, w).alertedPairs
  {
  }

  ghost predicate PairAgedOut(h: seq<Observation>, k: nat, run: string, p: Pair, w: int)
    requires k < |h|
  {
    AgedOut(h, k, run, p.first, w) || AgedOut(h, k, run, p.second, w)
  }

  lemma NoSecondAlert(h: seq<Observation>, i: nat, j: nat, run: string, p: Pair, w: int)
    requires InOrder(h) && i < j < |h| && Alerts(h, i, run, p, w)
    requires forall k :: i < k <= j ==> !PairAgedOut(h, k, run, p, w)
    ensures !Alerts(h, j, run, p, w)
  {
    AlertMarks(h, i, run, p, w);
    forall n | i + 1 <= n < j ensures !AgedOut(h, n, run, p.first, w) && !AgedOut(h, n, run, p.second, w) {
      assert !PairAgedOut(h, n, run, p, w);
    }
    MarkerStays(h, i + 1, j, run, p, w);
    MarkedStaysSilent(h, j, run, p, w);
  }

  lemma MarkedStaysSilent(h: seq<Observation>, j: nat, run: string, p: Pair, w: int)
    requires InOrder(h) && j < |h| && p in Stored(h, j, run, w).alertedPairs && !PairAgedOut(h, j, run, p, w)
    ensures !Alerts(h, j, run, p, w)
  {
    MarkerSurvives(h, j, run, p, w);
    if Alerts(h, j, run, p, w) { AlertMarks(h, j, run, p, w); }
  }

  /** A pair alerts twice only if one of its signals aged out in between. */
  lemma RealertNeedsAgeOut(h: seq<Observation>, i: nat, j: nat, run: string, p: Pair, w: int)
    requires InOrder(h) && i < j < |h|
    requires Alerts(h, i, run, p, w) && Alerts(h, j, run, p, w)
    ensures exists k :: i < k <= j && PairAgedOut(h, k, run, p, w)
  {
    if forall k :: i < k <= j ==> !PairAgedOut(h, k, run, p, w) { NoSecondAlert(h, i, j, run, p, w); }
  }

  // ----- markers, read off the history --------------------------------------

  lemma {:induction false} LatestUnique(h: seq<Observation>, n: nat, run: string, o: Observation, q: Observation)
    requires n <= |h| && IsLatest(h, n, run, o) && IsLatest(h, n, run, q) && o.signal == q.signal
    ensures o == q
  {
    if !(h[n - 1].runId == run && h[n - 1].signal == o.signal) { LatestUnique(h, n - 1, run, o, q); }
  }

  /** A stored signal whose entry survives the sweep has not aged out. */
  lemma KeptNotAged(h: seq<Observation>, k: nat, w: int, s: Signal)
    requires InOrder(h) && k < |h| && (exists o :: o in Stored(h, k, h[k].runId, w).perSignal && o.signal == s)
    requires s !in ExpiredSignals(Stored(h, k, h[k].runId, w).perSignal, h[k].at - w)
    ensures !AgedOut(h, k, h[k].runId, s, w)
  {
    var run := h[k].runId;
    var per := Stored(h, k, run, w).perSignal;
    var o :| o in per && o.signal == s;
    StoredMirrors(h, k, run, w, h[k].at);
    assert o.at >= h[k].at - w;
    forall q | IsLatest(h, k, run, q) && q.signal == s ensures q == o { LatestUnique(h, k, run, o, q); }
  }

  lemma SurvivorNotAged(h: seq<Observation>, k: nat, p: Pair, w: int)
    requires InOrder(h) && k < |h| && p in Seen(h, k, w).alertedPairs
    ensures p in Stored(h, k, h[k].runId, w).alertedPairs && !PairAgedOut(h, k, h[k].runId, p, w)
  {
    HistoryOk(h, k, w);
    var b := Stored(h, k, h[k].runId, w);
    assert p in b.alertedPairs && MarkersStored(b);
    KeptNotAged(h, k, w, p.first);
    KeptNotAged(h, k, w, p.second);
  }

  /** Neither signal of the pair aged out at an observation after `i` and before `n`. */
  ghost predicate NeverAged(h: seq<Observation>, i: nat, n: nat, run: string, p: Pair, w: int)
    requires n <= |h|
  {
    forall k :: i < k < n ==> !PairAgedOut(h, k, run, p, w)
  }

  lemma NeverAgedStep(h: seq<Observation>, i: nat, n: nat, run: string, p: Pair, w: int)
    requires i < n < |h|
    ensures NeverAged(h, i, n + 1, run, p, w) <==> NeverAged(h, i, n, run, p, w) && !PairAgedOut(h, n, run, p, w)
  {
  }

  /** The pair alerted at `i` and neither signal aged out at any observation after it and before `n`. */
  ghost predicate MarkedSince(h: seq<Observation>, i: nat, n: nat, run: string, p: Pair, w: int)
    requires n <= |h|
  {
    i < n && Alerts(h, i, run, p, w) && NeverAged(h, i, n, run, p, w)
  }

  lemma MarkedGrows(h: seq<Observation>, i: nat, n: nat, run: string, p: Pair, w: int)
    requires n < |h| && MarkedSince(h, i, n, run, p, w) && !PairAgedOut(h, n, run, p, w)
    ensures MarkedSince(h, i, n + 1, run, p, w)
  {
    NeverAgedStep(h, i, n, run, p, w);
  }

  lemma OtherRunLeaves(h: seq<Observation>, k: nat, run: string, p: Pair, w: int)
    requires k < |h| && h[k].runId != run
    ensures Stored(h, k + 1, run, w) == Stored(h, k, run, w) && !PairAgedOut(h, k, run, p, w)
  {
  }

  lemma {:induction false} MarkerOrigin(h: seq<Observation>, n: nat, run: string, p: Pair, w: int) returns (i: nat)
    requires InOrder(h) && n <= |h| && p in Stored(h, n, run, w).alertedPairs
    ensures MarkedSince(h, i, n, run, p, w)
  {
    if h[n - 1].runId != run {
      OtherRunLeaves(h, n - 1, run, p, w);
      i := MarkerOrigin(h, n - 1, run, p, w);
      MarkedGrows(h, i, n - 1, run, p, w);
    } else if p in Seen(h, n - 1, w).alertedPairs {
      SurvivorNotAged(h, n - 1, p, w);
      i := MarkerOrigin(h, n - 1, run, p, w);
      MarkedGrows(h, i, n - 1, run, p, w);
    } else {
      NewMarkerAlerts(h, n - 1, p, w);
      i := n - 1;
    }
  }

  lemma NewMarkerAlerts(h: seq<Observation>, k: nat, p: Pair, w: int)
    requires k < |h| && p in Stored(h, k + 1, h[k].runId, w).alertedPairs && p !in Seen(h, k, w).alertedPairs
    ensures Alerts(h, k, h[k].runId, p, w)
  {
  }

  lemma MarkIsSeen(h: seq<Observation>, i: nat, n: nat, p: Pair, w: int)
    requires InOrder(h) && n < |h| && MarkedSince(h, i, n, h[n].runId, p, w) && !PairAgedOut(h, n, h[n].runId, p, w)
    ensures p in Seen(h, n, w).alertedPairs
  {
    var run := h[n].runId;
    AlertMarks(h, i, run, p, w);
    forall k | i + 1 <= k < n ensures !AgedOut(h, k, run, p.first, w) && !AgedOut(h, k, run, p.second, w) {
      assert !PairAgedOut(h, k, run, p, w);
    }
    MarkerStays(h, i + 1, n, run, p, w);
    MarkerSurvives(h, n, run, p, w);
  }

  /** A marker is seen exactly when the pair alerted before and neither of its signals has aged out since. */
  lemma MarkerIff(h: seq<Observation>, n: nat, p: Pair, w: int)
    requires InOrder(h) && n < |h|
    ensures p in Seen(h, n, w).alertedPairs <==>
      !PairAgedOut(h, n, h[n].runId, p, w) && exists i :: MarkedSince(h, i, n, h[n].runId, p, w)
  {
    if p in Seen(h, n, w).alertedPairs {
      SurvivorNotAged(h, n, p, w);
      var i := MarkerOrigin(h, n, h[n].runId, p, w);
    } else {
      forall i | MarkedSince(h, i, n, h[n].runId, p, w) ensures PairAgedOut(h, n, h[n].runId, p, w) {
        if !PairAgedOut(h, n, h[n].runId, p, w) { MarkIsSeen(h, i, n, p, w); }
      }
    }
  }

  // ----- insertion order, read off the history ------------------------------

  /** The `k`-th observation is of this signal and finds none of it in the window, so the map gets a new last key. */
  ghost predicate Enters(h: seq<Observation>, k: nat, run: string, s: Signal, w: int)
    requires k < |h|
  {
    h[k].runId == run && h[k].signal == s && forall o :: IsLatest(h, k, run, o) && o.signal == s ==> h[k].at - o.at > w
  }

  /** When the signal last entered, among the first `n` observations. */
  ghost function Since(h: seq<Observation>, n: nat, run: string, s: Signal, w: int): nat
    requires n <= |h|
  {
    if n == 0 then 0 else if Enters(h, n - 1, run, s, w) then n - 1 else Since(h, n - 1, run, s, w)
  }

  lemma {:induction false} SinceIsObserved(h: seq<Observation>, n: nat, run: string, o: Observation, w: int)
    requires n <= |h| && IsLatest(h, n, run, o)
    ensures Since(h, n, run, o.signal, w) < n && h[Since(h, n, run, o.signal, w)].signal == o.signal
  {
    if !Enters(h, n - 1, run, o.signal, w) {
      if h[n - 1].runId == run && h[n - 1].signal == o.signal {
        var q :| IsLatest(h, n - 1, run, q) && q.signal == o.signal && h[n - 1].at - q.at <= w;
        SinceIsObserved(h, n - 1, run, q, w);
      } else {
        SinceIsObserved(h, n - 1, run, o, w);
      }
    }
  }

  /** The entries are ordered by rank, all below a bound. */
  ghost predicate ByRank(per: seq<Observation>, rank: Signal -> nat, bound: nat) {
    && (forall a, b :: 0 <= a < b < |per| ==> rank(per[a].signal) < rank(per[b].signal))
    && (forall a :: 0 <= a < |per| ==> rank(per[a].signal) < bound)
  }

  lemma ConsByRank(o: Observation, per: seq<Observation>, rank: Signal -> nat, bound: nat)
    requires ByRank(per, rank, bound) && rank(o.signal) < bound && forall q :: q in per ==>
      rank(o.signal) < rank(q.signal)
    ensures ByRank([o] + per, rank, bound)
  {
    assert forall k :: 0 <= k < |per| ==> per[k] in per;
  }

  lemma HeadRank(per: seq<Observation>, rank: Signal -> nat, bound: nat)
    requires ByRank(per, rank, bound) && per != []
    ensures ByRank(per[1..], rank, bound) && forall q :: q in per[1..] ==> rank(per[0].signal) < rank(q.signal)
  {
  }

  lemma {:induction false} KeepByRank(per: seq<Observation>, cutoff: int, rank: Signal -> nat, bound: nat)
    requires ByRank(per, rank, bound)
    ensures ByRank(Keep(per, cutoff), rank, bound)
  {
    if per != [] {
      HeadRank(per, rank, bound);
      KeepByRank(per[1..], cutoff, rank, bound);
      KeepContents(per[1..], cutoff);
      ConsByRank(per[0], Keep(per[1..], cutoff), rank, bound);
    }
  }

  predicate HasSignal(per: seq<Observation>, s: Signal) {
    exists a :: 0 <= a < |per| && per[a].signal == s
  }

  /** A present signal keeps its place, a new one goes last. */
  lemma {:induction false} PutSignals(per: seq<Observation>, obs: Observation)
    ensures if HasSignal(per, obs.signal)
      then |Put(per, obs)| == |per| && forall a :: 0 <= a < |per| ==> Put(per, obs)[a].signal == per[a].signal
      else Put(per, obs) == per + [obs]
  {
    if per != [] {
      var rest := per[1..];
      assert per == [per[0]] + rest;
      if per[0].signal != obs.signal {
        PutSignals(rest, obs);
        if HasSignal(per, obs.signal) {
          var a :| 0 <= a < |per| && per[a].signal == obs.signal;
          assert rest[a - 1].signal == obs.signal;
        } else {
          assert forall a :: 0 <= a < |rest| ==> rest[a] == per[a + 1];
          assert per + [obs] == [per[0]] + (rest + [obs]);
        }
      }
    }
  }

  /** Replacing in place: the signals, and so the ranks, stay where they are. */
  lemma SameSignalsByRank(per: seq<Observation>, put: seq<Observation>, rank: Signal -> nat, rank': Signal -> nat,
      n: nat)
    requires ByRank(per, rank, n) && |put| == |per| && forall a :: 0 <= a < |per| ==> put[a].signal == per[a].signal
    requires forall s :: rank'(s) == rank(s)
    ensures ByRank(put, rank', n + 1)
  {
    forall a, b | 0 <= a < b < |put| ensures rank'(put[a].signal) < rank'(put[b].signal) {
      assert rank(per[a].signal) < rank(per[b].signal);
    }
  }

  /** A new last entry gets the highest rank. */
  lemma NewLastByRank(per: seq<Observation>, obs: Observation, rank: Signal -> nat, rank': Signal -> nat, n: nat)
    requires ByRank(per, rank, n) && !HasSignal(per, obs.signal) && rank'(obs.signal) == n
    requires forall s :: s != obs.signal ==> rank'(s) == rank(s)
    ensures ByRank(per + [obs], rank', n + 1)
  {
    var put := per + [obs];
    forall a | 0 <= a < |per| ensures rank'(put[a].signal) == rank(per[a].signal) < n { assert put[a] == per[a]; }
    forall a, b | 0 <= a < b < |put| ensures rank'(put[a].signal) < rank'(put[b].signal) {
      if b < |per| { assert rank(per[a].signal) < rank(per[b].signal); }
    }
  }

  lemma PutByRank(per: seq<Observation>, obs: Observation, rank: Signal -> nat, rank': Signal -> nat, n: nat)
    requires ByRank(per, rank, n) && forall s :: s != obs.signal ==> rank'(s) == rank(s)
    requires rank'(obs.signal) == if HasSignal(per, obs.signal) then rank(obs.signal) else n
    ensures ByRank(Put(per, obs), rank', n + 1)
  {
    PutSignals(per, obs);
    if HasSignal(per, obs.signal) {
      SameSignalsByRank(per, Put(per, obs), rank, rank', n);
    } else {
      NewLastByRank(per, obs, rank, rank', n);
    }
  }

  lemma EntersIff(h: seq<Observation>, k: nat, w: int)
    requires InOrder(h) && k < |h|
    ensures Enters(h, k, h[k].runId, h[k].signal, w) <==>
      !HasSignal(Keep(Stored(h, k, h[k].runId, w).perSignal, h[k].at - w), h[k].signal)
  {
    var run, s := h[k].runId, h[k].signal;
    var kept := Keep(Stored(h, k, run, w).perSignal, h[k].at - w);
    if HasSignal(kept, s) {
      var a :| 0 <= a < |kept| && kept[a].signal == s;
      KeptOfStored(h, k, run, w, h[k].at, kept[a]);
      assert kept[a] in kept;
    } else {
      forall o | IsLatest(h, k, run, o) && o.signal == s ensures h[k].at - o.at > w {
        KeptOfStored(h, k, run, w, h[k].at, o);
        NotKept(kept, s, o);
      }
    }
  }

  lemma NotKept(kept: seq<Observation>, s: Signal, o: Observation)
    requires !HasSignal(kept, s) && o.signal == s
    ensures o !in kept
  {
  }

  lemma SinceStep(h: seq<Observation>, k: nat, run: string, s: Signal, w: int)
    requires InOrder(h) && k < |h|
    ensures h[k].runId != run || h[k].signal != s ==> Since(h, k + 1, run, s, w) == Since(h, k, run, s, w)
    ensures h[k].runId == run && h[k].signal == s ==>
      Since(h, k + 1, run, s, w) == if HasSignal(Keep(Stored(h, k, run, w).perSignal, h[k].at - w), s)
        then Since(h, k, run, s, w) else k
  {
    EntersIff(h, k, w);
  }

  /** The stored entries stand in the order in which their signals entered. */
  lemma {:induction false} StoredByRank(h: seq<Observation>, n: nat, run: string, w: int)
    requires InOrder(h) && n <= |h|
    ensures ByRank(Stored(h, n, run, w).perSignal, s => Since(h, n, run, s, w), n)
  {
    if n > 0 {
      StoredByRank(h, n - 1, run, w);
      var rank, rank' := (s: Signal) => Since(h, n - 1, run, s, w), (s: Signal) => Since(h, n, run, s, w);
      var per := Stored(h, n - 1, run, w).perSignal;
      if h[n - 1].runId == run {
        RankStep(h, n - 1, w, per, rank, rank');
      } else {
        OtherRunRank(h, n - 1, run, w, per, rank, rank');
      }
    }
  }

  lemma RankStep(h: seq<Observation>, k: nat, w: int, per: seq<Observation>, rank: Signal -> nat, rank': Signal -> nat)
    requires InOrder(h) && k < |h| && per == Stored(h, k, h[k].runId, w).perSignal && ByRank(per, rank, k)
    requires forall s :: rank(s) == Since(h, k, h[k].runId, s, w) && rank'(s) == Since(h, k + 1, h[k].runId, s, w)
    ensures ByRank(Stored(h, k + 1, h[k].runId, w).perSignal, rank', k + 1)
  {
    KeepByRank(per, h[k].at - w, rank, k);
    forall s ensures s != h[k].signal ==> rank'(s) == rank(s) { SinceStep(h, k, h[k].runId, s, w); }
    SinceStep(h, k, h[k].runId, h[k].signal, w);
    PutByRank(Keep(per, h[k].at - w), h[k], rank, rank', k);
    StoredStep(h, k, w);
  }

  lemma OtherRunRank(h: seq<Observation>, k: nat, run: string, w: int, per: seq<Observation>, rank: Signal -> nat,
      rank': Signal -> nat)
    requires InOrder(h) && k < |h| && h[k].runId != run && per == Stored(h, k, run, w).perSignal && ByRank(per, rank, k)
    requires forall s :: rank(s) == Since(h, k, run, s, w) && rank'(s) == Since(h, k + 1, run, s, w)
    ensures ByRank(Stored(h, k + 1, run, w).perSignal, rank', k + 1)
  {
    OtherRunLeaves(h, k, run, Pair(ToolLoop, ToolLoop), w);
    forall s ensures rank'(s) == rank(s) { SinceStep(h, k, run, s, w); }
  }

  // ----- the alerts, from the history alone ---------------------------------

  /** The `i`-th result raised an alert for this run and pair. */
  predicate Raised(rs: seq<IngestResult>, i: nat, run: string, p: Pair)
    requires i < |rs|
  {
    rs[i].alert.Some? && rs[i].alert.value.runId == run && rs[i].alert.value.signals == p
  }

  /** The alert at `i` still suppresses the pair at `n`. */
  ghost predicate Suppresses(h: seq<Observation>, rs: seq<IngestResult>, i: nat, n: nat, p: Pair, w: int)
    requires n < |h| == |rs|
  {
    i < n && Raised(rs, i, h[n].runId, p) && NeverAged(h, i, n + 1, h[n].runId, p, w)
  }

  /** The pair alerted before, and neither signal has aged out since. */
  ghost predicate Suppressed(h: seq<Observation>, rs: seq<IngestResult>, n: nat, p: Pair, w: int)
    requires n < |h| == |rs|
  {
    exists i :: Suppresses(h, rs, i, n, p, w)
  }

  /**
    An observation the `n`-th one may join: another signal of the run, at least
    medium, latest of its signal, in the window, and not already alerted with it.
   */
  ghost predicate Corroborates(h: seq<Observation>, rs: seq<IngestResult>, n: nat, w: int, prior: Observation)
    requires n < |h| == |rs|
  {
    && prior.signal != h[n].signal && (prior.confidence == Medium || prior.confidence == High) &&
      h[n].at - prior.at <= w
    && IsLatest(h, n, h[n].runId, prior)
    && !Suppressed(h, rs, n, SortedPair(prior.signal, h[n].signal), w)
  }

  /** Of those, the one whose signal entered the window first. */
  ghost predicate FirstPartner(h: seq<Observation>, rs: seq<IngestResult>, n: nat, w: int, prior: Observation)
    requires n < |h| == |rs|
  {
    && Corroborates(h, rs, n, w, prior)
    && forall o :: Corroborates(h, rs, n, w, o) ==>
      Since(h, n, h[n].runId, prior.signal, w) <= Since(h, n, h[n].runId, o.signal, w)
  }

  /** The `n`-th result as the observations and the earlier results determine it. */
  ghost predicate ResultFits(h: seq<Observation>, rs: seq<IngestResult>, n: nat, w: int)
    requires n < |h| == |rs|
  {
    HintFits(h[n], rs[n].hint) && AlertFits(h, rs, n, w)
  }

  ghost predicate HintFits(o: Observation, hint: Hint) {
    && hint.runId == o.runId && hint.signal == o.signal && hint.confidence == o.confidence
    && hint.at == o.at && hint.reason == o.reason && hint.detail == o.detail
  }

  ghost predicate AlertFits(h: seq<Observation>, rs: seq<IngestResult>, n: nat, w: int)
    requires n < |h| == |rs|
  {
    && (rs[n].alert.Some? <==>
          (h[n].confidence == Medium || h[n].confidence == High) && exists prior :: Corroborates(h, rs, n, w, prior))
    && (rs[n].alert.Some? ==> exists prior ::
      FirstPartner(h, rs, n, w, prior) && prior.at <= h[n].at && rs[n].alert.value == ToAlert(h[n], prior))
  }

  /** These are the results of these observations: nothing here mentions the buffer. */
  ghost predicate Explains(h: seq<Observation>, rs: seq<IngestResult>, w: int) {
    |rs| == |h| && forall n :: 0 <= n < |h| ==> ResultFits(h, rs, n, w)
  }

  /** The observations from the `n`-th on, as calls. */
  function AsCalls(h: seq<Observation>, n: nat): seq<Op>
    requires n <= |h|
    decreases |h| - n
  {
    if n == |h| then [] else [Observe(h[n])] + AsCalls(h, n + 1)
  }

  /** The hint and the alert of each observation from the `n`-th on, as described above. */
  function HistoryResults(h: seq<Observation>, n: nat, w: int): seq<IngestResult>
    requires n <= |h|
    decreases |h| - n
  {
    if n == |h| then [] else [IngestResult(ToHint(h[n]), AlertAt(h, n, w))] + HistoryResults(h, n + 1, w)
  }

  lemma {:induction false} ResultsFromHistory(h: seq<Observation>, n: nat, w: int)
    requires n <= |h|
    ensures Results(AfterHistory(h, n, w), AsCalls(h, n), w) == HistoryResults(h, n, w)
    decreases |h| - n
  {
    if n < |h| {
      ResultsCons(AfterHistory(h, n, w), h[n], AsCalls(h, n + 1), w);
      ResultsFromHistory(h, n + 1, w);
    }
  }

  lemma {:induction false} HistoryResultsLength(h: seq<Observation>, n: nat, w: int)
    requires n <= |h|
    ensures |HistoryResults(h, n, w)| == |h| - n
    decreases |h| - n
  {
    if n < |h| { HistoryResultsLength(h, n + 1, w); }
  }

  lemma {:induction false} HistoryResultsAt(h: seq<Observation>, n: nat, k: nat, w: int)
    requires n <= k < |h| && |HistoryResults(h, n, w)| == |h| - n
    ensures HistoryResults(h, n, w)[k - n] == IngestResult(ToHint(h[k]), AlertAt(h, k, w))
    decreases |h| - n
  {
    if n < k { HistoryResultsAt(h, n + 1, k, w); }
  }

  /** The results agree with the alerts of the buffer. */
  ghost predicate Matches(h: seq<Observation>, rs: seq<IngestResult>, w: int) {
    |rs| == |h| && forall k :: 0 <= k < |h| ==> rs[k] == IngestResult(ToHint(h[k]), AlertAt(h, k, w))
  }

  lemma SuppressesIff(h: seq<Observation>, rs: seq<IngestResult>, i: nat, n: nat, p: Pair, w: int)
    requires n < |h| && Matches(h, rs, w)
    ensures Suppresses(h, rs, i, n, p, w) <==>
      MarkedSince(h, i, n, h[n].runId, p, w) && !PairAgedOut(h, n, h[n].runId, p, w)
  {
    if i < n {
      RaisedIff(h, rs, i, h[n].runId, p, w);
      NeverAgedStep(h, i, n, h[n].runId, p, w);
    }
  }

  lemma RaisedIff(h: seq<Observation>, rs: seq<IngestResult>, i: nat, run: string, p: Pair, w: int)
    requires i < |h| && Matches(h, rs, w)
    ensures Raised(rs, i, run, p) <==> Alerts(h, i, run, p, w)
  {
  }

  lemma SuppressedIff(h: seq<Observation>, rs: seq<IngestResult>, n: nat, p: Pair, w: int)
    requires InOrder(h) && n < |h| && Matches(h, rs, w)
    ensures Suppressed(h, rs, n, p, w) <==> p in Seen(h, n, w).alertedPairs
  {
    MarkerIff(h, n, p, w);
    forall i: nat ensures Suppresses(h, rs, i, n, p, w) <==>
      MarkedSince(h, i, n, h[n].runId, p, w) && !PairAgedOut(h, n, h[n].runId, p, w) {
      SuppressesIff(h, rs, i, n, p, w);
    }
  }

  /** The candidates that are eligible in the buffer are the corroborating observations. */
  lemma EligibleIff(h: seq<Observation>, rs: seq<IngestResult>, n: nat, w: int, o: Observation)
    requires InOrder(h) && n < |h| && Matches(h, rs, w)
    ensures Corroborates(h, rs, n, w, o) <==> o in Seen(h, n, w).perSignal && Eligible(Seen(h, n, w), h[n], o)
  {
    SeenIsLatestInWindow(h, n, w, o);
    SuppressedIff(h, rs, n, SortedPair(o.signal, h[n].signal), w);
  }

  /** Nothing eligible stands before the partner that is found. */
  lemma {:induction false} PartnerIsFirst(b: Bucket, obs: Observation, from: nat) returns (k: nat)
    requires from <= |b.perSignal| && Partner(b, obs, from).Some?
    ensures from <= k < |b.perSignal| && b.perSignal[k] == Partner(b, obs, from).value
    ensures forall a :: from <= a < k ==> !Eligible(b, obs, b.perSignal[a])
    decreases |b.perSignal| - from
  {
    if Eligible(b, obs, b.perSignal[from]) { k := from; } else { k := PartnerIsFirst(b, obs, from + 1); }
  }

  lemma SeenByRank(h: seq<Observation>, n: nat, w: int)
    requires InOrder(h) && n < |h|
    ensures ByRank(Seen(h, n, w).perSignal, s => Since(h, n, h[n].runId, s, w), n)
  {
    StoredByRank(h, n, h[n].runId, w);
    SeenIsKept(h, n, w);
    KeepByRank(Stored(h, n, h[n].runId, w).perSignal, h[n].at - w, s => Since(h, n, h[n].runId, s, w), n);
  }

  lemma FoundIsFirstPartner(h: seq<Observation>, rs: seq<IngestResult>, n: nat, w: int)
    requires InOrder(h) && n < |h| && Matches(h, rs, w)
    requires Found(Seen(h, n, w), h[n]).Some?
    ensures var prior := Found(Seen(h, n, w), h[n]).value; FirstPartner(h, rs, n, w, prior) && prior.at <= h[n].at
  {
    var b, run := Seen(h, n, w), h[n].runId;
    var k := PartnerIsFirst(b, h[n], 0);
    var prior := b.perSignal[k];
    assert prior in b.perSignal;
    EligibleIff(h, rs, n, w, prior);
    SeenByRank(h, n, w);
    forall o | Corroborates(h, rs, n, w, o) ensures Since(h, n, run, prior.signal, w) <= Since(h, n, run, o.signal, w) {
      EligibleIff(h, rs, n, w, o);
      var a :| 0 <= a < |b.perSignal| && b.perSignal[a] == o;
      assert a == k || k < a;
    }
    LatestIsObserved(h, n, run, prior);
  }

  /**
    An alert is raised exactly when a medium-or-higher observation finds a
    corroborating one, and it joins the one whose signal entered first.
   */
  lemma AlertIff(h: seq<Observation>, rs: seq<IngestResult>, n: nat, w: int)
    requires InOrder(h) && n < |h| && Matches(h, rs, w)
    ensures ResultFits(h, rs, n, w)
  {
    AlertIsFound(h, n, w);
    AlertRaisedIff(h, rs, n, w);
    if Found(Seen(h, n, w), h[n]).Some? { FoundIsFirstPartner(h, rs, n, w); }
    AlertFitsFound(h, rs, n, w, Found(Seen(h, n, w), h[n]));
  }

  lemma AlertIsFound(h: seq<Observation>, n: nat, w: int)
    requires n < |h|
    ensures var p := Found(Seen(h, n, w), h[n]);
      AlertAt(h, n, w) == if p.Some? then Some(ToAlert(h[n], p.value)) else None
  {
  }

  lemma AlertFitsFound(h: seq<Observation>, rs: seq<IngestResult>, n: nat, w: int, p: Option<Observation>)
    requires n < |h| == |rs| && rs[n].alert == if p.Some? then Some(ToAlert(h[n], p.value)) else None
    requires p.Some? <==>
      (h[n].confidence == Medium || h[n].confidence == High) && exists prior :: Corroborates(h, rs, n, w, prior)
    requires p.Some? ==> FirstPartner(h, rs, n, w, p.value) && p.value.at <= h[n].at
    ensures AlertFits(h, rs, n, w)
  {
  }

  lemma AlertRaisedIff(h: seq<Observation>, rs: seq<IngestResult>, n: nat, w: int)
    requires InOrder(h) && n < |h| && Matches(h, rs, w)
    ensures Found(Seen(h, n, w), h[n]).Some? <==>
      (h[n].confidence == Medium || h[n].confidence == High) && exists prior :: Corroborates(h, rs, n, w, prior)
  {
    var b := Seen(h, n, w);
    assert b.perSignal[0..] == b.perSignal;
    forall o ensures Corroborates(h, rs, n, w, o) <==>
      o in b.perSignal && Eligible(b, h[n], o) { EligibleIff(h, rs, n, w, o); }
  }

  lemma {:induction false} CallsInOrder(h: seq<Observation>, n: nat, k: nat)
    requires n <= k < |h|
    ensures |AsCalls(h, n)| == |h| - n && AsCalls(h, n)[k - n] == Observe(h[k])
    decreases |h| - n
  {
    if n + 1 < |h| { CallsInOrder(h, n + 1, if k == n then k + 1 else k); }
  }

  lemma {:induction false} ObservesMembers(ops: seq<Op>)
    ensures forall op :: op in Observes(ops) ==> op in ops
  {
    if ops != [] { ObservesMembers(ops[1..]); }
  }

  lemma {:induction false} ObservesMonotone(ops: seq<Op>)
    requires Monotone(ops)
    ensures Monotone(Observes(ops))
  {
    if ops != [] {
      MonotoneRest(ops);
      ObservesMonotone(ops[1..]);
      var rest := Observes(ops[1..]);
      ObservesMembers(ops[1..]);
      forall k | 0 <= k < |rest| ensures Time(ops[0]) <= Time(rest[k]) {
        assert rest[k] in rest;
        var q :| 0 <= q < |ops[1..]| && ops[1..][q] == rest[k];
        assert ops[q + 1] == rest[k];
      }
    }
  }

  lemma HistoryInOrder(ops: seq<Op>, h: seq<Observation>)
    requires Monotone(ops) && Observes(ops) == AsCalls(h, 0)
    ensures InOrder(h)
  {
    ObservesMonotone(ops);
    forall i, j | 0 <= i < j < |h| ensures h[i].at <= h[j].at {
      CallsInOrder(h, 0, i);
      CallsInOrder(h, 0, j);
      assert Time(AsCalls(h, 0)[i]) <= Time(AsCalls(h, 0)[j]);
    }
  }

  /** Any run of calls at non-decreasing times, swept or not, returns what its observations alone determine. */
  lemma SweptResultsFromHistory(ops: seq<Op>, h: seq<Observation>, w: int)
    requires Monotone(ops) && Observes(ops) == AsCalls(h, 0)
    ensures Explains(h, Results(map[], ops, w), w)
  {
    SweepsChangeNothing(map[], map[], if ops == [] then 0 else Time(ops[0]) - w, ops, w);
    ResultsFromHistory(h, 0, w);
    HistoryInOrder(ops, h);
    HistoryExplains(h, w);
  }

  lemma HistoryExplains(h: seq<Observation>, w: int)
    requires InOrder(h)
    ensures Explains(h, HistoryResults(h, 0, w), w)
  {
    var rs := HistoryResults(h, 0, w);
    HistoryResultsLength(h, 0, w);
    forall k | 0 <= k < |h| ensures rs[k] == IngestResult(ToHint(h[k]),
      AlertAt(h, k, w)) { HistoryResultsAt(h, 0, k, w); }
    forall n | 0 <= n < |h| ensures ResultFits(h, rs, n, w) { AlertIff(h, rs, n, w); }
  }

  // ----- the history determines the results ---------------------------------

  lemma SuppressedAgree(h: seq<Observation>, rs: seq<IngestResult>, qs: seq<IngestResult>, n: nat, p: Pair, w: int)
    requires n < |h| == |rs| == |qs| && forall k :: 0 <= k < n ==> rs[k] == qs[k]
    ensures Suppressed(h, rs, n, p, w) <==> Suppressed(h, qs, n, p, w)
  {
    forall i: nat ensures Suppresses(h, rs, i, n, p, w) <==> Suppresses(h, qs, i, n, p, w) {
      assert i < n ==> (Raised(rs, i, h[n].runId, p) <==> Raised(qs, i, h[n].runId, p));
    }
  }

  lemma CorroboratesAgree(h: seq<Observation>, rs: seq<IngestResult>, qs: seq<IngestResult>, n: nat, w: int)
    requires n < |h| == |rs| == |qs| && forall k :: 0 <= k < n ==> rs[k] == qs[k]
    ensures forall o :: Corroborates(h, rs, n, w, o) <==> Corroborates(h, qs, n, w, o)
  {
    forall o ensures Corroborates(h, rs, n, w, o) <==> Corroborates(h, qs, n, w, o) {
      SuppressedAgree(h, rs, qs, n, SortedPair(o.signal, h[n].signal), w);
    }
  }

  lemma FirstPartnerUnique(h: seq<Observation>, rs: seq<IngestResult>, n: nat, w: int, o: Observation, q: Observation)
    requires n < |h| == |rs| && FirstPartner(h, rs, n, w, o) && FirstPartner(h, rs, n, w, q)
    ensures o == q
  {
    SinceIsObserved(h, n, h[n].runId, o, w);
    SinceIsObserved(h, n, h[n].runId, q, w);
    LatestUnique(h, n, h[n].runId, o, q);
  }

  lemma ResultAgrees(h: seq<Observation>, rs: seq<IngestResult>, qs: seq<IngestResult>, n: nat, w: int)
    requires n < |h| == |rs| == |qs| && (forall k :: 0 <= k < n ==> rs[k] == qs[k]) && ResultFits(h, rs, n, w) &&
      ResultFits(h, qs, n, w)
    ensures rs[n] == qs[n]
  {
    CorroboratesAgree(h, rs, qs, n, w);
    if rs[n].alert.Some? {
      var o :| FirstPartner(h, rs, n, w, o) && rs[n].alert.value == ToAlert(h[n], o);
      var q :| FirstPartner(h, qs, n, w, q) && qs[n].alert.value == ToAlert(h[n], q);
      assert FirstPartner(h, rs, n, w, q);
      FirstPartnerUnique(h, rs, n, w, o, q);
    }
  }

  /** There is only one sequence of results that a history explains. */
  lemma {:induction false} ExplainsUnique(h: seq<Observation>, rs: seq<IngestResult>, qs: seq<IngestResult>, n: nat,
      w: int)
    requires Explains(h, rs, w) && Explains(h, qs, w) && n <= |h|
    ensures rs[..n] == qs[..n]
  {
    if n > 0 {
      ExplainsUnique(h, rs, qs, n - 1, w);
      forall k | 0 <= k < n - 1 ensures rs[k] == qs[k] { assert rs[k] == rs[..n - 1][k] && qs[k] == qs[..n - 1][k]; }
      ResultAgrees(h, rs, qs, n - 1, w);
      assert rs[..n] == rs[..n - 1] + [rs[n - 1]] && qs[..n] == qs[..n - 1] + [qs[n - 1]];
    }
  }

  // ----- both observations are at least medium ------------------------------

  /** An observation below medium raises no alert. */
  lemma WeakRaisesNothing(m: Runs, obs: Observation, w: int)
    requires obs.confidence == Unknown || obs.confidence == Low
    ensures ResultIn(m, obs, w).alert == None
  {
  }

  /** A partner is another stored observation of the run, at least medium, whose pair is not marked. */
  lemma PartnerIsStrong(m: Runs, obs: Observation, w: int)
    requires ResultIn(m, obs, w).alert.Some?
    ensures exists prior ::
      && prior in View(m, obs.runId, obs.at - w).perSignal
      && (prior.confidence == Medium || prior.confidence == High) && prior.signal != obs.signal
      && ResultIn(m, obs, w).alert.value == ToAlert(obs, prior)
  {
    var b := View(m, obs.runId, obs.at - w);
    assert b.perSignal[0..] == b.perSignal;
  }

  ghost predicate StrongAlert(a: Alert) {
    && (a.observations.first.confidence == Medium || a.observations.first.confidence == High)
    && (a.observations.second.confidence == Medium || a.observations.second.confidence == High)
    && a.observations.first.signal != a.observations.second.signal
  }

  /**
    In every run of calls, both observations that an alert joins are of medium or
    high confidence, and of two signals.
   */
  lemma {:induction false} AlertsJoinStrong(m: Runs, ops: seq<Op>, w: int, i: nat)
    requires i < |Results(m, ops, w)| && Results(m, ops, w)[i].alert.Some?
    ensures StrongAlert(Results(m, ops, w)[i].alert.value)
    decreases |ops|
  {
    var rest := Results(Apply(m, ops[0], w), ops[1..], w);
    if ops[0].Observe? && i == 0 {
      FirstIsStrong(m, ops[0].obs, w);
    } else if ops[0].Observe? {
      assert Results(m, ops, w)[i] == rest[i - 1];
      AlertsJoinStrong(Apply(m, ops[0], w), ops[1..], w, i - 1);
    } else {
      AlertsJoinStrong(Apply(m, ops[0], w), ops[1..], w, i);
    }
  }

  lemma FirstIsStrong(m: Runs, obs: Observation, w: int)
    requires ResultIn(m, obs, w).alert.Some?
    ensures StrongAlert(ResultIn(m, obs, w).alert.value)
  {
    if obs.confidence == Unknown || obs.confidence == Low { WeakRaisesNothing(m, obs, w); }
    PartnerIsStrong(m, obs, w);
    var prior :| prior in View(m, obs.runId, obs.at - w).perSignal
      && (prior.confidence == Medium || prior.confidence == High) && prior.signal != obs.signal
      && ResultIn(m, obs, w).alert.value == ToAlert(obs, prior);
  }
}
