/**
  packages/persistence/src/migrations.ts: `applyPending` run by any number of
  processes that may crash anywhere, with the lock row as the only guard.
 */
module Migrations {

  /** The rows of `schema_migrations` and whether the row of `schema_lock` exists. */
  datatype Database = Database(locked: bool, applied: seq<nat>)

  /** Where one call of `applyPending` stands; `rows` is what its `SELECT version` returned. */
  datatype Pc =
    | Idle
    | Locked
    | Applying(rows: seq<nat>, next: nat, records: seq<nat>)
    | Releasing(records: seq<nat>, ok: bool)
    | Done(records: seq<nat>)
    | Failed
    | Refused
    | Crashed

  datatype World = World(db: Database, pcs: map<nat, Pc>)

  datatype Step =
    | AcquireLock(p: nat)
    | ReadApplied(p: nat)
    | ApplyNext(p: nat, sqlOk: bool)
    | FinishLoop(p: nat)
    | ReleaseLock(p: nat)
    | Crash(p: nat)

  function PcOf(w: World, p: nat): Pc {
    if p in w.pcs then w.pcs[p] else Idle
  }

  predicate Inside(pc: Pc) {
    pc.Locked? || pc.Applying? || pc.Releasing?
  }

  // ----- the steps, for a list of migration versions ------------------------

  /** One round of the loop: skip a version that was read, or run its transaction. */
  function ApplyOne(vs: seq<nat>, db: Database, pc: Pc, sqlOk: bool): (Database, Pc)
    requires pc.Applying? && pc.next < |vs|
  {
    var v := vs[pc.next];
    if v in pc.rows then (db, pc.(next := pc.next + 1))
    else if sqlOk && v !in db.applied then
      (db.(applied := db.applied + [v]), Applying(pc.rows, pc.next + 1, pc.records + [v]))
    else (db, Releasing(pc.records, false))
  }

  function Next(vs: seq<nat>, w: World, step: Step): World {
    var pc := PcOf(w, step.p);
    match step
    case AcquireLock(p) =>
      if Inside(pc) || pc.Crashed? then w
      else if w.db.locked then w.(pcs := w.pcs[p := Refused])
      else World(w.db.(locked := true), w.pcs[p := Locked])
    case ReadApplied(p) =>
      if pc.Locked? then w.(pcs := w.pcs[p := Applying(w.db.applied, 0, [])]) else w
    case ApplyNext(p, sqlOk) =>
      if pc.Applying? && pc.next < |vs| then
        var r := ApplyOne(vs, w.db, pc, sqlOk);
        World(r.0, w.pcs[p := r.1])
      else w
    case FinishLoop(p) =>
      if pc.Applying? && pc.next >= |vs| then w.(pcs := w.pcs[p := Releasing(pc.records, true)]) else w
    case ReleaseLock(p) =>
      if pc.Releasing? then World(w.db.(locked := false), w.pcs[p := if pc.ok then Done(pc.records) else Failed]) else w
    case Crash(p) => w.(pcs := w.pcs[p := Crashed])
  }

  function Run(vs: seq<nat>, w: World, steps: seq<Step>): World
    decreases |steps|
  {
    if steps == [] then w else Next(vs, Run(vs, w, steps[..|steps| - 1]), steps[|steps| - 1])
  }

  const START := World(Database(false, []), map[])

  // ----- one uninterrupted call, as the source writes it --------------------

  datatype Outcome = Applied(records: seq<nat>) | MigrationFailed | LockHeld

  class Store {
    var locked: bool
    var applied: seq<nat>

    constructor ()
      ensures !locked && applied == []
    {
      locked, applied := false, [];
    }

    ghost function Value(): Database
      reads this
    {
      Database(locked, applied)
    }

    /** `INSERT OR IGNORE` into the lock table; true if this call inserted the row. */
    method TakeLock() returns (won: bool)
      modifies this`locked
      ensures won == !old(locked) && locked
    {
      won := !locked;
      locked := true;
    }

    /**
      `broken` holds the versions whose SQL throws. Whatever rows are there
      already, the missing versions are committed in list order up to the first
      broken one, and the lock is free again unless somebody else held it.
     */
    method ApplyPending(vs: seq<nat>, broken: set<nat>) returns (r: Outcome)
      requires Distinct(vs)
      modifies this
      ensures r.LockHeld? <==> old(locked)
      ensures r.LockHeld? ==> locked && applied == old(applied)
      ensures !r.LockHeld? ==>
        !locked && applied == old(applied) + BeforeBroken(Pending(vs, old(applied), |vs|), broken)
      ensures r.Applied? ==> r.records == Pending(vs, old(applied), |vs|) && forall v :: v in r.records ==> v !in broken
      ensures r.MigrationFailed? ==> exists v :: v in Pending(vs, old(applied), |vs|) && v in broken
      ensures Value() == Run(vs, World(old(Value()), map[]), SoloSteps(vs, broken, 0)).db
    {
      SoloRun(vs, broken, World(Value(), map[]), 0);
      var won := TakeLock();
      if !won { return LockHeld; }
      var rows := applied;
      var records := [];
      for i := 0 to |vs|
        invariant locked && rows == old(applied)
        invariant records == Pending(vs, rows, i) && applied == rows + records
        invariant forall v :: v in records ==> v !in broken
      {
        if vs[i] !in rows {
          if vs[i] in broken {
            StopsHere(vs, rows, broken, i);
            locked := false;
            return MigrationFailed;
          }
          applied := applied + [vs[i]];
          records := records + [vs[i]];
        }
      }
      NothingBroken(records, broken);
      locked := false;
      r := Applied(records);
    }
  }

  /** The versions among the first `n` that were not read as applied, in list order. */
  function Pending(vs: seq<nat>, rows: seq<nat>, n: nat): seq<nat>
    requires n <= |vs|
  {
    if n == 0 then [] else Pending(vs, rows, n - 1) + (if vs[n - 1] in rows then [] else [vs[n - 1]])
  }

  function BeforeBroken(pending: seq<nat>, broken: set<nat>): seq<nat> {
    if pending == [] || pending[0] in broken then [] else [pending[0]] + BeforeBroken(pending[1..], broken)
  }

  lemma {:induction false} NothingBroken(pending: seq<nat>, broken: set<nat>)
    requires forall v :: v in pending ==> v !in broken
    ensures BeforeBroken(pending, broken) == pending
  {
    if pending != [] { NothingBroken(pending[1..], broken); }
  }

  lemma {:induction false} BreaksAt(good: seq<nat>, bad: nat, rest: seq<nat>, broken: set<nat>)
    requires bad in broken && forall v :: v in good ==> v !in broken
    ensures BeforeBroken(good + [bad] + rest, broken) == good
  {
    var all := good + [bad] + rest;
    if good == [] {
      assert all[0] == bad;
    } else {
      assert all[1..] == good[1..] + [bad] + rest;
      BreaksAt(good[1..], bad, rest, broken);
    }
  }

  lemma {:induction false} PendingGrows(vs: seq<nat>, rows: seq<nat>, i: nat, n: nat) returns (rest: seq<nat>)
    requires i <= n <= |vs|
    ensures Pending(vs, rows, n) == Pending(vs, rows, i) + rest
  {
    if i == n {
      rest := [];
    } else {
      rest := PendingGrows(vs, rows, i, n - 1);
      rest := rest + (if vs[n - 1] in rows then [] else [vs[n - 1]]);
    }
  }

  lemma StopsHere(vs: seq<nat>, rows: seq<nat>, broken: set<nat>, i: nat)
    requires i < |vs| && vs[i] !in rows && vs[i] in broken && forall v :: v in Pending(vs, rows, i) ==> v !in broken
    ensures BeforeBroken(Pending(vs, rows, |vs|), broken) == Pending(vs, rows, i) && vs[i] in Pending(vs, rows, |vs|)
  {
    var rest := PendingGrows(vs, rows, i + 1, |vs|);
    BreaksAt(Pending(vs, rows, i), vs[i], rest, broken);
  }

  /** When the rows are an initial part of the list, what is pending is the rest of it. */
  lemma {:induction false} PendingAfterPrefix(vs: seq<nat>, rows: seq<nat>, n: nat)
    requires Distinct(vs) && IsPrefix(rows, vs) && n <= |vs|
    ensures Pending(vs, rows, n) == if n <= |rows| then [] else vs[|rows|..n]
  {
    if n > 0 {
      PendingAfterPrefix(vs, rows, n - 1);
      PrefixMembers(rows, vs, n - 1);
      if n > |rows| {
        assert vs[|rows|..n] == vs[|rows|..n - 1] + [vs[n - 1]];
      } else {
        assert Pending(vs, rows, n) == Pending(vs, rows, n - 1) + [];
      }
    }
  }

  // ----- one process alone --------------------------------------------------

  /** The first `n` rounds of the loop; a version's SQL throws if it is broken. */
  function Rounds(vs: seq<nat>, broken: set<nat>, p: nat, n: nat): seq<Step>
    requires n <= |vs|
  {
    if n == 0 then [AcquireLock(p)] + [ReadApplied(p)]
      else Rounds(vs, broken, p, n - 1) + [ApplyNext(p, vs[n - 1] !in broken)]
  }

  /**
    One uninterrupted call as steps of the machine. A step that is not possible
    where the process stands changes nothing.
   */
  function SoloSteps(vs: seq<nat>, broken: set<nat>, p: nat): seq<Step> {
    Rounds(vs, broken, p, |vs|) + [FinishLoop(p)] + [ReleaseLock(p)]
  }

  lemma RunThen(vs: seq<nat>, w: World, steps: seq<Step>, step: Step)
    ensures Run(vs, w, steps + [step]) == Next(vs, Run(vs, w, steps), step)
  {
    assert (steps + [step])[..|steps|] == steps;
  }

  lemma {:induction false} PendingFromList(vs: seq<nat>, rows: seq<nat>, n: nat)
    requires n <= |vs|
    ensures forall v :: v in Pending(vs, rows, n) ==> v in vs[..n] && v !in rows
  {
    if n > 0 {
      PendingFromList(vs, rows, n - 1);
      assert vs[..n] == vs[..n - 1] + [vs[n - 1]];
    }
  }

  lemma {:induction false} BreakStays(pending: seq<nat>, v: nat, broken: set<nat>)
    ensures BeforeBroken(pending + [v], broken) ==
      BeforeBroken(pending, broken) + (if v !in broken && BeforeBroken(pending, broken) == pending then [v] else [])
  {
    if pending == [] {
      assert pending + [v] == [v] && [v][1..] == [];
    } else {
      assert (pending + [v])[1..] == pending[1..] + [v];
      BreakStays(pending[1..], v, broken);
      assert pending == [pending[0]] + pending[1..];
    }
  }

  /** Where the process stands after the first `n` rounds that started from `rows`. */
  function AfterRounds(vs: seq<nat>, broken: set<nat>, rows: seq<nat>, n: nat): Pc
    requires n <= |vs|
  {
    var pending := Pending(vs, rows, n);
    var done := BeforeBroken(pending, broken);
    if done == pending then Applying(rows, n, done) else Releasing(done, false)
  }

  /** The world after `n` rounds that started from `rows`. */
  ghost predicate Reached(vs: seq<nat>, broken: set<nat>, rows: seq<nat>, n: nat, w: World, p: nat)
    requires n <= |vs|
  {
    w.db == Database(true, rows + BeforeBroken(Pending(vs, rows, n), broken)) &&
      PcOf(w, p) == AfterRounds(vs, broken, rows, n)
  }

  lemma RoundReaches(vs: seq<nat>, broken: set<nat>, rows: seq<nat>, n: nat, w: World, p: nat)
    requires Distinct(vs) && n < |vs| && Reached(vs, broken, rows, n, w, p)
    ensures Reached(vs, broken, rows, n + 1, Next(vs, w, ApplyNext(p, vs[n] !in broken)), p)
  {
    SoloRound(vs, broken, rows, n);
    NextRound(vs, w, p, vs[n] !in broken);
  }

  lemma {:induction false} SoloRounds(vs: seq<nat>, broken: set<nat>, w: World, p: nat, n: nat)
    requires Distinct(vs) && n <= |vs| && !w.db.locked && !Inside(PcOf(w, p)) && !PcOf(w, p).Crashed?
    ensures Reached(vs, broken, w.db.applied, n, Run(vs, w, Rounds(vs, broken, p, n)), p)
  {
    if n == 0 {
      SoloBegins(vs, broken, w, p);
    } else {
      SoloRounds(vs, broken, w, p, n - 1);
      SoloGoesOn(vs, broken, w, p, n - 1);
    }
  }

  lemma SoloBegins(vs: seq<nat>, broken: set<nat>, w: World, p: nat)
    requires !w.db.locked && !Inside(PcOf(w, p)) && !PcOf(w, p).Crashed?
    ensures Reached(vs, broken, w.db.applied, 0, Run(vs, w, Rounds(vs, broken, p, 0)), p)
  {
    SoloStart(vs, w, p);
    assert w.db.applied + [] == w.db.applied;
  }

  lemma SoloGoesOn(vs: seq<nat>, broken: set<nat>, w: World, p: nat, n: nat)
    requires Distinct(vs) && n < |vs| && Reached(vs, broken, w.db.applied, n, Run(vs, w, Rounds(vs, broken, p, n)), p)
    ensures Reached(vs, broken, w.db.applied, n + 1, Run(vs, w, Rounds(vs, broken, p, n + 1)), p)
  {
    var before := Rounds(vs, broken, p, n);
    RunThen(vs, w, before, ApplyNext(p, vs[n] !in broken));
    RoundReaches(vs, broken, w.db.applied, n, Run(vs, w, before), p);
  }

  lemma NextRound(vs: seq<nat>, w: World, p: nat, sqlOk: bool)
    ensures var w', pc := Next(vs, w, ApplyNext(p, sqlOk)), PcOf(w, p);
      if pc.Applying? && pc.next < |vs| then (w'.db, PcOf(w', p)) == ApplyOne(vs, w.db, pc, sqlOk)
      else w' == w
  {
  }

  lemma SoloStart(vs: seq<nat>, w: World, p: nat)
    requires !w.db.locked && !Inside(PcOf(w, p)) && !PcOf(w, p).Crashed?
    ensures var w' := Run(vs, w, [AcquireLock(p)] + [ReadApplied(p)]);
      w'.db == w.db.(locked := true) && PcOf(w', p) == Applying(w.db.applied, 0, [])
  {
    RunThen(vs, w, [], AcquireLock(p));
    assert [] + [AcquireLock(p)] == [AcquireLock(p)];
    RunThen(vs, w, [AcquireLock(p)], ReadApplied(p));
  }

  /** One more round, on values. */
  lemma SoloRound(vs: seq<nat>, broken: set<nat>, rows: seq<nat>, n: nat)
    requires Distinct(vs) && n < |vs|
    ensures var db, pc := Database(true, rows + BeforeBroken(Pending(vs, rows, n), broken)),
      AfterRounds(vs, broken, rows, n);
      var db' := Database(true, rows + BeforeBroken(Pending(vs, rows, n + 1), broken));
      if pc.Applying? then ApplyOne(vs, db, pc, vs[n] !in broken) == (db', AfterRounds(vs, broken, rows, n + 1))
      else db' == db && AfterRounds(vs, broken, rows, n + 1) == pc
  {
    var pending := Pending(vs, rows, n);
    if vs[n] in rows {
      assert Pending(vs, rows, n + 1) == pending + [] == pending;
    } else {
      assert Pending(vs, rows, n + 1) == pending + [vs[n]];
      RoundAdds(rows, pending, vs[n], broken);
      PendingFromList(vs, rows, n);
      assert vs[n] !in vs[..n];
    }
  }

  lemma RoundAdds(rows: seq<nat>, pending: seq<nat>, v: nat, broken: set<nat>)
    ensures var done, done' := BeforeBroken(pending, broken), BeforeBroken(pending + [v], broken);
      && (done == pending && v !in broken ==> done' == pending + [v] && rows + done' == (rows + done) + [v])
      && (done != pending || v in broken ==> done' == done && done' != pending + [v])
  {
    BreakStays(pending, v, broken);
    BrokenIsShorter(pending, broken);
    assert BeforeBroken(pending, broken) + [] == BeforeBroken(pending, broken);
  }

  lemma {:induction false} BrokenIsShorter(pending: seq<nat>, broken: set<nat>)
    ensures |BeforeBroken(pending, broken)| <= |pending|
  {
    if pending != [] { BrokenIsShorter(pending[1..], broken); }
  }

  lemma {:induction false} RefusedRounds(vs: seq<nat>, broken: set<nat>, w: World, p: nat, n: nat)
    requires n <= |vs| && w.db.locked && !Inside(PcOf(w, p)) && !PcOf(w, p).Crashed?
    ensures var w' := Run(vs, w, Rounds(vs, broken, p, n)); w'.db == w.db && PcOf(w', p) == Refused
  {
    if n == 0 {
      RunThen(vs, w, [], AcquireLock(p));
      assert [] + [AcquireLock(p)] == [AcquireLock(p)];
      RunThen(vs, w, [AcquireLock(p)], ReadApplied(p));
    } else {
      RefusedRounds(vs, broken, w, p, n - 1);
      RunThen(vs, w, Rounds(vs, broken, p, n - 1), ApplyNext(p, vs[n - 1] !in broken));
    }
  }

  /** The machine's steps of one call, uninterrupted, leave the database and the outcome the call leaves. */
  lemma SoloRun(vs: seq<nat>, broken: set<nat>, w: World, p: nat)
    requires Distinct(vs) && !Inside(PcOf(w, p)) && !PcOf(w, p).Crashed?
    ensures var w', pending := Run(vs, w, SoloSteps(vs, broken, p)), Pending(vs, w.db.applied, |vs|);
      if w.db.locked then w'.db == w.db && PcOf(w', p) == Refused
      else
        && w'.db == Database(false, w.db.applied + BeforeBroken(pending, broken))
        && PcOf(w', p) == if BeforeBroken(pending, broken) == pending then Done(pending) else Failed
  {
    var rounds := Rounds(vs, broken, p, |vs|);
    RunThen(vs, w, rounds, FinishLoop(p));
    RunThen(vs, w, rounds + [FinishLoop(p)], ReleaseLock(p));
    if w.db.locked { RefusedRounds(vs, broken, w, p, |vs|); } else { SoloRounds(vs, broken, w, p, |vs|); }
  }

  function Max(a: nat, b: nat): nat {
    if a >= b then a else b
  }

  ghost predicate Distinct(vs: seq<nat>) {
    forall i, j :: 0 <= i < j < |vs| ==> vs[i] != vs[j]
  }

  predicate IsPrefix(a: seq<nat>, b: seq<nat>) {
    a <= b
  }

  lemma PrefixMembers(rows: seq<nat>, vs: seq<nat>, i: nat)
    requires Distinct(vs) && IsPrefix(rows, vs) && i < |vs|
    ensures vs[i] in rows <==> i < |rows|
  {
    assert forall k :: 0 <= k < |rows| ==> rows[k] == vs[k];
  }

  // ----- every interleaving -------------------------------------------------

  /** What is known about a process between its read and its release. */
  ghost predicate PcOk(vs: seq<nat>, db: Database, pc: Pc) {
    match pc
    case Applying(rows, next, records) =>
      && IsPrefix(rows, vs) && next <= |vs| && Max(|rows|, next) == |db.applied|
      && records == vs[|rows|..|db.applied|]
    case Releasing(records, ok) => ok ==> db.applied == vs
    case Done(records) => db.applied == vs
    case _ => true
  }

  ghost predicate Inv(vs: seq<nat>, w: World) {
    && IsPrefix(w.db.applied, vs)
    && (forall p :: Inside(PcOf(w, p)) ==> w.db.locked)
    && (forall p, q :: Inside(PcOf(w, p)) && Inside(PcOf(w, q)) ==> p == q)
    && (forall p :: PcOk(vs, w.db, PcOf(w, p)))
  }

  lemma ApplyKeepsInv(vs: seq<nat>, w: World, p: nat, sqlOk: bool)
    requires Distinct(vs) && Inv(vs, w) && PcOf(w, p).Applying? && PcOf(w, p).next < |vs|
    ensures Inv(vs, Next(vs, w, ApplyNext(p, sqlOk)))
  {
    var pc, w' := PcOf(w, p), Next(vs, w, ApplyNext(p, sqlOk));
    assert PcOk(vs, w.db, pc);
    PrefixMembers(pc.rows, vs, pc.next);
    PrefixMembers(w.db.applied, vs, pc.next);
    forall q ensures PcOk(vs, w'.db, PcOf(w', q)) {
      assert PcOk(vs, w.db, PcOf(w, q));
      if q != p { assert PcOf(w', q) == PcOf(w, q) && !Inside(PcOf(w, q)); }
    }
    forall q ensures Inside(PcOf(w', q)) <==> Inside(PcOf(w, q)) {}
  }

  lemma OtherStepsKeepInv(vs: seq<nat>, w: World, step: Step)
    requires Inv(vs, w) && !step.ApplyNext?
    ensures Inv(vs, Next(vs, w, step))
  {
    var w' := Next(vs, w, step);
    assert PcOk(vs, w.db, PcOf(w, step.p));
    forall q ensures PcOk(vs, w'.db, PcOf(w', q)) {
      assert PcOk(vs, w.db, PcOf(w, q));
      assert q != step.p ==> PcOf(w', q) == PcOf(w, q);
    }
    forall q ensures q != step.p ==> PcOf(w', q) == PcOf(w, q) {}
  }

  lemma StepKeepsInv(vs: seq<nat>, w: World, step: Step)
    requires Distinct(vs) && Inv(vs, w)
    ensures Inv(vs, Next(vs, w, step))
  {
    if step.ApplyNext? {
      if PcOf(w, step.p).Applying? && PcOf(w, step.p).next < |vs| { ApplyKeepsInv(vs, w, step.p, step.sqlOk); }
    } else {
      OtherStepsKeepInv(vs, w, step);
    }
  }

  lemma {:induction false} RunKeepsInv(vs: seq<nat>, steps: seq<Step>)
    requires Distinct(vs)
    ensures Inv(vs, Run(vs, START, steps))
  {
    if steps != [] {
      RunKeepsInv(vs, steps[..|steps| - 1]);
      StepKeepsInv(vs, Run(vs, START, steps[..|steps| - 1]), steps[|steps| - 1]);
    }
  }

  /** At most one process is between taking and releasing the lock. */
  lemma MutualExclusion(vs: seq<nat>, steps: seq<Step>, p: nat, q: nat)
    requires Distinct(vs)
    requires var w := Run(vs, START, steps); Inside(PcOf(w, p)) && Inside(PcOf(w, q))
    ensures p == q && Run(vs, START, steps).db.locked
  {
    RunKeepsInv(vs, steps);
  }

  /** The committed versions are always an initial part of the list, so no migration commits twice or out of order. */
  lemma CommittedIsPrefix(vs: seq<nat>, steps: seq<Step>)
    requires Distinct(vs)
    ensures var applied := Run(vs, START, steps).db.applied; IsPrefix(applied, vs) && Distinct(applied)
  {
    RunKeepsInv(vs, steps);
    var applied := Run(vs, START, steps).db.applied;
    assert forall k :: 0 <= k < |applied| ==> applied[k] == vs[k];
  }

  /** Only the process inside frees the lock: a refused or crashed process never does. */
  lemma OnlyTheHolderFreesTheLock(vs: seq<nat>, steps: seq<Step>, step: Step)
    requires Distinct(vs)
    requires var w := Run(vs, START, steps); w.db.locked && !Next(vs, w, step).db.locked
    ensures var w := Run(vs, START, steps);
      && step.ReleaseLock? && Inside(PcOf(w, step.p))
      && forall q :: Inside(PcOf(w, q)) ==> q == step.p
  {
    RunKeepsInv(vs, steps);
  }

  // ----- running again applies nothing --------------------------------------

  /** A process that read the full list has nothing to record. */
  predicate AppliesNothing(vs: seq<nat>, pc: Pc) {
    match pc
    case Applying(rows, _, records) => rows == vs && records == []
    case Releasing(records, _) => records == []
    case Done(records) => records == []
    case _ => true
  }

  /** While some process has completed, whoever is inside came after it and finds nothing to apply. */
  ghost predicate LaterOk(vs: seq<nat>, w: World) {
    forall p, q :: PcOf(w, q).Done? && Inside(PcOf(w, p)) ==> AppliesNothing(vs, PcOf(w, p))
  }

  lemma StepKeepsLater(vs: seq<nat>, w: World, step: Step)
    requires Distinct(vs) && Inv(vs, w) && LaterOk(vs, w)
    ensures LaterOk(vs, Next(vs, w, step))
  {
    var w' := Next(vs, w, step);
    forall p, q | PcOf(w', q).Done? && Inside(PcOf(w', p)) ensures AppliesNothing(vs, PcOf(w', p)) {
      assert PcOk(vs, w.db, PcOf(w, q));
      assert q != step.p ==> PcOf(w', q) == PcOf(w, q);
      assert p != step.p ==> PcOf(w', p) == PcOf(w, p);
      assert forall k :: 0 <= k < |vs| ==> vs[k] in vs;
    }
  }

  lemma {:induction false} RunKeepsLater(vs: seq<nat>, steps: seq<Step>)
    requires Distinct(vs)
    ensures LaterOk(vs, Run(vs, START, steps))
  {
    if steps != [] {
      RunKeepsLater(vs, steps[..|steps| - 1]);
      RunKeepsInv(vs, steps[..|steps| - 1]);
      StepKeepsLater(vs, Run(vs, START, steps[..|steps| - 1]), steps[|steps| - 1]);
    }
  }

  lemma {:induction false} NothingLeft(vs: seq<nat>, w: World, steps: seq<Step>, p: nat)
    requires w.db.applied == vs && (AppliesNothing(vs, PcOf(w, p)) || PcOf(w, p).Done?)
    ensures var w' := Run(vs, w, steps);
      w'.db.applied == vs && (AppliesNothing(vs, PcOf(w', p)) || (PcOf(w', p).Done? && PcOf(w', p) == PcOf(w, p)))
    decreases |steps|
  {
    if steps != [] {
      NothingLeft(vs, w, steps[..|steps| - 1], p);
      assert forall k :: 0 <= k < |vs| ==> vs[k] in vs;
    }
  }

  /**
    Once one run has completed, every run that completes later applies nothing; what
    any process shows as done is that or its old completion.
   */
  lemma SecondRunAppliesNothing(vs: seq<nat>, steps: seq<Step>, first: nat, second: nat, more: seq<Step>)
    requires Distinct(vs) && PcOf(Run(vs, START, steps), first).Done?
    ensures var w := Run(vs, START, steps); var w' := Run(vs, w, more);
      && w'.db.applied == vs
      && (PcOf(w', second).Done? ==> PcOf(w', second).records == [] || PcOf(w', second) == PcOf(w, second))
  {
    var w := Run(vs, START, steps);
    RunKeepsInv(vs, steps);
    RunKeepsLater(vs, steps);
    assert PcOk(vs, w.db, PcOf(w, first));
    assert Inside(PcOf(w, second)) ==> AppliesNothing(vs, PcOf(w, second));
    NothingLeft(vs, w, more, second);
  }

  // ----- when a retry can succeed -------------------------------------------

  /** Nobody is between taking and releasing the lock, yet its row is there. */
  ghost predicate Orphaned(w: World) {
    w.db.locked && forall p :: !Inside(PcOf(w, p))
  }

  lemma OrphanedStays(vs: seq<nat>, w: World, step: Step)
    requires Orphaned(w)
    ensures Orphaned(Next(vs, w, step)) && Next(vs, w, step).db == w.db
  {
    var w' := Next(vs, w, step);
    assert !Inside(PcOf(w, step.p));
    forall q ensures !Inside(PcOf(w', q)) {
      assert !Inside(PcOf(w, q));
      assert q != step.p ==> PcOf(w', q) == PcOf(w, q);
    }
  }

  /** A holder that crashes leaves a lock that no later call can take or free: nothing is applied any more. */
  lemma {:induction false} CrashOfHolderBlocksEveryone(vs: seq<nat>, steps: seq<Step>, holder: nat, more: seq<Step>)
    requires Distinct(vs) && Inside(PcOf(Run(vs, START, steps), holder))
    ensures var w := Next(vs, Run(vs, START, steps), Crash(holder));
      Orphaned(Run(vs, w, more)) && Run(vs, w, more).db == w.db
    decreases |more|
  {
    var w := Next(vs, Run(vs, START, steps), Crash(holder));
    if more == [] {
      RunKeepsInv(vs, steps);
      forall q ensures !Inside(PcOf(w, q)) {
        assert q != holder ==> PcOf(w, q) == PcOf(Run(vs, START, steps), q);
      }
    } else {
      CrashOfHolderBlocksEveryone(vs, steps, holder, more[..|more| - 1]);
      OrphanedStays(vs, Run(vs, w, more[..|more| - 1]), more[|more| - 1]);
    }
  }

  lemma {:induction false} OrphanedForever(vs: seq<nat>, w: World, more: seq<Step>)
    requires Orphaned(w)
    ensures Orphaned(Run(vs, w, more)) && Run(vs, w, more).db == w.db
    decreases |more|
  {
    if more != [] {
      OrphanedForever(vs, w, more[..|more| - 1]);
      OrphanedStays(vs, Run(vs, w, more[..|more| - 1]), more[|more| - 1]);
    }
  }

  /** `q` is where it was. */
  predicate Untouched(w: World, w': World, q: nat) {
    PcOf(w', q) == PcOf(w, q)
  }

  /** From inside the loop a process can fail or finish, and reach its release. */
  lemma {:induction false} LoopEnds(vs: seq<nat>, w: World, p: nat, q: nat) returns (more: seq<Step>)
    requires PcOf(w, p).Applying? && p != q
    ensures PcOf(Run(vs, w, more), p).Releasing? && Untouched(w, Run(vs, w, more), q)
    decreases |vs| - PcOf(w, p).next
  {
    if PcOf(w, p).next >= |vs| {
      more := [FinishLoop(p)];
      RunOne(vs, w, FinishLoop(p));
    } else {
      var w1 := RoundTaken(vs, w, p, q);
      var rest := [];
      if PcOf(w1, p).Applying? { rest := LoopEnds(vs, w1, p, q); }
      RunCons(vs, w, ApplyNext(p, true), rest);
      more := [ApplyNext(p, true)] + rest;
    }
  }

  lemma RunOne(vs: seq<nat>, w: World, step: Step)
    ensures Run(vs, w, [step]) == Next(vs, w, step)
  {
    RunThen(vs, w, [], step);
    assert [] + [step] == [step];
  }

  /** One round goes on to the next or stops the loop. */
  lemma RoundTaken(vs: seq<nat>, w: World, p: nat, q: nat) returns (w': World)
    requires PcOf(w, p).Applying? && PcOf(w, p).next < |vs| && p != q
    ensures w' == Next(vs, w, ApplyNext(p, true)) && Untouched(w, w', q)
    ensures PcOf(w', p).Releasing? || (PcOf(w', p).Applying? && PcOf(w', p).next == PcOf(w, p).next + 1)
  {
    w' := Next(vs, w, ApplyNext(p, true));
  }

  lemma {:induction false} RunCons(vs: seq<nat>, w: World, step: Step, rest: seq<Step>)
    ensures Run(vs, w, [step] + rest) == Run(vs, Next(vs, w, step), rest)
    decreases |rest|
  {
    var all := [step] + rest;
    if rest == [] {
      assert all[..|all| - 1] == [] && all[|all| - 1] == step;
    } else {
      assert all[..|all| - 1] == [step] + rest[..|rest| - 1];
      RunCons(vs, w, step, rest[..|rest| - 1]);
    }
  }

  lemma ReleaseIsAhead(vs: seq<nat>, w: World, p: nat, q: nat) returns (more: seq<Step>)
    requires Inside(PcOf(w, p)) && p != q
    ensures PcOf(Run(vs, w, more), p).Releasing? && Untouched(w, Run(vs, w, more), q)
  {
    if PcOf(w, p).Locked? {
      var rest := LoopEnds(vs, Next(vs, w, ReadApplied(p)), p, q);
      RunCons(vs, w, ReadApplied(p), rest);
      more := [ReadApplied(p)] + rest;
    } else if PcOf(w, p).Applying? {
      more := LoopEnds(vs, w, p, q);
    } else {
      more := [];
    }
  }

  /** A process inside always has a way to its release. */
  lemma HolderCanRelease(vs: seq<nat>, w: World, p: nat, q: nat) returns (more: seq<Step>)
    requires Inside(PcOf(w, p)) && p != q
    ensures !Run(vs, w, more).db.locked && Untouched(w, Run(vs, w, more), q)
  {
    var ahead := ReleaseIsAhead(vs, w, p, q);
    RunThen(vs, w, ahead, ReleaseLock(p));
    more := ahead + [ReleaseLock(p)];
  }

  /** In every reachable world the lock can come free exactly when it is not orphaned. */
  lemma LockCanComeFreeIff(vs: seq<nat>, steps: seq<Step>)
    ensures var w := Run(vs, START, steps); (exists more :: Frees(vs, w, more)) <==> !Orphaned(w)
  {
    var w := Run(vs, START, steps);
    if Orphaned(w) {
      forall more ensures !Frees(vs, w, more) { OrphanedForever(vs, w, more); }
    } else if w.db.locked {
      var p: nat :| Inside(PcOf(w, p));
      var more := HolderCanRelease(vs, w, p, p + 1);
      assert Frees(vs, w, more);
    } else {
      assert Frees(vs, w, []);
    }
  }

  /** These steps leave the lock free. */
  predicate Frees(vs: seq<nat>, w: World, more: seq<Step>) {
    !Run(vs, w, more).db.locked
  }

  /** "Retry shortly": a call that is not running can still get the lock exactly when it is not orphaned. */
  lemma RetryCanSucceedIff(vs: seq<nat>, steps: seq<Step>, q: nat)
    requires var pc := PcOf(Run(vs, START, steps), q); !Inside(pc) && !pc.Crashed?
    ensures var w := Run(vs, START, steps); (exists more :: GetsIn(vs, w, more, q)) <==> !Orphaned(w)
  {
    var w := Run(vs, START, steps);
    if Orphaned(w) {
      NoneGetsIn(vs, w, q);
    } else {
      var more := WayIn(vs, w, q);
    }
  }

  /** These steps lead the process inside. */
  predicate GetsIn(vs: seq<nat>, w: World, more: seq<Step>, q: nat) {
    Inside(PcOf(Run(vs, w, more), q))
  }

  lemma NoneGetsIn(vs: seq<nat>, w: World, q: nat)
    requires Orphaned(w)
    ensures forall more :: !GetsIn(vs, w, more, q)
  {
    forall more ensures !GetsIn(vs, w, more, q) { OrphanedForever(vs, w, more); }
  }

  lemma WayIn(vs: seq<nat>, w: World, q: nat) returns (more: seq<Step>)
    requires !Orphaned(w) && !Inside(PcOf(w, q)) && !PcOf(w, q).Crashed?
    ensures GetsIn(vs, w, more, q)
  {
    var free := [];
    if w.db.locked {
      var p: nat :| Inside(PcOf(w, p));
      free := HolderCanRelease(vs, w, p, q);
    }
    RunThen(vs, w, free, AcquireLock(q));
    more := free + [AcquireLock(q)];
  }
}
