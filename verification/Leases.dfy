/**
  packages/mailbox/src/leases.ts over the queries of
  packages/persistence/src/queries/leases.ts: acquire, release and stale
  reclaim on one shared lease table, with reclaim split at its await.
 */
module Leases {
  import opened Globs
  import opened Text

  datatype AuthContext = AuthContext(runId: string, swarmId: string, agent: string)

  datatype LeaseRow = LeaseRow(
    leaseId: nat, swarmId: string, agent: string, holderRunId: string,
    holderWorktreePath: string, glob: string, acquiredAt: int, expiresAt: int)

  /** Lease ids come from a generator that never repeats; `nextId` is its next value. */
  datatype Table = Table(rows: seq<LeaseRow>, nextId: nat)

  datatype AcquireOptions = AcquireOptions(glob: string, ttlMs: int, worktreePath: string)

  datatype AcquireResult = Acquired(row: LeaseRow) | Conflict(leaseId: nat) | InvalidArgument | Unauthenticated

  datatype ReleaseResult = Released | NoSuchLease | WrongHolder | ReleaseUnauthenticated

  predicate WellFormed(ctx: AuthContext) {
    ctx.agent != "" && ctx.runId != "" && ctx.swarmId != ""
  }

  predicate Live(row: LeaseRow, now: int) {
    row.expiresAt > now
  }

  /** The rows that are live at `now`, in table order. */
  function ListActive(rows: seq<LeaseRow>, now: int): (live: seq<LeaseRow>)
    ensures forall r :: r in live <==> r in rows && Live(r, now)
  {
    if rows == [] then []
    else (if Live(rows[0], now) then [rows[0]] else []) + ListActive(rows[1..], now)
  }

  /** The table after `DELETE ... WHERE lease_id = id`. */
  function Without(rows: seq<LeaseRow>, id: nat): (rest: seq<LeaseRow>)
    ensures forall r :: r in rest <==> r in rows && r.leaseId != id
  {
    if rows == [] then []
    else (if rows[0].leaseId == id then [] else [rows[0]]) + Without(rows[1..], id)
  }

  ghost predicate Holds(rows: seq<LeaseRow>, id: nat) {
    exists r :: r in rows && r.leaseId == id
  }

  /** The first row with this id, the one a query by id returns, is the `k`-th. */
  predicate IsFirst(rows: seq<LeaseRow>, id: nat, k: int) {
    0 <= k < |rows| && rows[k].leaseId == id && forall j :: 0 <= j < k ==> rows[j].leaseId != id
  }

  /** The lease with this id is held by this run. */
  ghost predicate HeldBy(rows: seq<LeaseRow>, id: nat, run: string) {
    exists k :: IsFirst(rows, id, k) && rows[k].holderRunId == run
  }

  /** The rows of another id are those at these increasing positions, and make up `rest` in their order. */
  ghost predicate Selects(rows: seq<LeaseRow>, rest: seq<LeaseRow>, id: nat, at: seq<int>) {
    && |at| == |rest| && (forall i, j :: 0 <= i < j < |at| ==> at[i] < at[j])
    && (forall i :: 0 <= i < |at| ==> 0 <= at[i] < |rows| && rows[at[i]] == rest[i])
    && (forall k :: 0 <= k < |rows| ==> (k in at <==> rows[k].leaseId != id))
  }

  /** `rest` is `rows` without the rows of one id: the others, all of them and in the same order. */
  ghost predicate OthersKept(rows: seq<LeaseRow>, rest: seq<LeaseRow>, id: nat) {
    exists at :: Selects(rows, rest, id, at)
  }

  lemma {:induction false} WithoutSelects(rows: seq<LeaseRow>, id: nat) returns (at: seq<int>)
    ensures Selects(rows, Without(rows, id), id, at)
  {
    if rows == [] {
      at := [];
    } else {
      var later := WithoutSelects(rows[1..], id);
      at := Shifted(rows, Without(rows[1..], id), id, later);
    }
  }

  function Later(at: seq<int>): (r: seq<int>)
    ensures |r| == |at| && forall i :: 0 <= i < |at| ==> r[i] == at[i] + 1
  {
    seq(|at|, i requires 0 <= i < |at| => at[i] + 1)
  }

  lemma LaterMembers(at: seq<int>, k: int)
    ensures k + 1 in Later(at) <==> k in at
  {
    if k in at {
      var i :| 0 <= i < |at| && at[i] == k;
      assert Later(at)[i] == k + 1;
    }
  }

  /** Positions in the tail are positions in the whole, one later. */
  lemma TailSelects(rows: seq<LeaseRow>, rest: seq<LeaseRow>, id: nat, later: seq<int>)
    requires rows != [] && Selects(rows[1..], rest, id, later)
    ensures var at := Later(later);
      && |at| == |rest| && (forall i, j :: 0 <= i < j < |at| ==> at[i] < at[j])
      && (forall i :: 0 <= i < |at| ==> 0 < at[i] < |rows| && rows[at[i]] == rest[i])
      && (forall k :: 0 < k < |rows| ==> (k in at <==> rows[k].leaseId != id))
  {
    forall k | 0 < k < |rows| ensures k in Later(later) <==> rows[k].leaseId != id {
      LaterMembers(later, k - 1);
      assert rows[k] == rows[1..][k - 1];
    }
    forall i | 0 <= i < |later| ensures 0 < Later(later)[i] < |rows| && rows[Later(later)[i]] == rest[i] {
      assert rows[later[i] + 1] == rows[1..][later[i]];
    }
  }

  lemma Shifted(rows: seq<LeaseRow>, rest: seq<LeaseRow>, id: nat, later: seq<int>) returns (at: seq<int>)
    requires rows != [] && Selects(rows[1..], rest, id, later)
    ensures Selects(rows, (if rows[0].leaseId == id then [] else [rows[0]]) + rest, id, at)
  {
    TailSelects(rows, rest, id, later);
    at := Later(later);
    if rows[0].leaseId == id {
      assert [] + rest == rest && 0 !in at;
    } else {
      HeadSelects(rows, rest, id, at);
      at := [0] + at;
    }
  }

  lemma HeadSelects(rows: seq<LeaseRow>, rest: seq<LeaseRow>, id: nat, at: seq<int>)
    requires rows != [] && rows[0].leaseId != id && |at| == |rest|
    requires forall i, j :: 0 <= i < j < |at| ==> at[i] < at[j]
    requires forall i :: 0 <= i < |at| ==> 0 < at[i] < |rows| && rows[at[i]] == rest[i]
    requires forall k :: 0 < k < |rows| ==> (k in at <==> rows[k].leaseId != id)
    ensures Selects(rows, [rows[0]] + rest, id, [0] + at)
  {
    var all, kept := [0] + at, [rows[0]] + rest;
    forall i | 0 <= i < |all| ensures 0 <= all[i] < |rows| && rows[all[i]] == kept[i] {
      if i > 0 { assert all[i] == at[i - 1]; }
    }
    forall k | 0 <= k < |rows| ensures k in all <==> rows[k].leaseId != id { assert k > 0 ==> (k in all <==> k in at); }
  }

  lemma WithoutKeepsOthers(rows: seq<LeaseRow>, id: nat)
    ensures OthersKept(rows, Without(rows, id), id)
  {
    var at := WithoutSelects(rows, id);
  }

  lemma NobodyHolds(rows: seq<LeaseRow>, id: nat)
    requires !Has(rows, id)
    ensures forall run :: !HeldBy(rows, id, run)
    ensures forall s :: s in rows ==> s.leaseId != id
  {
    assert !Holds(rows, id);
    forall run ensures !HeldBy(rows, id, run) {}
  }

  lemma {:induction false} LookupIsFirst(rows: seq<LeaseRow>, id: nat)
    requires Has(rows, id)
    ensures exists k :: IsFirst(rows, id, k) && rows[k] == Lookup(rows, id)
  {
    if rows[0].leaseId == id {
      assert IsFirst(rows, id, 0);
    } else {
      LookupIsFirst(rows[1..], id);
      var k :| IsFirst(rows[1..], id, k) && rows[1..][k] == Lookup(rows[1..], id);
      assert IsFirst(rows, id, k + 1);
    }
  }

  lemma LookupIsHolder(rows: seq<LeaseRow>, id: nat)
    requires Has(rows, id)
    ensures forall run :: HeldBy(rows, id, run) <==> run == Lookup(rows, id).holderRunId
    ensures exists s :: s in rows && s.leaseId == id
  {
    LookupIsFirst(rows, id);
    var k :| IsFirst(rows, id, k) && rows[k] == Lookup(rows, id);
    forall run ensures HeldBy(rows, id, run) <==> run == rows[k].holderRunId {
      forall j | IsFirst(rows, id, j) ensures j == k {}
    }
    assert rows[k] in rows;
  }

  // ----- the operations on a table value ------------------------------------

  function NewRow(table: Table, ctx: AuthContext, opts: AcquireOptions, now: int): LeaseRow {
    LeaseRow(table.nextId, ctx.swarmId, ctx.agent, ctx.runId, opts.worktreePath, opts.glob, now, now + opts.ttlMs)
  }

  predicate ValidOptions(opts: AcquireOptions) {
    opts.glob != "" && opts.ttlMs > 0 && opts.worktreePath != ""
  }

  predicate Clashes(rows: seq<LeaseRow>, glob: string) {
    exists i :: 0 <= i < |rows| && GlobsOverlap(rows[i].glob, glob)
  }

  function AcquireTable(table: Table, ctx: AuthContext, opts: AcquireOptions, now: int): Table {
    if !WellFormed(ctx) || !ValidOptions(opts) || Clashes(ListActive(table.rows, now), opts.glob) then table
    else Table(table.rows + [NewRow(table, ctx, opts, now)], table.nextId + 1)
  }

  predicate Has(rows: seq<LeaseRow>, id: nat)
    ensures Has(rows, id) <==> Holds(rows, id)
  {
    exists i :: 0 <= i < |rows| && rows[i].leaseId == id
  }

  /** The row a `SELECT ... WHERE lease_id = id` returns. */
  function Lookup(rows: seq<LeaseRow>, id: nat): (row: LeaseRow)
    requires Has(rows, id)
    ensures row in rows && row.leaseId == id
  {
    if rows[0].leaseId == id then rows[0] else Lookup(rows[1..], id)
  }

  function ReleaseTable(table: Table, ctx: AuthContext, id: nat): Table {
    if WellFormed(ctx) && Has(table.rows, id) && Lookup(table.rows, id).holderRunId == ctx.runId
    then table.(rows := Without(table.rows, id)) else table
  }

  /** A row with this id exists and has expired. */
  predicate Stale(rows: seq<LeaseRow>, id: nat, now: int) {
    Has(rows, id) && !Live(Lookup(rows, id), now)
  }

  /** `git status` either failed or printed something. */
  datatype GitStatus = ExecFailed | Output(stdout: string)

  predicate Clean(status: GitStatus) {
    status.Output? && Blank(status.stdout)
  }

  datatype ReclaimResult = Reclaimed | LeaseNotFound | LeaseNotStale | HolderWorktreeMissing | DirtyHolder

  /** The first half of a reclaim call either answers or goes on to await `git status`. */
  datatype ReclaimRead = Answer(result: ReclaimResult) | AwaitGit(worktree: string) | ReclaimUnauthenticated

  // ----- the store as the source updates it ---------------------------------

  class LeaseStore {
    var rows: seq<LeaseRow>
    var nextId: nat

    constructor ()
      ensures rows == [] && nextId == 0
    {
      rows, nextId := [], 0;
    }

    ghost function Value(): Table
      reads this
    {
      Table(rows, nextId)
    }

    /** Overlap check and insert in one transaction. */
    method Acquire(ctx: AuthContext, opts: AcquireOptions, now: int) returns (r: AcquireResult)
      modifies this
      ensures Value() == AcquireTable(old(Value()), ctx, opts, now)
      ensures r.Acquired? ==> rows == old(rows) + [r.row] && r.row == NewRow(old(Value()), ctx, opts, now)
      ensures r.Acquired? ==>
        && r.row.holderRunId == ctx.runId && r.row.swarmId == ctx.swarmId && r.row.agent == ctx.agent
        && r.row.glob == opts.glob && r.row.holderWorktreePath == opts.worktreePath
        && r.row.acquiredAt == now && forall t :: Live(r.row, t) <==> t < now + opts.ttlMs
      ensures !r.Acquired? ==> Value() == old(Value())
      ensures r.Unauthenticated? <==> ctx.agent == "" || ctx.runId == "" || ctx.swarmId == ""
      ensures r.InvalidArgument? <==>
        !r.Unauthenticated? && (opts.glob == "" || opts.ttlMs <= 0 || opts.worktreePath == "")
      ensures r.Acquired? <==>
        && !r.Unauthenticated? && !r.InvalidArgument?
        && forall s :: s in old(rows) && s.expiresAt > now ==> !GlobsOverlap(s.glob, opts.glob)
      ensures r.Conflict? ==> exists s ::
        s in old(rows) && s.leaseId == r.leaseId && s.expiresAt > now && GlobsOverlap(s.glob, opts.glob)
    {
      if !WellFormed(ctx) { return Unauthenticated; }
      if !ValidOptions(opts) { return InvalidArgument; }
      var live := ListActive(rows, now);
      var i := 0;
      while i < |live|
        invariant 0 <= i <= |live|
        invariant forall k :: 0 <= k < i ==> !GlobsOverlap(live[k].glob, opts.glob)
        invariant rows == old(rows) && nextId == old(nextId)
      {
        if GlobsOverlap(live[i].glob, opts.glob) {
          assert live[i] in live && live[i] in old(rows) && live[i].expiresAt > now;
          return Conflict(live[i].leaseId);
        }
        i := i + 1;
      }
      assert forall s :: s in old(rows) && Live(s, now) ==> s in live;
      assert !Clashes(live, opts.glob);
      var row := LeaseRow(
        nextId, ctx.swarmId, ctx.agent, ctx.runId, opts.worktreePath, opts.glob, now, now + opts.ttlMs);
      rows := rows + [row];
      nextId := nextId + 1;
      return Acquired(row);
    }

    method Release(ctx: AuthContext, id: nat) returns (r: ReleaseResult)
      modifies this`rows
      ensures Value() == ReleaseTable(old(Value()), ctx, id)
      ensures r.ReleaseUnauthenticated? <==> ctx.agent == "" || ctx.runId == "" || ctx.swarmId == ""
      ensures r.NoSuchLease? <==> !r.ReleaseUnauthenticated? && forall s :: s in old(rows) ==> s.leaseId != id
      ensures r.WrongHolder? <==>
        !r.ReleaseUnauthenticated? && exists run :: run != ctx.runId && HeldBy(old(rows), id, run)
      ensures r.Released? <==> !r.ReleaseUnauthenticated? && HeldBy(old(rows), id, ctx.runId)
      ensures r.Released? ==> OthersKept(old(rows), rows, id)
      ensures !r.Released? ==> rows == old(rows)
    {
      if !WellFormed(ctx) { return ReleaseUnauthenticated; }
      if !Has(rows, id) {
        NobodyHolds(rows, id);
        return NoSuchLease;
      }
      LookupIsHolder(rows, id);
      assert HeldBy(rows, id, Lookup(rows, id).holderRunId);
      if Lookup(rows, id).holderRunId != ctx.runId { return WrongHolder; }
      WithoutKeepsOthers(rows, id);
      rows := Without(rows, id);
      return Released;
    }

    /** Reclaim up to its await: only a stale lease with an existing holder worktree goes on. */
    method ReadForReclaim(ctx: AuthContext, id: nat, now: int, worktreeExists: bool) returns (r: ReclaimRead)
      ensures r.ReclaimUnauthenticated? <==> ctx.agent == "" || ctx.runId == "" || ctx.swarmId == ""
      ensures r.AwaitGit? ==>
        exists k :: IsFirst(rows, id, k) && rows[k].expiresAt <= now && rows[k].holderWorktreePath == r.worktree
      ensures r.AwaitGit? <==> WellFormed(ctx) && worktreeExists && Stale(rows, id, now)
      ensures r == Answer(LeaseNotFound) <==> WellFormed(ctx) && !Holds(rows, id)
      ensures r == Answer(LeaseNotStale) <==> WellFormed(ctx) && Has(rows, id) && Live(Lookup(rows, id), now)
      ensures r == Answer(HolderWorktreeMissing) <==> WellFormed(ctx) && Stale(rows, id, now) && !worktreeExists
    {
      if !WellFormed(ctx) { return ReclaimUnauthenticated; }
      if !Has(rows, id) { return Answer(LeaseNotFound); }
      var row := Lookup(rows, id);
      LookupIsFirst(rows, id);
      if row.expiresAt > now { return Answer(LeaseNotStale); }
      if !worktreeExists { return Answer(HolderWorktreeMissing); }
      return AwaitGit(row.holderWorktreePath);
    }

    /** Reclaim after its await: the row goes only on blank `git status` output. */
    method DeleteIfClean(id: nat, status: GitStatus) returns (r: ReclaimResult)
      modifies this`rows
      ensures rows == if Clean(status) then Without(old(rows), id) else old(rows)
      ensures r.Reclaimed? <==> status.Output? && Blank(status.stdout)
      ensures r.Reclaimed? ==> OthersKept(old(rows), rows, id)
      ensures !r.Reclaimed? ==> rows == old(rows)
      ensures status.ExecFailed? ==> r == HolderWorktreeMissing
      ensures status.Output? && !Blank(status.stdout) ==> r == DirtyHolder
    {
      if status.ExecFailed? { return HolderWorktreeMissing; }
      if !Blank(status.stdout) { return DirtyHolder; }
      WithoutKeepsOthers(rows, id);
      rows := Without(rows, id);
      return Reclaimed;
    }
  }

  // ----- many agents, one table: the step machine ---------------------------

  /** `reclaims` holds the reclaim calls that have read a stale row and await git. */
  datatype World = World(now: int, table: Table, reclaims: map<nat, nat>)

  datatype Step =
    | Tick(ms: nat)
    | Acquire(ctx: AuthContext, opts: AcquireOptions)
    | Release(ctx: AuthContext, id: nat)
    | BeginReclaim(job: nat, ctx: AuthContext, id: nat, worktreeExists: bool)
    | FinishReclaim(job: nat, status: GitStatus)

  function Next(w: World, step: Step): World {
    match step
    case Tick(ms) => w.(now := w.now + ms)
    case Acquire(ctx, opts) => w.(table := AcquireTable(w.table, ctx, opts, w.now))
    case Release(ctx, id) => w.(table := ReleaseTable(w.table, ctx, id))
    case BeginReclaim(job, ctx, id, worktreeExists) =>
      if job !in w.reclaims && WellFormed(ctx) && worktreeExists && Stale(w.table.rows, id, w.now)
      then w.(reclaims := w.reclaims[job := id]) else w
    case FinishReclaim(job, status) =>
      if job !in w.reclaims then w
      else
        var done := w.(reclaims := w.reclaims - {job});
        if Clean(status)
        then done.(table := done.table.(rows := Without(w.table.rows, w.reclaims[job]))) else done
  }

  function Run(w: World, steps: seq<Step>): World
    decreases |steps|
  {
    if steps == [] then w else Next(Run(w, steps[..|steps| - 1]), steps[|steps| - 1])
  }

  function Start(now: int): World {
    World(now, Table([], 0), map[])
  }

  /** Lease ids are below the generator, each id names one row, and live rows do not overlap. */
  ghost predicate TableOk(table: Table, now: int) {
    && (forall r :: r in table.rows ==> r.leaseId < table.nextId)
    && (forall r, s :: r in table.rows && s in table.rows && r.leaseId == s.leaseId ==> r == s)
    && (forall r, s :: r in table.rows && s in table.rows && r.leaseId != s.leaseId && Live(r, now) && Live(s, now)
          ==> !GlobsOverlap(r.glob, s.glob))
  }

  /** A pending reclaim can only delete a row that has expired, whatever happened since its read. */
  ghost predicate ReclaimsOk(w: World) {
    forall job :: job in w.reclaims ==>
      && w.reclaims[job] < w.table.nextId
      && forall r :: r in w.table.rows && r.leaseId == w.reclaims[job] ==> !Live(r, w.now)
  }

  ghost predicate Inv(w: World) {
    TableOk(w.table, w.now) && ReclaimsOk(w)
  }

  lemma AcquireKeepsTable(table: Table, ctx: AuthContext, opts: AcquireOptions, now: int)
    requires TableOk(table, now)
    ensures TableOk(AcquireTable(table, ctx, opts, now), now)
  {
    var live := ListActive(table.rows, now);
    if WellFormed(ctx) && ValidOptions(opts) && !Clashes(live, opts.glob) {
      forall r | r in table.rows && Live(r, now)
        ensures !GlobsOverlap(r.glob, opts.glob) && !GlobsOverlap(opts.glob, r.glob)
      {
        assert r in live;
        OverlapSymmetric(r.glob, opts.glob);
      }
    }
  }

  lemma DeleteKeepsTable(table: Table, id: nat, now: int)
    requires TableOk(table, now)
    ensures TableOk(table.(rows := Without(table.rows, id)), now)
  {
  }

  lemma AcquireKeepsReclaims(w: World, ctx: AuthContext, opts: AcquireOptions)
    requires Inv(w)
    ensures ReclaimsOk(Next(w, Acquire(ctx, opts)))
  {
  }

  lemma DeleteKeepsReclaims(w: World, id: nat)
    requires ReclaimsOk(w)
    ensures ReclaimsOk(w.(table := w.table.(rows := Without(w.table.rows, id))))
  {
  }

  lemma FinishKeepsInv(w: World, job: nat, status: GitStatus)
    requires Inv(w)
    ensures Inv(Next(w, FinishReclaim(job, status)))
  {
    if job in w.reclaims {
      DeleteKeepsTable(w.table, w.reclaims[job], w.now);
      DeleteKeepsReclaims(w, w.reclaims[job]);
    }
  }

  lemma BeginKeepsInv(w: World, job: nat, ctx: AuthContext, id: nat, worktreeExists: bool)
    requires Inv(w)
    ensures Inv(Next(w, BeginReclaim(job, ctx, id, worktreeExists)))
  {
  }

  lemma StepKeepsInv(w: World, step: Step)
    requires Inv(w)
    ensures Inv(Next(w, step))
  {
    match step
    case Tick(ms) =>
    case Acquire(ctx, opts) =>
      AcquireKeepsTable(w.table, ctx, opts, w.now);
      AcquireKeepsReclaims(w, ctx, opts);
    case Release(ctx, id) =>
      DeleteKeepsTable(w.table, id, w.now);
      DeleteKeepsReclaims(w, id);
    case BeginReclaim(job, ctx, id, worktreeExists) => BeginKeepsInv(w, job, ctx, id, worktreeExists);
    case FinishReclaim(job, status) => FinishKeepsInv(w, job, status);
  }

  lemma {:induction false} RunKeepsInv(now: int, steps: seq<Step>)
    ensures Inv(Run(Start(now), steps))
  {
    if steps != [] {
      RunKeepsInv(now, steps[..|steps| - 1]);
      StepKeepsInv(Run(Start(now), steps[..|steps| - 1]), steps[|steps| - 1]);
    }
  }

  ghost predicate InAcquireOrder(rows: seq<LeaseRow>) {
    forall i, j :: 0 <= i < j < |rows| ==> rows[i].acquiredAt <= rows[j].acquiredAt
  }

  lemma OrderedCons(r: LeaseRow, rows: seq<LeaseRow>)
    requires InAcquireOrder(rows) && forall q :: q in rows ==> r.acquiredAt <= q.acquiredAt
    ensures InAcquireOrder([r] + rows)
  {
    assert forall i :: 0 <= i < |rows| ==> rows[i] in rows;
  }

  lemma {:induction false} WithoutKeepsOrder(rows: seq<LeaseRow>, id: nat)
    requires InAcquireOrder(rows)
    ensures InAcquireOrder(Without(rows, id))
  {
    if rows != [] {
      WithoutKeepsOrder(rows[1..], id);
      OrderedCons(rows[0], Without(rows[1..], id));
    }
  }

  lemma {:induction false} ActiveKeepsOrder(rows: seq<LeaseRow>, now: int)
    requires InAcquireOrder(rows)
    ensures InAcquireOrder(ListActive(rows, now))
  {
    if rows != [] {
      ActiveKeepsOrder(rows[1..], now);
      OrderedCons(rows[0], ListActive(rows[1..], now));
    }
  }

  ghost predicate OrderOk(w: World) {
    InAcquireOrder(w.table.rows) && forall r :: r in w.table.rows ==> r.acquiredAt <= w.now
  }

  lemma StepKeepsOrder(w: World, step: Step)
    requires OrderOk(w)
    ensures OrderOk(Next(w, step))
  {
    match step
    case Release(ctx, id) => WithoutKeepsOrder(w.table.rows, id);
    case FinishReclaim(job, status) => if job in w.reclaims { WithoutKeepsOrder(w.table.rows, w.reclaims[job]); }
    case Acquire(ctx, opts) => assert forall i :: 0 <= i < |w.table.rows| ==> w.table.rows[i] in w.table.rows;
    case _ =>
  }

  /** In every reachable table the live rows, as listed, are ordered by `acquired_at`, as the query promises. */
  lemma {:induction false} ActiveInAcquireOrder(now: int, steps: seq<Step>)
    ensures OrderOk(Run(Start(now), steps))
    ensures InAcquireOrder(ListActive(Run(Start(now), steps).table.rows, Run(Start(now), steps).now))
  {
    if steps != [] {
      ActiveInAcquireOrder(now, steps[..|steps| - 1]);
      StepKeepsOrder(Run(Start(now), steps[..|steps| - 1]), steps[|steps| - 1]);
    }
    ActiveKeepsOrder(Run(Start(now), steps).table.rows, Run(Start(now), steps).now);
  }

  /**
    In every reachable world, a step that removes a live lease is a release by
    the run that holds it, even with reclaim split at its await.
   */
  lemma LiveLeaseRemovedOnlyByHolder(now: int, steps: seq<Step>, step: Step, r: LeaseRow)
    requires r in Run(Start(now), steps).table.rows
    requires var w' := Next(Run(Start(now), steps), step); r !in w'.table.rows && Live(r, w'.now)
    ensures step.Release? && step.id == r.leaseId && step.ctx.runId == r.holderRunId
  {
    RunKeepsInv(now, steps);
    StepRemoves(Run(Start(now), steps), step, r);
  }

  lemma StepRemoves(w: World, step: Step, r: LeaseRow)
    requires Inv(w) && r in w.table.rows && r !in Next(w, step).table.rows && Live(r, Next(w, step).now)
    ensures step.Release? && step.id == r.leaseId && step.ctx.runId == r.holderRunId
  {
  }

  /** A lease of the holder goes when its run releases it, and every other row stays. */
  lemma HolderCanRelease(now: int, steps: seq<Step>, ctx: AuthContext, r: LeaseRow)
    requires r in Run(Start(now), steps).table.rows && ctx.runId == r.holderRunId
    requires ctx.agent != "" && ctx.runId != "" && ctx.swarmId != ""
    ensures var rows := Run(Start(now), steps).table.rows;
      OthersKept(rows, Next(Run(Start(now), steps), Release(ctx, r.leaseId)).table.rows, r.leaseId)
  {
    RunKeepsInv(now, steps);
    var rows := Run(Start(now), steps).table.rows;
    var k :| 0 <= k < |rows| && rows[k] == r;
    assert Has(rows, r.leaseId) && Lookup(rows, r.leaseId) == r;
    WithoutKeepsOthers(rows, r.leaseId);
  }

  /** A reclaim that went on to git removes its row on blank output. */
  lemma ReclaimRemoves(w: World, job: nat, status: GitStatus)
    requires job in w.reclaims && status.Output? && Blank(status.stdout)
    ensures OthersKept(w.table.rows, Next(w, FinishReclaim(job, status)).table.rows, w.reclaims[job])
  {
    assert Next(w, FinishReclaim(job, status)).table.rows == Without(w.table.rows, w.reclaims[job]);
    ReclaimKeepsOthers(w.table.rows, w.reclaims[job], Next(w, FinishReclaim(job, status)).table.rows);
  }

  lemma ReclaimKeepsOthers(rows: seq<LeaseRow>, id: nat, rest: seq<LeaseRow>)
    requires rest == Without(rows, id)
    ensures OthersKept(rows, rest, id)
  {
    WithoutKeepsOthers(rows, id);
  }

  /** None of these steps is a release of the lease by the run that holds it. */
  predicate NotReleased(steps: seq<Step>, id: nat, run: string) {
    forall i :: 0 <= i < |steps| && steps[i].Release? ==> steps[i].id != id || steps[i].ctx.runId != run
  }

  lemma {:induction false} ClockForward(w: World, steps: seq<Step>)
    ensures w.now <= Run(w, steps).now
    decreases |steps|
  {
    if steps != [] { ClockForward(w, steps[..|steps| - 1]); }
  }

  lemma {:induction false} InvStays(w: World, steps: seq<Step>)
    requires Inv(w)
    ensures Inv(Run(w, steps))
    decreases |steps|
  {
    if steps != [] {
      InvStays(w, steps[..|steps| - 1]);
      StepKeepsInv(Run(w, steps[..|steps| - 1]), steps[|steps| - 1]);
    }
  }

  lemma {:induction false} LiveStays(w: World, steps: seq<Step>, r: LeaseRow)
    requires Inv(w) && r in w.table.rows && r.expiresAt > Run(w, steps).now &&
      NotReleased(steps, r.leaseId, r.holderRunId)
    ensures r in Run(w, steps).table.rows
    decreases |steps|
  {
    if steps != [] {
      var front, last := steps[..|steps| - 1], steps[|steps| - 1];
      var before := Run(w, front);
      ClockForward(before, [last]);
      OneStep(before, last);
      assert NotReleased(front, r.leaseId, r.holderRunId);
      LiveStays(w, front, r);
      InvStays(w, front);
      if r !in Next(before, last).table.rows { StepRemoves(before, last, r); }
    }
  }

  lemma OneStep(w: World, step: Step)
    ensures Run(w, [step]) == Next(w, step)
  {
    assert [step][..0] == [];
    assert Run(w, [step]) == Next(Run(w, []), step);
  }

  /**
    A lease that is granted lasts: whatever happens next, until its time to live
    is over or its own run releases it, a row with the caller's run, agent, swarm,
    glob and worktree is in the table.
   */
  lemma LeaseLasts(now: int, steps: seq<Step>, ctx: AuthContext, opts: AcquireOptions, more: seq<Step>)
      returns (r: LeaseRow)
    requires ctx.agent != "" && ctx.runId != "" && ctx.swarmId != ""
    requires opts.glob != "" && opts.ttlMs > 0 && opts.worktreePath != ""
    requires var w := Run(Start(now), steps);
      forall s :: s in w.table.rows && s.expiresAt > w.now ==> !GlobsOverlap(s.glob, opts.glob)
    requires var w := Run(Start(now), steps); var w1 := Next(w, Acquire(ctx, opts));
      Run(w1, more).now < w.now + opts.ttlMs && NotReleased(more, w.table.nextId, ctx.runId)
    ensures var w := Run(Start(now), steps); var w1 := Next(w, Acquire(ctx, opts));
      && r in Run(w1, more).table.rows && r.expiresAt == w.now + opts.ttlMs && r.acquiredAt == w.now
      && r.holderRunId == ctx.runId && r.agent == ctx.agent && r.swarmId == ctx.swarmId
      && r.glob == opts.glob && r.holderWorktreePath == opts.worktreePath
  {
    var w := Run(Start(now), steps);
    RunKeepsInv(now, steps);
    r := GrantedRow(w, ctx, opts);
    StepKeepsInv(w, Acquire(ctx, opts));
    LiveStays(Next(w, Acquire(ctx, opts)), more, r);
  }

  lemma GrantedRow(w: World, ctx: AuthContext, opts: AcquireOptions) returns (r: LeaseRow)
    requires ctx.agent != "" && ctx.runId != "" && ctx.swarmId != ""
    requires opts.glob != "" && opts.ttlMs > 0 && opts.worktreePath != ""
    requires forall s :: s in w.table.rows && s.expiresAt > w.now ==> !GlobsOverlap(s.glob, opts.glob)
    ensures r in Next(w, Acquire(ctx, opts)).table.rows && r.leaseId == w.table.nextId
    ensures r.expiresAt == w.now + opts.ttlMs && r.acquiredAt == w.now
    ensures r.holderRunId == ctx.runId && r.agent == ctx.agent && r.swarmId == ctx.swarmId
    ensures r.glob == opts.glob && r.holderWorktreePath == opts.worktreePath
  {
    var live := ListActive(w.table.rows, w.now);
    assert forall i :: 0 <= i < |live| ==> live[i] in live;
    r := NewRow(w.table, ctx, opts, w.now);
  }

  /** A path matched by two live leases of a reachable table comes from a crossed pair of segments. */
  lemma DoubleMatchIsCrossed(now: int, steps: seq<Step>, r: LeaseRow, s: LeaseRow, path: string)
    requires var w := Run(Start(now), steps);
      r in w.table.rows && s in w.table.rows && r.leaseId != s.leaseId && Live(r, w.now) && Live(s, w.now)
    requires GlobMatchesPath(r.glob, path) && GlobMatchesPath(s.glob, path)
    ensures CrossedGlobs(r.glob, s.glob)
  {
    RunKeepsInv(now, steps);
    MissedOverlapIsCrossed(r.glob, s.glob, path);
  }
}
