/**
  apps/cli/src/services/linear-runtime.ts: pickups, rate-limit tokens, detached
  run handlers, pause and drain, as atomic steps between awaits.
 */
module Daemon {
  import opened RateLimiter

  type RunId = string

  /** Where the activity that serves one pickup stands. */
  datatype Pc =
    | Waiting    // parked in the limiter's queue
    | Resumed    // its acquire promise is resolved, the code after the await has not run yet
    | Rejected   // its acquire promise is rejected, the issue is being flipped to blocked
    | Handling   // its detached handler runs
    | Finished

  datatype Phase =
    | Serving
    | StoppingDriver
    | AwaitingRuns(snapshot: set<RunId>)
    | Cancelling(snapshot: set<RunId>)
    | StoppingServer
    | Stopped

  datatype Event =
    | Bound(run: RunId)
    | Unbound(run: RunId)
    | TokenOut(run: RunId)
    | TokenBack(run: RunId)
    | Started(run: RunId)
    | Overflowed(run: RunId)

  datatype State = State(
    limiter: Limiter, role: string, paused: bool, phase: Phase, driverStopped: bool,
    registry: set<RunId>, inFlightRuns: map<RunId, nat>, aborted: set<RunId>,
    pcs: map<RunId, Pc>, log: multiset<Event>)

  datatype Step =
    | Pickup(run: RunId)
    | Resume(run: RunId, lease: nat)
    | GiveUp(run: RunId)
    | Finish(run: RunId)
    | Pause
    | DrainAndStop
    | DriverStopped
    | RaceSettled(deadline: bool)
    | CancelledRunsDone
    | ServerStopped

  // ----- the steps ----------------------------------------------------------

  /** A waiting run that has left the queue has had its promise resolved. */
  ghost function Rescheduled(pcs: map<RunId, Pc>, pending: seq<Waiter>): map<RunId, Pc> {
    map run | run in pcs :: if pcs[run] == Waiting && run !in Ids(pending) then Resumed else pcs[run]
  }

  ghost function NewTokens(pcs: map<RunId, Pc>, l: Limiter): multiset<Event> {
    multiset(set run | run in pcs && pcs[run] == Waiting && run !in Ids(l.pending) :: TokenOut(run))
  }

  /** `registry.release`. */
  ghost function Unbind(s: State, run: RunId): State {
    if run in s.registry then s.(registry := s.registry - {run}, log := s.log + multiset{Unbound(run)}) else s
  }

  /** `spawnHandler` for a run that holds `lease`. */
  ghost function Spawn(s: State, run: RunId, lease: nat): State {
    s.(inFlightRuns := s.inFlightRuns[run := lease], pcs := s.pcs[run := Handling],
       log := s.log + multiset{Started(run)})
  }

  /** `lease.release` by the activity of `run`, which then ends. */
  ghost function ReturnToken(s: State, run: RunId, lease: nat): State {
    var l, pcs := Release(s.limiter, lease), s.pcs[run := Finished];
    s.(limiter := l, pcs := Rescheduled(pcs, l.pending), log := s.log + multiset{TokenBack(run)} + NewTokens(pcs, l))
  }

  /** `registry.bind` by the pickup driver, followed by `onPickup`. */
  ghost function OnPickup(s: State, run: RunId): State {
    var b := s.(registry := s.registry + {run}, log := s.log + multiset{Bound(run)});
    var w := Waiter(s.role, run);
    if s.paused then Unbind(b.(pcs := s.pcs[run := Finished]), run)
    else if HasHeadroom(s.limiter, s.role) then
      Spawn(b.(limiter := Mint(s.limiter, w), log := b.log + multiset{TokenOut(run)}), run, s.limiter.nextLease)
    else if |s.limiter.pending| < s.limiter.queueCapacity then
      b.(limiter := s.limiter.(pending := s.limiter.pending + [w]), pcs := s.pcs[run := Waiting])
    else b.(pcs := s.pcs[run := Rejected], log := b.log + multiset{Overflowed(run)})
  }

  ghost function AfterAcquire(s: State, run: RunId, lease: nat): State {
    if s.paused then Unbind(ReturnToken(s, run, lease), run) else Spawn(s, run, lease)
  }

  ghost function AfterHandler(s: State, run: RunId): State
    requires run in s.inFlightRuns
  {
    var r := ReturnToken(s, run, s.inFlightRuns[run]);
    Unbind(r.(inFlightRuns := r.inFlightRuns - {run}), run)
  }

  ghost function Next(s: State, step: Step): State {
    match step
    case Pickup(run) =>
      if s.driverStopped || run in s.pcs then s else OnPickup(s, run)
    case Resume(run, lease) =>
      if run in s.pcs && s.pcs[run] == Resumed && lease in s.limiter.held && s.limiter.held[lease].id == run
      then AfterAcquire(s, run, lease) else s
    case GiveUp(run) =>
      if run in s.pcs && s.pcs[run] == Rejected then Unbind(s.(pcs := s.pcs[run := Finished]), run) else s
    case Finish(run) =>
      if run in s.inFlightRuns then AfterHandler(s, run) else s
    case Pause => s.(paused := true)
    case DrainAndStop =>
      if s.phase == Serving then s.(paused := true, phase := StoppingDriver) else s
    case DriverStopped =>
      if s.phase != StoppingDriver then s
      else s.(driverStopped := true,
              phase := if s.inFlightRuns == map[] then StoppingServer else AwaitingRuns(s.inFlightRuns.Keys))
    case RaceSettled(deadline) =>
      if !s.phase.AwaitingRuns? || !(deadline || s.phase.snapshot !! s.inFlightRuns.Keys) then s
      else if s.inFlightRuns == map[] then s.(phase := StoppingServer)
      else s.(phase := Cancelling(s.inFlightRuns.Keys), aborted := s.aborted + s.inFlightRuns.Keys)
    case CancelledRunsDone =>
      if s.phase.Cancelling? && s.phase.snapshot !! s.inFlightRuns.Keys then s.(phase := StoppingServer) else s
    case ServerStopped =>
      if s.phase != StoppingServer then s
      else s.(phase := Stopped, registry := {}, log := s.log + multiset(set run | run in s.registry :: Unbound(run)))
  }

  ghost function Run(s: State, steps: seq<Step>): State
    decreases |steps|
  {
    if steps == [] then s else Next(Run(s, steps[..|steps| - 1]), steps[|steps| - 1])
  }

  ghost predicate Initial(s: State) {
    && Ok(s.limiter) && s.limiter.pending == [] && s.limiter.held == map[]
    && !s.paused && s.phase == Serving && !s.driverStopped
    && s.registry == {} && s.inFlightRuns == map[] && s.aborted == {} && s.pcs == map[] && s.log == multiset{}
  }

  // ----- the invariant ------------------------------------------------------

  predicate HoldsToken(pc: Pc) {
    pc == Resumed || pc == Handling
  }

  /** The queue holds the waiting runs, once each. */
  ghost predicate QueueOk(pending: seq<Waiter>, role: string, pcs: map<RunId, Pc>) {
    && DistinctIds(pending)
    && (forall w :: w in pending ==> w.role == role)
    && (forall run :: run in pcs && pcs[run] == Waiting <==> run in Ids(pending))
  }

  /** Every token that is out belongs to one resumed or handled run, and no run has two. */
  ghost predicate HoldersOk(held: map<nat, Waiter>, role: string, pcs: map<RunId, Pc>) {
    && (forall n :: n in held ==> held[n].role == role)
    && (forall n, m :: n in held && m in held && held[n].id == held[m].id ==> n == m)
    && (forall n :: n in held ==> held[n].id in pcs && HoldsToken(pcs[held[n].id]))
  }

  /** Resumed and handled runs hold a token; the in-flight table lists the handled ones with theirs. */
  ghost predicate RunsOk(held: map<nat, Waiter>, pcs: map<RunId, Pc>, inFlightRuns: map<RunId, nat>) {
    && (forall run :: run in pcs && HoldsToken(pcs[run]) ==> exists n :: n in held && held[n].id == run)
    && (forall run :: run in inFlightRuns <==> run in pcs && pcs[run] == Handling)
    && (forall run :: run in inFlightRuns ==> inFlightRuns[run] in held && held[inFlightRuns[run]].id == run)
  }

  ghost predicate RegistryOk(s: State) {
    if s.phase == Stopped then s.registry == {}
    else forall run :: run in s.registry <==> run in s.pcs && s.pcs[run] != Finished
  }

  ghost predicate PhaseOk(s: State) {
    match s.phase
    case Serving => true
    case StoppingDriver => s.paused
    case AwaitingRuns(snapshot) => s.paused && s.driverStopped && s.inFlightRuns.Keys <= snapshot
    case Cancelling(snapshot) => s.paused && s.driverStopped && s.inFlightRuns.Keys <= snapshot * s.aborted
    case _ => s.paused && s.driverStopped && s.inFlightRuns == map[]
  }

  /** How often each event has happened for a run, given where the run stands. */
  ghost predicate LogOk(log: multiset<Event>, pcs: map<RunId, Pc>, registry: set<RunId>, run: RunId) {
    && log[Bound(run)] == (if run in pcs then 1 else 0)
    && log[Unbound(run)] + (if run in registry then 1 else 0) == log[Bound(run)]
    && log[TokenOut(run)] <= 1 && log[Started(run)] <= log[TokenOut(run)]
    && (run in pcs && HoldsToken(pcs[run]) ==> log[TokenOut(run)] == 1)
    && (run !in pcs || pcs[run] == Waiting || pcs[run] == Rejected ==> log[TokenOut(run)] == 0)
    && log[TokenBack(run)] == (if run in pcs && pcs[run] == Finished then log[TokenOut(run)] else 0)
    && (run in pcs && pcs[run] == Handling ==> log[Started(run)] == 1)
    && (run in pcs && pcs[run] == Resumed ==> log[Started(run)] == 0)
    && log[TokenOut(run)] + log[Overflowed(run)] <= 1
    && (run in pcs && pcs[run] == Rejected ==> log[Overflowed(run)] == 1)
    && (run !in pcs || pcs[run] == Waiting ==> log[Overflowed(run)] == 0)
  }

  ghost predicate TokensOk(s: State) {
    && QueueOk(s.limiter.pending, s.role, s.pcs)
    && HoldersOk(s.limiter.held, s.role, s.pcs)
    && RunsOk(s.limiter.held, s.pcs, s.inFlightRuns)
  }

  ghost predicate AllLogsOk(s: State) {
    forall run :: LogOk(s.log, s.pcs, s.registry, run)
  }

  ghost predicate Inv(s: State) {
    Ok(s.limiter) && TokensOk(s) && RegistryOk(s) && PhaseOk(s) && AllLogsOk(s)
  }

  // ----- returning a token --------------------------------------------------

  /** Waiters become holders of new tokens: nobody is lost, doubled or added. */
  ghost predicate Handover(held: map<nat, Waiter>, pending: seq<Waiter>, held': map<nat, Waiter>,
      pending': seq<Waiter>) {
    && (forall n :: n in held ==> n in held' && held'[n] == held[n])
    && (forall n :: n in held' && n !in held ==> held'[n] in pending && held'[n].id !in Ids(pending'))
    && (forall n, m :: n in held' && m in held' && n !in held && m !in held && held'[n].id == held'[m].id ==> n == m)
    && (forall w :: w in pending ==> w in pending' || exists n :: n in held' && held'[n] == w)
    && (forall w :: w in pending' ==> w in pending)
    && DistinctIds(pending') && Ids(pending') <= Ids(pending)
  }

  lemma ConservesHandsOver(l: Limiter, l': Limiter)
    requires (forall n :: n in l.held ==> n < l.nextLease) && Conserves(l, l')
    ensures Handover(l.held, l.pending, l'.held, l'.pending)
  {
    IdsShrink(l.pending, l'.pending);
  }

  lemma HeldBelowNext(l: Limiter)
    requires Ok(l)
    ensures forall n :: n in l.held ==> n < l.nextLease
  {
  }

  lemma ReleaseHandsOver(l: Limiter, lease: nat)
    requires Ok(l) && DistinctIds(l.pending) && lease in l.held
    ensures Handover(l.held - {lease}, l.pending, Release(l, lease).held, Release(l, lease).pending)
    ensures lease !in Release(l, lease).held
  {
    HeldBelowNext(l);
    var g := GiveBack(l, lease);
    DrainConserves(g);
    ConservesHandsOver(g, Drain(g));
    DrainHands(g);
  }

  lemma HandoverQueue(pending: seq<Waiter>, pending': seq<Waiter>, role: string, pcs: map<RunId, Pc>, run: RunId)
    requires QueueOk(pending, role, pcs) && run in pcs && HoldsToken(pcs[run])
    requires DistinctIds(pending') && Ids(pending') <= Ids(pending) && forall w :: w in pending' ==> w in pending
    ensures QueueOk(pending', role, Rescheduled(pcs[run := Finished], pending'))
  {
  }

  lemma HandoverHolders(held: map<nat, Waiter>, pending: seq<Waiter>, held': map<nat, Waiter>, pending': seq<Waiter>,
                        role: string, pcs: map<RunId, Pc>, run: RunId, lease: nat)
    requires HoldersOk(held, role, pcs) && QueueOk(pending, role, pcs) && lease in held && held[lease].id == run
    requires Handover(held - {lease}, pending, held', pending')
    ensures HoldersOk(held', role, Rescheduled(pcs[run := Finished], pending'))
  {
    var rest, pcs' := held - {lease}, Rescheduled(pcs[run := Finished], pending');
    forall n | n in held'
      ensures held'[n].role == role && held'[n].id in pcs' && HoldsToken(pcs'[held'[n].id])
      ensures n !in rest ==> held'[n].id in Ids(pending)
      ensures n in rest ==> held'[n].id !in Ids(pending)
    {
      if n !in rest { IdsContain(pending, held'[n]); }
    }
  }

  lemma HandoverFindsToken(held: map<nat, Waiter>, pending: seq<Waiter>, held': map<nat, Waiter>, pending': seq<Waiter>,
                           role: string, pcs: map<RunId, Pc>, inFlight: map<RunId, nat>, run: RunId, lease: nat,
                             r: RunId)
    requires QueueOk(pending, role, pcs) && RunsOk(held, pcs, inFlight)
    requires lease in held && held[lease].id == run && Handover(held - {lease}, pending, held', pending')
    requires r in pcs && r != run && (HoldsToken(pcs[r]) || (pcs[r] == Waiting && r !in Ids(pending')))
    ensures exists n :: n in held' && held'[n].id == r
  {
    if HoldsToken(pcs[r]) {
      var n :| n in held && held[n].id == r;
      assert n in held - {lease};
    } else {
      var k :| 0 <= k < |pending| && pending[k].id == r;
      if pending[k] in pending' { IdsContain(pending', pending[k]); }
      var n :| n in held' && held'[n] == pending[k];
    }
  }

  lemma HandoverTokens(held: map<nat, Waiter>, pending: seq<Waiter>, held': map<nat, Waiter>, pending': seq<Waiter>,
                       role: string, pcs: map<RunId, Pc>, inFlight: map<RunId, nat>, run: RunId, lease: nat)
    requires QueueOk(pending, role, pcs) && RunsOk(held, pcs, inFlight)
    requires lease in held && held[lease].id == run && Handover(held - {lease}, pending, held', pending')
    ensures var pcs' := Rescheduled(pcs[run := Finished], pending');
      forall r :: r in pcs' && HoldsToken(pcs'[r]) ==> exists n :: n in held' && held'[n].id == r
  {
    var pcs' := Rescheduled(pcs[run := Finished], pending');
    forall r | r in pcs' && HoldsToken(pcs'[r]) ensures exists n :: n in held' && held'[n].id == r {
      HandoverFindsToken(held, pending, held', pending', role, pcs, inFlight, run, lease, r);
    }
  }

  lemma HandoverTable(held: map<nat, Waiter>, held': map<nat, Waiter>, pending': seq<Waiter>,
                      pcs: map<RunId, Pc>, inFlight: map<RunId, nat>, run: RunId, lease: nat)
    requires forall r :: r in inFlight <==> r in pcs && pcs[r] == Handling
    requires forall r :: r in inFlight ==> inFlight[r] in held && held[inFlight[r]].id == r
    requires lease in held && held[lease].id == run && forall n :: n in held && n != lease ==>
      n in held' && held'[n] == held[n]
    ensures var pcs', rest := Rescheduled(pcs[run := Finished], pending'), inFlight - {run};
      && (forall r :: r in rest <==> r in pcs' && pcs'[r] == Handling)
      && (forall r :: r in rest ==> rest[r] in held' && held'[rest[r]].id == r)
  {
  }

  lemma HandoverAll(held: map<nat, Waiter>, pending: seq<Waiter>, held': map<nat, Waiter>, pending': seq<Waiter>,
                    role: string, pcs: map<RunId, Pc>, inFlight: map<RunId, nat>, run: RunId, lease: nat)
    requires QueueOk(pending, role, pcs) && HoldersOk(held, role, pcs) && RunsOk(held, pcs, inFlight)
    requires lease in held && held[lease].id == run && Handover(held - {lease}, pending, held', pending')
    ensures var pcs' := Rescheduled(pcs[run := Finished], pending');
      QueueOk(pending', role, pcs') && HoldersOk(held', role, pcs') && RunsOk(held', pcs', inFlight - {run})
  {
    HandoverQueue(pending, pending', role, pcs, run);
    HandoverHolders(held, pending, held', pending', role, pcs, run, lease);
    HandoverTokens(held, pending, held', pending', role, pcs, inFlight, run, lease);
    HandoverKeeps(held, pending, held', pending', lease);
    HandoverTable(held, held', pending', pcs, inFlight, run, lease);
  }

  lemma HandoverKeeps(held: map<nat, Waiter>, pending: seq<Waiter>, held': map<nat, Waiter>, pending': seq<Waiter>,
      lease: nat)
    requires Handover(held - {lease}, pending, held', pending')
    ensures forall n :: n in held && n != lease ==> n in held' && held'[n] == held[n]
  {
    assert forall n :: n in held && n != lease ==> n in held - {lease};
  }

  lemma ReturnKeepsTokens(s: State, run: RunId, lease: nat)
    requires Ok(s.limiter) && TokensOk(s) && lease in s.limiter.held && s.limiter.held[lease].id == run
    ensures var r := ReturnToken(s, run, lease); TokensOk(r.(inFlightRuns := r.inFlightRuns - {run})) && Ok(r.limiter)
  {
    var l, l' := s.limiter, Release(s.limiter, lease);
    ReleaseHandsOver(l, lease);
    ReleaseKeepsOk(l, lease);
    HandoverAll(l.held, l.pending, l'.held, l'.pending, s.role, s.pcs, s.inFlightRuns, run, lease);
  }

  // ----- registry and log ---------------------------------------------------

  lemma NewTokensCount(pcs: map<RunId, Pc>, l: Limiter, r: RunId)
    ensures var out := NewTokens(pcs, l);
      && out[TokenOut(r)] == (if r in pcs && pcs[r] == Waiting && r !in Ids(l.pending) then 1 else 0)
      && out[Bound(r)] == out[Unbound(r)] == out[TokenBack(r)] == out[Started(r)] == out[Overflowed(r)] == 0
  {
    var out := set q | q in pcs && pcs[q] == Waiting && q !in Ids(l.pending) :: TokenOut(q);
    assert TokenOut(r) in out <==> r in pcs && pcs[r] == Waiting && r !in Ids(l.pending);
  }

  lemma ReturnLog(log: multiset<Event>, pcs: map<RunId, Pc>, registry: set<RunId>, run: RunId, l: Limiter, r: RunId)
    requires run in pcs && HoldsToken(pcs[run]) && LogOk(log, pcs, registry, r) && LogOk(log, pcs, registry, run)
    ensures var pcs1 := pcs[run := Finished];
      LogOk(log + multiset{TokenBack(run)} + NewTokens(pcs1, l), Rescheduled(pcs1, l.pending), registry, r)
  {
    NewTokensCount(pcs[run := Finished], l, r);
  }

  lemma UnbindLog(s: State, run: RunId, r: RunId)
    requires LogOk(s.log, s.pcs, s.registry, r)
    ensures LogOk(Unbind(s, run).log, Unbind(s, run).pcs, Unbind(s, run).registry, r)
  {
  }

  lemma ReturnKeepsLogs(s: State, run: RunId, lease: nat)
    requires AllLogsOk(s) && run in s.pcs && HoldsToken(s.pcs[run])
    ensures AllLogsOk(ReturnToken(s, run, lease))
  {
    var s' := ReturnToken(s, run, lease);
    forall r ensures LogOk(s'.log, s'.pcs, s'.registry, r) {
      assert LogOk(s.log, s.pcs, s.registry, r) && LogOk(s.log, s.pcs, s.registry, run);
      ReturnLog(s.log, s.pcs, s.registry, run, s'.limiter, r);
    }
  }

  lemma UnbindKeepsLogs(s: State, run: RunId)
    requires AllLogsOk(s)
    ensures AllLogsOk(Unbind(s, run))
  {
    forall r ensures LogOk(Unbind(s, run).log, Unbind(s, run).pcs, Unbind(s, run).registry, r) {
      assert LogOk(s.log, s.pcs, s.registry, r);
      UnbindLog(s, run, r);
    }
  }

  // ----- every step keeps the invariant -------------------------------------

  lemma ReturnKeepsInv(s: State, run: RunId, lease: nat)
    requires Inv(s) && lease in s.limiter.held && s.limiter.held[lease].id == run
    ensures var r := ReturnToken(s, run, lease); Inv(Unbind(r.(inFlightRuns := r.inFlightRuns - {run}), run))
  {
    ReturnKeepsTokens(s, run, lease);
    ReturnKeepsLogs(s, run, lease);
    ReturnKeepsRest(s, run, lease);
    var r := ReturnToken(s, run, lease);
    UnbindKeepsLogs(r.(inFlightRuns := r.inFlightRuns - {run}), run);
  }

  lemma ReturnKeepsRest(s: State, run: RunId, lease: nat)
    requires RegistryOk(s) && PhaseOk(s) && run in s.pcs && HoldsToken(s.pcs[run])
    ensures var r := ReturnToken(s, run, lease); var s' := Unbind(r.(inFlightRuns := r.inFlightRuns - {run}), run);
      RegistryOk(s') && PhaseOk(s')
  {
  }

  /** A pickup's record in the log when it arrives and its first steps. */
  lemma ArriveLog(log: multiset<Event>, pcs: map<RunId, Pc>, registry: set<RunId>, run: RunId, r: RunId)
    requires run !in pcs && run !in registry && LogOk(log, pcs, registry, r) && LogOk(log, pcs, registry, run)
    ensures var log1 := log + multiset{Bound(run)};
      && LogOk(log1, pcs[run := Waiting], registry + {run}, r)
      && LogOk(log1 + multiset{Overflowed(run)}, pcs[run := Rejected], registry + {run}, r)
      && LogOk(log1, pcs[run := Finished], registry + {run}, r)
      && LogOk(log1 + multiset{TokenOut(run)} + multiset{Started(run)}, pcs[run := Handling], registry + {run}, r)
  {
  }

  lemma PickupKeepsRest(s: State, run: RunId)
    requires RegistryOk(s) && PhaseOk(s) && AllLogsOk(s) && !s.driverStopped && run !in s.pcs
    ensures var s' := OnPickup(s, run); RegistryOk(s') && PhaseOk(s') && AllLogsOk(s')
  {
    var s' := OnPickup(s, run);
    forall r ensures LogOk(s'.log, s'.pcs, s'.registry, r) {
      assert LogOk(s.log, s.pcs, s.registry, r) && LogOk(s.log, s.pcs, s.registry, run);
      ArriveLog(s.log, s.pcs, s.registry, run, r);
      if s.paused {
        var b := s.(registry := s.registry + {run}, log := s.log + multiset{Bound(run)}, pcs := s.pcs[run := Finished]);
        UnbindLog(b, run, r);
      }
    }
  }

  lemma MintKeepsTokens(s: State, run: RunId)
    requires Ok(s.limiter) && TokensOk(s) && run !in s.pcs && HasHeadroom(s.limiter, s.role)
    ensures var l := Mint(s.limiter, Waiter(s.role, run));
      Ok(l) && TokensOk(s.(limiter := l, pcs := s.pcs[run := Handling],
                           inFlightRuns := s.inFlightRuns[run := s.limiter.nextLease]))
  {
    HeldBelowNext(s.limiter);
    MintKeepsOk(s.limiter, Waiter(s.role, run));
    NewHolder(s.limiter.held, s.role, s.pcs, s.inFlightRuns, run, s.limiter.nextLease);
  }

  lemma NewHolder(held: map<nat, Waiter>, role: string, pcs: map<RunId, Pc>, inFlight: map<RunId, nat>, run: RunId,
      no: nat)
    requires HoldersOk(held, role, pcs) && RunsOk(held, pcs, inFlight) && run !in pcs && no !in held
    ensures HoldersOk(held[no := Waiter(role, run)], role, pcs[run := Handling])
    ensures RunsOk(held[no := Waiter(role, run)], pcs[run := Handling], inFlight[run := no])
  {
    var held', pcs' := held[no := Waiter(role, run)], pcs[run := Handling];
    forall r | r in pcs' && HoldsToken(pcs'[r]) ensures exists n :: n in held' && held'[n].id == r {
      if r == run {
        assert held'[no].id == run;
      } else {
        var n :| n in held && held[n].id == r;
        assert held'[n].id == r;
      }
    }
  }

  lemma AppendQueue(pending: seq<Waiter>, role: string, pcs: map<RunId, Pc>, run: RunId)
    requires QueueOk(pending, role, pcs) && run !in pcs
    ensures QueueOk(pending + [Waiter(role, run)], role, pcs[run := Waiting])
  {
    var ws := pending + [Waiter(role, run)];
    assert Ids(ws) == Ids(pending) + {run} by {
      assert ws[|pending|].id == run;
      forall id | id in Ids(pending) ensures id in Ids(ws) {
        var k :| 0 <= k < |pending| && pending[k].id == id;
        assert ws[k].id == id;
      }
    }
    forall i, j | 0 <= i < j < |ws| ensures ws[i].id != ws[j].id {
      assert ws[i].id in Ids(pending);
    }
  }

  /** Changing a run that neither waits nor holds a token to another such state leaves the tokens alone. */
  lemma SettleKeepsTokens(s: State, run: RunId, pc: Pc)
    requires TokensOk(s) && !HoldsToken(pc) && pc != Waiting
    requires run in s.pcs ==> !HoldsToken(s.pcs[run]) && s.pcs[run] != Waiting
    ensures TokensOk(s.(pcs := s.pcs[run := pc]))
  {
    SettleQueue(s.limiter.pending, s.role, s.pcs, run, pc);
    SettleHolders(s.limiter.held, s.role, s.pcs, s.inFlightRuns, run, pc);
  }

  lemma SettleQueue(pending: seq<Waiter>, role: string, pcs: map<RunId, Pc>, run: RunId, pc: Pc)
    requires QueueOk(pending, role, pcs) && pc != Waiting && (run in pcs ==> pcs[run] != Waiting)
    ensures QueueOk(pending, role, pcs[run := pc])
  {
  }

  lemma SettleHolders(held: map<nat, Waiter>, role: string, pcs: map<RunId, Pc>, inFlight: map<RunId, nat>, run: RunId,
      pc: Pc)
    requires HoldersOk(held, role, pcs) && RunsOk(held, pcs, inFlight)
    requires !HoldsToken(pc) && (run in pcs ==> !HoldsToken(pcs[run]))
    ensures HoldersOk(held, role, pcs[run := pc]) && RunsOk(held, pcs[run := pc], inFlight)
  {
  }

  lemma PickupKeepsTokens(s: State, run: RunId)
    requires Ok(s.limiter) && TokensOk(s) && run !in s.pcs
    ensures Ok(OnPickup(s, run).limiter) && TokensOk(OnPickup(s, run))
  {
    if s.paused {
      SettleKeepsTokens(s, run, Finished);
    } else if HasHeadroom(s.limiter, s.role) {
      MintKeepsTokens(s, run);
    } else if |s.limiter.pending| < s.limiter.queueCapacity {
      ParkKeepsOk(s.limiter, Waiter(s.role, run));
      AppendQueue(s.limiter.pending, s.role, s.pcs, run);
      SettleHolders(s.limiter.held, s.role, s.pcs, s.inFlightRuns, run, Waiting);
    } else {
      SettleKeepsTokens(s, run, Rejected);
    }
  }

  lemma PickupKeepsInv(s: State, run: RunId)
    requires Inv(s) && !s.driverStopped && run !in s.pcs
    ensures Inv(OnPickup(s, run))
  {
    PickupKeepsTokens(s, run);
    PickupKeepsRest(s, run);
  }

  lemma SpawnKeepsTokens(s: State, run: RunId, lease: nat)
    requires TokensOk(s) && run in s.pcs && s.pcs[run] == Resumed && lease in s.limiter.held &&
      s.limiter.held[lease].id == run
    ensures TokensOk(Spawn(s, run, lease))
  {
    SettleQueue(s.limiter.pending, s.role, s.pcs, run, Handling);
  }

  lemma SpawnKeepsLogs(s: State, run: RunId, lease: nat)
    requires AllLogsOk(s) && run in s.pcs && s.pcs[run] == Resumed
    ensures AllLogsOk(Spawn(s, run, lease))
  {
    var s' := Spawn(s, run, lease);
    forall r ensures LogOk(s'.log, s'.pcs, s'.registry, r) {
      assert LogOk(s.log, s.pcs, s.registry, r);
    }
  }

  lemma NotInFlight(s: State, run: RunId, lease: nat)
    requires RunsOk(s.limiter.held, s.pcs, s.inFlightRuns) && run in s.pcs && s.pcs[run] == Resumed
    ensures var r := ReturnToken(s, run, lease); r.(inFlightRuns := r.inFlightRuns - {run}) == r
  {
    assert s.inFlightRuns - {run} == s.inFlightRuns;
  }

  lemma SpawnKeepsRest(s: State, run: RunId, lease: nat)
    requires RegistryOk(s) && PhaseOk(s) && !s.paused && run in s.pcs && s.pcs[run] == Resumed
    ensures RegistryOk(Spawn(s, run, lease)) && PhaseOk(Spawn(s, run, lease))
  {
  }

  lemma ResumeKeepsInv(s: State, run: RunId, lease: nat)
    requires Inv(s) && run in s.pcs && s.pcs[run] == Resumed && lease in s.limiter.held &&
      s.limiter.held[lease].id == run
    ensures Inv(AfterAcquire(s, run, lease))
  {
    if s.paused {
      NotInFlight(s, run, lease);
      ReturnKeepsInv(s, run, lease);
    } else {
      SpawnKeepsTokens(s, run, lease);
      SpawnKeepsLogs(s, run, lease);
      SpawnKeepsRest(s, run, lease);
    }
  }

  lemma GiveUpKeepsLogs(s: State, run: RunId)
    requires AllLogsOk(s) && run in s.pcs && s.pcs[run] == Rejected
    ensures AllLogsOk(s.(pcs := s.pcs[run := Finished]))
  {
    var f := s.(pcs := s.pcs[run := Finished]);
    forall r ensures LogOk(f.log, f.pcs, f.registry, r) {
      assert LogOk(s.log, s.pcs, s.registry, r);
    }
  }

  lemma GiveUpKeepsRest(s: State, run: RunId)
    requires RegistryOk(s) && PhaseOk(s) && run in s.pcs && s.pcs[run] == Rejected
    ensures var s' := Unbind(s.(pcs := s.pcs[run := Finished]), run); RegistryOk(s') && PhaseOk(s')
  {
  }

  lemma GiveUpKeepsInv(s: State, run: RunId)
    requires Inv(s) && run in s.pcs && s.pcs[run] == Rejected
    ensures Inv(Unbind(s.(pcs := s.pcs[run := Finished]), run))
  {
    SettleKeepsTokens(s, run, Finished);
    GiveUpKeepsRest(s, run);
    GiveUpKeepsLogs(s, run);
    UnbindKeepsLogs(s.(pcs := s.pcs[run := Finished]), run);
  }

  lemma ServerStopKeepsInv(s: State)
    requires Inv(s)
    ensures Inv(Next(s, ServerStopped))
  {
    var s' := Next(s, ServerStopped);
    if s.phase == StoppingServer {
      var gone := set run | run in s.registry :: Unbound(run);
      forall r ensures LogOk(s'.log, s'.pcs, s'.registry, r) {
        assert LogOk(s.log, s.pcs, s.registry, r);
        assert Unbound(r) in gone <==> r in s.registry;
        assert Bound(r) !in gone && TokenOut(r) !in gone && TokenBack(r) !in gone;
        assert Started(r) !in gone && Overflowed(r) !in gone;
      }
    }
  }

  predicate IsPhaseStep(step: Step) {
    step.Pause? || step.DrainAndStop? || step.DriverStopped? || step.RaceSettled? || step.CancelledRunsDone?
  }

  lemma PhaseStepsKeepPhase(s: State, step: Step)
    requires PhaseOk(s) && IsPhaseStep(step)
    ensures PhaseOk(Next(s, step))
  {
  }

  lemma PhaseStepsKeepRest(s: State, step: Step)
    requires IsPhaseStep(step)
    ensures var s' := Next(s, step);
      && s'.limiter == s.limiter && s'.role == s.role && s'.pcs == s.pcs && s'.log == s.log
      && s'.registry == s.registry && s'.inFlightRuns == s.inFlightRuns && (s'.phase == Stopped <==> s.phase == Stopped)
  {
  }

  lemma SameRestKeepsInv(s: State, s': State)
    requires Inv(s) && PhaseOk(s')
    requires s'.limiter == s.limiter && s'.role == s.role && s'.pcs == s.pcs && s'.log == s.log
    requires s'.registry == s.registry && s'.inFlightRuns == s.inFlightRuns &&
      (s'.phase == Stopped <==> s.phase == Stopped)
    ensures Inv(s')
  {
  }

  lemma PhaseStepsKeepInv(s: State, step: Step)
    requires Inv(s) && IsPhaseStep(step)
    ensures Inv(Next(s, step))
  {
    PhaseStepsKeepPhase(s, step);
    PhaseStepsKeepRest(s, step);
    SameRestKeepsInv(s, Next(s, step));
  }

  lemma PickupStep(s: State, run: RunId)
    requires Inv(s)
    ensures Inv(Next(s, Pickup(run)))
  {
    if !s.driverStopped && run !in s.pcs { PickupKeepsInv(s, run); }
  }

  lemma ResumeStep(s: State, run: RunId, lease: nat)
    requires Inv(s)
    ensures Inv(Next(s, Resume(run, lease)))
  {
    if run in s.pcs && s.pcs[run] == Resumed && lease in s.limiter.held && s.limiter.held[lease].id == run {
      ResumeKeepsInv(s, run, lease);
    }
  }

  lemma GiveUpStep(s: State, run: RunId)
    requires Inv(s)
    ensures Inv(Next(s, GiveUp(run)))
  {
    if run in s.pcs && s.pcs[run] == Rejected { GiveUpKeepsInv(s, run); }
  }

  lemma FinishStep(s: State, run: RunId)
    requires Inv(s)
    ensures Inv(Next(s, Finish(run)))
  {
    if run in s.inFlightRuns { ReturnKeepsInv(s, run, s.inFlightRuns[run]); }
  }

  lemma StepKeepsInv(s: State, step: Step)
    requires Inv(s)
    ensures Inv(Next(s, step))
  {
    match step
    case Pickup(run) => PickupStep(s, run);
    case Resume(run, lease) => ResumeStep(s, run, lease);
    case GiveUp(run) => GiveUpStep(s, run);
    case Finish(run) => FinishStep(s, run);
    case ServerStopped => ServerStopKeepsInv(s);
    case _ => PhaseStepsKeepInv(s, step);
  }

  lemma {:induction false} RunKeepsInv(s: State, steps: seq<Step>)
    requires Initial(s)
    ensures Inv(Run(s, steps))
  {
    if steps == [] {
      forall run ensures LogOk(s.log, s.pcs, s.registry, run) {}
      assert Ids(s.limiter.pending) == {};
    } else {
      RunKeepsInv(s, steps[..|steps| - 1]);
      StepKeepsInv(Run(s, steps[..|steps| - 1]), steps[|steps| - 1]);
    }
  }

  // ----- what holds in every run of the daemon ------------------------------

  lemma {:induction false} InjectionBound(m: map<RunId, nat>, held: map<nat, Waiter>)
    requires forall run :: run in m ==> m[run] in held && held[m[run]].id == run
    ensures |m| <= |held|
    decreases |m|
  {
    if m != map[] {
      var run :| run in m;
      var rest, fewer := m - {run}, held - {m[run]};
      assert rest.Keys == m.Keys - {run} && fewer.Keys == held.Keys - {m[run]};
      InjectionBound(rest, fewer);
    }
  }

  /** Runs in flight never exceed the tokens that are out, nor these the caps; the queue stays bounded. */
  lemma WithinCapsAlways(s: State, steps: seq<Step>)
    requires Initial(s)
    ensures var r := Run(s, steps);
      && |r.inFlightRuns| <= r.limiter.inFlight <= s.limiter.globalCap
      && r.limiter.inFlight <= RoleCap(s.limiter, s.role)
      && |r.limiter.pending| <= s.limiter.queueCapacity
  {
    var r := Run(s, steps);
    RunKeepsInv(s, steps);
    CapsNeverChange(s, steps);
    InjectionBound(r.inFlightRuns, r.limiter.held);
    AllHeldByRole(r.limiter, r.role);
  }

  lemma AllHeldByRole(l: Limiter, role: string)
    requires Ok(l) && forall n :: n in l.held ==> l.held[n].role == role
    ensures l.inFlight == RoleCount(l, role) <= RoleCap(l, role)
  {
    assert HeldBy(l, role) == l.held.Keys;
    assert RoleCount(l, role) == |HeldBy(l, role)| && RoleCount(l, role) <= RoleCap(l, role);
  }

  predicate SameCaps(l: Limiter, l': Limiter) {
    l'.globalCap == l.globalCap && l'.perRoleCap == l.perRoleCap && l'.queueCapacity == l.queueCapacity
  }

  lemma {:induction false} DrainKeepsCaps(l: Limiter)
    ensures SameCaps(l, Drain(l))
    decreases |l.pending|
  {
    if l.pending != [] && l.inFlight < l.globalCap && FindIndex(l, 0) < |l.pending| {
      DrainKeepsCaps(WakeAt(l, FindIndex(l, 0)));
    }
  }

  lemma ReleaseKeepsCaps(l: Limiter, lease: nat)
    ensures SameCaps(l, Release(l, lease))
  {
    if lease in l.held { DrainKeepsCaps(GiveBack(l, lease)); }
  }

  lemma {:induction false} CapsNeverChange(s: State, steps: seq<Step>)
    ensures SameCaps(s.limiter, Run(s, steps).limiter) && Run(s, steps).role == s.role
  {
    if steps != [] {
      CapsNeverChange(s, steps[..|steps| - 1]);
      StepKeepsCaps(Run(s, steps[..|steps| - 1]), steps[|steps| - 1]);
    }
  }

  lemma PickupKeepsCaps(s: State, run: RunId)
    ensures SameCaps(s.limiter, OnPickup(s, run).limiter) && OnPickup(s, run).role == s.role
  {
  }

  lemma ReturnKeepsCaps(s: State, run: RunId, lease: nat)
    ensures SameCaps(s.limiter, ReturnToken(s, run, lease).limiter) && ReturnToken(s, run, lease).role == s.role
  {
    ReleaseKeepsCaps(s.limiter, lease);
  }

  lemma StepKeepsCaps(s: State, step: Step)
    ensures SameCaps(s.limiter, Next(s, step).limiter) && Next(s, step).role == s.role
  {
    match step
    case Pickup(run) => PickupKeepsCaps(s, run);
    case Resume(run, lease) => ReturnKeepsCaps(s, run, lease);
    case Finish(run) => if run in s.inFlightRuns { ReturnKeepsCaps(s, run, s.inFlightRuns[run]); }
    case _ =>
  }

  /**
    Every pickup is bound once; its registry entry and its token, if it got
    one, are given back at most once, and exactly once by the time it has
    finished.
   */
  lemma EveryPickupSettlesOnce(s: State, steps: seq<Step>, run: RunId)
    requires Initial(s)
    ensures var r := Run(s, steps); var log := r.log;
      && log[Bound(run)] == (if run in r.pcs then 1 else 0)
      && log[TokenBack(run)] <= log[TokenOut(run)] <= 1 && log[Unbound(run)] <= log[Bound(run)]
      && log[Started(run)] <= log[TokenOut(run)]
      && (run in r.pcs && r.pcs[run] == Finished ==>
        log[TokenBack(run)] == log[TokenOut(run)] && log[Unbound(run)] == 1)
      && (run in r.pcs && r.pcs[run] != Finished ==> log[TokenBack(run)] == 0)
  {
    RunKeepsInv(s, steps);
    var r := Run(s, steps);
    assert LogOk(r.log, r.pcs, r.registry, run);
  }

  /** Once no activity can take a step, nothing is left behind: no token, no waiter, no registry entry. */
  lemma QuietMeansEmpty(s: State, steps: seq<Step>)
    requires Initial(s)
    requires Quiet(Run(s, steps).pcs)
    ensures var r := Run(s, steps);
      && r.limiter.held == map[] && r.limiter.inFlight == 0 && r.limiter.pending == []
      && r.registry == {} && r.inFlightRuns == map[]
      && forall run :: run in r.pcs ==> r.pcs[run] == Finished
  {
    RunKeepsInv(s, steps);
    var r := Run(s, steps);
    QuietTokens(r.limiter, r.role, r.pcs);
    assert Ids(r.limiter.pending) == {};
    assert r.inFlightRuns.Keys == {};
  }

  predicate Quiet(pcs: map<RunId, Pc>) {
    forall run :: run in pcs ==> pcs[run] == Waiting || pcs[run] == Finished
  }

  lemma QuietTokens(l: Limiter, role: string, pcs: map<RunId, Pc>)
    requires Ok(l) && QueueOk(l.pending, role, pcs) && HoldersOk(l.held, role, pcs) && Quiet(pcs)
    ensures l.held == map[] && l.inFlight == 0 && l.pending == []
  {
    assert forall n :: n in l.held ==> l.held[n].id in pcs && HoldsToken(pcs[l.held[n].id]);
    assert l.held.Keys == {};
    AllHeldByRole(l, role);
    assert l.pending != [] ==> l.pending[0].role == role && !HasHeadroom(l, role);
  }

  // ----- a daemon that is not paused does its work ---------------------------

  /**
    A resumed pickup holds a token, and the code after its await starts its
    handler with that token unless the daemon has been paused.
   */
  lemma ResumedStarts(s: State, steps: seq<Step>, run: RunId) returns (lease: nat)
    requires Initial(s)
    requires var r := Run(s, steps); !r.paused && run in r.pcs && r.pcs[run] == Resumed
    ensures var r := Run(s, steps); var r' := Next(r, Resume(run, lease));
      && lease in r.limiter.held && r.limiter.held[lease].id == run
      && r'.inFlightRuns == r.inFlightRuns[run := lease] && r'.pcs == r.pcs[run := Handling]
      && r'.limiter == r.limiter && run in r'.registry
      && r'.log == r.log + multiset{Started(run)} && r'.log[Started(run)] == 1
  {
    RunKeepsInv(s, steps);
    var r := Run(s, steps);
    assert LogOk(r.log, r.pcs, r.registry, run) && HoldsToken(r.pcs[run]);
    lease :| lease in r.limiter.held && r.limiter.held[lease].id == run;
    assert r.phase != Stopped;
  }

  /** Whether a token is free for the daemon's role: fewer are out than either cap allows. */
  ghost predicate TokenFree(s: State) {
    && |s.limiter.held| < s.limiter.globalCap
    && (s.role in s.limiter.perRoleCap ==> |s.limiter.held| < s.limiter.perRoleCap[s.role])
  }

  lemma TokenFreeIff(s: State)
    requires Inv(s)
    ensures HasHeadroom(s.limiter, s.role) <==> TokenFree(s)
  {
    AllHeldByRole(s.limiter, s.role);
  }

  /** Where a new pickup goes while the daemon is not paused: to a handler, to the end of the queue, or back. */
  lemma PickupGoes(s: State, steps: seq<Step>, run: RunId)
    requires Initial(s)
    requires var r := Run(s, steps); !r.paused && !r.driverStopped && run !in r.pcs
    ensures var r := Run(s, steps); var r' := Next(r, Pickup(run));
      && run in r'.pcs && run in r'.registry
      && (r'.pcs[run] == Handling <==> TokenFree(r))
      && (r'.pcs[run] == Waiting <==> !TokenFree(r) && |r.limiter.pending| < r.limiter.queueCapacity)
      && (r'.pcs[run] == Rejected <==> !TokenFree(r) && |r.limiter.pending| >= r.limiter.queueCapacity)
      && (r'.pcs[run] == Waiting ==> r'.limiter.pending == r.limiter.pending + [Waiter(r.role, run)])
  {
    RunKeepsInv(s, steps);
    TokenFreeIff(Run(s, steps));
  }

  /** With a token free a new pickup is started at once, with the next lease. */
  lemma PickupStarts(s: State, steps: seq<Step>, run: RunId)
    requires Initial(s)
    requires var r := Run(s, steps); !r.paused && !r.driverStopped && run !in r.pcs && TokenFree(r)
    ensures var r := Run(s, steps); var r' := Next(r, Pickup(run));
      && r'.inFlightRuns == r.inFlightRuns[run := r.limiter.nextLease]
      && r'.limiter.held == r.limiter.held[r.limiter.nextLease := Waiter(r.role, run)]
      && r'.limiter.pending == r.limiter.pending && r'.log[Started(run)] == 1
  {
    RunKeepsInv(s, steps);
    var r := Run(s, steps);
    TokenFreeIff(r);
    assert LogOk(r.log, r.pcs, r.registry, run);
  }

  /** What became of a finished pickup: its handler was started once, or the queue was full when it came. */
  ghost predicate WasServed(log: multiset<Event>, run: RunId) {
    || (log[Started(run)] == 1 && log[Overflowed(run)] == 0)
    || (log[Started(run)] == 0 && log[Overflowed(run)] == 1)
  }

  ghost predicate AllServed(s: State) {
    !s.paused ==> forall run :: run in s.pcs && s.pcs[run] == Finished ==> WasServed(s.log, run)
  }

  lemma FinishServes(s: State, q: RunId, run: RunId)
    requires Inv(s) && AllServed(s) && !s.paused && q in s.inFlightRuns
    requires var s' := Next(s, Finish(q)); run in s'.pcs && s'.pcs[run] == Finished
    ensures WasServed(Next(s, Finish(q)).log, run)
  {
    assert LogOk(s.log, s.pcs, s.registry, run);
    NewTokensCount(s.pcs[q := Finished], Release(s.limiter, s.inFlightRuns[q]), run);
    ReturnServes(s, q, s.inFlightRuns[q], run);
  }

  lemma ReturnServes(s: State, q: RunId, lease: nat, run: RunId)
    ensures var r := ReturnToken(s, q, lease);
      r.log[Started(run)] == s.log[Started(run)] && r.log[Overflowed(run)] == s.log[Overflowed(run)]
  {
    NewTokensCount(s.pcs[q := Finished], Release(s.limiter, lease), run);
  }

  lemma GiveUpServes(s: State, q: RunId, run: RunId)
    requires Inv(s) && AllServed(s) && !s.paused && q in s.pcs && s.pcs[q] == Rejected
    requires var s' := Next(s, GiveUp(q)); run in s'.pcs && s'.pcs[run] == Finished
    ensures WasServed(Next(s, GiveUp(q)).log, run)
  {
    assert LogOk(s.log, s.pcs, s.registry, run);
  }

  /** A new pickup is not finished at once, and is the only run whose place and counts change. */
  lemma PickupTouches(s: State, q: RunId, run: RunId)
    requires !s.paused
    ensures var s' := OnPickup(s, q);
      && q in s'.pcs && s'.pcs[q] != Finished
      && (run != q ==> (run in s'.pcs <==> run in s.pcs) && (run in s.pcs ==> s'.pcs[run] == s.pcs[run]))
      && (run != q ==> s'.log[Started(run)] == s.log[Started(run)] && s'.log[Overflowed(run)] == s.log[Overflowed(run)])
  {
  }

  lemma PickupServes(s: State, q: RunId, run: RunId)
    requires AllServed(s) && !s.paused
    requires var s' := Next(s, Pickup(q)); run in s'.pcs && s'.pcs[run] == Finished
    ensures WasServed(Next(s, Pickup(q)).log, run)
  {
    PickupTouches(s, q, run);
  }

  lemma ResumeServes(s: State, q: RunId, lease: nat, run: RunId)
    requires AllServed(s) && !s.paused
    requires var s' := Next(s, Resume(q, lease)); run in s'.pcs && s'.pcs[run] == Finished
    ensures WasServed(Next(s, Resume(q, lease)).log, run)
  {
  }

  lemma StepServes(s: State, step: Step, run: RunId)
    requires Inv(s) && AllServed(s) && !Next(s, step).paused && !s.paused
    requires var s' := Next(s, step); run in s'.pcs && s'.pcs[run] == Finished
    ensures WasServed(Next(s, step).log, run)
  {
    match step
    case Pickup(q) => PickupServes(s, q, run);
    case Resume(q, lease) => ResumeServes(s, q, lease, run);
    case GiveUp(q) => if q in s.pcs && s.pcs[q] == Rejected { GiveUpServes(s, q, run); }
    case Finish(q) => if q in s.inFlightRuns { FinishServes(s, q, run); }
    case _ =>
  }

  lemma StaysPaused(s: State, step: Step)
    requires s.paused
    ensures Next(s, step).paused
  {
  }

  /** While a daemon has not been paused, each finished pickup was handled exactly once or met a full queue. */
  lemma {:induction false} FinishedWasServed(s: State, steps: seq<Step>)
    requires Initial(s)
    ensures AllServed(Run(s, steps))
  {
    if steps != [] {
      var front, last := Run(s, steps[..|steps| - 1]), steps[|steps| - 1];
      FinishedWasServed(s, steps[..|steps| - 1]);
      RunKeepsInv(s, steps[..|steps| - 1]);
      if !Next(front, last).paused {
        if front.paused { StaysPaused(front, last); }
        forall run | run in Next(front, last).pcs && Next(front, last).pcs[run] == Finished
          ensures WasServed(Next(front, last).log, run)
        {
          StepServes(front, last, run);
        }
      }
    }
  }

  /** When a handler ends, the pickup that has waited longest is resumed. */
  lemma FinishWakesFirst(s: State, steps: seq<Step>, run: RunId)
    requires Initial(s)
    requires var r := Run(s, steps); run in r.inFlightRuns && r.limiter.pending != []
    ensures var r := Run(s, steps); var first := r.limiter.pending[0].id; var r' := Next(r, Finish(run));
      first in r'.pcs && r'.pcs[first] == Resumed
  {
    RunKeepsInv(s, steps);
    var r := Run(s, steps);
    WakesFirst(r.limiter, r.role, r.inFlightRuns[run]);
    FirstResumes(r, run, r.limiter.pending[0].id);
  }

  lemma FirstResumes(r: State, run: RunId, first: RunId)
    requires QueueOk(r.limiter.pending, r.role, r.pcs) && run in r.inFlightRuns
    requires run in r.pcs && r.pcs[run] == Handling
    requires first in Ids(r.limiter.pending) && first !in Ids(Release(r.limiter, r.inFlightRuns[run]).pending)
    ensures var r' := Next(r, Finish(run)); first in r'.pcs && r'.pcs[first] == Resumed
  {
    assert first in r.pcs && r.pcs[first] == Waiting;
  }

  /** With one role, a returned token goes to the head of the queue. */
  lemma WakesFirst(l: Limiter, role: string, lease: nat)
    requires Ok(l) && DistinctIds(l.pending) && lease in l.held && l.pending != []
    requires (forall n :: n in l.held ==> l.held[n].role == role) && forall w :: w in l.pending ==> w.role == role
    ensures l.pending[0].id in Ids(l.pending) && l.pending[0].id !in Ids(Release(l, lease).pending)
  {
    HeldBelowNext(l);
    AllHeldByRole(l, role);
    var g := GiveBack(l, lease);
    GiveBackFrees(l, role, lease);
    assert FindIndex(g, 0) == 0;
    var w := WakeAt(g, 0);
    RemoveOne(g.pending, 0);
    assert g.pending[0].id !in Ids(w.pending);
    assert Drain(g) == Drain(w);
    DrainConserves(w);
    IdsShrink(w.pending, Drain(w).pending);
  }

  lemma GiveBackFrees(l: Limiter, role: string, lease: nat)
    requires Ok(l) && lease in l.held && l.held[lease].role == role
    ensures HasHeadroom(GiveBack(l, lease), role)
  {
    GiveBackKeepsLedger(l, lease);
    assert RoleCount(l, role) <= RoleCap(l, role) && l.inFlight <= l.globalCap;
    assert RoleCount(l, role) == |HeldBy(l, role)| && lease in HeldBy(l, role);
  }

  /** After `pause` no handler starts, and the runs in flight only shrink. */
  lemma {:induction false} PausedOnlyShrinks(s: State, steps: seq<Step>)
    requires s.paused
    ensures var r := Run(s, steps);
      && r.paused && r.inFlightRuns.Keys <= s.inFlightRuns.Keys
      && forall run :: r.log[Started(run)] == s.log[Started(run)]
  {
    if steps != [] {
      PausedOnlyShrinks(s, steps[..|steps| - 1]);
      PausedStep(Run(s, steps[..|steps| - 1]), steps[|steps| - 1]);
    }
  }

  lemma ReturnStartsNothing(s: State, run: RunId, lease: nat, r: RunId)
    ensures ReturnToken(s, run, lease).log[Started(r)] == s.log[Started(r)]
  {
    NewTokensCount(s.pcs[run := Finished], Release(s.limiter, lease), r);
  }

  lemma PausedPickup(s: State, q: RunId, run: RunId)
    requires s.paused
    ensures Next(s, Pickup(q)).log[Started(run)] == s.log[Started(run)]
  {
  }

  lemma PausedResume(s: State, q: RunId, lease: nat, run: RunId)
    requires s.paused
    ensures Next(s, Resume(q, lease)).log[Started(run)] == s.log[Started(run)]
  {
    ReturnStartsNothing(s, q, lease, run);
  }

  lemma PausedFinish(s: State, q: RunId, run: RunId)
    requires q in s.inFlightRuns
    ensures Next(s, Finish(q)).log[Started(run)] == s.log[Started(run)]
  {
    ReturnStartsNothing(s, q, s.inFlightRuns[q], run);
  }

  lemma PausedStarts(s: State, step: Step, run: RunId)
    requires s.paused
    ensures Next(s, step).log[Started(run)] == s.log[Started(run)]
  {
    match step
    case Pickup(q) => PausedPickup(s, q, run);
    case Resume(q, lease) => PausedResume(s, q, lease, run);
    case Finish(q) => if q in s.inFlightRuns { PausedFinish(s, q, run); }
    case ServerStopped => assert Started(run) !in set q | q in s.registry :: Unbound(q);
    case _ =>
  }

  lemma PausedStep(s: State, step: Step)
    requires s.paused
    ensures var r := Next(s, step);
      && r.paused && r.inFlightRuns.Keys <= s.inFlightRuns.Keys
      && forall run :: r.log[Started(run)] == s.log[Started(run)]
  {
    forall run ensures Next(s, step).log[Started(run)] == s.log[Started(run)] { PausedStarts(s, step, run); }
  }

  /**
    When `drainAndStop` moves past its waits no run is in flight, it never
    un-pauses, and every run still in flight after the deadline has been told
    to abort.
   */
  lemma StoppedMeansDrained(s: State, steps: seq<Step>)
    requires Initial(s)
    ensures var r := Run(s, steps);
      && (r.phase != Serving ==> r.paused)
      && (r.phase.Cancelling? ==> r.inFlightRuns.Keys <= r.aborted)
      && (r.phase == StoppingServer || r.phase == Stopped ==> r.inFlightRuns == map[])
      && (r.phase == Stopped ==> r.registry == {})
  {
    RunKeepsInv(s, steps);
  }

  /** A run is told to abort only when the deadline of a drain has passed. */
  lemma AbortsOnlyAtDeadline(s: State, steps: seq<Step>, step: Step)
    requires Initial(s)
    ensures var r := Run(s, steps); var r' := Next(r, step);
      r'.aborted != r.aborted ==> step == RaceSettled(true) && r.phase.AwaitingRuns? && r'.phase.Cancelling?
  {
    RunKeepsInv(s, steps);
    AbortStep(Run(s, steps), step);
  }

  lemma AbortStep(s: State, step: Step)
    requires PhaseOk(s)
    ensures var s' := Next(s, step);
      s'.aborted != s.aborted ==> step == RaceSettled(true) && s.phase.AwaitingRuns? && s'.phase.Cancelling?
  {
    if step == RaceSettled(false) && s.phase.AwaitingRuns? && s.phase.snapshot !! s.inFlightRuns.Keys {
      assert s.inFlightRuns.Keys == {};
    }
  }

  // ----- a drain can always finish ------------------------------------------

  lemma {:induction false} RunCons(s: State, step: Step, rest: seq<Step>)
    ensures Run(s, [step] + rest) == Run(Next(s, step), rest)
    decreases |rest|
  {
    if rest == [] {
      assert [step] + rest == [] + [step];
      RunThen(s, [], step);
    } else {
      var front, last := rest[..|rest| - 1], rest[|rest| - 1];
      assert [step] + rest == ([step] + front) + [last] && rest == front + [last];
      RunCons(s, step, front);
      RunThen(s, [step] + front, last);
      RunThen(Next(s, step), front, last);
    }
  }

  /** A run in flight can finish, and takes only itself out of the table. */
  lemma FinishShrinks(s: State, run: RunId)
    requires run in s.inFlightRuns
    ensures var s' := Next(s, Finish(run));
      s'.inFlightRuns == s.inFlightRuns - {run} && s'.phase == s.phase
  {
  }

  /** Once aborted, the runs that are left finish one after the other. */
  lemma {:induction false} RunsFinish(s: State) returns (steps: seq<Step>)
    ensures Run(s, steps).inFlightRuns == map[] && Run(s, steps).phase == s.phase
    decreases |s.inFlightRuns|
  {
    if s.inFlightRuns == map[] {
      steps := [];
    } else {
      var run :| run in s.inFlightRuns;
      FinishShrinks(s, run);
      assert s.inFlightRuns.Keys == (s.inFlightRuns - {run}).Keys + {run};
      var rest := RunsFinish(Next(s, Finish(run)));
      RunCons(s, Finish(run), rest);
      steps := [Finish(run)] + rest;
    }
  }

  lemma {:induction false} RunTwice(s: State, first: seq<Step>, second: seq<Step>)
    ensures Run(s, first + second) == Run(Run(s, first), second)
    decreases |second|
  {
    if second == [] {
      assert first + second == first;
    } else {
      var front, last := second[..|second| - 1], second[|second| - 1];
      assert second == front + [last] && first + second == (first + front) + [last];
      RunTwice(s, first, front);
      RunThen(s, first + front, last);
      RunThen(Run(s, first), front, last);
    }
  }

  lemma RunThen(s: State, steps: seq<Step>, step: Step)
    ensures Run(s, steps + [step]) == Next(Run(s, steps), step)
  {
    assert (steps + [step])[..|steps|] == steps;
  }

  /** How many waits of the shutdown are still ahead. */
  function Ahead(phase: Phase): nat {
    match phase
    case Serving => 5
    case StoppingDriver => 4
    case AwaitingRuns(_) => 3
    case Cancelling(_) => 2
    case StoppingServer => 1
    case Stopped => 0
  }

  /** What a phase that waits for no handler is waiting for. */
  function AwaitedStep(phase: Phase): Step {
    if phase.StoppingDriver? then DriverStopped else if phase.AwaitingRuns? then RaceSettled(true) else ServerStopped
  }

  /** Steps that get a shutdown past its next wait. */
  lemma NextWait(s: State) returns (steps: seq<Step>)
    requires s.phase != Serving && s.phase != Stopped
    ensures Ahead(Run(s, steps).phase) < Ahead(s.phase)
  {
    if s.phase.Cancelling? {
      var finish := RunsFinish(s);
      steps := finish + [CancelledRunsDone];
      RunThen(s, finish, CancelledRunsDone);
      LastRunDone(Run(s, finish));
    } else {
      var step := AwaitedStep(s.phase);
      steps := [step];
      OneStep(s, step);
      WaitPassed(s, step);
    }
  }

  lemma WaitPassed(s: State, step: Step)
    requires s.phase.StoppingDriver? || s.phase.AwaitingRuns? || s.phase.StoppingServer?
    requires step == AwaitedStep(s.phase)
    ensures Ahead(Next(s, step).phase) < Ahead(s.phase)
  {
  }

  lemma LastRunDone(s: State)
    requires s.phase.Cancelling? && s.inFlightRuns == map[]
    ensures Next(s, CancelledRunsDone).phase == StoppingServer
  {
    assert s.phase.snapshot !! s.inFlightRuns.Keys;
  }

  lemma OneStep(s: State, step: Step)
    ensures Run(s, [step]) == Next(s, step)
  {
    RunThen(s, [], step);
    assert [] + [step] == [step];
  }

  /** A drain never deadlocks: from every state in which it has begun, steps of the protocol reach its end. */
  lemma {:induction false} DrainCanFinish(s: State) returns (steps: seq<Step>)
    requires s.phase != Serving
    ensures Run(s, steps).phase == Stopped
    decreases Ahead(s.phase)
  {
    if s.phase == Stopped {
      steps := [];
    } else {
      var first := NextWait(s);
      var rest := DrainCanFinish(Run(s, first));
      RunTwice(s, first, rest);
      steps := first + rest;
    }
  }

  // ----- the runtime as the source updates it -------------------------------

  class LinearRuntime {
    const limiter: Semaphore
    const role: string
    var paused: bool
    var phase: Phase
    var driverStopped: bool
    var registry: set<RunId>
    var inFlightRuns: map<RunId, nat>
    var aborted: set<RunId>
    ghost var pcs: map<RunId, Pc>
    ghost var log: multiset<Event>

    constructor (limiter: Semaphore, role: string)
      requires Ok(limiter.Value()) && limiter.pending == [] && limiter.held == map[]
      ensures this.limiter == limiter && this.role == role && Initial(Value())
    {
      this.limiter, this.role := limiter, role;
      paused, phase, driverStopped, registry, inFlightRuns, aborted := false, Serving, false, {}, map[], {};
      pcs, log := map[], multiset{};
    }

    ghost function Value(): State
      reads this, limiter
    {
      State(limiter.Value(), role, paused, phase, driverStopped, registry, inFlightRuns, aborted, pcs, log)
    }

    method ReleaseEntry(run: RunId)
      modifies this`registry, this`log
      ensures Value() == Unbind(old(Value()), run) && registry == old(registry) - {run}
    {
      if run in registry {
        log := log + multiset{Unbound(run)};
        registry := registry - {run};
      }
    }

    method SpawnHandler(run: RunId, lease: nat)
      modifies this`inFlightRuns, this`pcs, this`log
      ensures Value() == Spawn(old(Value()), run, lease)
      ensures inFlightRuns == old(inFlightRuns)[run := lease] && log == old(log) + multiset{Started(run)}
    {
      pcs, log := pcs[run := Handling], log + multiset{Started(run)};
      inFlightRuns := inFlightRuns[run := lease];
    }

    method PickUp(run: RunId)
      requires !driverStopped && run !in pcs
      modifies this, limiter
      ensures Value() == Next(old(Value()), Pickup(run))
      ensures old(paused) ==> registry == old(registry) - {run} && inFlightRuns == old(inFlightRuns)
      ensures !old(paused) ==> registry == old(registry) + {run}
      ensures !old(paused) && HasHeadroom(old(limiter.Value()), role) ==>
                inFlightRuns == old(inFlightRuns)[run := old(limiter.nextLease)]
    {
      registry := registry + {run};
      log := log + multiset{Bound(run)};
      if paused {
        pcs := pcs[run := Finished];
        ReleaseEntry(run);
        return;
      }
      var immediate := limiter.TryAcquire(Waiter(role, run));
      if immediate.Granted? {
        log := log + multiset{TokenOut(run)};
        SpawnHandler(run, immediate.lease);
        return;
      }
      var parked := limiter.Acquire(Waiter(role, run));
      NoteParked(run, parked.Parked?);
    }

    /** Ghost bookkeeping: `run` waits in the queue, or was turned away because it is full. */
    ghost method NoteParked(run: RunId, parked: bool)
      modifies this`pcs, this`log
      ensures pcs == old(pcs)[run := if parked then Waiting else Rejected]
      ensures log == if parked then old(log) else old(log) + multiset{Overflowed(run)}
    {
      pcs := pcs[run := if parked then Waiting else Rejected];
      log := if parked then log else log + multiset{Overflowed(run)};
    }

    /** The code after a parked acquire resolves. */
    method AfterAcquired(run: RunId, lease: nat)
      requires run in pcs && pcs[run] == Resumed && lease in limiter.held && limiter.held[lease].id == run
      modifies this, limiter
      ensures Value() == Next(old(Value()), Resume(run, lease))
      ensures !old(paused) ==>
                && inFlightRuns == old(inFlightRuns)[run := lease] && registry == old(registry)
                && limiter.Value() == old(limiter.Value()) && log == old(log) + multiset{Started(run)}
      ensures old(paused) ==>
                && inFlightRuns == old(inFlightRuns) && registry == old(registry) - {run}
                && limiter.Value() == Release(old(limiter.Value()), lease)
    {
      if paused {
        limiter.ReleaseLease(lease);
        Settle(run);
        ReleaseEntry(run);
        return;
      }
      SpawnHandler(run, lease);
    }

    /** Ghost bookkeeping: `run` gave its token back and whoever left the queue resumes. */
    ghost method Settle(run: RunId)
      modifies this`pcs, this`log
      ensures pcs == Rescheduled(old(pcs)[run := Finished], limiter.pending)
      ensures log == old(log) + multiset{TokenBack(run)} + NewTokens(old(pcs)[run := Finished], limiter.Value())
    {
      var done := pcs[run := Finished];
      pcs, log := Rescheduled(done, limiter.pending), log + multiset{TokenBack(run)} + NewTokens(done, limiter.Value());
    }

    /** The `finally` block of a handler. */
    method FinishHandler(run: RunId)
      requires run in inFlightRuns
      modifies this, limiter
      ensures Value() == Next(old(Value()), Finish(run))
      ensures inFlightRuns == old(inFlightRuns) - {run} && registry == old(registry) - {run}
      ensures limiter.Value() == Release(old(limiter.Value()), old(inFlightRuns)[run])
    {
      limiter.ReleaseLease(inFlightRuns[run]);
      Settle(run);
      inFlightRuns := inFlightRuns - {run};
      ReleaseEntry(run);
    }

    method PauseIntake()
      modifies this`paused
      ensures Value() == Next(old(Value()), Pause) && paused
    {
      if paused { return; }
      paused := true;
    }

    // `drainAndStop`, one method for each stretch between two awaits.

    /** Up to stopping the driver; a second call joins the shutdown in flight. */
    method BeginDrain()
      modifies this`paused, this`phase
      ensures Value() == Next(old(Value()), DrainAndStop)
      ensures old(phase) == Serving ==> paused && phase == StoppingDriver
      ensures old(phase) != Serving ==> paused == old(paused) && phase == old(phase)
    {
      if phase != Serving { return; }
      PauseIntake();
      phase := StoppingDriver;
    }

    /** The driver has stopped: wait for the runs in flight now, if any. */
    method AwaitRuns()
      requires phase == StoppingDriver
      modifies this`driverStopped, this`phase
      ensures Value() == Next(old(Value()), DriverStopped)
      ensures driverStopped && (phase == StoppingServer <==> inFlightRuns == map[])
      ensures inFlightRuns != map[] ==> phase == AwaitingRuns(inFlightRuns.Keys)
    {
      driverStopped := true;
      if inFlightRuns != map[] {
        phase := AwaitingRuns(inFlightRuns.Keys);
      } else {
        phase := StoppingServer;
      }
    }

    /** Those runs are done or the deadline has passed: abort whatever is still in flight. */
    method AbortRest(deadline: bool)
      requires phase.AwaitingRuns? && (deadline || phase.snapshot !! inFlightRuns.Keys)
      modifies this`aborted, this`phase
      ensures Value() == Next(old(Value()), RaceSettled(deadline))
      ensures aborted == old(aborted) + inFlightRuns.Keys
      ensures phase == if inFlightRuns == map[] then StoppingServer else Cancelling(inFlightRuns.Keys)
    {
      if inFlightRuns == map[] {
        phase := StoppingServer;
        return;
      }
      var left := inFlightRuns.Keys;
      while left != {}
        invariant left <= inFlightRuns.Keys && phase == old(phase)
        invariant aborted == old(aborted) + (inFlightRuns.Keys - left)
        decreases left
      {
        var run :| run in left;
        aborted, left := aborted + {run}, left - {run};
      }
      phase := Cancelling(inFlightRuns.Keys);
    }

    /** The aborted runs have finished. */
    method StopServer()
      requires phase.Cancelling? && phase.snapshot !! inFlightRuns.Keys
      modifies this`phase
      ensures Value() == Next(old(Value()), CancelledRunsDone) && phase == StoppingServer
    {
      phase := StoppingServer;
    }

    /** The web server has stopped: drop every registry entry. */
    method ClearRegistry()
      requires phase == StoppingServer
      modifies this`phase, this`registry, this`log
      ensures Value() == Next(old(Value()), ServerStopped) && phase == Stopped && registry == {}
    {
      log := log + multiset(set run | run in registry :: Unbound(run));
      registry := {};
      phase := Stopped;
    }
  }
}
