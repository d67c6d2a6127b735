/**
  packages/watchdog/src/ci-tripwire.ts: per-role counters of red CI outcomes
  that fire after every `threshold` reds of an unbroken streak.
 */
module CiTripwire {

  type Detail = map<string, string>

  datatype Status = Red | Green | Inconclusive

  datatype Outcome = Outcome(role: string, status: Status, runId: string, at: int, detail: Detail)

  datatype Streak = Streak(count: nat, runIds: seq<string>, lastDetail: Detail)

  datatype Event = Event(role: string, runIds: seq<string>, at: int, threshold: nat, detail: Detail)

  datatype Call = Observe(input: Outcome) | Reset(role: string) | ResetAll

  const CLEARED := Streak(0, [], map[])

  // ----- the tripwire as the source updates it ------------------------------

  function StreakOf(m: map<string, Streak>, role: string): Streak {
    if role in m then m[role] else CLEARED
  }

  function Grown(s: Streak, input: Outcome): Streak {
    Streak(s.count + 1, s.runIds + [input.runId], input.detail)
  }

  /** The counters after a call. */
  function After(m: map<string, Streak>, call: Call, threshold: nat): map<string, Streak> {
    match call
    case ResetAll => map[]
    case Reset(role) => m - {role}
    case Observe(input) =>
      if input.status.Inconclusive? then m
      else if input.status.Green? then m[input.role := CLEARED]
      else
        var s := Grown(StreakOf(m, input.role), input);
        m[input.role := if s.count >= threshold then CLEARED else s]
  }

  /** The events a call emits: none or one. */
  function Emits(m: map<string, Streak>, call: Call, threshold: nat): seq<Event> {
    if call.Observe? && call.input.status.Red? then
      var s := Grown(StreakOf(m, call.input.role), call.input);
      if s.count >= threshold then [Event(call.input.role, s.runIds, call.input.at, threshold, s.lastDetail)] else []
    else []
  }

  class Tripwire {
    const threshold: nat
    var perRole: map<string, Streak>
    var emitted: seq<Event>

    constructor (threshold: nat)
      requires threshold > 0
      ensures this.threshold == threshold && perRole == map[] && emitted == []
    {
      this.threshold := threshold;
      perRole, emitted := map[], [];
    }

    method Observe(input: Outcome)
      modifies this`perRole, this`emitted
      ensures perRole == After(old(perRole), Call.Observe(input), threshold)
      ensures emitted == old(emitted) + Emits(old(perRole), Call.Observe(input), threshold)
    {
      if input.status.Inconclusive? { return; }
      if input.role !in perRole { perRole := perRole[input.role := CLEARED]; }
      if input.status.Green? {
        perRole := perRole[input.role := CLEARED];
        return;
      }
      var s := perRole[input.role];
      s := s.(count := s.count + 1);
      s := s.(runIds := s.runIds + [input.runId]);
      s := s.(lastDetail := input.detail);
      perRole := perRole[input.role := s];
      if s.count >= threshold { Fire(input.role, input.at); }
    }

    method Fire(role: string, at: int)
      requires role in perRole
      modifies this`perRole, this`emitted
      ensures perRole == old(perRole)[role := CLEARED]
      ensures emitted == old(emitted) + [Event(role, old(perRole)[role].runIds, at, threshold,
        old(perRole)[role].lastDetail)]
    {
      var event := Event(role, perRole[role].runIds, at, threshold, perRole[role].lastDetail);
      perRole := perRole[role := CLEARED];
      emitted := emitted + [event];
    }

    method ResetRole(role: string)
      modifies this`perRole
      ensures perRole == After(old(perRole), Reset(role), threshold)
    {
      perRole := perRole - {role};
    }

    method ResetEverything()
      modifies this`perRole
      ensures perRole == After(old(perRole), ResetAll, threshold)
    {
      perRole := map[];
    }
  }

  // ----- what a run of calls emits for one role -----------------------------

  /** The events of one role over a run of calls. */
  function Fired(m: map<string, Streak>, calls: seq<Call>, role: string, t: nat): seq<Event>
    decreases |calls|
  {
    if calls == [] then []
    else OfRole(Emits(m, calls[0], t), role) + Fired(After(m, calls[0], t), calls[1..], role, t)
  }

  function OfRole(events: seq<Event>, role: string): seq<Event> {
    if events == [] then []
    else (if events[0].role == role then [events[0]] else []) + OfRole(events[1..], role)
  }

  predicate Concerns(call: Call, role: string) {
    match call
    case Observe(input) => input.role == role && !input.status.Inconclusive?
    case Reset(r) => r == role
    case ResetAll => true
  }

  /** The calls that concern one role: its conclusive observations and its resets. */
  function Only(calls: seq<Call>, role: string): seq<Call> {
    if calls == [] then []
    else (if Concerns(calls[0], role) then [calls[0]] else []) + Only(calls[1..], role)
  }

  /** A role's events depend on nothing but the calls that concern it. */
  lemma {:induction false} RolesAreIndependent(m: map<string, Streak>, n: map<string, Streak>, calls: seq<Call>,
      role: string, t: nat)
    requires StreakOf(m, role) == StreakOf(n, role)
    ensures Fired(m, calls, role, t) == Fired(n, Only(calls, role), role, t)
    decreases |calls|
  {
    if calls != [] {
      var call, rest := calls[0], calls[1..];
      var m' := After(m, call, t);
      if Concerns(call, role) {
        var only := Only(calls, role);
        assert only[0] == call && only[1..] == Only(rest, role);
        RolesAreIndependent(m', After(n, call, t), rest, role, t);
      } else {
        assert OfRole(Emits(m, call, t), role) == [];
        assert Only(calls, role) == Only(rest, role);
        RolesAreIndependent(m', n, rest, role, t);
      }
    }
  }

  // ----- an unbroken streak fires once per block ----------------------------

  /** A call that neither greens nor resets the role. */
  predicate Unbroken(call: Call, role: string) {
    call.Observe? && (call.input.role == role ==> !call.input.status.Green?)
  }

  predicate IsRed(call: Call, role: string) {
    call.Observe? && call.input.role == role && call.input.status.Red?
  }

  /** The red outcomes of a role, oldest first. */
  function Reds(calls: seq<Call>, role: string): seq<Outcome> {
    if calls == [] then []
    else if IsRed(calls[0], role) then [calls[0].input] + Reds(calls[1..], role)
    else Reds(calls[1..], role)
  }

  function RunIds(reds: seq<Outcome>): seq<string> {
    seq(|reds|, i requires 0 <= i < |reds| => reds[i].runId)
  }

  /** The event for a full block of reds. */
  function EventOf(block: seq<Outcome>, role: string, t: nat): Event
    requires block != []
  {
    Event(role, RunIds(block), block[|block| - 1].at, t, block[|block| - 1].detail)
  }

  /** One event per full block of `t` reds; an incomplete last block gives none. */
  function EventsOf(reds: seq<Outcome>, role: string, t: nat): seq<Event>
    requires t > 0
  {
    if |reds| < t then [] else [EventOf(reds[..t], role, t)] + EventsOf(reds[t..], role, t)
  }

  lemma {:induction false} EventsAre(reds: seq<Outcome>, role: string, t: nat)
    requires t > 0
    ensures |EventsOf(reds, role, t)| == |reds| / t
    ensures forall j :: 0 <= j < |EventsOf(reds, role, t)| ==>
      0 <= j * t <= j * t + t <= |reds| && EventsOf(reds, role, t)[j] == EventOf(reds[j * t..j * t + t], role, t)
  {
    if |reds| >= t {
      var rest := reds[t..];
      EventsAre(rest, role, t);
      DivSub(|reds|, t);
      forall j | 0 <= j < |EventsOf(reds, role, t)|
        ensures 0 <= j * t <= j * t + t <= |reds| &&
          EventsOf(reds, role, t)[j] == EventOf(reds[j * t..j * t + t], role, t)
      {
        if j > 0 {
          assert j * t == (j - 1) * t + t;
          assert EventsOf(reds, role, t)[j] == EventsOf(rest, role, t)[j - 1];
          assert rest[(j - 1) * t..(j - 1) * t + t] == reds[j * t..j * t + t];
        }
      }
    } else {
      DivUnique(|reds|, t, 0, |reds|);
    }
  }

  lemma DivUnique(n: nat, t: nat, q: nat, r: nat)
    requires 0 < t && n == q * t + r && r < t
    ensures n / t == q
  {
    var q' := n / t;
    assert q' * t <= n < q' * t + t;
    assert q < q' ==> (q + 1) * t <= q' * t;
    assert q' < q ==> (q' + 1) * t <= q * t;
  }

  lemma DivSub(n: nat, t: nat)
    requires 0 < t <= n
    ensures n / t == (n - t) / t + 1
  {
    var q, r := (n - t) / t, (n - t) % t;
    assert (q + 1) * t == q * t + t;
    DivUnique(n, t, q + 1, r);
  }

  predicate Pending(s: Streak, reds: seq<Outcome>) {
    s == Streak(|reds|, RunIds(reds), if reds == [] then map[] else reds[|reds| - 1].detail)
  }

  /** One more red: the streak grows, or its block is complete and the streak clears. */
  lemma RedStep(m: map<string, Streak>, before: seq<Outcome>, input: Outcome, t: nat)
    requires |before| < t && input.status.Red? && Pending(StreakOf(m, input.role), before)
    ensures var now, m' := before + [input], After(m, Observe(input), t);
      var out := OfRole(Emits(m, Observe(input), t), input.role);
      if |now| < t then Pending(StreakOf(m', input.role), now) && out == []
      else StreakOf(m', input.role) == CLEARED && out == [EventOf(now, input.role, t)]
  {
    var now := before + [input];
    assert RunIds(now) == RunIds(before) + [input.runId];
  }

  /** A call of another role or an inconclusive one changes and emits nothing for the role. */
  lemma QuietStep(m: map<string, Streak>, call: Call, role: string, t: nat)
    requires Unbroken(call, role) && (call.input.role != role || !call.input.status.Red?)
    ensures StreakOf(After(m, call, t), role) == StreakOf(m, role) && OfRole(Emits(m, call, t), role) == []
  {
  }

  lemma FirstBlock(block: seq<Outcome>, rest: seq<Outcome>, role: string, t: nat)
    requires t > 0 && |block| == t
    ensures EventsOf(block + rest, role, t) == [EventOf(block, role, t)] + EventsOf(rest, role, t)
  {
    assert (block + rest)[..t] == block && (block + rest)[t..] == rest;
  }

  /** One call moves the reds still pending and emits what they complete, whatever reds come later. */
  lemma OneCall(m: map<string, Streak>, before: seq<Outcome>, call: Call, role: string, t: nat,
      later: seq<Outcome>) returns (after: seq<Outcome>)
    requires t > 0 && |before| < t && Pending(StreakOf(m, role), before) && Unbroken(call, role)
    ensures |after| < t && Pending(StreakOf(After(m, call, t), role), after)
    ensures var reds := if IsRed(call, role) then [call.input] + later else later;
      OfRole(Emits(m, call, t), role) + EventsOf(after + later, role, t) == EventsOf(before + reds, role, t)
  {
    if IsRed(call, role) {
      var now := before + [call.input];
      RedStep(m, before, call.input, t);
      assert before + ([call.input] + later) == now + later;
      if |now| < t {
        after := now;
      } else {
        after := [];
        assert RunIds([]) == [] && [] + later == later;
        FirstBlock(now, later, role, t);
      }
    } else {
      QuietStep(m, call, role, t);
      after := before;
    }
  }

  lemma {:induction false} StreakFires(m: map<string, Streak>, before: seq<Outcome>, calls: seq<Call>, role: string,
      t: nat)
    requires t > 0 && |before| < t && Pending(StreakOf(m, role), before)
    requires forall i :: 0 <= i < |calls| ==> Unbroken(calls[i], role)
    ensures Fired(m, calls, role, t) == EventsOf(before + Reds(calls, role), role, t)
    decreases |calls|
  {
    if calls != [] {
      var after := OneCall(m, before, calls[0], role, t, Reds(calls[1..], role));
      StreakFires(After(m, calls[0], t), after, calls[1..], role, t);
    }
  }

  /**
    From a cleared streak, k reds without a green or a reset fire floor(k / t)
    times; the j-th event carries the j-th block of run ids, oldest first.
   */
  lemma FiresOncePerBlock(m: map<string, Streak>, calls: seq<Call>, role: string, t: nat)
    requires t > 0 && StreakOf(m, role) == CLEARED
    requires forall i :: 0 <= i < |calls| ==> Unbroken(calls[i], role)
    ensures var fired, reds := Fired(m, calls, role, t), Reds(calls, role);
      |fired| == |reds| / t &&
      forall j :: 0 <= j < |fired| ==>
        0 <= j * t <= j * t + t <= |reds| && fired[j] == EventOf(reds[j * t..j * t + t], role, t)
  {
    assert RunIds([]) == [];
    StreakFires(m, [], calls, role, t);
    assert [] + Reds(calls, role) == Reds(calls, role);
    EventsAre(Reds(calls, role), role, t);
  }

  // ----- what a role emits, read off the history -----------------------------

  /** A green of the role, or a reset that covers it. */
  predicate Clears(call: Call, role: string) {
    match call
    case Observe(input) => input.role == role && input.status == Green
    case Reset(r) => r == role
    case ResetAll => true
  }

  /** The reds of the role after its last green or reset, oldest first. */
  function Since(calls: seq<Call>, role: string): seq<Outcome> {
    if calls == [] then []
    else
      var front, last := calls[..|calls| - 1], calls[|calls| - 1];
      if Clears(last, role) then []
      else if IsRed(last, role) then Since(front, role) + [last.input]
      else Since(front, role)
  }

  /** The table after a run of calls. */
  function AfterAll(m: map<string, Streak>, calls: seq<Call>, t: nat): map<string, Streak>
    decreases |calls|
  {
    if calls == [] then m else AfterAll(After(m, calls[0], t), calls[1..], t)
  }

  lemma {:induction false} AfterBoth(m: map<string, Streak>, first: seq<Call>, second: seq<Call>, t: nat)
    ensures AfterAll(m, first + second, t) == AfterAll(AfterAll(m, first, t), second, t)
    decreases |first|
  {
    if first == [] {
      assert first + second == second;
    } else {
      assert (first + second)[0] == first[0] && (first + second)[1..] == first[1..] + second;
      AfterBoth(After(m, first[0], t), first[1..], second, t);
    }
  }

  lemma {:induction false} FiredBoth(m: map<string, Streak>, first: seq<Call>, second: seq<Call>, role: string, t: nat)
    ensures Fired(m, first + second, role, t) == Fired(m, first, role, t) +
      Fired(AfterAll(m, first, t), second, role, t)
    decreases |first|
  {
    if first == [] {
      assert first + second == second;
    } else {
      assert (first + second)[0] == first[0] && (first + second)[1..] == first[1..] + second;
      FiredBoth(After(m, first[0], t), first[1..], second, role, t);
    }
  }

  lemma OneAfter(m: map<string, Streak>, call: Call, role: string, t: nat)
    ensures AfterAll(m, [call], t) == After(m, call, t)
    ensures Fired(m, [call], role, t) == OfRole(Emits(m, call, t), role)
  {
    assert [call][1..] == [];
    assert Fired(After(m, call, t), [], role, t) == [];
  }

  lemma AfterThen(m: map<string, Streak>, calls: seq<Call>, call: Call, t: nat)
    ensures AfterAll(m, calls + [call], t) == After(AfterAll(m, calls, t), call, t)
  {
    AfterBoth(m, calls, [call], t);
    OneAfter(AfterAll(m, calls, t), call, "", t);
  }

  lemma FiredThen(m: map<string, Streak>, calls: seq<Call>, call: Call, role: string, t: nat)
    ensures Fired(m, calls + [call], role, t) ==
      Fired(m, calls, role, t) + OfRole(Emits(AfterAll(m, calls, t), call, t), role)
  {
    FiredBoth(m, calls, [call], role, t);
    OneAfter(AfterAll(m, calls, t), call, role, t);
  }

  /** A green or a reset of the role leaves it as in the empty table. */
  lemma ClearStep(m: map<string, Streak>, call: Call, role: string, t: nat)
    requires Clears(call, role)
    ensures StreakOf(After(m, call, t), role) == StreakOf(map[], role) && OfRole(Emits(m, call, t), role) == []
  {
  }

  lemma ClearedAt(m: map<string, Streak>, before: seq<Call>, call: Call, role: string, t: nat)
    requires Clears(call, role)
    ensures StreakOf(AfterAll(m, before + [call], t), role) == StreakOf(map[], role)
    ensures Fired(m, before + [call], role, t) == Fired(m, before, role, t)
  {
    FiredThen(m, before, call, role, t);
    AfterThen(m, before, call, t);
    ClearStep(AfterAll(m, before, t), call, role, t);
  }

  /** After a green or a reset of a role, the role emits what it emits from the empty table. */
  lemma ClearStartsOver(m: map<string, Streak>, before: seq<Call>, call: Call, later: seq<Call>, role: string, t: nat)
    requires Clears(call, role)
    ensures Fired(m, (before + [call]) + later, role, t) == Fired(m, before, role, t) + Fired(map[], later, role, t)
  {
    ClearedAt(m, before, call, role, t);
    StartsOver(m, before + [call], later, role, t);
  }

  lemma StartsOver(m: map<string, Streak>, upTo: seq<Call>, later: seq<Call>, role: string, t: nat)
    requires StreakOf(AfterAll(m, upTo, t), role) == StreakOf(map[], role)
    ensures Fired(m, upTo + later, role, t) == Fired(m, upTo, role, t) + Fired(map[], later, role, t)
  {
    FiredBoth(m, upTo, later, role, t);
    SameStreakSameEvents(AfterAll(m, upTo, t), map[], later, role, t);
  }

  lemma SameStreakSameEvents(m: map<string, Streak>, n: map<string, Streak>, calls: seq<Call>, role: string, t: nat)
    requires StreakOf(m, role) == StreakOf(n, role)
    ensures Fired(m, calls, role, t) == Fired(n, calls, role, t)
  {
    RolesAreIndependent(m, n, calls, role, t);
    RolesAreIndependent(n, n, calls, role, t);
  }

  lemma ModStep(n: nat, t: nat)
    requires t > 0
    ensures (n + 1) % t == if n % t + 1 == t then 0 else n % t + 1
  {
    DivModStep(n, t, n / t, n % t);
  }

  lemma DivModStep(n: nat, t: nat, q: nat, r: nat)
    requires t > 0 && n == q * t + r && r < t
    ensures (n + 1) % t == if r + 1 == t then 0 else r + 1
  {
    if r + 1 == t {
      assert n + 1 == (q + 1) * t + 0;
      ModUnique(n + 1, t, q + 1, 0);
    } else {
      ModUnique(n + 1, t, q, r + 1);
    }
  }

  lemma ModUnique(n: nat, t: nat, q: nat, r: nat)
    requires 0 < t && n == q * t + r && r < t
    ensures n % t == r
  {
    DivUnique(n, t, q, r);
    assert n == (n / t) * t + n % t;
  }

  /** The reds that no event has reported yet. */
  function Unreported(reds: seq<Outcome>, t: nat): seq<Outcome>
    requires t > 0
  {
    reds[|reds| - |reds| % t..]
  }

  lemma SinceThen(calls: seq<Call>, call: Call, role: string)
    ensures Since(calls + [call], role) ==
      if Clears(call, role) then [] else if IsRed(call, role) then Since(calls, role) + [call.input]
        else Since(calls, role)
  {
    assert (calls + [call])[..|calls|] == calls;
  }

  ghost predicate IsPending(m: map<string, Streak>, reds: seq<Outcome>, role: string, t: nat)
    requires t > 0
  {
    Pending(StreakOf(m, role), Unreported(reds, t))
  }

  /** The table after the calls holds, for the role, the reds that no event has reported. */
  ghost predicate TableHolds(calls: seq<Call>, role: string, t: nat)
    requires t > 0
  {
    IsPending(AfterAll(map[], calls, t), Since(calls, role), role, t)
  }

  lemma {:induction false} TableAlwaysHolds(calls: seq<Call>, role: string, t: nat)
    requires t > 0
    ensures TableHolds(calls, role, t)
  {
    if calls == [] {
      HoldsAtFirst(role, t);
    } else {
      var front, last := calls[..|calls| - 1], calls[|calls| - 1];
      assert calls == front + [last];
      TableAlwaysHolds(front, role, t);
      HoldsThen(front, last, role, t);
    }
  }

  lemma HoldsAtFirst(role: string, t: nat)
    requires t > 0
    ensures TableHolds([], role, t)
  {
    assert RunIds([]) == [];
  }

  lemma HoldsThen(calls: seq<Call>, call: Call, role: string, t: nat)
    requires t > 0 && TableHolds(calls, role, t)
    ensures TableHolds(calls + [call], role, t)
  {
    AfterThen(map[], calls, call, t);
    SinceThen(calls, call, role);
    PendingStep(AfterAll(map[], calls, t), Since(calls, role), call, role, t);
  }

  lemma PendingStep(m: map<string, Streak>, reds: seq<Outcome>, call: Call, role: string, t: nat)
    requires t > 0 && IsPending(m, reds, role, t)
    ensures IsPending(After(m, call, t),
      if Clears(call, role) then [] else if IsRed(call, role) then reds + [call.input] else reds, role, t)
  {
    if Clears(call, role) {
      ClearStep(m, call, role, t);
      assert RunIds([]) == [];
    } else if IsRed(call, role) {
      PendingRed(m, reds, call.input, t);
    } else {
      QuietCall(m, call, role, t);
    }
  }

  lemma PendingRed(m: map<string, Streak>, reds: seq<Outcome>, red: Outcome, t: nat)
    requires t > 0 && IsPending(m, reds, red.role, t) && red.status.Red?
    ensures IsPending(After(m, Observe(red), t), reds + [red], red.role, t)
  {
    assert RunIds([]) == [];
    RedStep(m, Unreported(reds, t), red, t);
    GrowUnreported(reds, red, t);
  }

  lemma QuietCall(m: map<string, Streak>, call: Call, role: string, t: nat)
    requires !Clears(call, role) && !IsRed(call, role)
    ensures StreakOf(After(m, call, t), role) == StreakOf(m, role) && OfRole(Emits(m, call, t), role) == []
  {
  }

  lemma GrowUnreported(reds: seq<Outcome>, red: Outcome, t: nat)
    requires t > 0
    ensures var now, grown := reds + [red], Unreported(reds, t) + [red];
      && (|now| % t == 0 <==> |grown| == t) && |grown| <= t
      && Unreported(now, t) == (if |grown| == t then [] else grown)
      && (|grown| == t ==> |now| >= t && now[|now| - t..] == grown)
  {
    ModStep(|reds|, t);
  }

  /**
    What a call emits for a role, given the role's reds since its last green or
    reset, this call included: an event exactly when the call is a red of the
    role that completes a block of `t`, with that block's run ids.
   */
  ghost function Reports(reds: seq<Outcome>, call: Call, role: string, t: nat): seq<Event>
    requires t > 0
  {
    if IsRed(call, role) && |reds| >= t && |reds| % t == 0 then
      [Event(role, RunIds(reds[|reds| - t..]), call.input.at, t, call.input.detail)]
    else []
  }

  /** The events of a role, read off the whole history from the empty table on. */
  lemma FiresIff(calls: seq<Call>, call: Call, role: string, t: nat)
    requires t > 0
    ensures Fired(map[], calls + [call], role, t) ==
      Fired(map[], calls, role, t) + Reports(Since(calls + [call], role), call, role, t)
  {
    FiredThen(map[], calls, call, role, t);
    EmittedNow(calls, call, role, t);
  }

  lemma EmittedNow(calls: seq<Call>, call: Call, role: string, t: nat)
    requires t > 0
    ensures OfRole(Emits(AfterAll(map[], calls, t), call, t), role) ==
      Reports(Since(calls + [call], role), call, role, t)
  {
    TableAlwaysHolds(calls, role, t);
    SinceThen(calls, call, role);
    EmitsNow(AfterAll(map[], calls, t), Since(calls, role), Since(calls + [call], role), call, role, t);
  }

  lemma EmitsNow(m: map<string, Streak>, reds: seq<Outcome>, now: seq<Outcome>, call: Call, role: string, t: nat)
    requires t > 0 && IsPending(m, reds, role, t) && (IsRed(call, role) ==> now == reds + [call.input])
    ensures OfRole(Emits(m, call, t), role) == Reports(now, call, role, t)
  {
    if IsRed(call, role) {
      EmitsRed(m, reds, call.input, t);
    } else {
      EmitsNothing(m, call, role, t);
    }
  }

  lemma EmitsNothing(m: map<string, Streak>, call: Call, role: string, t: nat)
    requires !IsRed(call, role)
    ensures OfRole(Emits(m, call, t), role) == []
  {
  }

  lemma EmitsRed(m: map<string, Streak>, reds: seq<Outcome>, red: Outcome, t: nat)
    requires t > 0 && IsPending(m, reds, red.role, t) && red.status.Red?
    ensures var now := reds + [red];
      OfRole(Emits(m, Observe(red), t), red.role) ==
        if |now| >= t && |now| % t == 0 then [Event(red.role, RunIds(now[|now| - t..]), red.at, t, red.detail)] else []
  {
    RedStep(m, Unreported(reds, t), red, t);
    GrowUnreported(reds, red, t);
  }
}
