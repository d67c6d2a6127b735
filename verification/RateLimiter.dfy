/**
  packages/linear/integration/src/rate-limiter.ts: a semaphore with a global
  cap, per-role caps and a bounded queue of waiters.

  A lease is a number; it is in `held` until its first release, which is what
  the `released` flag of the source records.
 */
module RateLimiter {

  datatype Waiter = Waiter(role: string, id: string)

  datatype Limiter = Limiter(
    globalCap: int, perRoleCap: map<string, int>, queueCapacity: int,
    inFlight: int, roleCounts: map<string, int>, pending: seq<Waiter>,
    held: map<nat, Waiter>, nextLease: nat)

  // ----- the operations on a value ------------------------------------------

  function RoleCap(l: Limiter, role: string): int {
    if role in l.perRoleCap then l.perRoleCap[role] else l.globalCap
  }

  function RoleCount(l: Limiter, role: string): int {
    if role in l.roleCounts then l.roleCounts[role] else 0
  }

  predicate HasHeadroom(l: Limiter, role: string) {
    l.inFlight < l.globalCap && RoleCount(l, role) < RoleCap(l, role)
  }

  /** Hands out lease number `l.nextLease`. */
  function Mint(l: Limiter, w: Waiter): Limiter {
    l.(inFlight := l.inFlight + 1,
       roleCounts := l.roleCounts[w.role := RoleCount(l, w.role) + 1],
       held := l.held[l.nextLease := w],
       nextLease := l.nextLease + 1)
  }

  /** The first waiter from `from` on whose role has headroom, or the queue's length. */
  function FindIndex(l: Limiter, from: nat): (i: nat)
    requires from <= |l.pending|
    ensures from <= i <= |l.pending|
    ensures i < |l.pending| ==> HasHeadroom(l, l.pending[i].role)
    ensures forall k :: from <= k < i ==> !HasHeadroom(l, l.pending[k].role)
    decreases |l.pending| - from
  {
    if from == |l.pending| || HasHeadroom(l, l.pending[from].role) then from else FindIndex(l, from + 1)
  }

  function WakeAt(l: Limiter, i: nat): Limiter
    requires i < |l.pending|
  {
    Mint(l.(pending := l.pending[..i] + l.pending[i + 1..]), l.pending[i])
  }

  function Drain(l: Limiter): Limiter
    decreases |l.pending|
  {
    if l.pending == [] || l.inFlight >= l.globalCap then l
    else
      var i := FindIndex(l, 0);
      if i == |l.pending| then l else Drain(WakeAt(l, i))
  }

  /** The counters after a lease comes back, before anybody is woken. */
  function GiveBack(l: Limiter, no: nat): Limiter
    requires no in l.held
  {
    var role := l.held[no].role;
    var next := RoleCount(l, role) - 1;
    l.(inFlight := l.inFlight - 1,
       roleCounts := if next <= 0 then l.roleCounts - {role} else l.roleCounts[role := next],
       held := l.held - {no})
  }

  function Release(l: Limiter, no: nat): Limiter {
    if no in l.held then Drain(GiveBack(l, no)) else l
  }

  // ----- the limiter as the source updates it -------------------------------

  datatype AcquireResult = Granted(lease: nat) | Parked | Overflow

  class Semaphore {
    const globalCap: int
    const perRoleCap: map<string, int>
    const queueCapacity: int
    var inFlight: int
    var roleCounts: map<string, int>
    var pending: seq<Waiter>
    var held: map<nat, Waiter>
    var nextLease: nat

    constructor (globalCap: int, perRoleCap: map<string, int>, queueCapacity: int)
      requires globalCap >= 1 && queueCapacity >= 0 && forall r :: r in perRoleCap ==> perRoleCap[r] >= 1
      ensures Value() == Limiter(globalCap, perRoleCap, queueCapacity, 0, map[], [], map[], 0)
      ensures Ok(Value())
    {
      this.globalCap, this.perRoleCap, this.queueCapacity := globalCap, perRoleCap, queueCapacity;
      inFlight, roleCounts, pending, held, nextLease := 0, map[], [], map[], 0;
      new;
      StartsOk(Value());
    }

    ghost function Value(): Limiter
      reads this
    {
      Limiter(globalCap, perRoleCap, queueCapacity, inFlight, roleCounts, pending, held, nextLease)
    }

    predicate Headroom(role: string)
      reads this
      ensures Headroom(role) <==> HasHeadroom(Value(), role)
    {
      && inFlight < globalCap
      && (if role in roleCounts then roleCounts[role] else 0) < (if role in perRoleCap then perRoleCap[role]
        else globalCap)
    }

    method MintLease(w: Waiter) returns (no: nat)
      modifies this
      ensures Value() == Mint(old(Value()), w) && no == old(nextLease)
    {
      no := nextLease;
      inFlight := inFlight + 1;
      roleCounts := roleCounts[w.role := (if w.role in roleCounts then roleCounts[w.role] else 0) + 1];
      held := held[no := w];
      nextLease := nextLease + 1;
    }

    method TryAcquire(w: Waiter) returns (r: AcquireResult)
      modifies this
      ensures HasHeadroom(old(Value()), w.role) ==> r == Granted(old(nextLease)) && Value() == Mint(old(Value()), w)
      ensures !HasHeadroom(old(Value()), w.role) ==> r == Overflow && Value() == old(Value())
    {
      if !Headroom(w.role) { return Overflow; }
      var no := MintLease(w);
      return Granted(no);
    }

    method Acquire(w: Waiter) returns (r: AcquireResult)
      modifies this
      ensures r.Granted? <==> HasHeadroom(old(Value()), w.role)
      ensures r.Granted? ==> r.lease == old(nextLease) && Value() == Mint(old(Value()), w)
      ensures r.Parked? ==> old(|pending|) < queueCapacity && Value() == old(Value()).(pending := old(pending) + [w])
      ensures r.Overflow? ==> old(|pending|) >= queueCapacity && Value() == old(Value())
    {
      if Headroom(w.role) {
        var no := MintLease(w);
        return Granted(no);
      }
      if |pending| >= queueCapacity { return Overflow; }
      pending := pending + [w];
      return Parked;
    }

    /** Safe to call again: a lease that is no longer held changes nothing. */
    method ReleaseLease(no: nat)
      modifies this
      ensures Value() == Release(old(Value()), no)
      ensures no !in old(held) ==> Value() == old(Value())
    {
      if no !in held { return; }
      var role := held[no].role;
      held := held - {no};
      inFlight := inFlight - 1;
      var next := (if role in roleCounts then roleCounts[role] else 0) - 1;
      if next <= 0 { roleCounts := roleCounts - {role}; } else { roleCounts := roleCounts[role := next]; }
      DrainWaiters();
    }

    /** `pending.findIndex` over the waiters with headroom. */
    method FirstReady() returns (idx: nat)
      ensures idx == FindIndex(Value(), 0)
    {
      idx := 0;
      while idx < |pending| && !Headroom(pending[idx].role)
        invariant idx <= |pending|
        invariant FindIndex(Value(), 0) == FindIndex(Value(), idx)
      {
        idx := idx + 1;
      }
    }

    method DrainWaiters()
      modifies this
      ensures Value() == Drain(old(Value()))
    {
      ghost var final := Drain(Value());
      while |pending| > 0 && inFlight < globalCap
        invariant Drain(Value()) == final
        decreases |pending|
      {
        ghost var at := Value();
        var idx := FirstReady();
        DrainStep(at, idx);
        if idx == |pending| { return; }
        var waiter := pending[idx];
        pending := pending[..idx] + pending[idx + 1..];
        var no := MintLease(waiter);
        assert Value() == WakeAt(at, idx);
      }
    }
  }

  /** One round of a drain, given where its scan stopped. */
  lemma DrainStep(l: Limiter, i: nat)
    requires l.pending != [] && l.inFlight < l.globalCap && i == FindIndex(l, 0)
    ensures Drain(l) == if i == |l.pending| then l else Drain(WakeAt(l, i))
  {
  }

  // ----- what every operation keeps -----------------------------------------

  function HeldBy(l: Limiter, role: string): set<nat> {
    set n | n in l.held && l.held[n].role == role
  }

  /** The counters count the leases that are out. */
  ghost predicate CountsLeases(l: Limiter) {
    && l.inFlight == |l.held|
    && (forall role :: RoleCount(l, role) == |HeldBy(l, role)|)
    && (forall n :: n in l.held ==> n < l.nextLease)
  }

  ghost predicate WithinCaps(l: Limiter) {
    l.inFlight <= l.globalCap && (forall role :: RoleCount(l, role) <= RoleCap(l, role)) &&
      |l.pending| <= l.queueCapacity
  }

  ghost predicate CapsPositive(l: Limiter) {
    l.globalCap >= 1 && forall r :: r in l.perRoleCap ==> l.perRoleCap[r] >= 1
  }

  /** Nobody waits while there is headroom for them: no wake-up is ever lost. */
  ghost predicate NobodyWaitsInVain(l: Limiter) {
    forall i :: 0 <= i < |l.pending| ==> !HasHeadroom(l, l.pending[i].role)
  }

  ghost predicate Ledger(l: Limiter) {
    CountsLeases(l) && WithinCaps(l) && CapsPositive(l)
  }

  ghost predicate Ok(l: Limiter) {
    Ledger(l) && NobodyWaitsInVain(l)
  }

  lemma StartsOk(l: Limiter)
    requires CapsPositive(l) && l.queueCapacity >= 0
    requires l.inFlight == 0 && l.roleCounts == map[] && l.pending == [] && l.held == map[]
    ensures Ok(l)
  {
    forall role ensures HeldBy(l, role) == {} {}
  }

  lemma MintCountsRole(l: Limiter, w: Waiter, role: string)
    requires l.nextLease !in l.held && RoleCount(l, role) == |HeldBy(l, role)|
    ensures RoleCount(Mint(l, w), role) == |HeldBy(Mint(l, w), role)|
  {
    var l' := Mint(l, w);
    if role == w.role {
      assert HeldBy(l', role) == HeldBy(l, role) + {l.nextLease};
    } else {
      assert HeldBy(l', role) == HeldBy(l, role);
    }
  }

  /** Headroom in terms of the leases that are out: fewer than the global cap, and fewer of the role than its cap. */
  lemma HeadroomIff(l: Limiter, role: string)
    requires Ok(l)
    ensures HasHeadroom(l, role) <==>
      && |l.held| < l.globalCap
      && |HeldBy(l, role)| < (if role in l.perRoleCap then l.perRoleCap[role] else l.globalCap)
  {
    assert RoleCount(l, role) == |HeldBy(l, role)|;
  }

  lemma MintKeepsLedger(l: Limiter, w: Waiter)
    requires Ledger(l) && HasHeadroom(l, w.role)
    ensures Ledger(Mint(l, w))
  {
    var l' := Mint(l, w);
    assert |l'.held| == |l.held| + 1 by { assert l'.held.Keys == l.held.Keys + {l.nextLease}; }
    forall role ensures RoleCount(l', role) == |HeldBy(l', role)| && RoleCount(l', role) <= RoleCap(l', role) {
      assert RoleCount(l, role) == |HeldBy(l, role)| && RoleCount(l, role) <= RoleCap(l, role);
      MintCountsRole(l, w, role);
    }
  }

  lemma MintKeepsOk(l: Limiter, w: Waiter)
    requires Ok(l) && HasHeadroom(l, w.role)
    ensures Ok(Mint(l, w))
  {
    MintKeepsLedger(l, w);
  }

  lemma ParkKeepsOk(l: Limiter, w: Waiter)
    requires Ok(l) && !HasHeadroom(l, w.role) && |l.pending| < l.queueCapacity
    ensures Ok(l.(pending := l.pending + [w]))
  {
    var l' := l.(pending := l.pending + [w]);
    forall role ensures RoleCount(l', role) == |HeldBy(l', role)| && RoleCount(l', role) <= RoleCap(l', role) {
      assert HeldBy(l', role) == HeldBy(l, role);
      assert RoleCount(l, role) == |HeldBy(l, role)| && RoleCount(l, role) <= RoleCap(l, role);
    }
    forall i | 0 <= i < |l'.pending| ensures !HasHeadroom(l', l'.pending[i].role) {
      assert i < |l.pending| ==> !HasHeadroom(l, l.pending[i].role);
    }
  }

  lemma GiveBackKeepsLedger(l: Limiter, no: nat)
    requires Ledger(l) && no in l.held
    ensures Ledger(GiveBack(l, no))
  {
    var l', gone := GiveBack(l, no), l.held[no].role;
    assert l'.held.Keys == l.held.Keys - {no};
    forall role ensures RoleCount(l', role) == |HeldBy(l', role)| && RoleCount(l', role) <= RoleCap(l', role) {
      assert RoleCount(l, role) == |HeldBy(l, role)| && RoleCount(l, role) <= RoleCap(l, role);
      assert HeldBy(l', role) == HeldBy(l, role) - {no};
      assert role == gone ==> no in HeldBy(l, role);
      assert role != gone ==> HeldBy(l, role) - {no} == HeldBy(l, role);
    }
  }

  lemma WakeKeepsLedger(l: Limiter, i: nat)
    requires Ledger(l) && i < |l.pending| && HasHeadroom(l, l.pending[i].role)
    ensures Ledger(WakeAt(l, i))
  {
    var fewer := l.(pending := l.pending[..i] + l.pending[i + 1..]);
    forall role ensures RoleCount(fewer, role) == |HeldBy(fewer, role)| &&
      RoleCount(fewer, role) <= RoleCap(fewer, role) {
      assert HeldBy(fewer, role) == HeldBy(l, role);
      assert RoleCount(l, role) == |HeldBy(l, role)| && RoleCount(l, role) <= RoleCap(l, role);
    }
    MintKeepsLedger(fewer, l.pending[i]);
  }

  lemma {:induction false} DrainReachesOk(l: Limiter)
    requires Ledger(l)
    ensures Ok(Drain(l))
    decreases |l.pending|
  {
    if l.pending != [] && l.inFlight < l.globalCap && FindIndex(l, 0) < |l.pending| {
      WakeKeepsLedger(l, FindIndex(l, 0));
      DrainReachesOk(WakeAt(l, FindIndex(l, 0)));
    }
  }

  /** Releasing keeps the caps and leaves nobody waiting who could run. */
  lemma ReleaseKeepsOk(l: Limiter, no: nat)
    requires Ok(l)
    ensures Ok(Release(l, no))
    ensures no !in Release(l, no).held || no >= l.nextLease
  {
    if no in l.held {
      GiveBackKeepsLedger(l, no);
      DrainReachesOk(GiveBack(l, no));
      DrainHands(GiveBack(l, no));
    }
  }

  // ----- whom a drain wakes -------------------------------------------------

  ghost predicate DistinctIds(ws: seq<Waiter>) {
    forall i, j :: 0 <= i < j < |ws| ==> ws[i].id != ws[j].id
  }

  function Ids(ws: seq<Waiter>): set<string> {
    set i | 0 <= i < |ws| :: ws[i].id
  }

  /** The leases that were out stay out, and the new ones are numbered from `l.nextLease` on. */
  ghost predicate HandsOut(l: Limiter, l': Limiter) {
    && l.nextLease <= l'.nextLease
    && (forall n :: n in l.held ==> n in l'.held && l'.held[n] == l.held[n])
    && (forall n :: n in l'.held <==> n in l.held || l.nextLease <= n < l'.nextLease)
  }

  /** Every waiter either got one new lease or still waits; nobody both, nobody lost, nobody added. */
  ghost predicate Conserves(l: Limiter, l': Limiter) {
    && HandsOut(l, l') && DistinctIds(l'.pending)
    && (forall n, m :: l.nextLease <= n < m < l'.nextLease ==> l'.held[n].id != l'.held[m].id)
    && (forall n :: l.nextLease <= n < l'.nextLease ==> l'.held[n] in l.pending && l'.held[n].id !in Ids(l'.pending))
    && (forall w :: w in l.pending ==> w in l'.pending || exists n ::
      l.nextLease <= n < l'.nextLease && l'.held[n] == w)
    && (forall w :: w in l'.pending ==> w in l.pending)
  }

  lemma WakeConserves(l: Limiter, i: nat)
    requires (forall n :: n in l.held ==> n < l.nextLease) && DistinctIds(l.pending) && i < |l.pending|
    ensures Conserves(l, WakeAt(l, i))
  {
    RemoveOne(l.pending, i);
    var l' := WakeAt(l, i);
    assert l'.held[l.nextLease] == l.pending[i];
  }

  lemma HandsOutTrans(a: Limiter, b: Limiter, c: Limiter)
    requires HandsOut(a, b) && HandsOut(b, c)
    ensures HandsOut(a, c)
  {
  }

  lemma ConservesTrans(a: Limiter, b: Limiter, c: Limiter)
    requires (forall n :: n in a.held ==> n < a.nextLease) && Conserves(a, b) && Conserves(b, c)
    ensures Conserves(a, c)
  {
    HandsOutTrans(a, b, c);
    forall n | a.nextLease <= n < c.nextLease ensures c.held[n] in a.pending && c.held[n].id !in Ids(c.pending) {
      if n < b.nextLease {
        assert c.held[n] == b.held[n];
        IdsShrink(b.pending, c.pending);
      }
    }
    forall n, m | a.nextLease <= n < m < c.nextLease ensures c.held[n].id != c.held[m].id {
      if n < b.nextLease <= m {
        assert c.held[n] == b.held[n] && c.held[m] in b.pending;
        IdsContain(b.pending, c.held[m]);
      } else if m < b.nextLease {
        assert c.held[n] == b.held[n] && c.held[m] == b.held[m];
      }
    }
    forall w | w in a.pending ensures w in c.pending || exists n :: a.nextLease <= n < c.nextLease && c.held[n] == w {
      if w !in b.pending {
        var n :| a.nextLease <= n < b.nextLease && b.held[n] == w;
        assert c.held[n] == w;
      } else if w !in c.pending {
        var n :| b.nextLease <= n < c.nextLease && c.held[n] == w;
        assert a.nextLease <= n;
      }
    }
  }

  lemma IdsContain(ws: seq<Waiter>, w: Waiter)
    requires w in ws
    ensures w.id in Ids(ws)
  {
    var k :| 0 <= k < |ws| && ws[k] == w;
  }

  lemma IdsShrink(ws: seq<Waiter>, fewer: seq<Waiter>)
    requires forall w :: w in fewer ==> w in ws
    ensures Ids(fewer) <= Ids(ws)
  {
    forall id | id in Ids(fewer) ensures id in Ids(ws) {
      var k :| 0 <= k < |fewer| && fewer[k].id == id;
      IdsContain(ws, fewer[k]);
    }
  }

  lemma {:induction false} DrainConserves(l: Limiter)
    requires (forall n :: n in l.held ==> n < l.nextLease) && DistinctIds(l.pending)
    ensures Conserves(l, Drain(l))
    decreases |l.pending|
  {
    if l.pending != [] && l.inFlight < l.globalCap && FindIndex(l, 0) < |l.pending| {
      var l1 := WakeAt(l, FindIndex(l, 0));
      WakeConserves(l, FindIndex(l, 0));
      DrainConserves(l1);
      ConservesTrans(l, l1, Drain(l1));
    }
  }

  lemma {:induction false} DrainHands(l: Limiter)
    requires forall n :: n in l.held ==> n < l.nextLease
    ensures HandsOut(l, Drain(l))
    decreases |l.pending|
  {
    if l.pending != [] && l.inFlight < l.globalCap && FindIndex(l, 0) < |l.pending| {
      var l1 := WakeAt(l, FindIndex(l, 0));
      DrainHands(l1);
      HandsOutTrans(l, l1, Drain(l1));
    }
  }

  lemma RemoveOne(ws: seq<Waiter>, i: nat)
    requires DistinctIds(ws) && i < |ws|
    ensures var rest := ws[..i] + ws[i + 1..];
      && DistinctIds(rest) && ws[i].id !in Ids(rest)
      && (forall w :: w in rest ==> w in ws) && (forall w :: w in ws ==> w == ws[i] || w in rest)
  {
    var rest := ws[..i] + ws[i + 1..];
    forall w | w in ws ensures w == ws[i] || w in rest {
      var k :| 0 <= k < |ws| && ws[k] == w;
      assert k < i ==> rest[k] == w;
      assert k > i ==> rest[k - 1] == w;
    }
  }
}
