/** Confirmation futures (waitForPower, internal/scheduler/pipeline.go:528-564)
    on top of the dispatcher. The handler body (lines 534-546) and the timeout
    body (lines 551-558) are each one step. Dispatch first collects the matching
    subscriptions under its lock and calls the handlers afterwards, so a delivery
    is in flight in between. */
module Waiters {
  import opened Options
  import opened Device
  import opened DispatchKeys

  /** The context a waiter's deadline context derives from. */
  datatype Scope = ActionScope(exec: nat) | CloseScope | PingScope

  /** Confirmed(k): settled by handler call number k. TimedOut(k): settled by the
      end of its context, after k handler calls. */
  datatype Outcome = Confirmed(k: nat) | TimedOut(k: nat)

  /** since counts the events dispatched before the registration; stopped says
      that the waiter's own cancel function was called. */
  datatype Waiter = Waiter(
    key: string, power: int, deadline: int, scope: Scope,
    since: nat, stopped: bool, outcome: Option<Outcome>)

  /** Handler call of waiter w for event number e. */
  datatype Delivery = Delivery(w: nat, e: nat)

  datatype Net = Net(
    waiters: seq<Waiter>,
    live: map<nat, string>,      // the dispatcher's subscriptions: waiter -> key
    inflight: set<Delivery>,     // collected, handler not yet called
    dispatched: seq<SensorEvent>,
    delivered: seq<Delivery>)    // handler calls so far

  const QUIET := Net([], map[], {}, [], [])

  function Recipients(live: map<nat, string>, ev: SensorEvent): set<nat> {
    set w | w in live && live[w] in EventKeys(ev)
  }

  function Register(n: Net, target: string, power: int, deadline: int, scope: Scope): Net {
    var key := DispatchKey(target);
    n.(waiters := n.waiters + [Waiter(key, power, deadline, scope, |n.dispatched|, false, None)],
       live := n.live[|n.waiters| := key])
  }

  function Dispatch(n: Net, ev: SensorEvent): Net {
    n.(inflight := n.inflight + set w | w in Recipients(n.live, ev) :: Delivery(w, |n.dispatched|),
       dispatched := n.dispatched + [ev])
  }

  predicate Addressed(n: Net, d: Delivery) {
    && d.w < |n.waiters|
    && n.waiters[d.w].since <= d.e < |n.dispatched|
    && n.waiters[d.w].key in EventKeys(n.dispatched[d.e])
  }

  /** The event reports the power the waiter expects. */
  predicate Hit(n: Net, d: Delivery) {
    Addressed(n, d) && n.dispatched[d.e].power == Some(n.waiters[d.w].power)
  }

  function Settle(n: Net, w: nat, o: Outcome): Net
    requires w < |n.waiters|
  {
    n.(waiters := n.waiters[w := n.waiters[w].(outcome := Some(o))])
  }

  function Deliver(n: Net, d: Delivery): Net {
    var n' := n.(inflight := n.inflight - {d}, delivered := n.delivered + [d]);
    if Hit(n, d) && n.waiters[d.w].outcome.None? then Settle(n', d.w, Confirmed(|n.delivered|)) else n'
  }

  function Expire(n: Net, w: nat): Net
    requires w < |n.waiters|
  {
    Settle(n, w, TimedOut(|n.delivered|)).(live := n.live - {w})
  }

  /** The unsubscribe a confirmed waiter left behind (line 543). */
  function Unsubscribe(n: Net, w: nat): Net { n.(live := n.live - {w}) }

  /** waitCancel. */
  function Stop(n: Net, w: nat): Net
    requires w < |n.waiters|
  {
    n.(waiters := n.waiters[w := n.waiters[w].(stopped := true)])
  }

  ghost predicate NoHitBefore(n: Net, w: nat, k: nat)
    requires k <= |n.delivered|
  {
    forall j :: 0 <= j < k && n.delivered[j].w == w ==> !Hit(n, n.delivered[j])
  }

  /** What the outcome of a waiter means, in terms of events and handler calls. */
  ghost predicate OutcomeOk(n: Net, w: nat)
    requires w < |n.waiters|
  {
    match n.waiters[w].outcome
    case None => NoHitBefore(n, w, |n.delivered|)
    case Some(Confirmed(k)) =>
      k < |n.delivered| && n.delivered[k].w == w && Hit(n, n.delivered[k]) && NoHitBefore(n, w, k)
    case Some(TimedOut(k)) => k <= |n.delivered| && NoHitBefore(n, w, k)
  }

  ghost predicate LiveOk(n: Net) {
    && (forall w :: w in n.live ==> w < |n.waiters| && n.live[w] == n.waiters[w].key)
    && (forall w :: w in n.live ==> n.waiters[w].outcome.None? || n.waiters[w].outcome.value.Confirmed?)
    && (forall w :: 0 <= w < |n.waiters| && n.waiters[w].outcome.None? ==> w in n.live)
  }

  ghost predicate AllAddressed(n: Net) {
    && (forall d :: d in n.inflight ==> Addressed(n, d))
    && (forall k :: 0 <= k < |n.delivered| ==> Addressed(n, n.delivered[k]))
    && (forall w :: 0 <= w < |n.waiters| ==> n.waiters[w].since <= |n.dispatched|)
  }

  /** No event is lost on an unsettled waiter. */
  ghost predicate NothingLost(n: Net) {
    forall d: Delivery :: Addressed(n, d) && n.waiters[d.w].outcome.None? ==>
      d in n.inflight || d in n.delivered
  }

  ghost predicate Outcomes(n: Net) {
    forall w :: 0 <= w < |n.waiters| ==> OutcomeOk(n, w)
  }

  ghost predicate NInv(n: Net) {
    LiveOk(n) && AllAddressed(n) && NothingLost(n) && Outcomes(n)
  }

  /** The later net knows everything the earlier one did: waiters keep what they
      wait for and a settled waiter never changes its outcome. */
  ghost predicate Extends(n: Net, n': Net) {
    && |n.waiters| <= |n'.waiters|
    && (forall w :: 0 <= w < |n.waiters| ==> SameWait(n.waiters[w], n'.waiters[w]))
    && |n.dispatched| <= |n'.dispatched| && n'.dispatched[..|n.dispatched|] == n.dispatched
    && |n.delivered| <= |n'.delivered| && n'.delivered[..|n.delivered|] == n.delivered
  }

  ghost predicate SameWait(w: Waiter, w': Waiter) {
    && w'.key == w.key && w'.power == w.power && w'.since == w.since
    && w'.deadline == w.deadline && w'.scope == w.scope
    && (w.outcome.Some? ==> w'.outcome == w.outcome)
    && (w.stopped ==> w'.stopped)
  }

  lemma ExtendsSelf(n: Net)
    ensures Extends(n, n)
  {
  }

  lemma ExtendsTransitive(a: Net, b: Net, c: Net)
    requires Extends(a, b) && Extends(b, c)
    ensures Extends(a, c)
  {
    forall w | 0 <= w < |a.waiters| ensures SameWait(a.waiters[w], c.waiters[w]) {
      assert SameWait(a.waiters[w], b.waiters[w]) && SameWait(b.waiters[w], c.waiters[w]);
    }
    assert c.dispatched[..|a.dispatched|] == c.dispatched[..|b.dispatched|][..|a.dispatched|];
    assert c.delivered[..|a.delivered|] == c.delivered[..|b.delivered|][..|a.delivered|];
  }

  /** Judgements about old deliveries survive. */
  lemma HitsStay(n: Net, n': Net, d: Delivery)
    requires Extends(n, n') && d.w < |n.waiters| && d.e < |n.dispatched|
    ensures Addressed(n', d) <==> Addressed(n, d)
    ensures Hit(n', d) <==> Hit(n, d)
  {
    assert n'.dispatched[d.e] == n'.dispatched[..|n.dispatched|][d.e];
    assert SameWait(n.waiters[d.w], n'.waiters[d.w]);
  }

  lemma NoHitStays(n: Net, n': Net, w: nat, k: nat)
    requires Extends(n, n') && AllAddressed(n) && k <= |n.delivered| && NoHitBefore(n, w, k)
    ensures NoHitBefore(n', w, k)
  {
    forall j | 0 <= j < k && n'.delivered[j].w == w ensures !Hit(n', n'.delivered[j]) {
      assert n'.delivered[j] == n'.delivered[..|n.delivered|][j];
      assert Addressed(n, n.delivered[j]);
      HitsStay(n, n', n.delivered[j]);
    }
  }

  /** A settled waiter's outcome keeps its meaning. */
  lemma OutcomeStays(n: Net, n': Net, w: nat)
    requires NInv(n) && Extends(n, n') && w < |n.waiters| && n.waiters[w].outcome.Some?
    ensures OutcomeOk(n', w)
  {
    assert OutcomeOk(n, w);
    assert SameWait(n.waiters[w], n'.waiters[w]);
    var o := n.waiters[w].outcome.value;
    NoHitStays(n, n', w, o.k);
    if o.Confirmed? {
      assert n'.delivered[o.k] == n'.delivered[..|n.delivered|][o.k];
      HitsStay(n, n', n.delivered[o.k]);
    }
  }

  lemma RegisterKeeps(n: Net, target: string, power: int, deadline: int, scope: Scope)
    requires NInv(n)
    ensures NInv(Register(n, target, power, deadline, scope))
    ensures Extends(n, Register(n, target, power, deadline, scope))
  {
    var n' := Register(n, target, power, deadline, scope);
    forall w | 0 <= w < |n'.waiters| ensures OutcomeOk(n', w) {
      if w < |n.waiters| {
        assert OutcomeOk(n, w);
        if n.waiters[w].outcome.Some? { OutcomeStays(n, n', w); } else { NoHitStays(n, n', w, |n.delivered|); }
      } else {
        assert forall j :: 0 <= j < |n.delivered| ==> Addressed(n, n.delivered[j]);
      }
    }
    forall d: Delivery | d.w < |n.waiters| && Addressed(n, d) ensures Addressed(n', d) { HitsStay(n, n', d); }
    forall d: Delivery | d.w < |n.waiters| && Addressed(n', d) ensures Addressed(n, d) { }
  }

  lemma DispatchKeeps(n: Net, ev: SensorEvent)
    requires NInv(n)
    ensures NInv(Dispatch(n, ev))
    ensures Extends(n, Dispatch(n, ev))
  {
    var n' := Dispatch(n, ev);
    assert Extends(n, n');
    forall w | 0 <= w < |n'.waiters| ensures OutcomeOk(n', w) {
      assert OutcomeOk(n, w);
      if n.waiters[w].outcome.Some? { OutcomeStays(n, n', w); } else { NoHitStays(n, n', w, |n.delivered|); }
    }
    forall d: Delivery | d in n'.inflight ensures Addressed(n', d) {
      if d in n.inflight { HitsStay(n, n', d); }
    }
    forall k | 0 <= k < |n.delivered| ensures Addressed(n', n'.delivered[k]) { HitsStay(n, n', n.delivered[k]); }
    forall d: Delivery | Addressed(n', d) && n'.waiters[d.w].outcome.None?
      ensures d in n'.inflight || d in n'.delivered {
      if d.e < |n.dispatched| {
        HitsStay(n, n', d);
      } else {
        assert d.w in Recipients(n.live, ev);
      }
    }
  }

  lemma DeliverKeeps(n: Net, d: Delivery)
    requires NInv(n) && d in n.inflight
    ensures NInv(Deliver(n, d))
    ensures Extends(n, Deliver(n, d))
  {
    var n' := Deliver(n, d);
    assert Addressed(n, d);
    assert Extends(n, n');
    forall x: Delivery | x.w < |n.waiters| && x.e < |n.dispatched|
      ensures (Addressed(n', x) <==> Addressed(n, x)) && (Hit(n', x) <==> Hit(n, x)) {
      HitsStay(n, n', x);
    }
    OutcomesDelivered(n, d);
    forall x: Delivery | Addressed(n', x) && n'.waiters[x.w].outcome.None?
      ensures x in n'.inflight || x in n'.delivered {
      assert x in n.inflight || x in n.delivered;
      assert d == n'.delivered[|n.delivered|];
    }
  }

  lemma OutcomesDelivered(n: Net, d: Delivery)
    requires NInv(n) && d in n.inflight
    ensures forall w :: 0 <= w < |Deliver(n, d).waiters| ==> OutcomeOk(Deliver(n, d), w)
  {
    var n' := Deliver(n, d);
    assert Addressed(n, d);
    assert Extends(n, n');
    forall w | 0 <= w < |n'.waiters| ensures OutcomeOk(n', w) {
      assert OutcomeOk(n, w);
      if n.waiters[w].outcome.Some? { OutcomeStays(n, n', w); } else { NoHitStays(n, n', w, |n.delivered|); }
    }
  }

  lemma ExpireKeeps(n: Net, w: nat)
    requires NInv(n) && w < |n.waiters| && n.waiters[w].outcome.None?
    ensures NInv(Expire(n, w))
    ensures Extends(n, Expire(n, w))
  {
    var n' := Expire(n, w);
    SettledKeeps(n, n', w);
  }

  /** A step that changes no event and no delivery, and at most settles w. */
  lemma SettledKeeps(n: Net, n': Net, w: nat)
    requires NInv(n) && w < |n.waiters| && Extends(n, n')
    requires n'.dispatched == n.dispatched && n'.delivered == n.delivered && n'.inflight == n.inflight
    requires |n'.waiters| == |n.waiters|
    requires forall x :: 0 <= x < |n.waiters| && x != w ==> n'.waiters[x].outcome == n.waiters[x].outcome
    requires n'.waiters[w].outcome == n.waiters[w].outcome || n'.waiters[w].outcome == Some(TimedOut(|n.delivered|))
    requires LiveOk(n')
    ensures NInv(n')
  {
    forall x: Delivery | x.w < |n.waiters| && x.e < |n.dispatched|
      ensures (Addressed(n', x) <==> Addressed(n, x)) && (Hit(n', x) <==> Hit(n, x)) {
      HitsStay(n, n', x);
    }
    forall x | 0 <= x < |n'.waiters| ensures OutcomeOk(n', x) {
      assert OutcomeOk(n, x);
    }
  }

  lemma UnsubscribeKeeps(n: Net, w: nat)
    requires NInv(n) && w in n.live && n.waiters[w].outcome.Some?
    ensures NInv(Unsubscribe(n, w))
    ensures Extends(n, Unsubscribe(n, w))
  {
    SettledKeeps(n, Unsubscribe(n, w), w);
  }

  lemma StopKeeps(n: Net, w: nat)
    requires NInv(n) && w < |n.waiters|
    ensures NInv(Stop(n, w))
    ensures Extends(n, Stop(n, w))
  {
    SettledKeeps(n, Stop(n, w), w);
  }

  /** Confirmation is sound: a confirmed waiter saw an event dispatched after its
      registration, with the expected power, under a name or address that
      denotes the device it waits for. */
  lemma ConfirmationSound(n: Net, w: nat, target: string)
    requires NInv(n) && w < |n.waiters| && n.waiters[w].key == DispatchKey(target)
    requires n.waiters[w].outcome.Some? && n.waiters[w].outcome.value.Confirmed?
    ensures exists e ::
      && n.waiters[w].since <= e < |n.dispatched|
      && n.dispatched[e].power == Some(n.waiters[w].power)
      && Names(n.dispatched[e], target)
  {
    assert OutcomeOk(n, w);
    var d := n.delivered[n.waiters[w].outcome.value.k];
    EventReaches(n.dispatched[d.e], target);
    assert Names(n.dispatched[d.e], target);
  }

  ghost predicate Names(ev: SensorEvent, target: string) {
    || (ev.deviceName != "" && SameDevice(ev.deviceName, target))
    || (ev.shortAddr != "" && SameDevice(ev.shortAddr, target))
  }

  /** Confirmation is not lost: while a waiter is unsettled, every event that would
      confirm it is still on its way to the handler. */
  lemma ConfirmationNotLost(n: Net, w: nat, target: string, e: nat)
    requires NInv(n) && w < |n.waiters| && n.waiters[w].key == DispatchKey(target)
    requires n.waiters[w].outcome.None?
    requires n.waiters[w].since <= e < |n.dispatched|
    requires n.dispatched[e].power == Some(n.waiters[w].power) && Names(n.dispatched[e], target)
    ensures Delivery(w, e) in n.inflight
  {
    EventReaches(n.dispatched[e], target);
    var d := Delivery(w, e);
    assert Hit(n, d);
    assert OutcomeOk(n, w);
    assert forall k :: 0 <= k < |n.delivered| ==> n.delivered[k] != d;
  }

  ghost predicate GaveUpBefore(w: Waiter, j: nat) {
    w.outcome.Some? && w.outcome.value.TimedOut? && w.outcome.value.k <= j
  }

  /** A waiter is confirmed exactly when its handler was called with a confirming
      event before the waiter observed the end of its context. */
  lemma ConfirmationExact(n: Net, w: nat)
    requires NInv(n) && w < |n.waiters|
    ensures (n.waiters[w].outcome.Some? && n.waiters[w].outcome.value.Confirmed?) <==>
            exists j :: 0 <= j < |n.delivered| && n.delivered[j].w == w && Hit(n, n.delivered[j])
                        && !GaveUpBefore(n.waiters[w], j)
  {
    assert OutcomeOk(n, w);
    if n.waiters[w].outcome.Some? && n.waiters[w].outcome.value.Confirmed? {
      var k := n.waiters[w].outcome.value.k;
      assert n.delivered[k].w == w && !GaveUpBefore(n.waiters[w], k);
    }
  }

  /** Every live subscription belongs to an unsettled waiter or to a confirmed one
      whose unsubscribe is pending. */
  lemma LiveSubscriptions(n: Net, w: nat)
    requires NInv(n) && w in n.live
    ensures w < |n.waiters|
    ensures n.waiters[w].outcome.None? || n.waiters[w].outcome.value.Confirmed?
  {
  }
}
