/** The waiters on the dispatcher: every subscription of the dispatcher is the handler
    of one waiter, and the dispatcher calls the handlers the waiters expect. */
module Hubs {
  import opened Device
  import opened DispatchKeys
  import D = Dispatching
  import W = Waiters

  /** list and nextID are the dispatcher's, as Subscribe and Unsubscribe change them;
      ids[w] is the id that the unsubscribe closure of waiter w captured. */
  datatype Hub = Hub(list: seq<D.Entry>, nextID: int, ids: seq<int>, net: W.Net)

  const EMPTY := Hub([], 0, [], W.QUIET)

  datatype HubStep =
    | Register(target: string, power: int, deadline: int, scope: W.Scope)
    | Dispatch(ev: SensorEvent)
    | Deliver(d: W.Delivery)
    | Expire(w: nat)
    | Unsubscribe(w: nat)
    | Stop(w: nat)

  predicate CanNet(n: W.Net, st: HubStep) {
    match st
    case Deliver(d) => d in n.inflight
    case Expire(w) => w < |n.waiters| && n.waiters[w].outcome.None?
    case Unsubscribe(w) => w in n.live && w < |n.waiters| && n.waiters[w].outcome.Some?
    case Stop(w) => w < |n.waiters|
    case _ => true
  }

  function NextNet(n: W.Net, st: HubStep): W.Net
    requires CanNet(n, st)
  {
    match st
    case Register(target, power, deadline, scope) => W.Register(n, target, power, deadline, scope)
    case Dispatch(ev) => W.Dispatch(n, ev)
    case Deliver(d) => W.Deliver(n, d)
    case Expire(w) => W.Expire(n, w)
    case Unsubscribe(w) => W.Unsubscribe(n, w)
    case Stop(w) => W.Stop(n, w)
  }

  /** The unsubscribe closure of waiter w. */
  ghost function Dropped(h: Hub, w: nat): seq<D.Entry> {
    if w < |h.ids| then D.Without(h.list, h.ids[w]) else h.list
  }

  ghost function NextHub(h: Hub, st: HubStep): Hub
    requires CanNet(h.net, st)
  {
    match st
    case Register(target, _, _, _) =>
      var id := h.nextID + 1;
      Hub(h.list + [D.Entry(DispatchKey(target), D.Subscription(id, |h.net.waiters|))], id, h.ids + [id],
          NextNet(h.net, st))
    case Expire(w) => h.(list := Dropped(h, w), net := NextNet(h.net, st))
    case Unsubscribe(w) => h.(list := Dropped(h, w), net := NextNet(h.net, st))
    case _ => h.(net := NextNet(h.net, st))
  }

  ghost predicate HubRun(h: Hub, steps: seq<HubStep>, h': Hub)
    decreases |steps|
  {
    if steps == [] then h' == h
    else CanNet(h.net, steps[0]) && HubRun(NextHub(h, steps[0]), steps[1..], h')
  }

  lemma HubRunPrepend(h: Hub, st: HubStep, steps: seq<HubStep>, h': Hub)
    requires CanNet(h.net, st) && HubRun(NextHub(h, st), steps, h')
    ensures HubRun(h, [st] + steps, h')
  {
    assert ([st] + steps)[1..] == steps;
  }

  /** The dispatcher's list and the waiters' view of it: one entry for each live
      waiter, under its key. */
  ghost predicate Mirrors(list: seq<D.Entry>, live: map<nat, string>) {
    && D.UniqueIds(list)
    && (forall e :: e in list ==> e.sub.handler in live && live[e.sub.handler] == e.key)
    && (forall w :: w in live ==> exists e :: e in list && e.sub.handler == w)
    && (forall e, f :: e in list && f in list && e.sub.handler == f.sub.handler ==> e == f)
  }

  ghost predicate HInv(h: Hub) {
    && W.NInv(h.net) && Mirrors(h.list, h.net.live)
    && |h.ids| == |h.net.waiters|
    && (forall e :: e in h.list ==> e.sub.handler < |h.ids| && h.ids[e.sub.handler] == e.sub.id)
    && (forall w :: 0 <= w < |h.ids| ==> h.ids[w] <= h.nextID)
    && (forall v, w :: 0 <= v < w < |h.ids| ==> h.ids[v] != h.ids[w])
  }

  lemma RegisterHub(h: Hub, target: string, power: int, deadline: int, scope: W.Scope)
    requires HInv(h)
    ensures HInv(NextHub(h, Register(target, power, deadline, scope)))
  {
    var h' := NextHub(h, Register(target, power, deadline, scope));
    var x := D.Entry(DispatchKey(target), D.Subscription(h.nextID + 1, |h.net.waiters|));
    W.RegisterKeeps(h.net, target, power, deadline, scope);
    assert forall e :: e in h'.list <==> e in h.list || e == x;
    MirrorsAdd(h.list, h.net.live, x);
  }

  lemma MirrorsAdd(list: seq<D.Entry>, live: map<nat, string>, x: D.Entry)
    requires Mirrors(list, live) && x.sub.handler !in live
    requires forall e :: e in list ==> e.sub.id != x.sub.id
    ensures Mirrors(list + [x], live[x.sub.handler := x.key])
  {
    var list', live' := list + [x], live[x.sub.handler := x.key];
    assert forall e :: e in list' <==> e in list || e == x;
    forall i, j | 0 <= i < j < |list'| ensures list'[i].sub.id != list'[j].sub.id {
      assert list'[i] in list;
    }
    forall w | w in live' ensures exists e :: e in list' && e.sub.handler == w {
      if w == x.sub.handler {
        assert x in list';
      } else {
        var e :| e in list && e.sub.handler == w;
        assert e in list';
      }
    }
  }

  /** Removing the subscription of a waiter removes exactly that waiter's entry. */
  lemma DropMirrors(h: Hub, w: nat)
    requires HInv(h) && w in h.net.live && w < |h.ids|
    ensures Mirrors(Dropped(h, w), h.net.live - {w})
    ensures forall e :: e in Dropped(h, w) ==> e in h.list
  {
    var list := Dropped(h, w);
    D.WithoutUnique(h.list, h.ids[w]);
    forall e ensures e in list <==> e in h.list && e.sub.handler != w {
      D.WithoutMembers(h.list, h.ids[w], e);
    }
    forall v | v in h.net.live - {w} ensures exists e :: e in list && e.sub.handler == v {
      var e :| e in h.list && e.sub.handler == v;
      assert e in list;
    }
  }

  lemma DropHub(h: Hub, st: HubStep)
    requires HInv(h) && (st.Expire? || st.Unsubscribe?) && CanNet(h.net, st)
    ensures HInv(NextHub(h, st))
  {
    if st.Expire? { W.ExpireKeeps(h.net, st.w); } else { W.UnsubscribeKeeps(h.net, st.w); }
    DropMirrors(h, st.w);
  }

  lemma StepHub(h: Hub, st: HubStep)
    requires HInv(h) && CanNet(h.net, st)
    ensures HInv(NextHub(h, st))
  {
    match st
    case Register(target, power, deadline, scope) => RegisterHub(h, target, power, deadline, scope);
    case Dispatch(ev) => W.DispatchKeeps(h.net, ev);
    case Deliver(d) => W.DeliverKeeps(h.net, d);
    case Stop(w) => W.StopKeeps(h.net, w);
    case _ => DropHub(h, st);
  }

  lemma {:induction false} RunHub(h: Hub, steps: seq<HubStep>, h': Hub)
    requires HInv(h) && HubRun(h, steps, h')
    ensures HInv(h')
    decreases |steps|
  {
    if steps != [] {
      StepHub(h, steps[0]);
      RunHub(NextHub(h, steps[0]), steps[1..], h');
    }
  }

  /** Over every run of waiters on a dispatcher, an event makes the dispatcher call the
      handler of each waiter that expects it, once, and no other. */
  lemma DispatcherCallsRecipients(steps: seq<HubStep>, h: Hub, ev: SensorEvent)
    requires HubRun(EMPTY, steps, h)
    ensures forall w :: (exists s :: s in D.Calls(h.list, ev) && s.handler == w) <==> w in W.Recipients(h.net.live, ev)
    ensures var c := D.Calls(h.list, ev);
            forall i, j :: 0 <= i < j < |c| ==> c[i].handler != c[j].handler
  {
    RunHub(EMPTY, steps, h);
    D.CallsExactly(h.list, ev);
    forall w ensures (exists s :: s in D.Calls(h.list, ev) && s.handler == w) <==> w in W.Recipients(h.net.live, ev) {
      CallsRecipient(h.list, h.net.live, ev, w);
    }
    var c := D.Calls(h.list, ev);
    forall i, j | 0 <= i < j < |c| ensures c[i].handler != c[j].handler {
      assert c[i] in c && c[j] in c;
      var k :| k in EventKeys(ev) && D.Entry(k, c[i]) in h.list;
      var l :| l in EventKeys(ev) && D.Entry(l, c[j]) in h.list;
    }
  }

  lemma CallsRecipient(list: seq<D.Entry>, live: map<nat, string>, ev: SensorEvent, w: nat)
    requires Mirrors(list, live)
    ensures (exists s :: s in D.Calls(list, ev) && s.handler == w) <==> w in W.Recipients(live, ev)
  {
    D.CallsExactly(list, ev);
    if w in W.Recipients(live, ev) {
      var e :| e in list && e.sub.handler == w;
      assert e == D.Entry(live[w], e.sub);
      assert e.sub in D.Calls(list, ev);
    }
    if exists s :: s in D.Calls(list, ev) && s.handler == w {
      var s :| s in D.Calls(list, ev) && s.handler == w;
      var k :| k in EventKeys(ev) && D.Entry(k, s) in list;
    }
  }
}
