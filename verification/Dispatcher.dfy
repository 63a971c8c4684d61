/** The event dispatcher (internal/mqtt/dispatcher.go). The reference is a plain
    list of live subscriptions; the class keeps the source's map of slices. */
module Dispatching {
  import opened Device
  import opened DispatchKeys

  /** The handler is named by a number: what a call does is not modelled here. */
  datatype Subscription = Subscription(id: int, handler: nat)

  datatype Entry = Entry(key: string, sub: Subscription)

  /** The live subscriptions under a key, in subscription order. */
  ghost function Under(live: seq<Entry>, key: string): seq<Subscription> {
    if live == [] then []
    else if live[0].key == key then [live[0].sub] + Under(live[1..], key)
    else Under(live[1..], key)
  }

  ghost function Without(live: seq<Entry>, id: int): seq<Entry> {
    if live == [] then []
    else if live[0].sub.id == id then Without(live[1..], id)
    else [live[0]] + Without(live[1..], id)
  }

  ghost predicate UniqueIds(live: seq<Entry>) {
    forall i, j :: 0 <= i < j < |live| ==> live[i].sub.id != live[j].sub.id
  }

  lemma {:induction false} UnderMembers(live: seq<Entry>, key: string, s: Subscription)
    ensures s in Under(live, key) <==> Entry(key, s) in live
  {
    if live != [] {
      UnderMembers(live[1..], key, s);
      assert live == [live[0]] + live[1..];
    }
  }

  lemma {:induction false} UnderAppend(live: seq<Entry>, e: Entry, key: string)
    ensures Under(live + [e], key) == if e.key == key then Under(live, key) + [e.sub] else Under(live, key)
  {
    if live == [] {
      UnderCons(e, [], key);
    } else {
      UnderAppend(live[1..], e, key);
      assert live + [e] == [live[0]] + (live[1..] + [e]);
      UnderCons(live[0], live[1..] + [e], key);
    }
  }

  /** Position of a subscription in a slice, or its length. */
  ghost function IndexOf(subs: seq<Subscription>, id: int): nat
    ensures IndexOf(subs, id) <= |subs|
  {
    if subs == [] || subs[0].id == id then 0 else 1 + IndexOf(subs[1..], id)
  }

  ghost function Cut(subs: seq<Subscription>, i: nat): seq<Subscription> {
    if i < |subs| then subs[..i] + subs[i + 1..] else subs
  }

  /** Removing an id that is no longer live changes nothing. */
  lemma {:induction false} WithoutAbsent(live: seq<Entry>, id: int)
    requires forall e :: e in live ==> e.sub.id != id
    ensures Without(live, id) == live
  {
    if live != [] {
      assert forall e :: e in live[1..] ==> e in live;
      WithoutAbsent(live[1..], id);
      assert live[0] in live;
    }
  }

  lemma UnderCons(h: Entry, t: seq<Entry>, key: string)
    ensures Under([h] + t, key) == if h.key == key then [h.sub] + Under(t, key) else Under(t, key)
  {
    assert ([h] + t)[1..] == t;
  }

  lemma HeadIsOnly(h: Entry, t: seq<Entry>)
    requires UniqueIds([h] + t)
    ensures Without([h] + t, h.sub.id) == t
  {
    var live := [h] + t;
    forall e | e in t ensures e.sub.id != h.sub.id {
      var i :| 0 <= i < |t| && t[i] == e;
      assert live[0] == h && live[i + 1] == e;
    }
    WithoutAbsent(t, h.sub.id);
    assert live[1..] == t;
  }

  /** Removal from one slice by position is removal from the plain list, and no
      other key is disturbed. */
  lemma {:induction false} WithoutUnder(live: seq<Entry>, id: int, owner: string, key: string)
    requires UniqueIds(live)
    requires forall e :: e in live && e.sub.id == id ==> e.key == owner
    ensures Under(Without(live, id), key) == Removed(live, id, owner, key)
  {
    if live != [] {
      var h, t := live[0], live[1..];
      assert live == [h] + t;
      assert h in live && forall e :: e in t ==> e in live;
      UnderCons(h, t, key);
      if h.sub.id == id {
        HeadIsOnly(h, t);
        if key == owner { assert Under(live, key)[1..] == Under(t, key); }
      } else {
        WithoutUnder(t, id, owner, key);
        UnderCons(h, Without(t, id), key);
        if h.key == key && key == owner { CutAfterHead(h.sub, Under(t, key), id); }
      }
    }
  }

  ghost function Removed(live: seq<Entry>, id: int, owner: string, key: string): seq<Subscription> {
    if key == owner then Cut(Under(live, key), IndexOf(Under(live, key), id)) else Under(live, key)
  }

  lemma CutAfterHead(h: Subscription, u: seq<Subscription>, id: int)
    requires h.id != id
    ensures Cut([h] + u, IndexOf([h] + u, id)) == [h] + Cut(u, IndexOf(u, id))
  {
    var hu := [h] + u;
    assert hu[1..] == u;
    CutShift(h, u, IndexOf(u, id));
  }

  lemma CutShift(h: Subscription, u: seq<Subscription>, i: nat)
    ensures Cut([h] + u, 1 + i) == [h] + Cut(u, i)
  {
    var hu := [h] + u;
    if i < |u| {
      assert hu[..1 + i] == [h] + u[..i];
      assert hu[1 + i + 1..] == u[i + 1..];
    }
  }

  lemma {:induction false} WithoutMembers(live: seq<Entry>, id: int, e: Entry)
    ensures e in Without(live, id) <==> e in live && e.sub.id != id
  {
    if live != [] {
      WithoutMembers(live[1..], id, e);
      assert live == [live[0]] + live[1..];
    }
  }

  /** Unsubscribing twice is unsubscribing once. */
  lemma UnsubscribeTwice(live: seq<Entry>, id: int)
    ensures Without(Without(live, id), id) == Without(live, id)
  {
    forall e | e in Without(live, id) ensures e.sub.id != id { WithoutMembers(live, id, e); }
    WithoutAbsent(Without(live, id), id);
  }

  lemma {:induction false} WithoutUnique(live: seq<Entry>, id: int)
    requires UniqueIds(live)
    ensures UniqueIds(Without(live, id))
  {
    if live != [] {
      var h, t := live[0], live[1..];
      WithoutUnique(t, id);
      var w := Without(t, id);
      if h.sub.id != id {
        forall j | 0 <= j < |w| ensures h.sub.id != w[j].sub.id {
          WithoutMembers(t, id, w[j]);
          var k :| 0 <= k < |t| && t[k] == w[j];
          assert live[k + 1] == t[k];
        }
        var r := [h] + w;
        forall i, j | 0 <= i < j < |r| ensures r[i].sub.id != r[j].sub.id {
          assert r[j] == w[j - 1];
          if i > 0 { assert r[i] == w[i - 1]; }
        }
        assert Without(live, id) == r;
      }
    }
  }

  lemma {:induction false} UnderIds(live: seq<Entry>, key: string, i: nat, j: nat)
    requires UniqueIds(live)
    requires i < j < |Under(live, key)|
    ensures Under(live, key)[i].id != Under(live, key)[j].id
  {
    var h, t := live[0], live[1..];
    if h.key != key {
      UnderIds(t, key, i, j);
    } else if i > 0 {
      UnderIds(t, key, i - 1, j - 1);
    } else {
      var s := Under(t, key)[j - 1];
      UnderMembers(t, key, s);
      var k :| 0 <= k < |t| && t[k] == Entry(key, s);
      assert live[k + 1] == t[k];
    }
  }

  type Table = map<string, seq<Subscription>>

  function Slice(m: Table, key: string): seq<Subscription> { if key in m then m[key] else [] }

  /** The map holds the live subscriptions of every key in subscription order,
      and no empty slice. */
  ghost predicate Represents(m: Table, live: seq<Entry>) {
    forall k :: Slice(m, k) == Under(live, k) && (k in m <==> Under(live, k) != [])
  }

  lemma RepresentsAppend(m: Table, live: seq<Entry>, e: Entry)
    requires Represents(m, live)
    ensures Represents(m[e.key := Slice(m, e.key) + [e.sub]], live + [e])
  {
    var m' := m[e.key := Slice(m, e.key) + [e.sub]];
    forall k ensures Slice(m', k) == Under(live + [e], k) && (k in m' <==> Under(live + [e], k) != []) {
      UnderAppend(live, e, k);
      assert Slice(m, k) == Under(live, k);
    }
  }

  /** The map after the body of the unsubscribe closure. */
  ghost function Shrunk(m: Table, key: string, id: int): Table {
    var rest := Cut(Slice(m, key), IndexOf(Slice(m, key), id));
    if rest == [] then m - {key} else m[key := rest]
  }

  lemma RepresentsWithout(m: Table, live: seq<Entry>, id: int, owner: string)
    requires Represents(m, live) && UniqueIds(live)
    requires forall e :: e in live && e.sub.id == id ==> e.key == owner
    ensures Represents(Shrunk(m, owner, id), Without(live, id))
  {
    var m', live' := Shrunk(m, owner, id), Without(live, id);
    forall k ensures Slice(m', k) == Under(live', k) && (k in m' <==> Under(live', k) != []) {
      WithoutUnder(live, id, owner, k);
      assert Slice(m, k) == Under(live, k);
    }
  }

  /** The handler calls an event causes, in order. */
  ghost function Calls(live: seq<Entry>, ev: SensorEvent): seq<Subscription> {
    var k1, k2 := DispatchKey(ev.deviceName), DispatchKey(ev.shortAddr);
    (if ev.deviceName == "" then [] else Under(live, k1)) +
    (if ev.shortAddr == "" || (ev.deviceName != "" && k1 == k2) then [] else Under(live, k2))
  }

  /** Every live subscription under a canonical non-empty name or address of the
      event is called, exactly once, and no other. */
  lemma CallsExactly(live: seq<Entry>, ev: SensorEvent)
    requires UniqueIds(live)
    ensures forall i, j :: 0 <= i < j < |Calls(live, ev)| ==> Calls(live, ev)[i].id != Calls(live, ev)[j].id
    ensures forall s :: s in Calls(live, ev) <==> exists k :: k in EventKeys(ev) && Entry(k, s) in live
  {
    var k1, k2 := DispatchKey(ev.deviceName), DispatchKey(ev.shortAddr);
    var c := Calls(live, ev);
    forall s ensures s in c <==> exists k :: k in EventKeys(ev) && Entry(k, s) in live {
      UnderMembers(live, k1, s);
      UnderMembers(live, k2, s);
      CallKeys(live, ev, s);
    }
    forall i, j | 0 <= i < j < |c| ensures c[i].id != c[j].id {
      CallsDistinct(live, ev, i, j);
    }
  }

  lemma CallKeys(live: seq<Entry>, ev: SensorEvent, s: Subscription)
    ensures (exists k :: k in EventKeys(ev) && Entry(k, s) in live) <==>
            || (ev.deviceName != "" && Entry(DispatchKey(ev.deviceName), s) in live)
            || (ev.shortAddr != "" && Entry(DispatchKey(ev.shortAddr), s) in live)
  {
    if ev.deviceName != "" { assert DispatchKey(ev.deviceName) in EventKeys(ev); }
    if ev.shortAddr != "" { assert DispatchKey(ev.shortAddr) in EventKeys(ev); }
  }

  lemma CallsDistinct(live: seq<Entry>, ev: SensorEvent, i: nat, j: nat)
    requires UniqueIds(live)
    requires i < j < |Calls(live, ev)|
    ensures Calls(live, ev)[i].id != Calls(live, ev)[j].id
  {
    var k1, k2 := DispatchKey(ev.deviceName), DispatchKey(ev.shortAddr);
    var n := if ev.deviceName == "" then 0 else |Under(live, k1)|;
    if j < n {
      UnderIds(live, k1, i, j);
    } else if i >= n {
      UnderIds(live, k2, i - n, j - n);
    } else {
      DistinctKeys(live, k1, Under(live, k1)[i], k2, Under(live, k2)[j - n]);
    }
  }

  lemma DistinctKeys(live: seq<Entry>, k1: string, s: Subscription, k2: string, t: Subscription)
    requires UniqueIds(live) && k1 != k2
    requires s in Under(live, k1) && t in Under(live, k2)
    ensures s.id != t.id
  {
    UnderMembers(live, k1, s);
    UnderMembers(live, k2, t);
    var i :| 0 <= i < |live| && live[i] == Entry(k1, s);
    var j :| 0 <= j < |live| && live[j] == Entry(k2, t);
    assert i < j || j < i;
  }

  class Dispatcher {
    var handlers: map<string, seq<Subscription>>
    var nextID: int
    ghost var live: seq<Entry>          // the plain list the map stands for
    ghost var issued: map<int, string>  // the key every handed-out id belongs to

    ghost predicate Valid()
      reads this
    {
      && UniqueIds(live)
      && (forall e :: e in live ==> e.sub.id in issued && issued[e.sub.id] == e.key)
      && (forall i :: i in issued ==> i <= nextID)
      && Represents(handlers, live)
    }

    constructor ()
      ensures Valid() && live == [] && nextID == 0 && issued == map[]
    {
      handlers, nextID, live, issued := map[], 0, [], map[];
    }

    /** The returned id with the key is what the unsubscribe closure captures. */
    method Subscribe(deviceName: string, handler: nat) returns (id: int)
      requires Valid()
      modifies this
      ensures Valid()
      ensures id == nextID == old(nextID) + 1 && id !in old(issued)
      ensures issued == old(issued)[id := DispatchKey(deviceName)]
      ensures live == old(live) + [Entry(DispatchKey(deviceName), Subscription(id, handler))]
    {
      var key := DispatchKey(deviceName);
      nextID := nextID + 1;
      id := nextID;
      var s := Subscription(id, handler);
      RepresentsAppend(handlers, live, Entry(key, s));
      handlers := handlers[key := Slice(handlers, key) + [s]];
      live := live + [Entry(key, s)];
      issued := issued[id := key];
    }

    /** The unsubscribe closure. */
    method Unsubscribe(key: string, id: int)
      requires Valid()
      requires id in issued && issued[id] == key
      modifies this`handlers, this`live
      ensures Valid()
      ensures live == Without(old(live), id)
      ensures forall e :: e in live <==> e in old(live) && e.sub.id != id
    {
      RepresentsWithout(handlers, live, id, key);
      WithoutUnique(live, id);
      forall e ensures e in Without(live, id) <==> e in live && e.sub.id != id { WithoutMembers(live, id, e); }
      handlers := Shrink(handlers, key, id);
      live := Without(live, id);
    }

    /** The body of the unsubscribe closure, on the map. */
    method Shrink(m: Table, key: string, id: int) returns (r: Table)
      ensures r == Shrunk(m, key, id)
    {
      r := m;
      var subs := Slice(m, key);
      var i := 0;
      while i < |subs| && subs[i].id != id
        invariant 0 <= i <= |subs|
        invariant IndexOf(subs, id) == i + IndexOf(subs[i..], id)
      {
        assert subs[i..][1..] == subs[i + 1..];
        i := i + 1;
      }
      if i < |subs| {
        r := r[key := subs[..i] + subs[i + 1..]];
      }
      if key !in r || |r[key]| == 0 {
        r := r - {key};
      }
    }

    /** The subscriptions whose handlers are called, in call order. */
    method Dispatch(ev: SensorEvent) returns (subs: seq<Subscription>)
      requires Valid()
      ensures subs == Calls(live, ev)
    {
      subs := [];
      var seen: set<int> := {};
      var names := [ev.deviceName, ev.shortAddr];
      var n := 0;
      while n < 2
        invariant 0 <= n <= 2
        invariant n == 0 ==> subs == [] && seen == {}
        invariant n == 1 && ev.deviceName == "" ==> subs == [] && seen == {}
        invariant n == 1 && ev.deviceName != "" ==>
                    subs == Under(live, DispatchKey(ev.deviceName)) && seen == Ids(subs)
        invariant n == 2 ==> subs == Calls(live, ev)
      {
        var name := names[n];
        if name != "" {
          var key := DispatchKey(name);
          if n == 1 && ev.deviceName != "" { SlicesApart(DispatchKey(ev.deviceName), key); }
          subs, seen := Collect(key, subs, seen, n == 1 && ev.deviceName != "" && key == DispatchKey(ev.deviceName));
        }
        n := n + 1;
      }
    }

    static ghost function Ids(subs: seq<Subscription>): set<int> { set s | s in subs :: s.id }

    static lemma AddId(subs: seq<Subscription>, s: Subscription)
      ensures Ids(subs + [s]) == Ids(subs) + {s.id}
    {
      assert s in subs + [s];
    }

    lemma SlicesApart(k1: string, k2: string)
      requires Valid()
      ensures forall s :: s in Under(live, k2) ==> (s.id in Ids(Under(live, k1)) <==> k1 == k2)
    {
      forall s | s in Under(live, k2) ensures s.id in Ids(Under(live, k1)) <==> k1 == k2 {
        if k1 != k2 && s.id in Ids(Under(live, k1)) {
          var t :| t in Under(live, k1) && t.id == s.id;
          DistinctKeys(live, k1, t, k2, s);
        }
      }
    }

    /** The inner loop of Dispatch: a key already collected adds nothing. */
    method Collect(key: string, subs0: seq<Subscription>, seen0: set<int>, ghost again: bool)
      returns (subs: seq<Subscription>, seen: set<int>)
      requires Valid() && seen0 == Ids(subs0)
      requires forall s :: s in Under(live, key) ==> (s.id in seen0 <==> again)
      ensures seen == Ids(subs)
      ensures subs == if again then subs0 else subs0 + Under(live, key)
    {
      subs, seen := subs0, seen0;
      var all := Slice(handlers, key);
      assert all == Under(live, key);
      var i := 0;
      while i < |all|
        invariant 0 <= i <= |all|
        invariant seen == Ids(subs)
        invariant again ==> subs == subs0 && seen == seen0
        invariant !again ==> subs == subs0 + all[..i]
        invariant !again ==> forall j :: i <= j < |all| ==> all[j].id !in seen
      {
        var s := all[i];
        assert s in all;
        if s.id !in seen {
          forall j | i < j < |all| ensures all[j].id != s.id { UnderIds(live, key, i, j); }
          AddId(subs, s);
          seen := seen + {s.id};
          subs := subs + [s];
          assert all[..i + 1] == all[..i] + [s];
        }
        i := i + 1;
      }
      assert all[..i] == all;
    }
  }
}
