/** The reply desk of a bridge client (internal/mqtt/bridge.go): ZbStatus3 queries
    wait on one-slot channels that handleResult fills. */
module Bridging {
  import opened Options
  import opened DispatchKeys

  /** One entry of a ZbStatus3 answer. */
  datatype Reply = Reply(deviceName: string, shortAddr: string, power: Option<int>)

  /** A SendZbStatus3 call and its channel. since and overlapped are history: the
      replies handled before it began, and whether another query under the same
      key began or ended while this one was waiting. */
  datatype Query = Query(key: string, buffer: Option<Reply>, since: nat, ended: bool, overlapped: bool)

  /** chs is the map from key to query number; replies are all replies handled. */
  datatype Desk = Desk(chs: map<string, nat>, queries: seq<Query>, replies: seq<Reply>)

  const EMPTY := Desk(map[], [], [])

  predicate Waits(chs: map<string, nat>, id: string) { id != "" && DispatchKey(id) in chs }

  /** The query a reply is routed to: by name, else by address. */
  function Recipient(chs: map<string, nat>, r: Reply): Option<nat> {
    if Waits(chs, r.deviceName) then Some(chs[DispatchKey(r.deviceName)])
    else if Waits(chs, r.shortAddr) then Some(chs[DispatchKey(r.shortAddr)])
    else None
  }

  /** A send that does not block: the first reply stays. */
  function Offered(queries: seq<Query>, q: nat, r: Reply): seq<Query> {
    if q < |queries| && queries[q].buffer.None? then queries[q := queries[q].(buffer := Some(r))] else queries
  }

  function Handled(d: Desk, r: Reply): Desk {
    var to := Recipient(d.chs, r);
    d.(queries := if to.Some? then Offered(d.queries, to.value, r) else d.queries, replies := d.replies + [r])
  }

  function HandledAll(d: Desk, rs: seq<Reply>): Desk {
    if rs == [] then d else Handled(HandledAll(d, rs[..|rs| - 1]), rs[|rs| - 1])
  }

  /** Waiting queries under the key notice nothing, but are marked. */
  function Marked(queries: seq<Query>, key: string): (r: seq<Query>)
    ensures |r| == |queries|
    ensures forall i :: 0 <= i < |r| ==>
              r[i] == queries[i].(overlapped := queries[i].overlapped || (queries[i].key == key && !queries[i].ended))
  {
    seq(|queries|, i requires 0 <= i < |queries| =>
      queries[i].(overlapped := queries[i].overlapped || (queries[i].key == key && !queries[i].ended)))
  }

  function Begun(d: Desk, device: string): Desk {
    var key := DispatchKey(device);
    d.(chs := d.chs[key := |d.queries|],
       queries := Marked(d.queries, key) + [Query(key, None, |d.replies|, false, false)])
  }

  /** The deferred delete. */
  function Finished(d: Desk, q: nat): Desk
    requires q < |d.queries|
  {
    var key := d.queries[q].key;
    d.(chs := d.chs - {key}, queries := Marked(d.queries, key)[q := d.queries[q].(ended := true)])
  }

  datatype DeskStep = Begin(device: string) | Results(rs: seq<Reply>) | Finish(q: nat)

  predicate CanDo(d: Desk, st: DeskStep) { st.Finish? ==> st.q < |d.queries| && !d.queries[st.q].ended }

  function NextDesk(d: Desk, st: DeskStep): Desk
    requires CanDo(d, st)
  {
    match st
    case Begin(device) => Begun(d, device)
    case Results(rs) => HandledAll(d, rs)
    case Finish(q) => Finished(d, q)
  }

  ghost predicate DeskRun(d: Desk, steps: seq<DeskStep>, d': Desk)
    decreases |steps|
  {
    if steps == [] then d' == d else CanDo(d, steps[0]) && DeskRun(NextDesk(d, steps[0]), steps[1..], d')
  }

  // ----- what every run keeps

  predicate NamedBy(r: Reply, key: string) { r.deviceName != "" && DispatchKey(r.deviceName) == key }

  predicate AddressedBy(r: Reply, key: string) { r.shortAddr != "" && DispatchKey(r.shortAddr) == key }

  /** The map holds exactly the waiting queries that were never overlapped. */
  ghost predicate Registered(d: Desk) {
    && (forall k :: k in d.chs ==> d.chs[k] < |d.queries|)
    && (forall q :: 0 <= q < |d.queries| ==>
          (d.queries[q].key in d.chs && d.chs[d.queries[q].key] == q <==>
           !d.queries[q].ended && !d.queries[q].overlapped))
    && (forall k :: k in d.chs && d.chs[k] < |d.queries| ==> d.queries[d.chs[k]].key == k)
  }

  /** What a query holds is a reply to its device, handled since it began. */
  ghost predicate Sound(d: Desk) {
    forall q :: 0 <= q < |d.queries| && d.queries[q].buffer.Some? ==>
      HasReply(d, d.queries[q], d.queries[q].buffer.value)
  }

  ghost predicate HasReply(d: Desk, x: Query, r: Reply) {
    (NamedBy(r, x.key) || AddressedBy(r, x.key)) && exists i :: x.since <= i < |d.replies| && d.replies[i] == r
  }

  /** A reply that names the device of a waiting query is not lost. */
  ghost predicate Complete(d: Desk) {
    forall q, i :: 0 <= q < |d.queries| && !d.queries[q].ended && !d.queries[q].overlapped
                   && d.queries[q].since <= i < |d.replies| && NamedBy(d.replies[i], d.queries[q].key) ==>
      d.queries[q].buffer.Some?
  }

  ghost predicate DeskInv(d: Desk) {
    && Registered(d) && Sound(d) && Complete(d)
    && (forall q :: 0 <= q < |d.queries| ==> d.queries[q].since <= |d.replies|)
  }

  lemma BeginKeeps(d: Desk, device: string)
    requires DeskInv(d)
    ensures DeskInv(Begun(d, device))
  {
    var d' := Begun(d, device);
    forall q | 0 <= q < |d'.queries| && d'.queries[q].buffer.Some?
      ensures HasReply(d', d'.queries[q], d'.queries[q].buffer.value) {
      assert HasReply(d, d.queries[q], d.queries[q].buffer.value);
    }
  }

  lemma FinishKeeps(d: Desk, q: nat)
    requires DeskInv(d) && q < |d.queries| && !d.queries[q].ended
    ensures DeskInv(Finished(d, q))
  {
    var d' := Finished(d, q);
    forall p | 0 <= p < |d'.queries| && d'.queries[p].buffer.Some?
      ensures HasReply(d', d'.queries[p], d'.queries[p].buffer.value) {
      assert HasReply(d, d.queries[p], d.queries[p].buffer.value);
    }
  }

  /** Routing, exactly: a waiting query that was never overlapped receives a reply
      that names its device, and one that only addresses it unless another query
      waits under the reply's name. */
  lemma RouteExact(d: Desk, r: Reply, q: nat)
    requires Registered(d) && q < |d.queries|
    ensures Recipient(d.chs, r) == Some(q) <==>
            && !d.queries[q].ended && !d.queries[q].overlapped
            && (NamedBy(r, d.queries[q].key) || (AddressedBy(r, d.queries[q].key) && !Waits(d.chs, r.deviceName)))
  {
  }

  lemma HandledKeeps(d: Desk, r: Reply)
    requires DeskInv(d)
    ensures DeskInv(Handled(d, r))
  {
    var d', to := Handled(d, r), Recipient(d.chs, r);
    forall q | 0 <= q < |d.queries| ensures SameBut(d.queries[q], d'.queries[q]) && Step(d, d', r, q) {
      RouteExact(d, r, q);
    }
    RegisteredSame(d, d');
    HandledSound(d, d', r);
    HandledComplete(d, d', r);
  }

  predicate SameBut(x: Query, x': Query) { x' == x.(buffer := x'.buffer) }

  /** What one reply does to query q. */
  ghost predicate Step(d: Desk, d': Desk, r: Reply, q: nat)
    requires q < |d.queries| && q < |d'.queries|
  {
    && (d.queries[q].buffer.Some? ==> d'.queries[q].buffer == d.queries[q].buffer)
    && (d'.queries[q].buffer == d.queries[q].buffer
        || (d'.queries[q].buffer == Some(r) && (NamedBy(r, d.queries[q].key) || AddressedBy(r, d.queries[q].key))))
    && (!d.queries[q].ended && !d.queries[q].overlapped && NamedBy(r, d.queries[q].key) ==> d'.queries[q].buffer.Some?)
  }

  lemma RegisteredSame(d: Desk, d': Desk)
    requires Registered(d) && d'.chs == d.chs && |d'.queries| == |d.queries|
    requires forall q :: 0 <= q < |d.queries| ==> SameBut(d.queries[q], d'.queries[q])
    ensures Registered(d')
  {
  }

  lemma HandledSound(d: Desk, d': Desk, r: Reply)
    requires DeskInv(d) && |d'.queries| == |d.queries| && d'.replies == d.replies + [r]
    requires forall q :: 0 <= q < |d.queries| ==> SameBut(d.queries[q], d'.queries[q]) && Step(d, d', r, q)
    ensures Sound(d')
  {
    forall q | 0 <= q < |d'.queries| && d'.queries[q].buffer.Some?
      ensures HasReply(d', d'.queries[q], d'.queries[q].buffer.value) {
      assert SameBut(d.queries[q], d'.queries[q]) && Step(d, d', r, q);
      if d'.queries[q].buffer == d.queries[q].buffer {
        assert HasReply(d, d.queries[q], d.queries[q].buffer.value);
        var i :| d.queries[q].since <= i < |d.replies| && d.replies[i] == d.queries[q].buffer.value;
        assert d'.replies[i] == d.replies[i];
      } else {
        assert d'.replies[|d.replies|] == r;
      }
    }
  }

  lemma HandledComplete(d: Desk, d': Desk, r: Reply)
    requires DeskInv(d) && |d'.queries| == |d.queries| && d'.replies == d.replies + [r]
    requires forall q :: 0 <= q < |d.queries| ==> SameBut(d.queries[q], d'.queries[q]) && Step(d, d', r, q)
    ensures Complete(d')
  {
    forall q, i | 0 <= q < |d'.queries| && !d'.queries[q].ended && !d'.queries[q].overlapped
                  && d'.queries[q].since <= i < |d'.replies| && NamedBy(d'.replies[i], d'.queries[q].key)
      ensures d'.queries[q].buffer.Some? {
      assert SameBut(d.queries[q], d'.queries[q]) && Step(d, d', r, q);
      if i < |d.replies| { assert NamedBy(d.replies[i], d.queries[q].key); }
    }
  }

  lemma {:induction false} HandledAllKeeps(d: Desk, rs: seq<Reply>)
    requires DeskInv(d)
    ensures DeskInv(HandledAll(d, rs))
  {
    if rs != [] {
      HandledAllKeeps(d, rs[..|rs| - 1]);
      HandledKeeps(HandledAll(d, rs[..|rs| - 1]), rs[|rs| - 1]);
    }
  }

  lemma StepKeeps(d: Desk, st: DeskStep)
    requires DeskInv(d) && CanDo(d, st)
    ensures DeskInv(NextDesk(d, st))
  {
    match st
    case Begin(device) => BeginKeeps(d, device);
    case Results(rs) => HandledAllKeeps(d, rs);
    case Finish(q) => FinishKeeps(d, q);
  }

  lemma {:induction false} RunKeeps(d: Desk, steps: seq<DeskStep>, d': Desk)
    requires DeskInv(d) && DeskRun(d, steps, d')
    ensures DeskInv(d')
    decreases |steps|
  {
    if steps != [] {
      StepKeeps(d, steps[0]);
      RunKeeps(NextDesk(d, steps[0]), steps[1..], d');
    }
  }

  /** Over every run, a waiting query is registered exactly if no other query under
      its key began or ended meanwhile; then no reply that names its device is
      lost; and what any query holds answers it. */
  lemma RepliesRouted(steps: seq<DeskStep>, d: Desk, q: nat)
    requires DeskRun(EMPTY, steps, d) && q < |d.queries|
    ensures d.queries[q].key in d.chs && d.chs[d.queries[q].key] == q <==>
              !d.queries[q].ended && !d.queries[q].overlapped
    ensures !d.queries[q].ended && !d.queries[q].overlapped
            && (exists i :: d.queries[q].since <= i < |d.replies| && NamedBy(d.replies[i], d.queries[q].key)) ==>
              d.queries[q].buffer.Some?
    ensures d.queries[q].buffer.Some? ==> HasReply(d, d.queries[q], d.queries[q].buffer.value)
  {
    RunKeeps(EMPTY, steps, d);
  }

  /** One query at a time per key is needed: two overlapping queries for one device,
      and the answer reaches neither the one that was overwritten ... */
  lemma OverwrittenQueryMissesReply(device: string, r: Reply)
    requires NamedBy(r, DispatchKey(device))
    ensures var d := NextDesk(NextDesk(NextDesk(EMPTY, Begin(device)), Begin(device)), Results([r]));
            |d.queries| == 2 && !d.queries[0].ended && d.queries[0].buffer.None? && d.queries[1].buffer == Some(r)
  {
    var d := NextDesk(NextDesk(EMPTY, Begin(device)), Begin(device));
    assert [r][..0] == [];
    assert HandledAll(d, [r]) == Handled(d, r);
  }

  /** ... nor the newer one, once the older has deleted the entry. */
  lemma DeletedQueryMissesReply(device: string, r: Reply)
    requires NamedBy(r, DispatchKey(device)) && r.shortAddr == ""
    ensures var d2 := NextDesk(NextDesk(EMPTY, Begin(device)), Begin(device));
            CanDo(d2, Finish(0)) &&
            var d := NextDesk(NextDesk(d2, Finish(0)), Results([r]));
            |d.queries| == 2 && !d.queries[1].ended && d.queries[1].buffer.None?
  {
    var d := NextDesk(NextDesk(NextDesk(EMPTY, Begin(device)), Begin(device)), Finish(0));
    assert [r][..0] == [];
    assert HandledAll(d, [r]) == Handled(d, r);
  }

  // ----- the code

  class BridgeClient {
    var chs: map<string, nat>
    var queries: seq<Query>
    var replies: seq<Reply>

    function Abs(): Desk
      reads this
    {
      Desk(chs, queries, replies)
    }

    ghost predicate Valid()
      reads this
    {
      DeskInv(Abs())
    }

    constructor ()
      ensures Valid() && Abs() == EMPTY
    {
      chs, queries, replies := map[], [], [];
    }

    /** The routing loop of handleResult. */
    method HandleResult(results: seq<Reply>)
      requires Valid()
      modifies this
      ensures Valid() && Abs() == HandledAll(old(Abs()), results)
    {
      HandledAllKeeps(Abs(), results);
      for n := 0 to |results|
        invariant Abs() == HandledAll(old(Abs()), results[..n])
      {
        assert results[..n + 1][..n] == results[..n];
        Deliver(results[n]);
      }
      assert results[..|results|] == results;
    }

    /** The inner loop: the name first, then the address, at most one delivery. */
    method Deliver(r: Reply)
      modifies this
      ensures Abs() == Handled(old(Abs()), r)
    {
      var delivered := false;
      var ids := [r.deviceName, r.shortAddr];
      var i := 0;
      while i < 2 && !delivered
        invariant 0 <= i <= 2 && ids == [r.deviceName, r.shortAddr] && chs == old(chs) && replies == old(replies)
        invariant !delivered ==> queries == old(queries) && forall j :: 0 <= j < i ==> !Waits(chs, ids[j])
        invariant delivered ==> Recipient(chs, r).Some? && queries == Offered(old(queries), Recipient(chs, r).value, r)
        decreases 2 - i, !delivered
      {
        var id := ids[i];
        if id != "" && DispatchKey(id) in chs {
          assert i == 1 ==> !Waits(chs, ids[0]);
          var q := chs[DispatchKey(id)];
          if q < |queries| && queries[q].buffer.None? {
            queries := queries[q := queries[q].(buffer := Some(r))];
          }
          delivered := true;
        } else {
          i := i + 1;
        }
      }
      assert !delivered ==> !Waits(chs, ids[0]) && !Waits(chs, ids[1]);
      replies := replies + [r];
    }

    /** Register the channel. */
    method Register(device: string) returns (q: nat)
      requires Valid()
      modifies this
      ensures Valid() && q == |old(queries)| && Abs() == Begun(old(Abs()), device)
    {
      BeginKeeps(Abs(), device);
      var key := DispatchKey(device);
      q := |queries|;
      chs := chs[key := q];
      queries := Marked(queries, key) + [Query(key, None, |replies|, false, false)];
    }

    /** The deferred delete, by key. */
    method Delete(q: nat)
      requires Valid() && q < |queries| && !queries[q].ended
      modifies this
      ensures Valid() && Abs() == Finished(old(Abs()), q)
    {
      FinishKeeps(Abs(), q);
      var key := queries[q].key;
      chs := chs - {key};
      queries := Marked(queries, key)[q := queries[q].(ended := true)];
    }

    /** Replies arrive and other queries come and go while query q waits. */
    method Interfere(q: nat)
      requires Valid() && q < |queries| && !queries[q].ended
      modifies this
      ensures Valid() && |queries| >= |old(queries)| && q < |queries| && !queries[q].ended
      ensures queries[q].key == old(queries[q].key) && queries[q].since == old(queries[q].since)
      ensures |replies| >= |old(replies)| && replies[..|old(replies)|] == old(replies)
    {
      var n: nat := *;
      while n > 0
        invariant Valid() && q < |queries| && !queries[q].ended && |queries| >= |old(queries)|
        invariant queries[q].key == old(queries[q].key) && queries[q].since == old(queries[q].since)
        invariant |replies| >= |old(replies)| && replies[..|old(replies)|] == old(replies)
      {
        var st: DeskStep := *;
        if CanDo(Abs(), st) && st != Finish(q) { Other(q, st); }
        n := n - 1;
      }
    }

    method Other(q: nat, st: DeskStep)
      requires Valid() && q < |queries| && !queries[q].ended && CanDo(Abs(), st) && st != Finish(q)
      modifies this
      ensures Valid() && |queries| >= |old(queries)| && !queries[q].ended
      ensures queries[q].key == old(queries[q].key) && queries[q].since == old(queries[q].since)
      ensures |replies| >= |old(replies)| && replies[..|old(replies)|] == old(replies)
    {
      match st
      case Begin(device) => var _ := Register(device);
      case Results(rs) => HandledAllGrows(Abs(), rs, q); HandleResult(rs);
      case Finish(p) => Delete(p);
    }

    /** SendZbStatus3: an answer, if any, is a reply to the queried device that came
        after the call began. */
    method SendZbStatus3(device: string) returns (r: Option<Reply>)
      requires Valid()
      modifies this
      ensures Valid()
      ensures r.Some? ==>
                && (NamedBy(r.value, DispatchKey(device)) || AddressedBy(r.value, DispatchKey(device)))
                && exists i :: |old(replies)| <= i < |replies| && replies[i] == r.value
    {
      var q := Register(device);
      Interfere(q);
      r := None;
      var inTime: bool := *;
      if inTime && queries[q].buffer.Some? {
        r := queries[q].buffer;
        assert HasReply(Abs(), queries[q], r.value);
      }
      Delete(q);
    }
  }

  lemma {:induction false} HandledAllGrows(d: Desk, rs: seq<Reply>, q: nat)
    requires q < |d.queries|
    ensures var d' := HandledAll(d, rs);
            && |d'.queries| == |d.queries| && SameBut(d.queries[q], d'.queries[q])
            && d'.replies == d.replies + rs
  {
    if rs != [] {
      HandledAllGrows(d, rs[..|rs| - 1], q);
    }
  }
}
