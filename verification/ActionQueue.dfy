/** The bounded channel of a pipeline and its producers (Enqueue,
    internal/scheduler/pipeline.go:64-82). An Enqueue call takes several steps,
    so calls of different producers interleave. */
module ActionQueues {
  import opened Actions

  const CAPACITY := 8

  /** Where an Enqueue call stands: at the non-blocking send (line 73), at the
      discard of the oldest item (line 76), at the final blocking send (line 79). */
  datatype Stage = TrySend | MakeRoom | MustSend

  datatype Fate = Ran | Dropped

  datatype Removal = Removal(id: ID, fate: Fate)

  /** admitted and removed are history: every id in the order it entered the
      channel, and every id in the order it left it. */
  datatype Queue = Queue(
    calls: map<ID, Stage>,
    items: seq<ID>,
    admitted: seq<ID>,
    removed: seq<Removal>)

  const EMPTY := Queue(map[], [], [], [])

  datatype QStep = Call(id: ID) | Try(id: ID) | Discard(id: ID) | Push(id: ID) | Take

  predicate CanQ(q: Queue, st: QStep) {
    match st
    case Call(id) => id !in q.calls && id !in q.admitted
    case Try(id) => id in q.calls && q.calls[id].TrySend?
    case Discard(id) => id in q.calls && q.calls[id].MakeRoom?
    case Push(id) => id in q.calls && q.calls[id].MustSend? && |q.items| < CAPACITY
    case Take => q.items != []
  }

  function Admit(q: Queue, id: ID): Queue {
    q.(calls := q.calls - {id}, items := q.items + [id], admitted := q.admitted + [id])
  }

  function Remove(q: Queue, fate: Fate): Queue
    requires q.items != []
  {
    q.(items := q.items[1..], removed := q.removed + [Removal(q.items[0], fate)])
  }

  function NextQ(q: Queue, st: QStep): Queue
    requires CanQ(q, st)
  {
    match st
    case Call(id) => q.(calls := q.calls[id := TrySend])
    case Try(id) => if |q.items| < CAPACITY then Admit(q, id) else q.(calls := q.calls[id := MakeRoom])
    case Discard(id) =>
      var q' := if q.items != [] then Remove(q, Dropped) else q;
      q'.(calls := q'.calls[id := MustSend])
    case Push(id) => Admit(q, id)
    case Take => Remove(q, Ran)
  }

  function RemovedIds(rs: seq<Removal>): seq<ID> {
    if rs == [] then [] else RemovedIds(rs[..|rs| - 1]) + [rs[|rs| - 1].id]
  }

  /** The ids handed to the action loop, in order. */
  function RanIds(rs: seq<Removal>): seq<ID> {
    if rs == [] then []
    else if rs[|rs| - 1].fate.Ran? then RanIds(rs[..|rs| - 1]) + [rs[|rs| - 1].id]
    else RanIds(rs[..|rs| - 1])
  }

  ghost predicate NoDuplicates<T(!new)>(s: seq<T>) {
    forall i, j :: 0 <= i < j < |s| ==> s[i] != s[j]
  }

  /** Conservation: what left, followed by what waits, is what entered; nothing
      entered twice or while its Enqueue call still runs. */
  ghost predicate QInv(q: Queue) {
    && |q.items| <= CAPACITY
    && RemovedIds(q.removed) + q.items == q.admitted
    && NoDuplicates(q.admitted)
    && (forall id :: id in q.calls ==> id !in q.admitted)
  }

  lemma HalvesApart(a: seq<ID>, b: seq<ID>)
    requires NoDuplicates(a + b)
    ensures forall x :: x in a ==> x !in b
    ensures NoDuplicates(a)
  {
    forall i, j | 0 <= i < |a| && 0 <= j < |b| ensures a[i] != b[j] {
      assert (a + b)[i] != (a + b)[|a| + j];
    }
    forall i, j | 0 <= i < j < |a| ensures a[i] != a[j] {
      assert (a + b)[i] != (a + b)[j];
    }
  }

  lemma RemovedIdsAppend(rs: seq<Removal>, r: Removal)
    ensures RemovedIds(rs + [r]) == RemovedIds(rs) + [r.id]
    ensures RanIds(rs + [r]) == if r.fate.Ran? then RanIds(rs) + [r.id] else RanIds(rs)
  {
    assert (rs + [r])[..|rs|] == rs;
  }

  lemma AdmitKeeps(q: Queue, id: ID)
    requires QInv(q) && |q.items| < CAPACITY && id in q.calls
    ensures QInv(Admit(q, id))
  {
    var q' := Admit(q, id);
    assert RemovedIds(q.removed) + (q.items + [id]) == (RemovedIds(q.removed) + q.items) + [id];
  }

  lemma RemoveKeeps(q: Queue, fate: Fate)
    requires QInv(q) && q.items != []
    ensures QInv(Remove(q, fate))
  {
    RemovedIdsAppend(q.removed, Removal(q.items[0], fate));
    assert q.items == [q.items[0]] + q.items[1..];
    assert RemovedIds(q.removed) + ([q.items[0]] + q.items[1..]) ==
           (RemovedIds(q.removed) + [q.items[0]]) + q.items[1..];
  }

  lemma QueueStepKeeps(q: Queue, st: QStep)
    requires QInv(q) && CanQ(q, st)
    ensures QInv(NextQ(q, st))
  {
    match st
    case Call(_) =>
    case Try(id) => if |q.items| < CAPACITY { AdmitKeeps(q, id); }
    case Discard(_) => if q.items != [] { RemoveKeeps(q, Dropped); }
    case Push(id) => AdmitKeeps(q, id);
    case Take => RemoveKeeps(q, Ran);
  }

  /** All behaviours of producers and consumer. */
  ghost predicate QRun(q: Queue, steps: seq<QStep>, q': Queue)
    decreases |steps|
  {
    if steps == [] then q' == q
    else CanQ(q, steps[0]) && QRun(NextQ(q, steps[0]), steps[1..], q')
  }

  lemma {:induction false} QueueConservation(q: Queue, steps: seq<QStep>, q': Queue)
    requires QInv(q) && QRun(q, steps, q')
    ensures QInv(q')
    decreases |steps|
  {
    if steps != [] {
      QueueStepKeeps(q, steps[0]);
      QueueConservation(NextQ(q, steps[0]), steps[1..], q');
    }
  }

  /** The three places an id can be once its Enqueue was called. */
  ghost predicate Calling(q: Queue, id: ID) { id in q.calls }
  ghost predicate Queued(q: Queue, id: ID) { id in q.items }
  ghost predicate Gone(q: Queue, id: ID, fate: Fate) { Removal(id, fate) in q.removed }

  lemma {:induction false} RemovedMember(rs: seq<Removal>, id: ID)
    ensures id in RemovedIds(rs) <==> (exists f :: Removal(id, f) in rs)
  {
    if rs != [] {
      var n := |rs| - 1;
      RemovedMember(rs[..n], id);
      assert rs == rs[..n] + [rs[n]];
      if exists f :: Removal(id, f) in rs {
        var f :| Removal(id, f) in rs;
        assert Removal(id, f) in rs[..n] || Removal(id, f) == rs[n];
      }
    }
  }

  lemma {:induction false} RemovedOnce(rs: seq<Removal>, id: ID)
    requires NoDuplicates(RemovedIds(rs))
    ensures !(Removal(id, Ran) in rs && Removal(id, Dropped) in rs)
  {
    if rs != [] {
      var n := |rs| - 1;
      var front := RemovedIds(rs[..n]);
      assert rs == rs[..n] + [rs[n]];
      HalvesApart(front, [rs[n].id]);
      assert rs[n].id in [rs[n].id];
      RemovedOnce(rs[..n], id);
      RemovedMember(rs[..n], id);
    }
  }

  /** Every enqueued id is in exactly one place, for every reachable queue. */
  lemma ExactlyOnePlace(q: Queue, id: ID)
    requires QInv(q)
    ensures id in q.admitted <==> Queued(q, id) || Gone(q, id, Ran) || Gone(q, id, Dropped)
    ensures !(Calling(q, id) && id in q.admitted)
    ensures !(Queued(q, id) && (Gone(q, id, Ran) || Gone(q, id, Dropped)))
    ensures !(Gone(q, id, Ran) && Gone(q, id, Dropped))
  {
    var left := RemovedIds(q.removed);
    RemovedMember(q.removed, id);
    HalvesApart(left, q.items);
    RemovedOnce(q.removed, id);
    assert (exists f :: Removal(id, f) in q.removed) <==> Gone(q, id, Ran) || Gone(q, id, Dropped) by {
      if exists f :: Removal(id, f) in q.removed {
        var f :| Removal(id, f) in q.removed;
        assert f.Ran? || f.Dropped?;
      }
    }
  }

  /** s is t with some elements left out; at[i] is where s[i] sits in t. */
  ghost predicate Embeds(s: seq<ID>, t: seq<ID>, at: seq<nat>) {
    && |at| == |s|
    && (forall i :: 0 <= i < |s| ==> at[i] < |t| && t[at[i]] == s[i])
    && (forall i, j :: 0 <= i < j < |at| ==> at[i] < at[j])
  }

  lemma {:induction false} RanEmbeds(rs: seq<Removal>) returns (at: seq<nat>)
    ensures Embeds(RanIds(rs), RemovedIds(rs), at)
  {
    if rs == [] {
      at := [];
    } else {
      var n := |rs| - 1;
      at := RanEmbeds(rs[..n]);
      if rs[n].fate.Ran? {
        at := at + [|RemovedIds(rs[..n])|];
      }
    }
  }

  /** Execution order is a subsequence of the order in which actions entered. */
  lemma ExecutionOrder(q: Queue) returns (at: seq<nat>)
    requires QInv(q)
    ensures Embeds(RanIds(q.removed), q.admitted, at)
  {
    at := RanEmbeds(q.removed);
    assert forall i :: 0 <= i < |RemovedIds(q.removed)| ==> q.admitted[i] == RemovedIds(q.removed)[i];
  }

  /** No step drops an action that is not the oldest waiting one, and only a full
      queue ever makes a producer drop. */
  lemma OnlyOldestDropped(q: Queue, st: QStep, id: ID)
    requires QInv(q) && CanQ(q, st)
    requires Gone(NextQ(q, st), id, Dropped) && !Gone(q, id, Dropped)
    ensures st.Discard? && q.items != [] && id == q.items[0] && st.id != id
  {
    assert q.items != [] ==> q.items[0] in q.items;
    assert q.items != [] ==> q.items[0] in q.admitted;
  }

  /** A call ends only by putting its own action at the tail. */
  lemma CallEndsAdmitted(q: Queue, st: QStep, id: ID)
    requires CanQ(q, st) && id in q.calls && id !in NextQ(q, st).calls
    ensures NextQ(q, st).items == q.items + [id]
  {
  }

  /** One producer alone: the newest action is admitted, and at most the oldest
      one makes room for it. */
  function EnqueueAlone(q: Queue, id: ID): (r: Queue)
    requires CanQ(q, Call(id)) && |q.items| <= CAPACITY
    ensures id !in r.calls
    ensures r.items == (if |q.items| < CAPACITY then q.items else q.items[1..]) + [id]
  {
    var q1 := NextQ(NextQ(q, Call(id)), Try(id));
    if id !in q1.calls then q1
    else NextQ(NextQ(q1, Discard(id)), Push(id))
  }
}
