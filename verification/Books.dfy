/** Who is where: the current action, its cancel function, the announced id, the
    order of executions and the history, in every reachable state. */
module Books {
  import opened Options
  import opened Actions
  import opened Machine
  import opened Frames
  import Q = ActionQueues

  // ----- the current action

  /** At most one action is current, and the cancel function is set exactly with
      it and cancels its context. */
  ghost predicate Slot(s: State) {
    && s.current == (if s.loop.Busy? && Inside(s.loop.pc) then Some(s.loop.id) else None)
    && s.cancelFn == (if s.loop.Busy? && Inside(s.loop.pc) then Some(s.execNo) else None)
  }

  lemma SlotRun(s: State, rs: RunStep)
    requires Slot(s) && RunEnabled(s, rs)
    ensures Slot(RunNext(s, rs))
  {
  }

  /** info.CurrentActionID is set from line 235 to line 272 of a timed open. */
  predicate Announced(pc: ExecPc) {
    || pc.Announcing? || pc.Holding? || (pc.Calling? && pc.c.phase.Shutoff?)
    || ((pc.Unconfirmed? || pc.Downgrading? || pc.Clearing?) && pc.timed)
  }

  /** Otherwise it is empty, or what the pipeline was created with. */
  ghost predicate Shown(s: State) {
    if s.loop.Busy? && Announced(s.loop.pc) then s.info.currentActionID == s.loop.id
    else s.info.currentActionID == "" || s.info.currentActionID == s.log.initialID
  }

  lemma ShownRun(s: State, rs: RunStep)
    requires Shown(s) && RunEnabled(s, rs)
    ensures Shown(RunNext(s, rs))
  {
  }

  lemma ShownExec(s: State, xs: ExecStep)
    requires Shown(s) && ExecEnabled(s, xs)
    ensures Shown(ExecNext(s, xs))
  {
    match xs
    case Announce =>
    case Clear =>
    case _ => IdStays(s, xs); AnnouncedStays(s, xs);
  }

  lemma IdStays(s: State, xs: ExecStep)
    requires ExecEnabled(s, xs) && !xs.Announce? && !xs.Clear?
    ensures ExecNext(s, xs).info.currentActionID == s.info.currentActionID
    ensures ExecNext(s, xs).log.initialID == s.log.initialID
  {
  }

  lemma AnnouncedStays(s: State, xs: ExecStep)
    requires ExecEnabled(s, xs) && !xs.Announce? && !xs.Clear?
    ensures ExecNext(s, xs).loop.Busy? && ExecNext(s, xs).loop.id == s.loop.id
    ensures Announced(ExecNext(s, xs).loop.pc) == Announced(s.loop.pc)
  {
  }

  // ----- the order of executions

  function Ongoing(l: Loop): seq<ID> { if l.Busy? then [l.id] else [] }

  /** Every execution began once, by leaving the queue or by the shutdown path;
      one at a time; what is being executed is no longer waiting anywhere. */
  ghost predicate BookV(q: Q.Queue, asked: map<ID, Action>, begun: seq<ID>, retired: seq<ID>, shut: seq<ID>,
                        ongoing: seq<ID>)
  {
    && Q.QInv(q)
    && "" !in asked
    && (forall id :: id in q.calls ==> id in asked)
    && (forall id :: id in q.admitted ==> id in asked)
    && (forall id :: id in begun ==> id in asked && id !in q.calls && id !in q.items)
    && Q.NoDuplicates(begun)
    && begun == retired + ongoing
    && begun == Q.RanIds(q.removed) + shut
  }

  ghost predicate Book(s: State) {
    && BookV(s.queue, s.log.asked, s.log.begun, s.log.retired, s.log.shut, Ongoing(s.loop))
    && (s.log.shut == [] <==> s.grace.None?)
    && (s.grace.Some? ==> !s.loop.Idle?)
  }

  /** The action store and its record of creation cover the same ids. */
  ghost predicate Known(s: State) {
    forall id :: id in s.actions <==> id in s.log.asked
  }

  lemma KnownEnv(s: State, e: EnvStep)
    requires Known(s) && EnvEnabled(s, e)
    ensures Known(EnvNext(s, e))
  {
  }

  lemma KnownRun(s: State, rs: RunStep)
    requires Known(s) && RunEnabled(s, rs)
    ensures Known(RunNext(s, rs))
  {
    if rs.ReadConfig? { ReadFrames(s); }
  }

  lemma KnownExec(s: State, xs: ExecStep)
    requires Known(s) && ExecEnabled(s, xs)
    ensures Known(ExecNext(s, xs))
  {
  }

  lemma BookEnv(s: State, e: EnvStep)
    requires Book(s) && EnvEnabled(s, e) && Known(s)
    ensures Book(EnvNext(s, e))
  {
    match e
    case Request(id, _, _) => Q.QueueStepKeeps(s.queue, Q.QStep.Call(id));
    case QueueTry(id) => BookQueue(s, Q.Try(id));
    case QueueDiscard(id) => BookQueue(s, Q.Discard(id));
    case QueuePush(id) => BookQueue(s, Q.Push(id));
    case _ =>
  }

  /** Producer steps move ids between calls, items and removals only. */
  lemma BookQueue(s: State, q: Q.QStep)
    requires Book(s) && Q.CanQ(s.queue, q) && (q.Try? || q.Discard? || q.Push?)
    ensures Book(s.(queue := Q.NextQ(s.queue, q)))
  {
    Q.QueueStepKeeps(s.queue, q);
    if q.Discard? && s.queue.items != [] {
      Q.RemovedIdsAppend(s.queue.removed, Q.Removal(s.queue.items[0], Q.Dropped));
    }
  }

  /** The head of the queue is nowhere else. */
  lemma HeadOnce(q: Q.Queue)
    requires Q.QInv(q) && q.items != []
    ensures q.items[0] !in q.items[1..] && q.items[0] in q.items && q.items[0] in q.admitted
  {
    var id, left := q.items[0], Q.RemovedIds(q.removed);
    assert q.admitted == (left + [id]) + q.items[1..];
    Q.HalvesApart(left + [id], q.items[1..]);
    assert (left + [id])[|left|] == id;
  }

  lemma BookDequeue(s: State)
    requires Book(s) && RunEnabled(s, Dequeue)
    ensures Book(DoDequeue(s))
  {
    var id, q := s.queue.items[0], s.queue;
    Q.QueueStepKeeps(q, Q.Take);
    Q.RemovedIdsAppend(q.removed, Q.Removal(id, Q.Ran));
    HeadOnce(q);
    var begun := s.log.begun;
    assert Q.NoDuplicates(begun + [id]);
    assert begun + [id] == Q.RanIds(Q.NextQ(q, Q.Take).removed) + s.log.shut;
  }

  lemma BookShutdown(s: State, id: ID)
    requires Book(s) && RunEnabled(s, BeginShutdown(id)) && Known(s)
    ensures Book(DoShutdown(s, id))
  {
    assert id !in s.log.asked;
    assert id !in s.queue.items by { assert forall x :: x in s.queue.items ==> x in s.queue.admitted; }
    assert Q.NoDuplicates(s.log.begun + [id]);
    assert s.log.begun + [id] == Q.RanIds(s.queue.removed) + (s.log.shut + [id]);
  }

  lemma BookRetire(s: State, listed: bool)
    requires Book(s) && s.loop.Busy?
    ensures Book(DoRetire(s, s.loop.id, listed))
  {
  }

  lemma BookRun(s: State, rs: RunStep)
    requires Book(s) && RunEnabled(s, rs) && Known(s)
    ensures Book(RunNext(s, rs))
  {
    match rs
    case Dequeue => BookDequeue(s);
    case BeginShutdown(id) => BookShutdown(s, id);
    case Reject => BookRetire(s, true);
    case Retire => BookRetire(s, !s.actions[s.loop.id].IsInternalSafetyPing());
    case ReadConfig => ReadFrames(s);
    case _ =>
  }

  lemma BookExec(s: State, s': State)
    requires Book(s) && ExecFrame(s, s') && forall id :: id in s.log.asked ==> id in s'.log.asked
    requires "" !in s'.log.asked
    ensures Book(s')
  {
  }

  /** Nobody else holds the executing action. */
  lemma OngoingApart(s: State)
    requires Book(s) && s.loop.Busy?
    ensures s.loop.id in s.log.begun && s.loop.id in s.log.asked
    ensures s.loop.id !in s.log.retired && s.loop.id !in s.queue.calls && s.loop.id !in s.queue.items
  {
    Q.HalvesApart(s.log.retired, [s.loop.id]);
    assert s.log.begun[|s.log.retired|] == s.loop.id;
    assert s.loop.id in [s.loop.id];
  }

  // ----- the history

  ghost function Reversed(xs: seq<ID>): seq<ID> {
    if xs == [] then [] else [xs[|xs| - 1]] + Reversed(xs[..|xs| - 1])
  }

  ghost function Newest(xs: seq<ID>): seq<ID> {
    var r := Reversed(xs);
    if |r| > HISTORY_LIMIT then r[..HISTORY_LIMIT] else r
  }

  /** The history is the newest hundred entries of the log of finished actions. */
  ghost predicate Hist(s: State) {
    && s.history == Newest(s.log.finished)
    && (forall id :: id in s.log.finished ==> id in s.log.retired)
    && Q.NoDuplicates(s.log.finished)
  }

  lemma PushNewest(xs: seq<ID>, id: ID)
    ensures Pushed(Newest(xs), id) == Newest(xs + [id])
  {
    assert (xs + [id])[..|xs|] == xs;
    var r := Reversed(xs);
    assert Reversed(xs + [id]) == [id] + r;
    if |r| > HISTORY_LIMIT {
      assert ([id] + r[..HISTORY_LIMIT])[..HISTORY_LIMIT] == ([id] + r)[..HISTORY_LIMIT];
    }
  }

  lemma {:induction false} ReversedMember(xs: seq<ID>, id: ID)
    requires id in Reversed(xs)
    ensures id in xs
  {
    if xs != [] && id != xs[|xs| - 1] {
      ReversedMember(xs[..|xs| - 1], id);
    }
  }

  lemma {:induction false} ReversedDistinct(xs: seq<ID>)
    requires Q.NoDuplicates(xs)
    ensures Q.NoDuplicates(Reversed(xs))
  {
    if xs != [] {
      var n := |xs| - 1;
      ReversedDistinct(xs[..n]);
      assert xs[n] !in Reversed(xs[..n]) by {
        if xs[n] in Reversed(xs[..n]) { ReversedMember(xs[..n], xs[n]); }
      }
    }
  }

  lemma HistRetire(s: State, id: ID, listed: bool)
    requires Hist(s) && id !in s.log.retired
    ensures Hist(DoRetire(s, id, listed))
  {
    PushNewest(s.log.finished, id);
  }

  lemma HistRun(s: State, rs: RunStep)
    requires Hist(s) && Book(s) && RunEnabled(s, rs)
    ensures Hist(RunNext(s, rs))
  {
    match rs
    case Reject => OngoingApart(s); HistRetire(s, s.loop.id, true);
    case Retire => OngoingApart(s); HistRetire(s, s.loop.id, !s.actions[s.loop.id].IsInternalSafetyPing());
    case ReadConfig => ReadFrames(s);
    case _ => HistSame(s, rs);
  }

  lemma HistSame(s: State, rs: RunStep)
    requires RunEnabled(s, rs) && !rs.Reject? && !rs.Retire? && !rs.ReadConfig?
    ensures RunNext(s, rs).history == s.history
    ensures RunNext(s, rs).log.finished == s.log.finished && RunNext(s, rs).log.retired == s.log.retired
  {
  }

  lemma HistoryRetired(s: State, id: ID)
    requires Hist(s) && id in s.history
    ensures id in s.log.finished && id in s.log.retired
  {
    ReversedMember(s.log.finished, id);
  }
}
