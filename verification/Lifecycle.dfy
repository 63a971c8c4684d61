/** What the record of an action looks like at each point of its life. */
module Lifecycle {
  import opened Options
  import opened Device
  import opened Actions
  import opened Machine
  import opened Frames
  import opened Books
  import Q = ActionQueues

  /** Nothing happened to the action yet. */
  predicate Untouched(a: Action) {
    a.fulfilledAt.None? && a.closedAt.None? && a.expiresAt.None? && a.failedAt.None?
  }

  /** A confirmed timed open whose close is still due. */
  predicate HeldOpen(a: Action) {
    && a.typ.OpenTimed? && a.state.Closing? && a.fulfilledAt.Some?
    && a.expiresAt == Some(a.fulfilledAt.value + a.duration)
    && a.closedAt.None? && a.failedAt.None?
  }

  /** An ended action: the close time is set exactly for a confirmed timed open,
      which is then fulfilled, or failed at its close time. */
  predicate Ended(a: Action) {
    && a.IsTerminal()
    && (a.state.Fulfilled? ==> a.fulfilledAt.Some?)
    && (a.fulfilledAt.Some? ==> a.state.Fulfilled? || a.closedAt.Some?)
    && (a.closedAt.Some? <==> a.typ.OpenTimed? && a.fulfilledAt.Some?)
    && (a.closedAt.Some? ==>
          && a.expiresAt == Some(a.fulfilledAt.value + a.duration)
          && (a.state.Fulfilled? || (a.state.Failed? && a.failedAt == a.closedAt)))
  }

  predicate InCallPoint(a: Action, c: Call, cp: CallPc) {
    if c.phase.Shutoff? then HeldOpen(a) && !c.power
    else
      && Untouched(a) && c.power == Power(a.typ)
      && (if cp == Returned(Some(ContextEnded)) then a.state.Cancelled?
          else a.state.Sending? || a.state.WaitingConfirmation?)
  }

  /** The record of the executing action, by program point. */
  predicate AtPoint(a: Action, asked: Action, pc: ExecPc) {
    match pc
    case Took => a == asked && a.state.Pending?
    case Rejected => a.state.Cancelled? && Untouched(a) && a.HoldsValveOpen()
    case Ready(cfg) => a.state.Pending? && Untouched(a) && !(cfg.disabled && a.HoldsValveOpen())
    case Calling(c, cp) => InCallPoint(a, c, cp)
    case Done(c, t0) =>
      && a.state.Fulfilled? && a.fulfilledAt == Some(t0)
      && a.closedAt.None? && a.expiresAt.None? && a.failedAt.None?
    case Expiring(c, t0) => HeldOpen(a) && a.fulfilledAt == Some(t0)
    case Announcing(c, t0, _) => HeldOpen(a) && a.fulfilledAt == Some(t0)
    case Holding(c, t0, _) => HeldOpen(a) && a.fulfilledAt == Some(t0)
    case Unconfirmed(timed) => Ended(a) && a.state.Failed? && (timed <==> a.closedAt.Some?)
    case Downgrading(timed, _) => Ended(a) && (timed <==> a.closedAt.Some?)
    case Clearing(timed) => Ended(a) && (timed <==> a.closedAt.Some?)
    case Cleared(_) => Ended(a)
    case Leaving => Ended(a)
    case Retiring => Ended(a)
  }

  /** The close action that ends a timed open is known to its execution only. */
  ghost predicate Subject(s: State) {
    s.loop.Busy? && s.loop.pc.Calling? ==>
      var x := s.loop.pc.c.subject;
      && x in s.log.asked
      && (s.loop.pc.c.phase.Primary? ==> x == s.loop.id)
      && (s.loop.pc.c.phase.Shutoff? ==> x !in s.log.begun && x !in s.queue.calls && x !in s.queue.admitted)
  }

  lemma SubjectEnv(s: State, e: EnvStep)
    requires Subject(s) && Known(s) && EnvEnabled(s, e)
    ensures Subject(EnvNext(s, e))
  {
  }

  lemma SubjectRun(s: State, rs: RunStep)
    requires Known(s) && RunEnabled(s, rs)
    ensures Subject(RunNext(s, rs))
  {
  }

  lemma SubjectExec(s: State, xs: ExecStep)
    requires Subject(s) && Book(s) && Known(s) && ExecEnabled(s, xs)
    ensures Subject(ExecNext(s, xs))
  {
  }

  /** Waiting actions are as they were asked for; ended ones are complete. */
  ghost predicate Waiting(q: Q.Queue, actions: map<ID, Action>, asked: map<ID, Action>) {
    && (forall id :: id in q.calls && id in actions && id in asked ==>
        actions[id] == asked[id] && asked[id].state.Pending?)
    && (forall id :: id in q.items && id in actions && id in asked ==>
        actions[id] == asked[id] && asked[id].state.Pending?)
  }

  ghost predicate Asked(asked: map<ID, Action>) {
    forall id :: id in asked ==>
      Untouched(asked[id]) && asked[id].attempts == 0 && (asked[id].typ.OpenTimed? ==> asked[id].duration > 0)
  }

  ghost predicate AllEnded(retired: seq<ID>, actions: map<ID, Action>) {
    forall id :: id in retired && id in actions ==> Ended(actions[id])
  }

  ghost predicate Life(s: State) {
    && Waiting(s.queue, s.actions, s.log.asked)
    && Asked(s.log.asked)
    && AllEnded(s.log.retired, s.actions)
    && (s.loop.Busy? && s.loop.id in s.actions && s.loop.id in s.log.asked ==>
          AtPoint(s.actions[s.loop.id], s.log.asked[s.loop.id], s.loop.pc))
  }

  lemma LifeEnv(s: State, e: EnvStep)
    requires Life(s) && Book(s) && Known(s) && EnvEnabled(s, e)
    ensures Life(EnvNext(s, e))
  {
    match e
    case Request(id, typ, duration) => LifeRequest(s, id, typ, duration);
    case QueueTry(id) => LifeQueue(s, Q.Try(id));
    case QueueDiscard(id) => LifeQueue(s, Q.Discard(id));
    case QueuePush(id) => LifeQueue(s, Q.Push(id));
    case _ =>
  }

  lemma LifeQueue(s: State, q: Q.QStep)
    requires Life(s) && Book(s) && Known(s) && Q.CanQ(s.queue, q) && (q.Try? || q.Discard? || q.Push?)
    ensures Life(s.(queue := Q.NextQ(s.queue, q)))
  {
  }

  lemma LifeRequest(s: State, id: ID, typ: ActionType, duration: int)
    requires Life(s) && Book(s) && Known(s) && EnvEnabled(s, Request(id, typ, duration))
    ensures Life(DoRequest(s, id, typ, duration))
  {
    if s.loop.Busy? { OngoingApart(s); }
    LifeNew(s, DoRequest(s, id, typ, duration), id);
  }

  /** A new action that waits, runs, or is known to its creator only. */
  lemma LifeNew(s: State, s': State, id: ID)
    requires Life(s) && Book(s) && Known(s) && id !in s.actions && id in s'.actions
    requires s'.actions == s.actions[id := s'.actions[id]] && s'.log.asked == s.log.asked[id := s'.actions[id]]
    requires Untouched(s'.actions[id]) && s'.actions[id].attempts == 0
    requires (s'.actions[id].typ.OpenTimed? ==> s'.actions[id].duration > 0)
    requires (forall x :: x in s'.queue.calls ==> x == id || x in s.queue.calls)
    requires s'.queue.items == s.queue.items && s'.log.retired == s.log.retired
    requires id in s'.queue.calls ==> s'.actions[id].state.Pending?
    requires s'.loop.Busy? && s'.loop.id in s'.actions ==>
               AtPoint(s'.actions[s'.loop.id], s'.log.asked[s'.loop.id], s'.loop.pc)
    ensures Life(s')
  {
    assert id !in s.log.asked;
    assert Waiting(s'.queue, s'.actions, s'.log.asked) by {
      assert forall y :: y in s.queue.items ==> y in s.queue.admitted;
    }
    assert AllEnded(s'.log.retired, s'.actions) by { NewNotRetired(s, id); }
  }

  lemma NewNotRetired(s: State, id: ID)
    requires Book(s) && Known(s) && id !in s.actions
    ensures id !in s.log.retired && forall x :: x in s.log.retired ==> x in s.actions
  {
    assert forall x :: x in s.log.retired ==> x in s.log.begun;
  }

  /** Changing only the executing action, or one nobody refers to, keeps the rest. */
  lemma LifeUpdate(s: State, s': State, x: ID)
    requires Life(s) && Book(s) && Known(s) && s.loop.Busy? && s'.loop.Busy? && s'.loop.id == s.loop.id
    requires s'.queue == s.queue && s'.log.retired == s.log.retired && s'.log.asked == s.log.asked
    requires x in s.actions && x in s'.actions && s'.actions == s.actions[x := s'.actions[x]]
    requires x == s.loop.id || (x !in s.log.begun && x !in s.queue.calls && x !in s.queue.items)
    requires s.loop.id in s'.actions && AtPoint(s'.actions[s.loop.id], s.log.asked[s.loop.id], s'.loop.pc)
    ensures Life(s')
  {
    OngoingApart(s);
    assert forall y :: y in s.log.retired ==> y in s.log.begun;
  }

  lemma LifeCall(s: State, cs: CallStep)
    requires Life(s) && Book(s) && Known(s) && Subject(s) && CallEnabled(s, cs)
    ensures Life(CallNext(s, cs))
  {
    CallFrames(s, cs);
    OngoingApart(s);
    var s', c := CallNext(s, cs), s.loop.pc.c;
    assert forall y :: y in s.queue.items ==> y in s.queue.admitted;
    CallPoint(s, cs);
    LifeUpdate(s, s', c.subject);
  }

  lemma CallPoint(s: State, cs: CallStep)
    requires Life(s) && Known(s) && CallEnabled(s, cs) && Subject(s) && s.loop.id in s.log.asked
    requires s.loop.id in s.log.begun
    ensures s.loop.id in CallNext(s, cs).actions
    ensures AtPoint(CallNext(s, cs).actions[s.loop.id], s.log.asked[s.loop.id], CallNext(s, cs).loop.pc)
  {
    CallFrames(s, cs);
    if s.loop.pc.c.phase.Primary? { PrimaryPoint(s, cs); }
  }

  lemma PrimaryPoint(s: State, cs: CallStep)
    requires CallEnabled(s, cs) && s.loop.pc.c.phase.Primary? && s.loop.pc.c.subject == s.loop.id
    requires InCallPoint(s.actions[s.loop.id], s.loop.pc.c, s.loop.pc.cp)
    ensures s.loop.id in CallNext(s, cs).actions && CallNext(s, cs).loop.Busy? && CallNext(s, cs).loop.pc.Calling?
    ensures InCallPoint(CallNext(s, cs).actions[s.loop.id], s.loop.pc.c, CallNext(s, cs).loop.pc.cp)
  {
    match cs
    case SendEnd(ok) => SendEndPoint(s, ok);
    case Receive => ReceivePoint(s);
    case _ =>
  }

  lemma ReceivePoint(s: State)
    requires CallEnabled(s, Receive) && s.loop.pc.c.phase.Primary? && s.loop.pc.c.subject == s.loop.id
    requires InCallPoint(s.actions[s.loop.id], s.loop.pc.c, s.loop.pc.cp)
    ensures s.loop.id in DoReceive(s).actions && DoReceive(s).loop.Busy? && DoReceive(s).loop.pc.Calling?
    ensures InCallPoint(DoReceive(s).actions[s.loop.id], s.loop.pc.c, DoReceive(s).loop.pc.cp)
  {
  }

  lemma SendEndPoint(s: State, ok: bool)
    requires CallEnabled(s, SendEnd(ok))
    ensures DoSendEnd(s, ok).actions == s.actions
    ensures DoSendEnd(s, ok).loop.Busy? && DoSendEnd(s, ok).loop.pc.Calling? && !DoSendEnd(s, ok).loop.pc.cp.Returned?
  {
  }

  // ----- the steps of execute outside attemptWithRetry, as the executing action sees them

  predicate MovesOn(a: Action, c: Call, err: Option<CallError>, a': Action, pc': ExecPc) {
    if c.phase.Shutoff? then
      if err.None?
      then a' == a.(closedAt := Some(Or(a'.closedAt, 0)), state := Fulfilled) && pc' == Clearing(true)
      else && a' == a.(closedAt := Some(Or(a'.closedAt, 0)), state := Failed, failedAt := a'.closedAt,
                       errorMessage := CloseNotConfirmed(err.value))
           && pc' == Unconfirmed(true)
    else if err.None?
    then a' == a.(fulfilledAt := Some(Or(a'.fulfilledAt, 0)), state := Fulfilled)
        && pc' == Done(c, Or(a'.fulfilledAt, 0))
    else if a.state.Cancelled? then a' == a && pc' == Leaving
    else && a' == a.(state := Failed, failedAt := a'.failedAt, errorMessage := CommandFailed(err.value))
         && pc' == (if c.power then Leaving else Unconfirmed(false))
  }

  predicate Moves(a: Action, pc: ExecPc, a': Action, pc': ExecPc) {
    match pc
    case Calling(c, cp) => cp.Returned? && MovesOn(a, c, cp.err, a', pc')
    case Done(c, t0) =>
      if a.typ.OpenTimed? then a' == a.(expiresAt := Some(t0 + a.duration), state := Closing) && pc' == Expiring(c, t0)
      else a' == a && pc' == Clearing(false)
    case Expiring(c, t0) => a' == a && pc'.Announcing? && pc'.t0 == t0
    case Announcing(c, t0, _) => a' == a && pc'.Holding? && pc'.t0 == t0
    case Holding(c, t0, _) => a' == a && pc'.Calling? && pc'.c.phase.Shutoff? && !pc'.c.power && pc'.cp == Head(0)
    case Unconfirmed(timed) => a' == a && (pc' == AfterDowngrade(timed) || (pc'.Downgrading? && pc'.timed == timed))
    case Downgrading(timed, _) => a' == a && pc' == AfterDowngrade(timed)
    case Clearing(_) => a' == a && pc'.Cleared?
    case Cleared(_) => a' == a && pc' == Leaving
    case _ => false
  }

  lemma FailMoves(s: State, c: Call, err: CallError)
    requires AtPc(s) && c.phase.Primary?
    ensures s.loop.id in DoFail(s, c, err).actions && DoFail(s, c, err).loop.Busy?
    ensures MovesOn(s.actions[s.loop.id], c, Some(err), DoFail(s, c, err).actions[s.loop.id], DoFail(s, c, err).loop.pc)
  {
  }

  lemma CloseMoves(s: State, c: Call, err: Option<CallError>)
    requires AtPc(s) && c.phase.Shutoff?
    ensures s.loop.id in DoFinishClose(s, err).actions && DoFinishClose(s, err).loop.Busy?
    ensures MovesOn(s.actions[s.loop.id], c, err, DoFinishClose(s, err).actions[s.loop.id],
                    DoFinishClose(s, err).loop.pc)
  {
  }

  lemma ExecMoves(s: State, xs: ExecStep)
    requires ExecEnabled(s, xs)
    ensures s.loop.id in ExecNext(s, xs).actions && ExecNext(s, xs).loop.Busy?
    ensures Moves(s.actions[s.loop.id], s.loop.pc, ExecNext(s, xs).actions[s.loop.id], ExecNext(s, xs).loop.pc)
  {
    match xs
    case Fail => FailMoves(s, s.loop.pc.c, s.loop.pc.cp.err.value);
    case FinishClose => CloseMoves(s, s.loop.pc.c, s.loop.pc.cp.err);
    case _ =>
  }

  lemma PointMoves(a: Action, asked: Action, pc: ExecPc, a': Action, pc': ExecPc)
    requires AtPoint(a, asked, pc) && Moves(a, pc, a', pc')
    ensures AtPoint(a', asked, pc')
  {
  }

  lemma ExecPoint(s: State, xs: ExecStep)
    requires Life(s) && ExecEnabled(s, xs) && s.loop.id in s.log.asked
    ensures s.loop.id in ExecNext(s, xs).actions
    ensures AtPoint(ExecNext(s, xs).actions[s.loop.id], s.log.asked[s.loop.id], ExecNext(s, xs).loop.pc)
  {
    ExecMoves(s, xs);
    PointMoves(s.actions[s.loop.id], s.log.asked[s.loop.id], s.loop.pc,
               ExecNext(s, xs).actions[s.loop.id], ExecNext(s, xs).loop.pc);
  }

  lemma OwnOnly(s: State, xs: ExecStep)
    requires ExecEnabled(s, xs) && !xs.EndHold?
    ensures var s' := ExecNext(s, xs);
            s.loop.id in s'.actions && s'.actions == s.actions[s.loop.id := s'.actions[s.loop.id]]
                && s'.log.asked == s.log.asked
  {
    assert s.actions == s.actions[s.loop.id := s.actions[s.loop.id]];
  }

  lemma LifeEndHold(s: State, closeId: ID)
    requires Life(s) && Book(s) && Known(s) && ExecEnabled(s, EndHold(closeId))
    ensures Life(ExecNext(s, EndHold(closeId)))
  {
    OngoingApart(s);
    LifeNew(s, DoEndHold(s, s.loop.pc.c, closeId), closeId);
  }

  lemma LifeExec(s: State, xs: ExecStep)
    requires Life(s) && Book(s) && Known(s) && ExecEnabled(s, xs)
    ensures Life(ExecNext(s, xs))
  {
    if xs.EndHold? {
      LifeEndHold(s, xs.closeId);
    } else {
      ExecFrames(s, xs);
      OngoingApart(s);
      ExecPoint(s, xs);
      OwnOnly(s, xs);
      LifeUpdate(s, ExecNext(s, xs), s.loop.id);
    }
  }

  lemma LifeRun(s: State, rs: RunStep)
    requires Life(s) && Book(s) && Known(s) && RunEnabled(s, rs)
    ensures Life(RunNext(s, rs))
  {
    match rs
    case Dequeue => LifeDequeue(s);
    case BeginShutdown(id) => LifeShutdown(s, id);
    case ReadConfig => LifeReadConfig(s);
    case Install => LifeInstall(s);
    case Reject => LifeRetire(s, true);
    case Retire => LifeRetire(s, !s.actions[s.loop.id].IsInternalSafetyPing());
    case _ =>
  }

  lemma LifeRetire(s: State, listed: bool)
    requires Life(s) && Book(s) && AtPc(s) && (s.loop.pc.Rejected? || s.loop.pc.Retiring?)
    ensures Life(DoRetire(s, s.loop.id, listed))
  {
    OngoingApart(s);
  }

  lemma LifeDequeue(s: State)
    requires Life(s) && Book(s) && Known(s) && RunEnabled(s, Dequeue)
    ensures Life(DoDequeue(s))
  {
    HeadOnce(s.queue);
  }

  lemma LifeShutdown(s: State, id: ID)
    requires Life(s) && Book(s) && Known(s) && RunEnabled(s, BeginShutdown(id))
    ensures Life(DoShutdown(s, id))
  {
    LifeNew(s, DoShutdown(s, id), id);
  }

  lemma LifeReadConfig(s: State)
    requires Life(s) && Book(s) && Known(s) && RunEnabled(s, ReadConfig)
    ensures Life(DoReadConfig(s))
  {
    ReadFrames(s);
    LifeRead(s, DoReadConfig(s));
  }

  lemma LifeRead(s: State, s': State)
    requires Life(s) && Book(s) && Known(s) && s.loop.Busy? && s.loop.pc.Took? && ReadEffect(s, s')
    ensures Life(s')
  {
    OngoingApart(s);
    assert AtPoint(s'.actions[s.loop.id], s.log.asked[s.loop.id], s'.loop.pc);
    LifeUpdate(s, s', s.loop.id);
  }

  lemma LifeInstall(s: State)
    requires Life(s) && Book(s) && Known(s) && RunEnabled(s, Install)
    ensures Life(DoInstall(s))
  {
    OngoingApart(s);
    LifeUpdate(s, DoInstall(s), s.loop.id);
  }
}
