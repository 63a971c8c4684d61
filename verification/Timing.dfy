/** Real time. A run is prompt when the action loop never lets time pass except
    where it blocks, and a timer, a context deadline or the 10 s limit of a
    status write is acted on when it is reached. */
module Timing {
  import opened Options
  import opened Actions
  import opened Machine
  import opened Frames
  import opened Books
  import opened Lifecycle
  import W = Waiters

  /** The waiter the loop blocks on lets time pass until t. */
  predicate WaiterAllows(s: State, w: nat, t: int) {
    w < |s.net.waiters| && !WaiterDone(s, s.net.waiters[w]) && t <= s.net.waiters[w].deadline
  }

  predicate CallAllows(s: State, c: Call, cp: CallPc, t: int) {
    match cp
    case Gap(at, until) => t <= until && WaiterAllows(s, at.w, t)
    case InSend(_) => !CallDone(s, c) && (c.deadline.Some? ==> t <= c.deadline.value)
    case Receiving(at) => !Settled(s, at.w) && WaiterAllows(s, at.w, t)
    case Applying(until) => t <= until
    case _ => t == s.now
  }

  /** The action loop may be found waiting at time t. */
  predicate Allows(s: State, t: int) {
    s.loop.Busy? ==>
      match s.loop.pc
      case Calling(c, cp) => CallAllows(s, c, cp, t)
      case Announcing(_, _, until) => t <= until
      case Holding(_, _, until) => t <= until && !ExecDone(s)
      case Downgrading(_, until) => t <= until
      case Cleared(until) => t <= until
      case _ => t == s.now
  }

  predicate PromptStep(s: State, st: Step) {
    st.Env? && st.e.Tick? ==> Allows(s, st.e.to)
  }

  /** Waiters of the shutoff never outlive its context. */
  ghost predicate WaitLimit(s: State, c: Call, cp: CallPc) {
    (cp.ToSend? || cp.InSend? || cp.Gap? || cp.Receiving?) && c.deadline.Some? ==>
      cp.at.w < |s.net.waiters| && s.net.waiters[cp.at.w].deadline <= c.deadline.value
  }

  ghost predicate InShutoff(s: State, start: int, c: Call, cp: CallPc) {
    && c.deadline == Some(start + CLOSE_LIMIT)
    && WaitLimit(s, c, cp)
    && (match cp
        case Applying(until) => s.now <= until <= start + CLOSE_LIMIT + STATUS_LIMIT
        case Returned(_) => s.now <= start + CLOSE_LIMIT + STATUS_LIMIT
        case _ => s.now <= start + CLOSE_LIMIT)
  }

  /** The command of id was confirmed at most one status write before t. */
  ghost predicate ConfirmedBy(log: Log, id: ID, t: int) {
    (id, Primary) in log.confirmed && log.confirmed[(id, Primary)] <= t <= log.confirmed[(id, Primary)] + STATUS_LIMIT
  }

  ghost predicate InPrimary(log: Log, id: ID, now: int, cp: CallPc) {
    match cp
    case Applying(until) => ConfirmedBy(log, id, now) && until == log.confirmed[(id, Primary)] + STATUS_LIMIT
    case Returned(err) => err.None? ==> ConfirmedBy(log, id, now)
    case _ => true
  }

  /** When the close of a timed open starts: its timer was started at most one status
      write after the open was fulfilled, and the close starts when the timer fires, or
      earlier if it was cancelled. */
  ghost predicate StartOk(cs: CloseStart, a: Action, timer: int) {
    && a.fulfilledAt.Some? && a.expiresAt == Some(a.fulfilledAt.value + a.duration)
    && a.fulfilledAt.value <= timer <= a.fulfilledAt.value + STATUS_LIMIT
    && cs.time <= timer + a.duration
    && (!cs.cancelled ==> cs.time == timer + a.duration)
  }

  ghost predicate Clock(s: State) {
    s.loop.Busy? && s.loop.id in s.actions ==>
      var a := s.actions[s.loop.id];
      match s.loop.pc
      case Calling(c, cp) =>
        if c.phase.Primary? then InPrimary(s.log, s.loop.id, s.now, cp)
        else s.loop.id in s.log.closeStarts && InShutoff(s, s.log.closeStarts[s.loop.id].time, c, cp)
      case Done(_, t0) => s.now == t0 && ConfirmedBy(s.log, s.loop.id, t0)
      case Expiring(_, t0) => s.now == t0
      case Announcing(_, t0, until) => t0 <= s.now <= until && until == t0 + STATUS_LIMIT
      case Holding(_, t0, until) =>
        && s.loop.id in s.log.timers && t0 <= s.log.timers[s.loop.id] <= t0 + STATUS_LIMIT
        && s.now <= until == s.log.timers[s.loop.id] + a.duration
      case _ => true
  }

  ghost predicate Starts(s: State) {
    forall id :: id in s.log.closeStarts && id in s.actions ==>
      id in s.log.timers && StartOk(s.log.closeStarts[id], s.actions[id], s.log.timers[id])
  }

  ghost predicate Confirms(s: State) {
    forall id :: id in s.actions && s.actions[id].fulfilledAt.Some? ==>
      ConfirmedBy(s.log, id, s.actions[id].fulfilledAt.value)
  }

  ghost predicate Closes(s: State) {
    forall id :: id in s.actions && s.actions[id].closedAt.Some? ==>
      id in s.log.closeStarts &&
      s.actions[id].closedAt.value <= s.log.closeStarts[id].time + CLOSE_LIMIT + STATUS_LIMIT
  }

  /** Executions that reached their shutoff have begun. */
  ghost predicate StartsBegun(s: State) {
    && (forall id :: id in s.log.closeStarts ==> id in s.log.begun)
    && (s.loop.Busy? && BeforeShutoff(s.loop.pc) ==> s.loop.id !in s.log.closeStarts)
  }

  predicate BeforeShutoff(pc: ExecPc) {
    || pc.Took? || pc.Rejected? || pc.Ready? || (pc.Calling? && pc.c.phase.Primary?)
    || pc.Done? || pc.Expiring? || pc.Announcing? || pc.Holding?
  }

  ghost predicate SameClocks(l: Log, l': Log) {
    l'.confirmed == l.confirmed && l'.timers == l.timers && l'.closeStarts == l.closeStarts
  }

  lemma ClockTick(s: State, to: int)
    requires Clock(s) && EnvEnabled(s, Tick(to)) && PromptStep(s, Env(Tick(to)))
    ensures Clock(EnvNext(s, Tick(to)))
  {
  }

  lemma ClockEnv(s: State, s': State)
    requires Clock(s) && s'.loop == s.loop && s'.now == s.now && SameClocks(s.log, s'.log)
    requires W.Extends(s.net, s'.net)
    requires s.loop.Busy? ==> s.loop.id in s.actions && s.loop.id in s'.actions
    requires s.loop.Busy? ==> s'.actions[s.loop.id] == s.actions[s.loop.id]
    ensures Clock(s')
  {
    if s.loop.Busy? && s.loop.pc.Calling? && s.loop.pc.c.phase.Shutoff? {
      var c, cp := s.loop.pc.c, s.loop.pc.cp;
      if cp.ToSend? || cp.InSend? || cp.Gap? || cp.Receiving? {
        assert W.SameWait(s.net.waiters[cp.at.w], s'.net.waiters[cp.at.w]);
      }
    }
  }

  lemma ClockCall(s: State, cs: CallStep)
    requires Clock(s) && CallEnabled(s, cs)
    ensures Clock(CallNext(s, cs))
  {
    CallFrames(s, cs);
    if s.loop.pc.c.phase.Shutoff? {
      ShutoffStep(s, cs, s.log.closeStarts[s.loop.id].time);
    } else {
      PrimaryStep(s, cs);
    }
  }

  lemma PrimaryStep(s: State, cs: CallStep)
    requires CallEnabled(s, cs) && s.loop.pc.c.phase.Primary? && InPrimary(s.log, s.loop.id, s.now, s.loop.pc.cp)
    ensures CallNext(s, cs).loop.Busy? && CallNext(s, cs).loop.pc.Calling?
    ensures InPrimary(CallNext(s, cs).log, s.loop.id, s.now, CallNext(s, cs).loop.pc.cp)
  {
    match cs
    case SendEnd(_) => PrimaryMove(s, cs);
    case Receive => PrimaryMove(s, cs);
    case _ =>
  }

  lemma PrimaryMove(s: State, cs: CallStep)
    requires CallEnabled(s, cs) && (cs.SendEnd? || cs.Receive?)
    ensures CallNext(s, cs).loop.Busy? && CallNext(s, cs).loop.pc.Calling?
    ensures InPrimary(CallNext(s, cs).log, s.loop.id, s.now, CallNext(s, cs).loop.pc.cp)
  {
  }

  lemma ShutoffRegister(s: State, start: int)
    requires CallEnabled(s, RegisterWaiter) && InShutoff(s, start, s.loop.pc.c, s.loop.pc.cp)
    ensures InShutoff(DoRegister(s), start, s.loop.pc.c, DoRegister(s).loop.pc.cp)
  {
  }

  lemma ShutoffMove(s: State, cs: CallStep, start: int)
    requires CallEnabled(s, cs) && InShutoff(s, start, s.loop.pc.c, s.loop.pc.cp) && (cs.SendEnd? || cs.Receive?)
    ensures CallNext(s, cs).loop.Busy? && CallNext(s, cs).loop.pc.Calling?
    ensures InShutoff(CallNext(s, cs), start, s.loop.pc.c, CallNext(s, cs).loop.pc.cp)
  {
  }

  lemma ShutoffStep(s: State, cs: CallStep, start: int)
    requires CallEnabled(s, cs) && InShutoff(s, start, s.loop.pc.c, s.loop.pc.cp)
    ensures CallNext(s, cs).loop.Busy? && CallNext(s, cs).loop.pc.Calling?
    ensures InShutoff(CallNext(s, cs), start, s.loop.pc.c, CallNext(s, cs).loop.pc.cp)
  {
    match cs
    case RegisterWaiter => ShutoffRegister(s, start);
    case SendEnd(_) => ShutoffMove(s, cs, start);
    case Receive => ShutoffMove(s, cs, start);
    case _ =>
  }

  lemma ClockExec(s: State, xs: ExecStep)
    requires Clock(s) && ExecEnabled(s, xs)
    requires xs.AnnounceEnd? ==> s.actions[s.loop.id].duration > 0
    ensures Clock(ExecNext(s, xs))
  {
  }

  lemma ClockRun(s: State, rs: RunStep)
    requires Clock(s) && RunEnabled(s, rs)
    ensures Clock(RunNext(s, rs))
  {
  }

  /** The close times and start times, step by step. */
  ghost predicate Times(s: State) { Starts(s) && Closes(s) && Confirms(s) && StartsBegun(s) }

  ghost predicate SameTimes(a: Action, a': Action) {
    && a'.fulfilledAt == a.fulfilledAt && a'.expiresAt == a.expiresAt && a'.closedAt == a.closedAt
    && a'.duration == a.duration
  }

  /** An action of which nothing is confirmed, or whose times stay. */
  ghost predicate TimesStay(s: State, s': State, x: ID) {
    && x in s.actions && x in s'.actions && s'.actions == s.actions[x := s'.actions[x]]
    && (SameTimes(s.actions[x], s'.actions[x]) ||
        (x !in s.log.closeStarts && s'.actions[x].fulfilledAt.None? && s'.actions[x].closedAt.None?))
  }

  /** What was logged about closes and confirmed actions stays. */
  ghost predicate ClocksStay(s: State, s': State) {
    && s'.log.closeStarts == s.log.closeStarts
    && (forall id :: id in s.log.closeStarts && id in s.log.timers ==>
          id in s'.log.timers && s'.log.timers[id] == s.log.timers[id])
    && (forall id :: id in s.actions && s.actions[id].fulfilledAt.Some? && (id, Primary) in s.log.confirmed ==>
          (id, Primary) in s'.log.confirmed && s'.log.confirmed[(id, Primary)] == s.log.confirmed[(id, Primary)])
  }

  lemma TimesKept(s: State, s': State, x: ID)
    requires Starts(s) && Closes(s) && Confirms(s) && ClocksStay(s, s') && TimesStay(s, s', x)
    ensures Starts(s') && Closes(s') && Confirms(s')
  {
  }

  lemma TimesEndHold(s: State, closeId: ID)
    requires Times(s) && Clock(s) && Life(s) && Book(s) && Known(s) && ExecEnabled(s, EndHold(closeId))
    ensures Times(DoEndHold(s, s.loop.pc.c, closeId))
  {
    assert HeldOpen(s.actions[s.loop.id]) && s.actions[s.loop.id].fulfilledAt == Some(s.loop.pc.t0)
           && s.loop.id in s.log.begun && closeId !in s.log.begun by { OngoingApart(s); }
    CloseTimes(s, DoEndHold(s, s.loop.pc.c, closeId), closeId);
  }

  lemma CloseTimes(s: State, s': State, closeId: ID)
    requires Times(s) && closeId !in s.log.begun && closeId !in s.actions && closeId in s'.actions
    requires s.loop.Busy? && s.loop.id in s.actions && s.loop.id in s.log.begun && s.loop.id in s.log.timers
    requires s'.actions == s.actions[closeId := s'.actions[closeId]] && Untouched(s'.actions[closeId])
    requires s.loop.id in s'.log.closeStarts
    requires StartOk(s'.log.closeStarts[s.loop.id], s.actions[s.loop.id], s.log.timers[s.loop.id])
    requires s'.log.closeStarts == s.log.closeStarts[s.loop.id := s'.log.closeStarts[s.loop.id]]
    requires s'.log.timers == s.log.timers && s'.log.confirmed == s.log.confirmed
    requires s.actions[s.loop.id].closedAt.None?
    requires s'.log.begun == s.log.begun && s'.loop.Busy? && !BeforeShutoff(s'.loop.pc)
    ensures Times(s')
  {
  }

  lemma TimesFinish(s: State)
    requires Times(s) && Clock(s) && ExecEnabled(s, FinishClose)
    ensures Times(DoFinishClose(s, s.loop.pc.cp.err))
  {
    FinishCloses(s);
    ClosedTimes(s, DoFinishClose(s, s.loop.pc.cp.err));
  }

  lemma FinishCloses(s: State)
    requires ExecEnabled(s, FinishClose)
    ensures Closed(s, DoFinishClose(s, s.loop.pc.cp.err))
  {
  }

  /** The executing action gets its close time now. */
  ghost predicate Closed(s: State, s': State) {
    && s.loop.Busy? && s'.loop.Busy? && s'.loop.id == s.loop.id && !BeforeShutoff(s'.loop.pc) && s'.log == s.log
    && s.loop.id in s.actions && s.loop.id in s'.actions
    && s'.actions == s.actions[s.loop.id := s'.actions[s.loop.id]]
    && (var a, a' := s.actions[s.loop.id], s'.actions[s.loop.id];
        a'.closedAt == Some(s.now) && SameTimes(a.(closedAt := a'.closedAt), a'))
  }

  lemma ClosedTimes(s: State, s': State)
    requires Times(s) && Closed(s, s') && s.loop.id in s.log.closeStarts
    requires s.now <= s.log.closeStarts[s.loop.id].time + CLOSE_LIMIT + STATUS_LIMIT
    ensures Times(s')
  {
  }

  lemma TimesFulfil(s: State, xs: ExecStep)
    requires Times(s) && Clock(s) && Life(s) && Book(s) && Known(s)
    requires ExecEnabled(s, xs) && (xs.Fulfil? || xs.AfterFulfil?)
    ensures Times(ExecNext(s, xs))
  {
    assert s.actions[s.loop.id].closedAt.None? && (xs.AfterFulfil? ==> s.actions[s.loop.id].fulfilledAt.Some?) by {
      OngoingApart(s);
      assert AtPoint(s.actions[s.loop.id], s.log.asked[s.loop.id], s.loop.pc);
    }
    HoldTimes(s, ExecNext(s, xs));
  }

  /** Confirmation and expiry are set before the close can start. */
  lemma HoldTimes(s: State, s': State)
    requires Times(s) && s.loop.Busy? && BeforeShutoff(s.loop.pc) && s.loop.id in s.actions && s.loop.id in s'.actions
    requires s'.loop.Busy? && s'.loop.id == s.loop.id && SameClocks(s.log, s'.log) && s'.log.begun == s.log.begun
    requires s'.actions == s.actions[s.loop.id := s'.actions[s.loop.id]] && s'.actions[s.loop.id].closedAt.None?
    requires var a' := s'.actions[s.loop.id];
             a'.fulfilledAt.Some? ==> ConfirmedBy(s.log, s.loop.id, a'.fulfilledAt.value)
    ensures Times(s')
  {
  }

  lemma OwnTimes(s: State, xs: ExecStep)
    requires ExecEnabled(s, xs) && !xs.EndHold? && !xs.FinishClose? && !xs.AfterFulfil? && !xs.Fulfil?
    ensures s.loop.id in ExecNext(s, xs).actions
    ensures SameTimes(s.actions[s.loop.id], ExecNext(s, xs).actions[s.loop.id])
  {
  }

  lemma OwnClocks(s: State, xs: ExecStep)
    requires ExecEnabled(s, xs) && !xs.EndHold? && !xs.FinishClose? && !xs.AfterFulfil? && !xs.Fulfil?
    ensures ExecNext(s, xs).log.closeStarts == s.log.closeStarts
    ensures ExecNext(s, xs).log.timers == s.log.timers ||
            (BeforeShutoff(s.loop.pc) && ExecNext(s, xs).log.timers == s.log.timers[s.loop.id := s.now])
    ensures BeforeShutoff(ExecNext(s, xs).loop.pc) ==> BeforeShutoff(s.loop.pc)
  {
  }

  lemma TimesExec(s: State, xs: ExecStep)
    requires Times(s) && Clock(s) && Life(s) && Book(s) && Known(s) && ExecEnabled(s, xs)
    ensures Times(ExecNext(s, xs))
  {
    match xs
    case EndHold(closeId) => TimesEndHold(s, closeId);
    case FinishClose => TimesFinish(s);
    case AfterFulfil => TimesFulfil(s, xs);
    case Fulfil => TimesFulfil(s, xs);
    case _ => TimesMove(s, xs);
  }

  lemma TimesMove(s: State, xs: ExecStep)
    requires Times(s) && ExecEnabled(s, xs) && !xs.EndHold? && !xs.FinishClose? && !xs.AfterFulfil? && !xs.Fulfil?
    ensures Times(ExecNext(s, xs))
  {
    ExecFrames(s, xs);
    OwnTimes(s, xs);
    OwnClocks(s, xs);
    OwnOnly(s, xs);
    TimesOwn(s, ExecNext(s, xs));
  }

  lemma TimesOwn(s: State, s': State)
    requires Times(s) && ExecFrame(s, s') && s.loop.id in s'.actions
    requires s'.actions == s.actions[s.loop.id := s'.actions[s.loop.id]]
    requires SameTimes(s.actions[s.loop.id], s'.actions[s.loop.id]) && s'.log.closeStarts == s.log.closeStarts
    requires s'.log.timers == s.log.timers ||
             (BeforeShutoff(s.loop.pc) && s'.log.timers == s.log.timers[s.loop.id := s.now])
    requires BeforeShutoff(s'.loop.pc) ==> BeforeShutoff(s.loop.pc)
    ensures Times(s')
  {
    TimesKept(s, s', s.loop.id);
  }

  lemma TimesCall(s: State, cs: CallStep)
    requires Times(s) && Life(s) && Book(s) && CallEnabled(s, cs)
    ensures Times(CallNext(s, cs))
  {
    if s.loop.pc.c.phase.Primary? { PrimaryUnconfirmed(s); }
    CallFrames(s, cs);
    CallKeepsTimes(s, cs);
    CallConfirms(s, cs);
    TimesOfCall(s, CallNext(s, cs));
  }

  lemma PrimaryUnconfirmed(s: State)
    requires Life(s) && Book(s) && s.loop.Busy? && s.loop.pc.Calling? && s.loop.pc.c.phase.Primary?
    ensures s.loop.id in s.actions ==> s.actions[s.loop.id].fulfilledAt.None?
  {
    OngoingApart(s);
    if s.loop.id in s.actions { assert AtPoint(s.actions[s.loop.id], s.log.asked[s.loop.id], s.loop.pc); }
  }

  lemma TimesOfCall(s: State, s': State)
    requires Times(s) && CallFrame(s, s')
    requires s.loop.pc.c.phase.Primary? ==> s.actions[s.loop.id].fulfilledAt.None?
    requires SameTimes(s.actions[s.loop.pc.c.subject], s'.actions[s.loop.pc.c.subject])
    requires var l, l' := s.log, s'.log;
             l'.confirmed == l.confirmed || l'.confirmed == l.confirmed[(s.loop.id, s.loop.pc.c.phase) := s.now]
    ensures Times(s')
  {
    TimesKept(s, s', s.loop.pc.c.subject);
  }

  lemma CallKeepsTimes(s: State, cs: CallStep)
    requires CallEnabled(s, cs)
    ensures var x := s.loop.pc.c.subject;
            x in CallNext(s, cs).actions && SameTimes(s.actions[x], CallNext(s, cs).actions[x])
  {
  }

  lemma CallConfirms(s: State, cs: CallStep)
    requires CallEnabled(s, cs)
    ensures var l, l' := s.log, CallNext(s, cs).log;
            l'.confirmed == l.confirmed || l'.confirmed == l.confirmed[(s.loop.id, s.loop.pc.c.phase) := s.now]
  {
  }

  lemma TimesStart(s: State, rs: RunStep)
    requires Times(s) && Life(s) && Book(s) && Known(s) && RunEnabled(s, rs) && (rs.ReadConfig? || rs.Install?)
    ensures Times(RunNext(s, rs))
  {
    assert Untouched(s.actions[s.loop.id]) by { StartUntouched(s); }
    StartMoves(s, rs);
    HoldTimes(s, RunNext(s, rs));
  }

  lemma StartUntouched(s: State)
    requires Life(s) && Book(s) && Known(s) && s.loop.Busy? && (s.loop.pc.Took? || s.loop.pc.Ready?)
    ensures s.loop.id in s.actions && Untouched(s.actions[s.loop.id])
  {
    OngoingApart(s);
    assert s.loop.id in s.log.asked && Untouched(s.log.asked[s.loop.id]);
    assert AtPoint(s.actions[s.loop.id], s.log.asked[s.loop.id], s.loop.pc);
  }

  lemma StartMoves(s: State, rs: RunStep)
    requires RunEnabled(s, rs) && (rs.ReadConfig? || rs.Install?) && Untouched(s.actions[s.loop.id])
    ensures var s', id := RunNext(s, rs), s.loop.id;
            && s'.loop.Busy? && s'.loop.id == id && SameClocks(s.log, s'.log) && s'.log.begun == s.log.begun
            && id in s'.actions && s'.actions == s.actions[id := s'.actions[id]] && Untouched(s'.actions[id])
  {
    if rs.ReadConfig? { ReadFrames(s); } else { InstallMoves(s); }
  }

  lemma InstallMoves(s: State)
    requires RunEnabled(s, Install) && Untouched(s.actions[s.loop.id])
    ensures var s', id := DoInstall(s), s.loop.id;
            && s'.loop.Busy? && s'.loop.id == id && s'.log == s.log
            && id in s'.actions && s'.actions == s.actions[id := s'.actions[id]] && Untouched(s'.actions[id])
  {
  }

  lemma TimesShutdown(s: State, id: ID)
    requires Times(s) && Book(s) && Known(s) && RunEnabled(s, BeginShutdown(id))
    ensures Times(DoShutdown(s, id))
  {
    assert forall x :: x in s.log.closeStarts ==> x in s.log.begun && x in s.log.asked;
  }

  lemma TimesRun(s: State, rs: RunStep)
    requires Times(s) && Life(s) && Book(s) && Known(s) && RunEnabled(s, rs)
    ensures Times(RunNext(s, rs))
  {
    match rs
    case Dequeue => TimesDequeue(s);
    case BeginShutdown(id) => TimesShutdown(s, id);
    case ReadConfig => TimesStart(s, rs);
    case Install => TimesStart(s, rs);
    case _ => TimesEnd(s, rs);
  }

  lemma TimesDequeue(s: State)
    requires Times(s) && Book(s) && RunEnabled(s, Dequeue)
    ensures Times(DoDequeue(s))
  {
    HeadOnce(s.queue);
  }

  lemma TimesEnd(s: State, rs: RunStep)
    requires Times(s) && RunEnabled(s, rs) && (rs.StopRun? || rs.Reject? || rs.Leave? || rs.Retire?)
    ensures Times(RunNext(s, rs))
  {
  }

  lemma TimesEnv(s: State, e: EnvStep)
    requires Times(s) && Book(s) && Known(s) && EnvEnabled(s, e)
    ensures Times(EnvNext(s, e))
  {
    if e.Request? {
      TimesRequest(s, e);
    } else {
      EnvLogStays(s, e);
    }
  }

  lemma TimesRequest(s: State, e: EnvStep)
    requires Times(s) && Book(s) && Known(s) && EnvEnabled(s, e) && e.Request?
    ensures Times(EnvNext(s, e))
  {
    assert forall x :: x in s.log.closeStarts ==> x in s.log.begun && x in s.log.asked;
  }

  lemma EnvLogStays(s: State, e: EnvStep)
    requires EnvEnabled(s, e) && !e.Request?
    ensures EnvNext(s, e).log == s.log && EnvNext(s, e).actions == s.actions && EnvNext(s, e).loop == s.loop
  {
  }
}
