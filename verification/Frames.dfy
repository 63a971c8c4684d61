/** What each kind of step leaves alone. */
module Frames {
  import opened Options
  import opened Actions
  import opened Machine

  /** Between the installation of the current action and its removal. */
  predicate Inside(pc: ExecPc) { !(pc.Took? || pc.Rejected? || pc.Ready? || pc.Retiring?) }

  /** In the middle of the send calls of one attempt. */
  predicate Partial(l: Loop) {
    l.Busy? && l.pc.Calling? && (l.pc.cp.Begun? || l.pc.cp.ToSend? || l.pc.cp.InSend? || l.pc.cp.Gap?)
  }

  /** Producers, devices, contexts and time touch neither goroutine. */
  ghost predicate EnvFrame(s: State, s': State) {
    && s'.loop == s.loop && s'.ping == s.ping && s'.history == s.history
    && s'.current == s.current && s'.cancelFn == s.cancelFn && s'.execNo == s.execNo && s'.grace == s.grace
    && s'.info.state == s.info.state && s'.info.currentActionID == s.info.currentActionID
    && s'.log == s.log.(asked := s'.log.asked)
    && s'.now >= s.now
  }

  /** attemptWithRetry changes one action, the recorded state and its own logs. */
  ghost predicate CallFrame(s: State, s': State) {
    && s.loop.Busy? && s.loop.pc.Calling?
    && s'.loop.Busy? && s'.loop.id == s.loop.id && s'.loop.pc.Calling? && s'.loop.pc.c == s.loop.pc.c
    && s' == s.(loop := s'.loop, info := s'.info, actions := s'.actions, net := s'.net, log := s'.log)
    && s'.log == s.log.(attempts := s'.log.attempts, sends := s'.log.sends, writes := s'.log.writes,
                        waits := s'.log.waits, published := s'.log.published, verdicts := s'.log.verdicts,
                        stale := s'.log.stale, confirmed := s'.log.confirmed)
    && s'.info.currentActionID == s.info.currentActionID
    && s.loop.id in s.actions && s.loop.pc.c.subject in s.actions && s.loop.pc.c.subject in s'.actions
    && s'.actions == s.actions[s.loop.pc.c.subject := s'.actions[s.loop.pc.c.subject]]
  }

  /** The rest of execute changes its own action, the recorded state, and sends
      nothing. */
  ghost predicate ExecFrame(s: State, s': State) {
    && s.loop.Busy? && s'.loop.Busy? && s'.loop.id == s.loop.id && s.loop.id in s.actions
    && Inside(s.loop.pc) && Inside(s'.loop.pc) && !Partial(s.loop) && !Partial(s'.loop)
    && s' == s.(loop := s'.loop, info := s'.info, actions := s'.actions, log := s'.log)
    && s'.log == s.log.(asked := s'.log.asked, writes := s'.log.writes, timers := s'.log.timers,
                        closeStarts := s'.log.closeStarts)
  }

  /** The ping claims no action slot. */
  ghost predicate PingFrame(s: State, s': State) {
    && s' == s.(ping := s'.ping, info := s'.info, net := s'.net, log := s'.log)
    && s'.log == s.log.(rounds := s'.log.rounds, pings := s'.log.pings, writes := s'.log.writes)
    && s'.info.currentActionID == s.info.currentActionID
  }

  /** Starting and ending executions touches neither devices nor the ping. */
  ghost predicate RunFrame(s: State, s': State) {
    && !Partial(s.loop) && !Partial(s'.loop)
    && s'.now == s.now && s'.rootDone == s.rootDone && s'.info == s.info && s'.net == s.net && s'.ping == s.ping
    && s'.log == s.log.(asked := s'.log.asked, starts := s'.log.starts, begun := s'.log.begun, shut := s'.log.shut,
                        retired := s'.log.retired, finished := s'.log.finished)
  }

  lemma EnvFrames(s: State, e: EnvStep)
    requires EnvEnabled(s, e)
    ensures EnvFrame(s, EnvNext(s, e))
  {
  }

  lemma SameSubject(s: State)
    requires Active(s)
    ensures s.actions == s.actions[s.loop.pc.c.subject := s.actions[s.loop.pc.c.subject]]
  {
  }

  lemma SendEndFrames(s: State, ok: bool)
    requires CallEnabled(s, SendEnd(ok))
    ensures CallFrame(s, DoSendEnd(s, ok))
  {
    SameSubject(s);
  }

  lemma ReceiveFrames(s: State)
    requires CallEnabled(s, Receive)
    ensures CallFrame(s, DoReceive(s))
  {
    SameSubject(s);
  }

  lemma CallFrames(s: State, cs: CallStep)
    requires CallEnabled(s, cs)
    ensures CallFrame(s, CallNext(s, cs))
  {
    SameSubject(s);
    match cs
    case SendEnd(ok) => SendEndFrames(s, ok);
    case Receive => ReceiveFrames(s);
    case _ =>
  }

  lemma CloseFrames(s: State, err: Option<CallError>)
    requires AtPc(s) && Inside(s.loop.pc) && !Partial(s.loop)
    ensures ExecFrame(s, DoFinishClose(s, err))
  {
  }

  lemma DowngradeFrames(s: State, timed: bool)
    requires AtPc(s) && Inside(s.loop.pc) && !Partial(s.loop)
    ensures ExecFrame(s, DoDowngrade(s, timed))
  {
  }

  lemma FailFrames(s: State, c: Call, err: CallError)
    requires AtPc(s) && Inside(s.loop.pc) && !Partial(s.loop)
    ensures ExecFrame(s, DoFail(s, c, err))
  {
  }

  lemma ExecFrames(s: State, xs: ExecStep)
    requires ExecEnabled(s, xs)
    ensures ExecFrame(s, ExecNext(s, xs))
  {
    match xs
    case Fail => FailFrames(s, s.loop.pc.c, s.loop.pc.cp.err.value);
    case FinishClose => CloseFrames(s, s.loop.pc.cp.err);
    case Downgrade => DowngradeFrames(s, s.loop.pc.timed);
    case _ =>
  }

  lemma PingFrames(s: State, ps: PingStep)
    requires PingEnabled(s, ps)
    ensures PingFrame(s, PingNext(s, ps))
  {
  }

  lemma PingWrites(s: State, ps: PingStep)
    requires PingEnabled(s, ps)
    ensures var ws, ws' := s.log.writes, PingNext(s, ps).log.writes;
            if ps.PingApply? then ws' == ws + [Seen(ByPing(RoundNo(s)), false, s.ping.r.w, |s.net.dispatched|)]
            else ws' == ws
  {
  }

  /** Reading the config fixes the action's type and duration, and rejects an
      open of a disabled valve. */
  ghost predicate ReadEffect(s: State, s': State) {
    && AtPc(s) && s.loop.id in s'.actions && s'.loop.Busy? && s'.loop.id == s.loop.id
    && (var a, a', cfg := s.actions[s.loop.id], s'.actions[s.loop.id], s.info.config;
        && a' == Upgrade(a, cfg).(state := a'.state)
        && (if s'.loop.pc.Rejected? then a'.state.Cancelled? && cfg.disabled && a'.HoldsValveOpen()
            else s'.loop.pc == Ready(cfg) && a'.state == a.state && !(cfg.disabled && a'.HoldsValveOpen()))
        && s' == s.(loop := s'.loop, actions := s.actions[s.loop.id := a'],
                    log := s.log.(starts := s.log.starts[s.loop.id := cfg])))
  }

  lemma ReadFrames(s: State)
    requires RunEnabled(s, ReadConfig)
    ensures ReadEffect(s, DoReadConfig(s))
  {
  }

  lemma RunFrames(s: State, rs: RunStep)
    requires RunEnabled(s, rs)
    ensures RunFrame(s, RunNext(s, rs))
  {
  }

  // ----- the log is bookkeeping

  /** No step depends on the log. */
  lemma LogApart(s: State, l: Log, st: Step)
    requires Enabled(s, st)
    ensures Enabled(s.(log := l), st) && Next(s.(log := l), st) == Next(s, st).(log := Next(s.(log := l), st).log)
  {
    match st
    case Env(e) =>
    case OfRun(rs) => LogApartRun(s, l, rs);
    case InCall(cs) => LogApartCall(s, l, cs);
    case Exec(xs) => LogApartExec(s, l, xs);
    case OfPing(ps) => LogApartPing(s, l, ps);
  }

  lemma LogApartRun(s: State, l: Log, rs: RunStep)
    requires RunEnabled(s, rs)
    ensures RunEnabled(s.(log := l), rs)
    ensures RunNext(s.(log := l), rs) == RunNext(s, rs).(log := RunNext(s.(log := l), rs).log)
  {
    match rs
    case ReadConfig => LogApartRead(s, l);
    case Install => LogApartInstall(s, l);
    case _ =>
  }

  lemma LogApartRead(s: State, l: Log)
    requires RunEnabled(s, ReadConfig)
    ensures DoReadConfig(s.(log := l)) == DoReadConfig(s).(log := DoReadConfig(s.(log := l)).log)
  {
    if s.info.config.disabled && Upgrade(s.actions[s.loop.id], s.info.config).HoldsValveOpen() {}
  }

  lemma LogApartInstall(s: State, l: Log)
    requires RunEnabled(s, Install)
    ensures DoInstall(s.(log := l)) == DoInstall(s).(log := l)
  {
  }

  lemma LogApartCall(s: State, l: Log, cs: CallStep)
    requires CallEnabled(s, cs)
    ensures CallEnabled(s.(log := l), cs)
    ensures CallNext(s.(log := l), cs) == CallNext(s, cs).(log := CallNext(s.(log := l), cs).log)
  {
    match cs
    case BeginAttempt => LogApartBegin(s, l);
    case RegisterWaiter => LogApartRegister(s, l);
    case SendEnd(ok) => LogApartSendEnd(s, l, ok);
    case Receive => LogApartReceive(s, l);
    case Apply => LogApartApply(s, l);
    case _ => LogApartMove(s, l, cs);
  }

  lemma LogApartMove(s: State, l: Log, cs: CallStep)
    requires CallEnabled(s, cs) && (cs.GiveUp? || cs.SendBegin? || cs.GapEnd? || cs.ApplyEnd?)
    ensures CallEnabled(s.(log := l), cs)
    ensures CallNext(s.(log := l), cs) == CallNext(s, cs).(log := CallNext(s.(log := l), cs).log)
  {
  }

  lemma LogApartBegin(s: State, l: Log)
    requires CallEnabled(s, BeginAttempt)
    ensures DoBeginAttempt(s.(log := l)) == DoBeginAttempt(s).(log := DoBeginAttempt(s.(log := l)).log)
  {
  }

  lemma LogApartRegister(s: State, l: Log)
    requires CallEnabled(s, RegisterWaiter)
    ensures DoRegister(s.(log := l)) == DoRegister(s).(log := DoRegister(s.(log := l)).log)
  {
  }

  lemma LogApartSendEnd(s: State, l: Log, ok: bool)
    requires CallEnabled(s, SendEnd(ok))
    ensures DoSendEnd(s.(log := l), ok) == DoSendEnd(s, ok).(log := DoSendEnd(s.(log := l), ok).log)
  {
  }

  lemma LogApartReceive(s: State, l: Log)
    requires CallEnabled(s, Receive)
    ensures DoReceive(s.(log := l)) == DoReceive(s).(log := DoReceive(s.(log := l)).log)
  {
  }

  lemma LogApartApply(s: State, l: Log)
    requires CallEnabled(s, Apply)
    ensures DoApply(s.(log := l)) == DoApply(s).(log := DoApply(s.(log := l)).log)
  {
  }

  lemma LogApartExec(s: State, l: Log, xs: ExecStep)
    requires ExecEnabled(s, xs)
    ensures ExecEnabled(s.(log := l), xs)
    ensures ExecNext(s.(log := l), xs) == ExecNext(s, xs).(log := ExecNext(s.(log := l), xs).log)
  {
    match xs
    case Fail => LogApartFail(s, l, s.loop.pc.c, s.loop.pc.cp.err.value);
    case EndHold(closeId) => LogApartEndHold(s, l, s.loop.pc.c, closeId);
    case FinishClose => LogApartFinish(s, l, s.loop.pc.cp.err);
    case Downgrade => LogApartDowngrade(s, l, s.loop.pc.timed);
    case Fulfil => LogApartFulfil(s, l, s.loop.pc.c);
    case AfterFulfil => LogApartAfterFulfil(s, l, s.loop.pc.c, s.loop.pc.t0);
    case _ => LogApartRest(s, l, xs);
  }

  lemma LogApartRest(s: State, l: Log, xs: ExecStep)
    requires ExecEnabled(s, xs)
    requires xs.Announce? || xs.AnnounceEnd? || xs.DowngradeEnd? || xs.Clear? || xs.ClearEnd?
    ensures ExecNext(s.(log := l), xs) == ExecNext(s, xs).(log := ExecNext(s.(log := l), xs).log)
  {
  }

  lemma LogApartFulfil(s: State, l: Log, c: Call)
    requires AtPc(s)
    ensures DoFulfil(s.(log := l), c) == DoFulfil(s, c).(log := l)
  {
  }

  lemma LogApartAfterFulfil(s: State, l: Log, c: Call, t0: int)
    requires AtPc(s)
    ensures DoAfterFulfil(s.(log := l), c, t0) == DoAfterFulfil(s, c, t0).(log := l)
  {
  }

  lemma LogApartFail(s: State, l: Log, c: Call, err: CallError)
    requires AtPc(s)
    ensures DoFail(s.(log := l), c, err) == DoFail(s, c, err).(log := l)
  {
  }

  lemma LogApartEndHold(s: State, l: Log, c: Call, closeId: ID)
    requires AtPc(s)
    ensures var log' := DoEndHold(s.(log := l), c, closeId).log;
            DoEndHold(s.(log := l), c, closeId) == DoEndHold(s, c, closeId).(log := log')
  {
  }

  lemma LogApartFinish(s: State, l: Log, err: Option<CallError>)
    requires AtPc(s)
    ensures DoFinishClose(s.(log := l), err) == DoFinishClose(s, err).(log := l)
  {
  }

  lemma LogApartDowngrade(s: State, l: Log, timed: bool)
    requires AtPc(s)
    ensures DoDowngrade(s.(log := l), timed) == DoDowngrade(s, timed).(log := DoDowngrade(s.(log := l), timed).log)
  {
  }

  lemma LogApartPing(s: State, l: Log, ps: PingStep)
    requires PingEnabled(s, ps)
    ensures PingEnabled(s.(log := l), ps)
    ensures PingNext(s.(log := l), ps) == PingNext(s, ps).(log := PingNext(s.(log := l), ps).log)
  {
    if ps.PingDecide? { LogApartDecide(s, l); }
  }

  lemma LogApartDecide(s: State, l: Log)
    requires PingEnabled(s, PingDecide)
    ensures DoPingDecide(s.(log := l)) == DoPingDecide(s).(log := DoPingDecide(s.(log := l)).log)
  {
  }
}
