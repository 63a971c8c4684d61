/** The two goroutines of one valve's pipeline (internal/scheduler/pipeline.go)
    and everything that acts on them, as a step system. A step holds at most one
    critical section or one access to a context, channel or the dispatcher, with
    the local code around it. Status writes and publishes are a begin and an end
    step, so anything may happen while they block. Time passes only in Tick. */
module Machine {
  import opened Options
  import opened Device
  import opened Actions
  import Q = ActionQueues
  import W = Waiters

  const SEND_GAP := 500
  const STATUS_LIMIT := 10_000
  const CLOSE_LIMIT := 120_000
  const PING_TIMEOUT := 30_000
  const HISTORY_LIMIT := 100

  /** The two calls of attemptWithRetry in execute: lines 195 and 245. */
  datatype Phase = Primary | Shutoff

  /** Parameters of one attemptWithRetry call. subject is the action whose State
      and Attempts the call updates; deadline is that of its context. */
  datatype Call = Call(
    subject: ID, phase: Phase, power: bool,
    retries: int, timeout: int, deadline: Option<int>)

  /** Locals of one loop iteration of attemptWithRetry. */
  datatype Attempt = Attempt(
    n: nat, bridge: string, target: string, sends: nat, w: nat, i: nat, published: bool)

  datatype CallPc =
    | Head(n: nat)                          // line 280
    | Begun(at: Attempt)                    // line 309
    | ToSend(at: Attempt)                   // line 322
    | InSend(at: Attempt)                   // inside SendZbSend
    | Gap(at: Attempt, until: int)          // lines 317-320
    | Receiving(at: Attempt)                // line 334
    | Proved(at: Attempt)                   // line 337
    | Applying(until: int)                  // line 379
    | Returned(err: Option<CallError>)

  datatype ExecPc =
    | Took                                  // line 160
    | Rejected                              // line 173
    | Ready(cfg: ValveConfig)               // line 177
    | Calling(c: Call, cp: CallPc)          // inside attemptWithRetry
    | Done(c: Call, t0: int)                // line 231
    | Expiring(c: Call, t0: int)            // line 235
    | Announcing(c: Call, t0: int, until: int)  // line 494, id set
    | Holding(c: Call, t0: int, until: int) // lines 237-240
    | Unconfirmed(timed: bool)              // lines 206 and 266
    | Downgrading(timed: bool, until: int)  // line 409
    | Clearing(timed: bool)                 // line 272
    | Cleared(until: int)                   // line 494, id cleared
    | Leaving                               // line 184
    | Retiring                              // line 189

  /** The goroutine of run: in its select, returned, or executing an action. */
  datatype Loop = Idle | Stopped | Busy(id: ID, pc: ExecPc)

  /** Locals of one keepClosedPing call that was not suppressed. */
  datatype Round = Round(bridge: string, target: string, timeout: int, sends: nat, w: nat, i: nat)

  datatype PingPc =
    | PBegun | PToSend | PInSend | PGap(until: int) | PReceiving
    | PProved                               // line 467
    | PGranted                              // line 468
    | PWriting(until: int)

  datatype Ping =
    | PIdle
    | Snapped(cur: Option<ID>, seen: ValveInfo)  // line 425
    | InRound(r: Round, pp: PingPc)

  /** History of the run. */
  datatype Send = Send(id: ID, phase: Phase, n: nat, i: nat, power: bool, bridge: string, target: string, time: int)
  /** seen is the info the attempt read, base the number of sends before it, since the
      number of events dispatched before it; late says that its context had ended. */
  datatype AttemptLog = AttemptLog(
    id: ID, phase: Phase, n: nat, power: bool, seen: ValveInfo, base: nat, since: nat, late: bool)
  datatype PingSend = PingSend(bridge: string, target: string, time: int)
  datatype RoundLog = RoundLog(seen: ValveInfo, base: nat, since: nat)
  /** Attempt number k of the log, or ping round number k. */
  datatype Writer = ByAction(id: ID, phase: Phase, k: nat) | ByPing(k: nat)
  /** w is the waiter a confirmation rests on, upto the number of events dispatched
      before the write. */
  datatype Write = Seen(who: Writer, open: bool, w: nat, upto: nat) | CloseFailed(id: ID)
  datatype CloseStart = CloseStart(time: int, cancelled: bool)

  datatype Log = Log(
    initial: ValveState,             // the recorded state at creation
    initialID: string,               // the announced id at creation
    asked: map<ID, Action>,          // every action as it was created
    starts: map<ID, ValveConfig>,    // the config each execution read at line 160
    begun: seq<ID>,                  // executions started
    shut: seq<ID>,                   // ... of which by the shutdown path
    retired: seq<ID>,                // executions ended
    finished: seq<ID>,               // ... of which entered the history
    attempts: seq<AttemptLog>,
    waits: map<nat, nat>,            // the waiter of each attempt
    published: set<nat>,             // attempts with a successful publish
    verdicts: map<nat, bool>,        // ended attempts, and whether they succeeded
    stale: map<nat, bool>,           // ... and whether their context had ended by then
    sends: seq<Send>,                // SendZbSend calls of the action loop
    rounds: seq<RoundLog>,
    pings: seq<PingSend>,            // SendZbSend calls of the ping
    writes: seq<Write>,              // writes of the recorded valve state
    confirmed: map<(ID, Phase), int>,  // when the confirmation of a command, or of its close, was recorded
    timers: map<ID, int>,            // when the timer of a timed open was started
    closeStarts: map<ID, CloseStart>)

  function NoLog(initial: ValveState, initialID: string): Log {
    Log(initial, initialID, map[], map[], [], [], [], [], [], map[], {}, map[], map[], [], [], [], [],
        map[], map[], map[])
  }

  datatype State = State(
    now: int,
    info: ValveInfo,
    current: Option<ID>,
    cancelFn: Option<nat>,           // the action context the function cancels
    execNo: nat,                     // number of the newest action context
    cancelled: bool,                 // whether that context was cancelled
    grace: Option<int>,              // deadline of the shutdown context, once in use
    rootDone: bool,                  // the pipeline's own context ended
    actions: map<ID, Action>,
    history: seq<ID>,
    queue: Q.Queue,
    net: W.Net,
    loop: Loop,
    ping: Ping,
    log: Log)

  /** Producers, reconcilers, devices, contexts, time. */
  datatype EnvStep =
    | Tick(to: int)
    | UpdateConfig(spec: ValveInfo)
    | UpdateSensors(ev: SensorEvent)
    | Request(id: ID, typ: ActionType, duration: int)
    | QueueTry(id: ID) | QueueDiscard(id: ID) | QueuePush(id: ID)
    | DispatchEvent(ev: SensorEvent)
    | HandlerCall(d: W.Delivery)
    | WaiterTimeout(w: nat)
    | RunUnsubscribe(w: nat)
    | CancelRoot

  /** The action loop inside attemptWithRetry. */
  datatype CallStep =
    | BeginAttempt | GiveUp | RegisterWaiter | SendBegin | SendEnd(ok: bool) | GapEnd
    | Receive | Apply | ApplyEnd

  /** The action loop in run, and where execute starts and ends. */
  datatype RunStep =
    | Dequeue | BeginShutdown(id: ID) | StopRun
    | ReadConfig | Reject | Install | Leave | Retire

  /** The action loop in the rest of execute. */
  datatype ExecStep =
    | Fail | Fulfil | AfterFulfil | Announce | AnnounceEnd | EndHold(closeId: ID) | FinishClose
    | Downgrade | DowngradeEnd | Clear | ClearEnd

  /** The keep-closed ping. */
  datatype PingStep =
    | PingSnapshot | PingDecide | PingRegister | PingSendBegin | PingSendEnd | PingGapEnd
    | PingReceive | PingCheck | PingApply | PingWriteEnd

  datatype Step =
    Env(e: EnvStep) | OfRun(rs: RunStep) | InCall(cs: CallStep) | Exec(xs: ExecStep) | OfPing(ps: PingStep)

  // ----- contexts

  /** The context of the newest action (line 177) is done. */
  predicate ExecDone(s: State) {
    s.cancelled || (if s.grace.None? then s.rootDone else s.now >= s.grace.value)
  }

  /** ctx.Err() != nil inside attemptWithRetry. */
  predicate CallDone(s: State, c: Call) {
    if c.phase.Primary? then ExecDone(s) else c.deadline.Some? && s.now >= c.deadline.value
  }

  predicate WaiterDone(s: State, w: W.Waiter) {
    || w.stopped
    || s.now >= w.deadline
    || (w.scope.ActionScope? && (w.scope.exec != s.execNo || ExecDone(s)))
    || (w.scope.PingScope? && s.rootDone)
  }

  /** The deadline of a child context: never later than its parent's. */
  function WaitDeadline(now: int, timeout: int, parent: Option<int>): int {
    if parent.Some? && parent.value < now + timeout then parent.value else now + timeout
  }

  predicate Settled(s: State, w: nat) { w < |s.net.waiters| && s.net.waiters[w].outcome.Some? }

  predicate ConfirmedW(s: State, w: nat) { Settled(s, w) && s.net.waiters[w].outcome.value.Confirmed? }

  predicate Fresh(s: State, id: ID) { id != "" && id !in s.actions }

  // ----- shared updates

  function SetAction(s: State, id: ID, a: Action): State { s.(actions := s.actions[id := a]) }

  /** applyDeviceState, lines 352-364. */
  function Recorded(info: ValveInfo, open: bool, now: int): ValveInfo {
    if open then info.(state := ValveOpen, lastOpenTime := Some(now))
    else info.(state := ValveClosed, lastCloseTime := Some(now))
  }

  function ApplyState(s: State, who: Writer, open: bool, w: nat): State {
    s.(info := Recorded(s.info, open, s.now),
       log := s.log.(writes := s.log.writes + [Seen(who, open, w, |s.net.dispatched|)]))
  }

  /** addToHistory. */
  function Pushed(history: seq<ID>, id: ID): seq<ID> {
    var h := [id] + history;
    if |h| > HISTORY_LIMIT then h[..HISTORY_LIMIT] else h
  }

  /** Where the loop goes after an execution: run returns after the shutdown's. */
  function Rest(s: State): Loop { if s.grace.Some? then Stopped else Idle }

  /** The loop is inside execute at pc. */
  predicate AtPc(s: State) { s.loop.Busy? && s.loop.id in s.actions }

  /** The loop is inside attemptWithRetry. */
  predicate Active(s: State) { AtPc(s) && s.loop.pc.Calling? && s.loop.pc.c.subject in s.actions }

  // ----- steps of the environment

  predicate EnvEnabled(s: State, st: EnvStep) {
    match st
    case Tick(to) => s.now <= to
    case UpdateConfig(_) => true
    case UpdateSensors(_) => true
    case Request(id, typ, duration) =>
      Fresh(s, id) && Q.CanQ(s.queue, Q.QStep.Call(id)) && (typ.OpenTimed? ==> duration > 0)
    case QueueTry(id) => Q.CanQ(s.queue, Q.Try(id))
    case QueueDiscard(id) => Q.CanQ(s.queue, Q.Discard(id))
    case QueuePush(id) => Q.CanQ(s.queue, Q.Push(id))
    case DispatchEvent(_) => true
    case HandlerCall(d) => d in s.net.inflight
    case WaiterTimeout(w) => w < |s.net.waiters| && s.net.waiters[w].outcome.None? && WaiterDone(s, s.net.waiters[w])
    case RunUnsubscribe(w) => w in s.net.live && ConfirmedW(s, w)
    case CancelRoot => true
  }

  /** newAction and lines 65-69 of Enqueue. */
  function DoRequest(s: State, id: ID, typ: ActionType, duration: int): State
    requires Q.CanQ(s.queue, Q.QStep.Call(id))
  {
    var a := NewAction(id, s.info, typ, duration, s.now);
    s.(actions := s.actions[id := a],
       cancelled := s.cancelled || (typ.Close? && s.cancelFn == Some(s.execNo)),
       queue := Q.NextQ(s.queue, Q.QStep.Call(id)),
       log := s.log.(asked := s.log.asked[id := a]))
  }

  function EnvNext(s: State, st: EnvStep): State
    requires EnvEnabled(s, st)
  {
    match st
    case Tick(to) => s.(now := to)
    case UpdateConfig(spec) => s.(info := WithSpec(s.info, spec))
    case UpdateSensors(ev) => s.(info := WithSensors(s.info, ev))
    case Request(id, typ, duration) => DoRequest(s, id, typ, duration)
    case QueueTry(id) => s.(queue := Q.NextQ(s.queue, Q.Try(id)))
    case QueueDiscard(id) => s.(queue := Q.NextQ(s.queue, Q.Discard(id)))
    case QueuePush(id) => s.(queue := Q.NextQ(s.queue, Q.Push(id)))
    case DispatchEvent(ev) => s.(net := W.Dispatch(s.net, ev))
    case HandlerCall(d) => s.(net := W.Deliver(s.net, d))
    case WaiterTimeout(w) => s.(net := W.Expire(s.net, w))
    case RunUnsubscribe(w) => s.(net := W.Unsubscribe(s.net, w))
    case CancelRoot => s.(rootDone := true)
  }

  // ----- steps of attemptWithRetry

  predicate CallEnabled(s: State, st: CallStep) {
    Active(s) &&
    var c, cp := s.loop.pc.c, s.loop.pc.cp;
    match st
    case BeginAttempt => cp.Head? && cp.n < c.retries
    case GiveUp => cp.Head? && cp.n >= c.retries
    case RegisterWaiter => cp.Begun?
    case SendBegin => cp.ToSend?
    case SendEnd(_) => cp.InSend? && cp.at.w < |s.net.waiters|
    case GapEnd => cp.Gap? && cp.at.w < |s.net.waiters| && (s.now >= cp.until || WaiterDone(s, s.net.waiters[cp.at.w]))
    case Receive => cp.Receiving? && Settled(s, cp.at.w)
    case Apply => cp.Proved?
    case ApplyEnd => cp.Applying?
  }

  /** Number of the attempt being made. */
  function AttemptNo(s: State): nat { if s.log.attempts == [] then 0 else |s.log.attempts| - 1 }

  function Judge(log: Log, k: nat, success: bool, ended: bool): Log {
    log.(verdicts := log.verdicts[k := success], stale := log.stale[k := ended])
  }

  /** The entry of the attempt about to begin. */
  function NewAttempt(s: State): AttemptLog
    requires s.loop.Busy? && s.loop.pc.Calling? && s.loop.pc.cp.Head?
  {
    var c := s.loop.pc.c;
    AttemptLog(s.loop.id, c.phase, s.loop.pc.cp.n, c.power, s.info, |s.log.sends|, |s.net.dispatched|, CallDone(s, c))
  }

  function At(s: State, cp: CallPc): State
    requires s.loop.Busy? && s.loop.pc.Calling?
  {
    s.(loop := Busy(s.loop.id, Calling(s.loop.pc.c, cp)))
  }

  /** Lines 290-302. */
  function DoBeginAttempt(s: State): State
    requires Active(s) && s.loop.pc.cp.Head?
  {
    var c, n := s.loop.pc.c, s.loop.pc.cp.n;
    var sends := if c.power then 1 else s.info.CloseSends();
    var at := Attempt(n, s.info.bridgeName, s.info.CommandTarget(), sends, 0, 0, false);
    var a := s.actions[c.subject].(attempts := n + 1, lastAttempt := Some(s.now));
    At(SetAction(s, c.subject, a), Begun(at)).(
      log := s.log.(attempts := s.log.attempts + [NewAttempt(s)]))
  }

  /** The waiter of an attempt, lines 305-310. */
  function WithWaiter(net: W.Net, c: Call, at: Attempt, now: int, execNo: nat): W.Net {
    var scope := if c.phase.Primary? then W.ActionScope(execNo) else W.CloseScope;
    W.Register(net, at.target, if c.power then 1 else 0, WaitDeadline(now, c.timeout, c.deadline), scope)
  }

  /** Lines 305-312. */
  function DoRegister(s: State): State
    requires Active(s) && s.loop.pc.cp.Begun?
  {
    var c, at := s.loop.pc.c, s.loop.pc.cp.at;
    At(SetAction(s, c.subject, s.actions[c.subject].(state := WaitingConfirmation)),
       ToSend(at.(w := |s.net.waiters|))).(
      net := WithWaiter(s.net, c, at, s.now, s.execNo),
      log := s.log.(waits := s.log.waits[AttemptNo(s) := |s.net.waiters|]))
  }

  function DoSendBegin(s: State): State
    requires Active(s) && s.loop.pc.cp.ToSend?
  {
    var c, at := s.loop.pc.c, s.loop.pc.cp.at;
    At(s, InSend(at)).(
      log := s.log.(sends := s.log.sends +
                    [Send(s.loop.id, c.phase, at.n, at.i, c.power, at.bridge, at.target, s.now)]))
  }

  /** Where an attempt goes after a send call. */
  function AfterSend(at: Attempt, now: int): CallPc {
    if at.i < at.sends then Gap(at, now + SEND_GAP) else if at.published then Receiving(at) else Head(at.n + 1)
  }

  /** All send calls are made and none of the publishes went through. */
  predicate Lost(at: Attempt) { at.i >= at.sends && !at.published }

  function SendEndLog(log: Log, k: nat, ok: bool, lost: bool, ended: bool): Log {
    log.(published := if ok then log.published + {k} else log.published,
         verdicts := if lost then log.verdicts[k := false] else log.verdicts,
         stale := if lost then log.stale[k := ended] else log.stale)
  }

  /** The waiter of a lost attempt is cancelled. */
  function SentNet(net: W.Net, at: Attempt): W.Net
    requires at.w < |net.waiters|
  {
    if Lost(at) then W.Stop(net, at.w) else net
  }

  /** Lines 322-332. */
  function DoSendEnd(s: State, ok: bool): State
    requires Active(s) && s.loop.pc.cp.InSend? && s.loop.pc.cp.at.w < |s.net.waiters|
  {
    var at := s.loop.pc.cp.at.(i := s.loop.pc.cp.at.i + 1, published := s.loop.pc.cp.at.published || ok);
    At(s, AfterSend(at, s.now)).(
      net := SentNet(s.net, at),
      log := SendEndLog(s.log, AttemptNo(s), ok, Lost(at), CallDone(s, s.loop.pc.c)))
  }

  /** Where an attempt goes after the receive: ended means ctx.Err() != nil. */
  function AfterReceive(at: Attempt, confirmed: bool, ended: bool): CallPc {
    if confirmed then Proved(at) else if ended then Returned(Some(ContextEnded)) else Head(at.n + 1)
  }

  /** Lines 334-344. */
  function DoReceive(s: State): State
    requires Active(s) && s.loop.pc.cp.Receiving? && Settled(s, s.loop.pc.cp.at.w)
  {
    var c, at := s.loop.pc.c, s.loop.pc.cp.at;
    var confirmed, ended := s.net.waiters[at.w].outcome.value.Confirmed?, CallDone(s, c);
    At(s, AfterReceive(at, confirmed, ended)).(
      net := W.Stop(s.net, at.w),
      actions := if !confirmed && ended then s.actions[c.subject := s.actions[c.subject].(state := Cancelled)]
          else s.actions,
      log := if confirmed then s.log else Judge(s.log, AttemptNo(s), false, ended))
  }

  function Confirm(log: Log, id: ID, phase: Phase, now: int): Log {
    log.(confirmed := log.confirmed[(id, phase) := now])
  }

  /** Lines 337-379. */
  function DoApply(s: State): State
    requires Active(s) && s.loop.pc.cp.Proved?
  {
    var c, k := s.loop.pc.c, AttemptNo(s);
    var s1 := ApplyState(s, ByAction(s.loop.id, c.phase, k), c.power, s.loop.pc.cp.at.w);
    At(s1, Applying(s.now + STATUS_LIMIT)).(
      log := Confirm(Judge(s1.log, k, true, CallDone(s, c)), s.loop.id, c.phase, s.now))
  }

  function CallNext(s: State, st: CallStep): State
    requires CallEnabled(s, st)
  {
    var c, cp := s.loop.pc.c, s.loop.pc.cp;
    match st
    case BeginAttempt => DoBeginAttempt(s)
    case GiveUp => At(s, Returned(Some(NoConfirmation(c.retries))))
    case RegisterWaiter => DoRegister(s)
    case SendBegin => DoSendBegin(s)
    case SendEnd(ok) => DoSendEnd(s, ok)
    case GapEnd => At(s, ToSend(cp.at))
    case Receive => DoReceive(s)
    case Apply => DoApply(s)
    case ApplyEnd => At(s, Returned(None))
  }

  // ----- steps of run, and of execute outside attemptWithRetry

  predicate RunEnabled(s: State, st: RunStep) {
    match st
    case Dequeue => s.loop.Idle? && s.queue.items != [] && s.queue.items[0] in s.actions
    case BeginShutdown(id) => s.loop.Idle? && s.rootDone && s.info.state.ValveOpen? && Fresh(s, id)
    case StopRun => s.loop.Idle? && s.rootDone && !s.info.state.ValveOpen?
    case ReadConfig => AtPc(s) && s.loop.pc.Took?
    case Reject => AtPc(s) && s.loop.pc.Rejected?
    case Install => AtPc(s) && s.loop.pc.Ready?
    case Leave => AtPc(s) && s.loop.pc.Leaving?
    case Retire => AtPc(s) && s.loop.pc.Retiring?
  }

  function To(s: State, pc: ExecPc): State
    requires s.loop.Busy?
  {
    s.(loop := Busy(s.loop.id, pc))
  }

  function DoDequeue(s: State): State
    requires s.queue.items != []
  {
    var id := s.queue.items[0];
    s.(queue := Q.NextQ(s.queue, Q.Take), loop := Busy(id, Took), log := s.log.(begun := s.log.begun + [id]))
  }

  function DoShutdown(s: State, id: ID): State {
    var a := NewAction(id, s.info, ActionType.Close, 0, s.now);
    s.(actions := s.actions[id := a], grace := Some(s.now + CLOSE_LIMIT), loop := Busy(id, Took),
       log := s.log.(asked := s.log.asked[id := a], begun := s.log.begun + [id], shut := s.log.shut + [id]))
  }

  /** Lines 160-172. */
  function DoReadConfig(s: State): State
    requires AtPc(s)
  {
    var id, cfg := s.loop.id, s.info.config;
    var a := Upgrade(s.actions[id], cfg);
    var s1 := s.(log := s.log.(starts := s.log.starts[id := cfg]));
    if cfg.disabled && a.HoldsValveOpen()
    then To(SetAction(s1, id, a.(state := Cancelled)), Rejected)
    else To(SetAction(s1, id, a), Ready(cfg))
  }

  /** Line 173, or the end of execute. */
  function DoRetire(s: State, id: ID, listed: bool): State {
    s.(history := if listed then Pushed(s.history, id) else s.history,
       loop := Rest(s),
       log := s.log.(retired := s.log.retired + [id],
                     finished := if listed then s.log.finished + [id] else s.log.finished))
  }

  /** Lines 177-181 and 278. */
  function DoInstall(s: State): State
    requires AtPc(s) && s.loop.pc.Ready?
  {
    var id, cfg := s.loop.id, s.loop.pc.cfg;
    var a := s.actions[id];
    var c := Call(id, Primary, Power(a.typ), cfg.retryCount, cfg.commandTimeout, s.grace);
    To(SetAction(s, id, a.(state := Sending)), Calling(c, Head(0))).(
      execNo := s.execNo + 1, cancelled := false, cancelFn := Some(s.execNo + 1), current := Some(id))
  }

  function RunNext(s: State, st: RunStep): State
    requires RunEnabled(s, st)
  {
    match st
    case Dequeue => DoDequeue(s)
    case BeginShutdown(id) => DoShutdown(s, id)
    case StopRun => s.(loop := Stopped)
    case ReadConfig => DoReadConfig(s)
    case Reject => DoRetire(s, s.loop.id, true)
    case Install => DoInstall(s)
    case Leave => To(s, Retiring).(cancelled := true, cancelFn := None, current := None)
    case Retire => DoRetire(s, s.loop.id, !s.actions[s.loop.id].IsInternalSafetyPing())
  }

  predicate ExecEnabled(s: State, st: ExecStep) {
    AtPc(s) &&
    var pc := s.loop.pc;
    match st
    case Fail => pc.Calling? && pc.c.phase.Primary? && pc.cp.Returned? && pc.cp.err.Some?
    case Fulfil => pc.Calling? && pc.c.phase.Primary? && pc.cp.Returned? && pc.cp.err.None?
    case AfterFulfil => pc.Done?
    case Announce => pc.Expiring?
    case AnnounceEnd => pc.Announcing?
    case EndHold(closeId) => pc.Holding? && (s.now >= pc.until || ExecDone(s)) && Fresh(s, closeId)
    case FinishClose => pc.Calling? && pc.c.phase.Shutoff? && pc.cp.Returned?
    case Downgrade => pc.Unconfirmed?
    case DowngradeEnd => pc.Downgrading?
    case Clear => pc.Clearing?
    case ClearEnd => pc.Cleared?
  }

  /** Lines 196-209. */
  function DoFail(s: State, c: Call, err: CallError): State
    requires AtPc(s)
  {
    var a := s.actions[s.loop.id];
    if a.state.Cancelled? then To(s, Leaving)
    else
      To(SetAction(s, s.loop.id, a.(state := Failed, failedAt := Some(s.now), errorMessage := CommandFailed(err))),
         if c.power then Leaving else Unconfirmed(false))
  }

  /** Lines 219-221. */
  function DoFulfil(s: State, c: Call): State
    requires AtPc(s)
  {
    To(SetAction(s, s.loop.id, s.actions[s.loop.id].(fulfilledAt := Some(s.now), state := Fulfilled)), Done(c, s.now))
  }

  /** Lines 231-234, or straight to line 272. */
  function DoAfterFulfil(s: State, c: Call, t0: int): State
    requires AtPc(s)
  {
    var a := s.actions[s.loop.id];
    if a.typ.OpenTimed?
    then To(SetAction(s, s.loop.id, a.(expiresAt := Some(t0 + a.duration), state := Closing)), Expiring(c, t0))
    else To(s, Clearing(false))
  }

  /** Lines 243-245. */
  function DoEndHold(s: State, c: Call, closeId: ID): State
    requires AtPc(s)
  {
    var a := NewAction(closeId, s.info, ActionType.Close, 0, s.now).(state := Sending);
    var c' := Call(closeId, Shutoff, false, c.retries, c.timeout, Some(s.now + CLOSE_LIMIT));
    To(SetAction(s, closeId, a), Calling(c', Head(0))).(
      log := s.log.(asked := s.log.asked[closeId := a],
                    closeStarts := s.log.closeStarts[s.loop.id := CloseStart(s.now, ExecDone(s))]))
  }

  /** Lines 251-269. */
  function DoFinishClose(s: State, err: Option<CallError>): State
    requires AtPc(s)
  {
    var a := s.actions[s.loop.id].(closedAt := Some(s.now));
    if err.None? then To(SetAction(s, s.loop.id, a.(state := Fulfilled)), Clearing(true))
    else To(SetAction(s, s.loop.id,
                      a.(state := Failed, failedAt := Some(s.now), errorMessage := CloseNotConfirmed(err.value))),
            Unconfirmed(true))
  }

  function AfterDowngrade(timed: bool): ExecPc { if timed then Clearing(true) else Leaving }

  /** markCloseUnconfirmed, lines 394-402. */
  function DoDowngrade(s: State, timed: bool): State
    requires AtPc(s)
  {
    if s.info.state.ValveClosed? then
      To(s, Downgrading(timed, s.now + STATUS_LIMIT)).(
        info := s.info.(state := ValveUnknown),
        log := s.log.(writes := s.log.writes + [CloseFailed(s.loop.id)]))
    else To(s, AfterDowngrade(timed))
  }

  function ExecNext(s: State, st: ExecStep): State
    requires ExecEnabled(s, st)
  {
    var pc := s.loop.pc;
    match st
    case Fail => DoFail(s, pc.c, pc.cp.err.value)
    case Fulfil => DoFulfil(s, pc.c)
    case AfterFulfil => DoAfterFulfil(s, pc.c, pc.t0)
    case Announce =>
      To(s, Announcing(pc.c, pc.t0, s.now + STATUS_LIMIT)).(info := s.info.(currentActionID := s.loop.id))
    case AnnounceEnd =>
      To(s, Holding(pc.c, pc.t0, s.now + s.actions[s.loop.id].duration)).(
        log := s.log.(timers := s.log.timers[s.loop.id := s.now]))
    case EndHold(closeId) => DoEndHold(s, pc.c, closeId)
    case FinishClose => DoFinishClose(s, pc.cp.err)
    case Downgrade => DoDowngrade(s, pc.timed)
    case DowngradeEnd => To(s, AfterDowngrade(pc.timed))
    case Clear => To(s, Cleared(s.now + STATUS_LIMIT)).(info := s.info.(currentActionID := ""))
    case ClearEnd => To(s, Leaving)
  }

  // ----- steps of keepClosedPing

  /** Line 425: an action that holds the valve open is in flight. */
  predicate Suppressed(s: State, cur: Option<ID>) {
    cur.Some? && cur.value in s.actions && !s.actions[cur.value].IsTerminal() && s.actions[cur.value].HoldsValveOpen()
  }

  /** Line 467: no action is in flight. */
  predicate Free(s: State) {
    s.current.None? || (s.current.value in s.actions && s.actions[s.current.value].IsTerminal())
  }

  predicate PingEnabled(s: State, st: PingStep) {
    match st
    case PingSnapshot => s.ping.PIdle?
    case PingDecide => s.ping.Snapped?
    case PingRegister => s.ping.InRound? && s.ping.pp.PBegun?
    case PingSendBegin => s.ping.InRound? && s.ping.pp.PToSend?
    case PingSendEnd => s.ping.InRound? && s.ping.pp.PInSend?
    case PingGapEnd =>
      s.ping.InRound? && s.ping.pp.PGap? && s.ping.r.w < |s.net.waiters| &&
      (s.now >= s.ping.pp.until || WaiterDone(s, s.net.waiters[s.ping.r.w]))
    case PingReceive => s.ping.InRound? && s.ping.pp.PReceiving? && Settled(s, s.ping.r.w)
    case PingCheck => s.ping.InRound? && s.ping.pp.PProved?
    case PingApply => s.ping.InRound? && s.ping.pp.PGranted?
    case PingWriteEnd => s.ping.InRound? && s.ping.pp.PWriting?
  }

  /** What a round takes from its snapshot: lines 429, 433-436 and 444-447. */
  function RoundOf(seen: ValveInfo): Round {
    var timeout := if seen.config.commandTimeout <= 0 then PING_TIMEOUT else seen.config.commandTimeout;
    Round(seen.bridgeName, seen.CommandTarget(), timeout, seen.CloseSends(), 0, 0)
  }

  function DoPingDecide(s: State): State
    requires s.ping.Snapped?
  {
    var seen := s.ping.seen;
    if Suppressed(s, s.ping.cur) then s.(ping := PIdle)
    else
      s.(ping := InRound(RoundOf(seen), PBegun),
         log := s.log.(rounds := s.log.rounds + [RoundLog(seen, |s.log.pings|, |s.net.dispatched|)]))
  }

  /** Number of the round being made. */
  function RoundNo(s: State): nat { if s.log.rounds == [] then 0 else |s.log.rounds| - 1 }

  function DoPingSendEnd(s: State): State
    requires s.ping.InRound?
  {
    var r := s.ping.r.(i := s.ping.r.i + 1);
    s.(ping := InRound(r, if r.i < r.sends then PGap(s.now + SEND_GAP) else PReceiving))
  }

  function PingNext(s: State, st: PingStep): State
    requires PingEnabled(s, st)
  {
    match st
    case PingSnapshot => s.(ping := Snapped(s.current, s.info))
    case PingDecide => DoPingDecide(s)
    case PingRegister =>
      s.(net := W.Register(s.net, s.ping.r.target, 0, s.now + s.ping.r.timeout, W.PingScope),
         ping := InRound(s.ping.r.(w := |s.net.waiters|), PToSend))
    case PingSendBegin =>
      s.(ping := s.ping.(pp := PInSend),
         log := s.log.(pings := s.log.pings + [PingSend(s.ping.r.bridge, s.ping.r.target, s.now)]))
    case PingSendEnd => DoPingSendEnd(s)
    case PingGapEnd => s.(ping := s.ping.(pp := PToSend))
    case PingReceive =>
      s.(net := W.Stop(s.net, s.ping.r.w),
         ping := if ConfirmedW(s, s.ping.r.w) then s.ping.(pp := PProved) else PIdle)
    case PingCheck =>
      s.(ping := if Free(s) then s.ping.(pp := PGranted) else PIdle)
    case PingApply =>
      ApplyState(s, ByPing(RoundNo(s)), false, s.ping.r.w).(ping := s.ping.(pp := PWriting(s.now + STATUS_LIMIT)))
    case PingWriteEnd => s.(ping := PIdle)
  }

  // ----- runs

  predicate Enabled(s: State, st: Step) {
    match st
    case Env(e) => EnvEnabled(s, e)
    case OfRun(rs) => RunEnabled(s, rs)
    case InCall(cs) => CallEnabled(s, cs)
    case Exec(xs) => ExecEnabled(s, xs)
    case OfPing(ps) => PingEnabled(s, ps)
  }

  function Next(s: State, st: Step): State
    requires Enabled(s, st)
  {
    match st
    case Env(e) => EnvNext(s, e)
    case OfRun(rs) => RunNext(s, rs)
    case InCall(cs) => CallNext(s, cs)
    case Exec(xs) => ExecNext(s, xs)
    case OfPing(ps) => PingNext(s, ps)
  }

  /** A pipeline just created for a registered valve (newPipeline). */
  ghost predicate Init(s: State) {
    && s.current.None? && s.cancelFn.None? && s.execNo == 0 && !s.cancelled && s.grace.None?
    && s.actions == map[] && s.history == [] && s.queue == Q.EMPTY && s.net == W.QUIET
    && s.loop.Idle? && s.ping.PIdle? && s.log == NoLog(s.info.state, s.info.currentActionID)
  }

  ghost predicate Run(s: State, steps: seq<Step>, s': State)
    decreases |steps|, 1
  {
    if steps == [] then s' == s else RunOn(s, steps, s')
  }

  /** The first step of a run can be made, and the rest goes on from there. */
  ghost predicate RunOn(s: State, steps: seq<Step>, s': State)
    requires steps != []
    decreases |steps|, 0
  {
    Enabled(s, steps[0]) && Run(Next(s, steps[0]), steps[1..], s')
  }
}
