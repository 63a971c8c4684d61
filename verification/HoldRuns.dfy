/** Three runs of a timed open. In two the ping disturbs it while it is being held: it
    decides while the open is briefly fulfilled, or it was granted its write before. In
    the third the status writes delay its timer. All three are prompt. */
module HoldRuns {
  import opened Options
  import opened Device
  import opened Actions
  import opened DispatchKeys
  import opened Machine
  import opened Reachability
  import Timing
  import Q = ActionQueues
  import W = Waiters

  predicate Plain(info: ValveInfo) {
    && info.config.(maxOpenDuration := 0) == ValveConfig(false, 1, 30_000, 300_000, 0, 1)
    && info.shortAddr == "" && info.friendlyName != ""
  }

  /** Only the open id, of duration d, is known, and it is at pc. */
  ghost predicate At(s: State, id: ID, d: int, pc: ExecPc) {
    && PromptlyReachable(s) && s.loop == Busy(id, pc) && Plain(s.info) && s.grace.None? && !s.cancelled
    && s.actions.Keys == {id} && s.actions[id].typ.OpenTimed? && s.actions[id].duration == d
    && id in s.log.starts && s.log.starts[id].maxOpenDuration == s.info.config.maxOpenDuration
    && id in s.log.asked && s.log.asked[id].typ.OpenTimed? && s.log.asked[id].duration == d
  }

  /** Nothing happened to the ping, the pipeline's context and the limit. */
  ghost predicate Beside(s: State, s': State) {
    && s'.ping == s.ping && s'.log.pings == s.log.pings && s'.rootDone == s.rootDone
    && s'.info.config == s.info.config
  }

  lemma Does(s: State, st: Step) returns (s': State)
    requires PromptlyReachable(s) && Enabled(s, st) && !(st.Env? && st.e.Tick?)
    ensures PromptlyReachable(s') && s' == Next(s, st)
  {
    PromptlyReachableStep(s, st);
    s' := Next(s, st);
  }

  function Report(info: ValveInfo, power: int): SensorEvent {
    SensorEvent(info.friendlyName, "", Some(power), None, None, None, None)
  }

  /** The device reports what a waiter waits for, and the waiter's handler is called. */
  lemma Confirmed(s: State, w: nat, power: int) returns (s': State)
    requires PromptlyReachable(s) && w < |s.net.waiters| && s.net.waiters[w].outcome.None?
    requires s.info.friendlyName != ""
    requires s.net.waiters[w].key == DispatchKey(s.info.friendlyName) && s.net.waiters[w].power == power
    ensures PromptlyReachable(s') && s' == s.(net := s'.net) && ConfirmedW(s', w)
  {
    assert W.NInv(s.net) by { PromptlyReachableInv(s); }
    var ev, d := Report(s.info, power), W.Delivery(w, |s.net.dispatched|);
    ReportConfirms(s.net, w, ev);
    var s1 := Does(s, Env(DispatchEvent(ev)));
    assert s1 == s.(net := W.Dispatch(s.net, ev));
    s' := Does(s1, Env(HandlerCall(d)));
    assert s' == s1.(net := W.Deliver(s1.net, d));
  }

  lemma ReportConfirms(n: W.Net, w: nat, ev: SensorEvent)
    requires W.NInv(n) && w < |n.waiters| && n.waiters[w].outcome.None? && ev.deviceName != ""
    requires n.waiters[w].key == DispatchKey(ev.deviceName) && ev.power == Some(n.waiters[w].power)
    ensures var d, n1 := W.Delivery(w, |n.dispatched|), W.Dispatch(n, ev);
            && d in n1.inflight
            && w < |W.Deliver(n1, d).waiters| && W.Deliver(n1, d).waiters[w].outcome == Some(W.Confirmed(|n.delivered|))
  {
    assert DispatchKey(ev.deviceName) in EventKeys(ev);
    assert w in W.Recipients(n.live, ev);
  }

  // ----- a timed open, up to its hold

  /** Nothing was asked for yet. */
  ghost predicate Rested(s: State) {
    && PromptlyReachable(s) && s.loop.Idle? && s.actions == map[] && s.queue == Q.EMPTY && s.grace.None? && !s.cancelled
    && Plain(s.info)
  }

  lemma Queued(s: State, id: ID, d: int) returns (s': State)
    requires Rested(s) && id != "" && d > 0
    ensures PromptlyReachable(s') && s'.actions == map[id := NewAction(id, s.info, OpenTimed, d, s.now)]
    ensures s'.queue.items == [id] && s'.log.asked == s.log.asked[id := s'.actions[id]] && !s'.cancelled
    ensures s' == s.(actions := s'.actions, queue := s'.queue, log := s'.log) && Beside(s, s')
  {
    var s1 := Does(s, Env(Request(id, OpenTimed, d)));
    s' := Does(s1, Env(QueueTry(id)));
  }

  lemma Taken(s: State, id: ID, d: int) returns (s': State)
    requires PromptlyReachable(s) && s.loop.Idle? && s.queue.items == [id] && Plain(s.info) && s.grace.None?
    requires s.actions == map[id := NewAction(id, s.info, OpenTimed, d, s.now)] && !s.cancelled
    requires id in s.log.asked && s.log.asked[id] == s.actions[id]
    ensures At(s', id, d, Ready(s'.info.config)) && Beside(s, s')
  {
    var s1 := Does(s, OfRun(Dequeue));
    s' := Does(s1, OfRun(ReadConfig));
  }

  lemma Attempting(s: State, id: ID, d: int) returns (s': State, c: Call, at: Attempt)
    requires At(s, id, d, Ready(s.info.config))
    ensures At(s', id, d, Calling(c, Begun(at))) && c == Call(id, Primary, true, 1, 30_000, None)
    ensures at.sends == 1 && at.i == 0 && !at.published && at.target == s'.info.friendlyName && Beside(s, s')
  {
    var s1 := Does(s, OfRun(Install));
    s' := Does(s1, InCall(BeginAttempt));
    c, at := s'.loop.pc.c, s'.loop.pc.cp.at;
  }

  lemma Sending(s: State, id: ID, d: int, c: Call, at0: Attempt) returns (s': State, at: Attempt)
    requires At(s, id, d, Calling(c, Begun(at0))) && c == Call(id, Primary, true, 1, 30_000, None)
    requires at0.sends == 1 && at0.i == 0 && !at0.published && at0.target == s.info.friendlyName
    ensures At(s', id, d, Calling(c, InSend(at))) && at == at0.(w := |s.net.waiters|) && at.w < |s'.net.waiters|
    ensures s'.net.waiters[at.w].outcome.None? && s'.net.waiters[at.w].power == 1
    ensures s'.net.waiters[at.w].key == DispatchKey(s'.info.friendlyName) && Beside(s, s')
  {
    at := at0.(w := |s.net.waiters|);
    var s1 := Registered(s, id, d, c, at0);
    s' := Does(s1, InCall(SendBegin));
  }

  lemma Registered(s: State, id: ID, d: int, c: Call, at0: Attempt) returns (s': State)
    requires At(s, id, d, Calling(c, Begun(at0))) && c == Call(id, Primary, true, 1, 30_000, None)
    requires at0.target == s.info.friendlyName
    ensures At(s', id, d, Calling(c, ToSend(at0.(w := |s.net.waiters|)))) && |s.net.waiters| < |s'.net.waiters|
    ensures var w := s'.net.waiters[|s.net.waiters|];
            w.outcome.None? && w.power == 1 && w.key == DispatchKey(s'.info.friendlyName)
    ensures Beside(s, s')
  {
    s' := Does(s, InCall(RegisterWaiter));
  }

  lemma Published(s: State, id: ID, d: int, c: Call, at0: Attempt) returns (s': State, at: Attempt)
    requires At(s, id, d, Calling(c, InSend(at0))) && at0.i + 1 >= at0.sends && at0.w < |s.net.waiters|
    requires c.subject == id
    ensures At(s', id, d, Calling(c, Receiving(at))) && at.w == at0.w && s'.net == s.net && s'.info == s.info
    ensures Beside(s, s')
  {
    s' := Does(s, InCall(SendEnd(true)));
    at := s'.loop.pc.cp.at;
  }

  lemma Received(s: State, id: ID, d: int, c: Call, at: Attempt) returns (s': State)
    requires At(s, id, d, Calling(c, Receiving(at))) && ConfirmedW(s, at.w) && c.subject == id
    ensures At(s', id, d, Calling(c, Proved(at))) && s'.log == s.log && Beside(s, s')
  {
    s' := Does(s, InCall(Receive));
  }

  lemma Recorded(s: State, id: ID, d: int, c: Call, at: Attempt) returns (s': State)
    requires At(s, id, d, Calling(c, Receiving(at))) && ConfirmedW(s, at.w)
    requires c.subject == id && c.power && c.phase.Primary?
    ensures At(s', id, d, Calling(c, Applying(s'.now + STATUS_LIMIT))) && s'.info.state.ValveOpen?
    ensures s'.log.confirmed == s.log.confirmed[(id, Primary) := s'.now] && Beside(s, s')
  {
    var s1 := Received(s, id, d, c, at);
    s' := Does(s1, InCall(Apply));
  }

  /** The loop blocks until time t. */
  lemma Waits(s: State, id: ID, d: int, pc: ExecPc, t: int) returns (s': State)
    requires At(s, id, d, pc) && s.now <= t && Timing.Allows(s, t)
    ensures At(s', id, d, pc) && s' == s.(now := t)
  {
    PromptlyReachableStep(s, Env(Tick(t)));
    s' := s.(now := t);
  }

  lemma NowFulfilled(s: State, id: ID, d: int, c: Call, until: int) returns (s': State)
    requires At(s, id, d, Calling(c, Applying(until))) && s.info.state.ValveOpen?
    requires c.phase.Primary? && c.subject == id
    ensures At(s', id, d, Done(c, s.now)) && s'.now == s.now && s'.info.state.ValveOpen?
    ensures s'.actions[id].state.Fulfilled? && s'.log == s.log && Beside(s, s')
  {
    var s1 := Does(s, InCall(ApplyEnd));
    s' := Does(s1, Exec(Fulfil));
  }

  /** From an idle loop to the end of the publish, whatever the ping is doing. */
  lemma ToPublished(s: State, id: ID, d: int) returns (s': State, c: Call, at: Attempt)
    requires Rested(s) && id != "" && d > 0
    ensures At(s', id, d, Calling(c, Receiving(at))) && c == Call(id, Primary, true, 1, 30_000, None)
    ensures at.w < |s'.net.waiters| && s'.net.waiters[at.w].outcome.None? && s'.net.waiters[at.w].power == 1
    ensures s'.net.waiters[at.w].key == DispatchKey(s'.info.friendlyName) && Beside(s, s')
  {
    var s1 := Queued(s, id, d);
    var s2 := Taken(s1, id, d);
    var s3, c3, at3 := Attempting(s2, id, d);
    var s4, at4 := Sending(s3, id, d, c3, at3);
    s', at := Published(s4, id, d, c3, at4);
    c := c3;
  }

  /** On to lines 219-221; the status write takes the given time. */
  lemma ToFulfilled(s: State, id: ID, d: int, delay: int) returns (s': State, c: Call)
    requires Rested(s) && id != "" && d > 0 && 0 <= delay <= STATUS_LIMIT
    ensures At(s', id, d, Done(c, s'.now)) && s'.info.state.ValveOpen? && s'.actions[id].state.Fulfilled?
    ensures (id, Primary) in s'.log.confirmed && s'.log.confirmed[(id, Primary)] == s'.now - delay && Beside(s, s')
  {
    var s1, c1, at := ToPublished(s, id, d);
    var s2 := Confirmed(s1, at.w, 1);
    var s3 := Recorded(s2, id, d, c1, at);
    var s4 := Waits(s3, id, d, s3.loop.pc, s3.now + delay);
    s' := NowFulfilled(s4, id, d, c1, s3.now + STATUS_LIMIT);
    c := c1;
  }

  lemma ToAnnouncing(s: State, id: ID, d: int, c: Call) returns (s': State)
    requires At(s, id, d, Done(c, s.now)) && s.info.state.ValveOpen?
    ensures At(s', id, d, Announcing(c, s.now, s.now + STATUS_LIMIT)) && s'.now == s.now && s'.info.state.ValveOpen?
    ensures s'.actions[id].state.Closing? && s'.log == s.log && Beside(s, s')
  {
    var s1 := Does(s, Exec(AfterFulfil));
    s' := Does(s1, Exec(Announce));
  }

  /** On to the hold; the status write takes the given time. */
  lemma ToHold(s: State, id: ID, d: int, c: Call, delay: int) returns (s': State)
    requires At(s, id, d, Done(c, s.now)) && s.info.state.ValveOpen? && 0 <= delay <= STATUS_LIMIT
    ensures At(s', id, d, Holding(c, s.now, s'.now + d)) && s'.info.state.ValveOpen? && s'.actions[id].state.Closing?
    ensures s'.now == s.now + delay && s'.log == s.log.(timers := s.log.timers[id := s'.now]) && Beside(s, s')
  {
    var s1 := ToAnnouncing(s, id, d, c);
    var s2 := Waits(s1, id, d, s1.loop.pc, s1.now + delay);
    s' := TimerStarts(s2, id, d, c, s.now, s1.loop.pc.until);
  }

  lemma TimerStarts(s: State, id: ID, d: int, c: Call, t0: int, until: int) returns (s': State)
    requires At(s, id, d, Announcing(c, t0, until))
    ensures At(s', id, d, Holding(c, t0, s.now + d)) && s'.now == s.now && s'.actions == s.actions
    ensures s'.info == s.info && s'.log == s.log.(timers := s.log.timers[id := s.now]) && Beside(s, s')
  {
    s' := Does(s, Exec(AnnounceEnd));
  }

  // ----- the ping sends OFF during the hold

  lemma Snapshot(s: State, id: ID, d: int, c: Call) returns (s': State)
    requires At(s, id, d, Done(c, s.now)) && s.ping.PIdle?
    ensures PromptlyReachable(s') && s' == s.(ping := Snapped(Some(id), s.info))
  {
    assert s.current == Some(id) by { PromptlyReachableInv(s); }
    s' := Does(s, OfPing(PingSnapshot));
  }

  /** A tick while the open is fulfilled but not yet closing is not suppressed. */
  lemma Decided(s: State, id: ID, d: int, c: Call) returns (s': State)
    requires At(s, id, d, Done(c, s.now)) && s.info.state.ValveOpen? && s.actions[id].state.Fulfilled? && s.ping.PIdle?
    ensures At(s', id, d, Done(c, s'.now)) && s'.info.state.ValveOpen? && s'.log.pings == s.log.pings
    ensures s'.ping.InRound? && s'.ping.pp.PBegun?
  {
    var s1 := Snapshot(s, id, d, c);
    s' := Does(s1, OfPing(PingDecide));
  }

  lemma SentOff(s: State, id: ID, d: int, pc: ExecPc) returns (s': State)
    requires At(s, id, d, pc) && s.ping.InRound? && s.ping.pp.PBegun?
    ensures PromptlyReachable(s') && s'.loop == s.loop && s'.actions == s.actions
    ensures |s'.log.pings| == |s.log.pings| + 1
  {
    var s1 := Does(s, OfPing(PingRegister));
    s' := Does(s1, OfPing(PingSendBegin));
  }

  lemma AtStart(s: State)
    requires Init(s) && Plain(s.info)
    ensures Rested(s)
  {
    assert PromptRun(s, [], s);
  }

  /** A run in which a ping that decided at line 221 sends OFF while the open is held. */
  lemma PingSendsIntoHold(s: State, id: ID) returns (held: State, s': State)
    requires Init(s) && Plain(s.info) && id != ""
    ensures PromptlyReachable(held) && held.loop.Busy? && held.loop.pc.Holding?
    ensures id in held.actions && held.actions[id].state.Closing?
    ensures PromptlyReachable(s') && s'.loop == held.loop && s'.actions == held.actions
    ensures |s'.log.pings| == |held.log.pings| + 1
  {
    AtStart(s);
    var s1, c := ToFulfilled(s, id, 60_000, 0);
    var s2 := Decided(s1, id, 60_000, c);
    held := ToHold(s2, id, 60_000, c, 0);
    s' := SentOff(held, id, 60_000, held.loop.pc);
  }

  // ----- the ping records "closed" over a held open

  lemma PingBegun(s: State) returns (s': State)
    requires Init(s) && Plain(s.info)
    ensures PromptlyReachable(s') && s' == s.(ping := s'.ping, log := s'.log)
    ensures s'.ping.InRound? && s'.ping.pp.PBegun? && s'.ping.r.sends == 1 && s'.ping.r.i == 0
    ensures s'.ping.r.target == s.info.friendlyName
  {
    AtStart(s);
    var s1 := Does(s, OfPing(PingSnapshot));
    s' := Does(s1, OfPing(PingDecide));
  }

  lemma PingSent(s: State) returns (s': State)
    requires PromptlyReachable(s) && s.ping.InRound? && s.ping.pp.PBegun? && s.ping.r.sends == 1 && s.ping.r.i == 0
    requires s.ping.r.target == s.info.friendlyName
    ensures PromptlyReachable(s') && s' == s.(ping := s'.ping, log := s'.log, net := s'.net)
    ensures s'.ping.InRound? && s'.ping.pp.PReceiving? && s'.ping.r.w < |s'.net.waiters|
    ensures var w := s'.net.waiters[s'.ping.r.w];
            w.outcome.None? && w.power == 0 && w.key == DispatchKey(s.info.friendlyName)
  {
    var s1 := Does(s, OfPing(PingRegister));
    var s2 := Does(s1, OfPing(PingSendBegin));
    s' := Does(s2, OfPing(PingSendEnd));
  }

  lemma PingGranted(s: State) returns (s': State)
    requires PromptlyReachable(s) && s.ping.InRound? && s.ping.pp.PReceiving? && ConfirmedW(s, s.ping.r.w)
    requires s.current.None?
    ensures PromptlyReachable(s') && s' == s.(ping := s'.ping, net := s'.net)
    ensures s'.ping.InRound? && s'.ping.pp.PGranted?
  {
    var s1 := Does(s, OfPing(PingReceive));
    s' := Does(s1, OfPing(PingCheck));
  }

  /** A run in which a write that the ping was granted before the open began records
      "closed" over the held open. */
  lemma PingClosesHeldOpen(s: State, id: ID) returns (held: State, s': State)
    requires Init(s) && Plain(s.info) && id != ""
    ensures PromptlyReachable(held) && held.loop.Busy? && held.loop.pc.Holding? && held.info.state.ValveOpen?
    ensures PingEnabled(held, PingApply) && s' == PingNext(held, PingApply) && PromptlyReachable(s')
    ensures s'.loop == held.loop && s'.info.state.ValveClosed?
  {
    var s1 := PingBegun(s);
    var s2 := PingSent(s1);
    var s3 := Confirmed(s2, s2.ping.r.w, 0);
    var s4 := PingGranted(s3);
    var s5, c := ToFulfilled(s4, id, 60_000, 0);
    held := ToHold(s5, id, 60_000, c, 0);
    s' := Does(held, OfPing(PingApply));
  }

  // ----- the timer starts late

  lemma Expired(s: State, id: ID, d: int, c: Call, t0: int) returns (s': State)
    requires At(s, id, d, Holding(c, t0, s.now)) && !s.rootDone && id != ""
    ensures PromptlyReachable(s') && id in s'.actions && s'.actions[id] == s.actions[id]
    ensures s'.log.closeStarts == s.log.closeStarts[id := CloseStart(s.now, false)]
    ensures id in s'.log.asked && s'.log.asked[id] == s.log.asked[id]
    ensures s'.log.starts == s.log.starts && s'.log.confirmed == s.log.confirmed && s'.log.timers == s.log.timers
  {
    var closeId := id + "c";
    assert |closeId| == |id| + 1;
    assert closeId !in s.actions;
    s' := Does(s, Exec(EndHold(closeId)));
  }

  /** For any duration and any limit, a prompt run in which the close of an undisturbed
      timed open starts its whole duration and the given delays, up to those of two status
      writes, after its ON was confirmed. */
  lemma CloseStartsLate(s: State, id: ID, d: int, delay1: int, delay2: int) returns (s': State)
    requires Init(s) && Plain(s.info) && !s.rootDone && id != "" && d > 0
    requires 0 <= delay1 <= STATUS_LIMIT && 0 <= delay2 <= STATUS_LIMIT
    ensures PromptlyReachable(s') && id in s'.log.closeStarts && !s'.log.closeStarts[id].cancelled
    ensures id in s'.actions && s'.actions[id].duration == d
    ensures id in s'.log.asked && s'.log.asked[id].typ.OpenTimed? && s'.log.asked[id].duration == d
    ensures id in s'.log.starts && s'.log.starts[id].maxOpenDuration == s.info.config.maxOpenDuration
    ensures (id, Primary) in s'.log.confirmed
    ensures s'.log.closeStarts[id].time == s'.log.confirmed[(id, Primary)] + delay1 + delay2 + d
  {
    AtStart(s);
    var s1, c := ToFulfilled(s, id, d, delay1);
    var s2 := ToHold(s1, id, d, c, delay2);
    var s3 := Waits(s2, id, d, s2.loop.pc, s2.now + d);
    s' := Expired(s3, id, d, c, s1.now);
  }
}
