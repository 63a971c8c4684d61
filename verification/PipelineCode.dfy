/** The pipeline in its own form: an object whose methods update its fields in
    place, with the loops of attemptWithRetry, execute, run and keepClosedPing.
    Between any two critical sections everything else may act (Interfere). Every
    state of the object is a state of a run of the step system, so what holds over
    all runs holds of the code. */
module PipelineCode {
  import opened Options
  import opened Device
  import opened Actions
  import opened Machine
  import opened Frames
  import opened Books
  import opened Lifecycle
  import opened Reachability
  import E = Evidence
  import V = Verdicts
  import N = Order
  import O = Outcomes
  import T = Traffic
  import Q = ActionQueues
  import W = Waiters
  import Th = Theorems

  // ----- what one goroutine may rely on while others act

  lemma CallReaches(s: State, cs: CallStep)
    requires Reachable(s) && CallEnabled(s, cs)
    ensures Reachable(CallNext(s, cs))
  {
    ReachableStep(s, InCall(cs));
  }

  lemma ExecReaches(s: State, xs: ExecStep)
    requires Reachable(s) && ExecEnabled(s, xs)
    ensures Reachable(ExecNext(s, xs))
  {
    ReachableStep(s, Exec(xs));
  }

  lemma RunReaches(s: State, rs: RunStep)
    requires Reachable(s) && RunEnabled(s, rs)
    ensures Reachable(RunNext(s, rs))
  {
    ReachableStep(s, OfRun(rs));
  }

  lemma PingReaches(s: State, ps: PingStep)
    requires Reachable(s) && PingEnabled(s, ps)
    ensures Reachable(PingNext(s, ps))
  {
    ReachableStep(s, OfPing(ps));
  }

  /** Steps of everybody but the action loop keep the loop's place and its books. */
  ghost predicate LoopKept(s: State, s': State) {
    && s'.loop == s.loop && s'.current == s.current && s'.cancelFn == s.cancelFn && s'.execNo == s.execNo
    && s'.grace == s.grace && s'.history == s.history && s'.now >= s.now
    && s'.log == s.log.(asked := s'.log.asked, rounds := s'.log.rounds, pings := s'.log.pings, writes := s'.log.writes)
    && (forall id :: id in s.actions ==> id in s'.actions && s'.actions[id] == s.actions[id])
    && (forall id :: id in s.log.asked ==> id in s'.log.asked && s'.log.asked[id] == s.log.asked[id])
    && s'.info.currentActionID == s.info.currentActionID
    && |s.log.writes| <= |s'.log.writes| && s'.log.writes[..|s.log.writes|] == s.log.writes
    && W.Extends(s.net, s'.net)
  }

  /** What an execution was asked for, and whether it is the last one, stays. */
  ghost predicate SameStart(s: State, s': State, id: ID) {
    && s'.grace == s.grace
    && (id in s.log.asked ==> id in s'.log.asked && s'.log.asked[id] == s.log.asked[id])
  }

  lemma LoopKeptStep(s: State, st: Step)
    requires Inv(s) && Enabled(s, st) && (st.Env? || st.OfPing?)
    ensures LoopKept(s, Next(s, st))
  {
    match st
    case Env(e) => LoopKeptEnv(s, e);
    case OfPing(ps) => LoopKeptPing(s, ps);
  }

  lemma LoopKeptEnv(s: State, e: EnvStep)
    requires Inv(s) && EnvEnabled(s, e)
    ensures LoopKept(s, EnvNext(s, e))
  {
    EnvFrames(s, e);
    AskedGrows(s, e);
    E.NetEnv(s, e);
  }

  lemma LoopKeptPing(s: State, ps: PingStep)
    requires Inv(s) && PingEnabled(s, ps)
    ensures LoopKept(s, PingNext(s, ps))
  {
    PingFrames(s, ps);
    Th.PingWritesGrow(s, ps);
    E.NetPing(s, ps);
  }

  lemma LoopKeptTransitive(a: State, b: State, c: State)
    requires LoopKept(a, b) && LoopKept(b, c)
    ensures LoopKept(a, c)
  {
    assert c.log.writes[..|a.log.writes|] == c.log.writes[..|b.log.writes|][..|a.log.writes|];
    W.ExtendsTransitive(a.net, b.net, c.net);
  }

  /** Steps of everybody but the ping keep the ping's place and its books. */
  ghost predicate PingKept(s: State, s': State) {
    && s'.ping == s.ping && s'.log.rounds == s.log.rounds && s'.log.pings == s.log.pings
    && |s.log.writes| <= |s'.log.writes| && s'.log.writes[..|s.log.writes|] == s.log.writes
    && (forall i :: |s.log.writes| <= i < |s'.log.writes| && s'.log.writes[i].Seen? ==>
          s'.log.writes[i].who.ByAction?)
    && W.Extends(s.net, s'.net)
  }

  lemma NetKnown(s: State)
    requires Reachable(s)
    ensures W.NInv(s.net)
  {
    ReachableInv(s);
  }

  lemma PingKeptTransitive(a: State, b: State, c: State)
    requires PingKept(a, b) && PingKept(b, c)
    ensures PingKept(a, c)
  {
    W.ExtendsTransitive(a.net, b.net, c.net);
    assert c.log.writes[..|a.log.writes|] == c.log.writes[..|b.log.writes|][..|a.log.writes|];
    forall i | |a.log.writes| <= i < |c.log.writes| && c.log.writes[i].Seen? ensures c.log.writes[i].who.ByAction? {
      if i < |b.log.writes| { assert c.log.writes[i] == c.log.writes[..|b.log.writes|][i]; }
    }
  }

  lemma PingKeptStep(s: State, st: Step)
    requires W.NInv(s.net) && Enabled(s, st) && !st.OfPing?
    ensures PingKept(s, Next(s, st))
  {
    match st
    case Env(e) => EnvFrames(s, e); E.NetEnv(s, e);
    case OfRun(rs) => RunFrames(s, rs); W.ExtendsSelf(s.net);
    case InCall(cs) => PingKeptCall(s, cs);
    case Exec(xs) => PingKeptExec(s, xs);
  }

  lemma PingKeptCall(s: State, cs: CallStep)
    requires W.NInv(s.net) && CallEnabled(s, cs)
    ensures PingKept(s, CallNext(s, cs))
  {
    CallFrames(s, cs);
    E.NetCall(s, cs);
    if cs.Apply? { N.ApplyWrites(s); } else { E.WritesOnlyApply(s, cs); }
  }

  lemma PingKeptExec(s: State, xs: ExecStep)
    requires ExecEnabled(s, xs)
    ensures PingKept(s, ExecNext(s, xs))
  {
    ExecFrames(s, xs);
    N.ExecWritesNoReport(s, xs);
    W.ExtendsSelf(s.net);
  }

  /** What the books say about the loop's place. */
  lemma PlaceKnown(s: State)
    requires Reachable(s)
    ensures s.loop.Busy? ==> AtPc(s)
    ensures s.loop.Busy? && s.loop.pc.Calling? ==> Active(s)
    ensures s.loop.Busy? && s.loop.pc.Calling? && V.Trying(s.loop.pc.cp) ==> s.loop.pc.cp.at.w < |s.net.waiters|
  {
    ReachableInv(s);
    if s.loop.Busy? { OngoingApart(s); }
  }

  lemma ReceiveKnown(s: State)
    requires Reachable(s) && s.loop.Busy? && s.loop.pc.Calling? && s.loop.pc.cp.Receiving?
    requires Settled(s, s.loop.pc.cp.at.w)
    ensures s.loop.pc.c.subject in s.actions
  {
    PlaceKnown(s);
  }

  lemma SendKnown(s: State)
    requires Reachable(s) && s.loop.Busy? && s.loop.pc.Calling? && s.loop.pc.cp.InSend?
    ensures s.loop.pc.cp.at.w < |s.net.waiters|
  {
    PlaceKnown(s);
  }

  // ----- single steps, spelled out

  lemma RequestReaches(s: State, id: ID, typ: ActionType, duration: int, s': State)
    requires Reachable(s) && EnvEnabled(s, EnvStep.Request(id, typ, duration))
    requires && s' == s.(actions := s'.actions, queue := s'.queue, cancelled := s'.cancelled, log := s'.log)
             && s'.actions == s.actions[id := NewAction(id, s.info, typ, duration, s.now)]
             && s'.queue == Q.NextQ(s.queue, Q.QStep.Call(id))
             && s'.cancelled == (s.cancelled || (typ.Close? && s.cancelFn == Some(s.execNo)))
             && s'.log == s.log.(asked := s.log.asked[id := s'.actions[id]])
    ensures Reachable(s')
  {
    assert s' == DoRequest(s, id, typ, duration);
    ReachableStep(s, Env(EnvStep.Request(id, typ, duration)));
  }

  lemma SendEndReaches(s: State, c: Call, at0: Attempt, at: Attempt, ok: bool, s': State)
    requires Reachable(s) && s.loop.Busy? && s.loop == Busy(s.loop.id, Calling(c, InSend(at0)))
    requires s.log.attempts != [] && at0.w < |s.net.waiters|
    requires at == at0.(i := at0.i + 1, published := at0.published || ok)
    requires && s' == s.(loop := s'.loop, net := s'.net, log := s'.log)
             && s'.loop == Busy(s.loop.id, Calling(c, AfterSend(at, s.now)))
             && s'.net == SentNet(s.net, at)
             && s'.log == SendEndLog(s.log, |s.log.attempts| - 1, ok, Lost(at), CallDone(s, c))
    ensures Reachable(s') && SameStart(s, s', s.loop.id)
  {
    PlaceKnown(s);
    assert s' == DoSendEnd(s, ok);
    CallReaches(s, SendEnd(ok));
  }

  lemma RegisterReaches(s: State, c: Call, at: Attempt, s': State)
    requires Reachable(s) && s.loop.Busy? && s.loop == Busy(s.loop.id, Calling(c, Begun(at)))
    requires s.log.attempts != [] && c.subject in s.actions
    requires && s' == s.(loop := s'.loop, actions := s'.actions, net := s'.net, log := s'.log)
             && s'.loop == Busy(s.loop.id, Calling(c, ToSend(at.(w := |s.net.waiters|))))
             && s'.actions == s.actions[c.subject := s.actions[c.subject].(state := WaitingConfirmation)]
             && s'.net == WithWaiter(s.net, c, at, s.now, s.execNo)
             && s'.log == s.log.(waits := s.log.waits[|s.log.attempts| - 1 := |s.net.waiters|])
    ensures Reachable(s') && SameStart(s, s', s.loop.id)
  {
    PlaceKnown(s);
    assert s' == DoRegister(s);
    CallReaches(s, RegisterWaiter);
  }

  lemma ApplyReaches(s: State, c: Call, at: Attempt, s': State)
    requires Reachable(s) && s.loop.Busy? && s.loop == Busy(s.loop.id, Calling(c, Proved(at))) && s.log.attempts != []
    requires && s' == s.(loop := s'.loop, info := s'.info, log := s'.log)
             && s'.loop == Busy(s.loop.id, Calling(c, Applying(s.now + STATUS_LIMIT)))
             && s'.info == Recorded(s.info, c.power, s.now)
             && s'.log == ApplyLog(s.log, s.loop.id, c, at.w, |s.net.dispatched|, CallDone(s, c), s.now)
    ensures Reachable(s') && SameStart(s, s', s.loop.id)
  {
    PlaceKnown(s);
    ApplyIs(s, c, at, s');
    CallReaches(s, CallStep.Apply);
  }

  lemma ApplyIs(s: State, c: Call, at: Attempt, s': State)
    requires Active(s) && s.loop == Busy(s.loop.id, Calling(c, Proved(at))) && s.log.attempts != []
    requires && s' == s.(loop := s'.loop, info := s'.info, log := s'.log)
             && s'.loop == Busy(s.loop.id, Calling(c, Applying(s.now + STATUS_LIMIT)))
             && s'.info == Recorded(s.info, c.power, s.now)
             && s'.log == ApplyLog(s.log, s.loop.id, c, at.w, |s.net.dispatched|, CallDone(s, c), s.now)
    ensures s' == DoApply(s)
  {
  }

  lemma ReceiveReaches(s: State, c: Call, at: Attempt, confirmed: bool, ended: bool, s': State)
    requires Reachable(s) && s.loop.Busy? && s.loop == Busy(s.loop.id, Calling(c, Receiving(at)))
    requires s.log.attempts != [] && Settled(s, at.w) && c.subject in s.actions
    requires confirmed == s.net.waiters[at.w].outcome.value.Confirmed? && ended == CallDone(s, c)
    requires && s' == s.(loop := s'.loop, actions := s'.actions, net := W.Stop(s.net, at.w), log := s'.log)
             && s'.loop == Busy(s.loop.id, Calling(c, AfterReceive(at, confirmed, ended)))
             && s'.actions == (if confirmed || !ended then s.actions
                               else s.actions[c.subject := s.actions[c.subject].(state := Cancelled)])
             && s'.log == (if confirmed then s.log else Judge(s.log, |s.log.attempts| - 1, false, ended))
    ensures Reachable(s') && SameStart(s, s', s.loop.id)
  {
    PlaceKnown(s);
    assert s' == DoReceive(s);
    CallReaches(s, CallStep.Receive);
  }

  function ApplyLog(l: Log, id: ID, c: Call, w: nat, upto: nat, ended: bool, now: int): Log
    requires l.attempts != []
  {
    var k := |l.attempts| - 1;
    var written := l.(writes := l.writes + [Seen(ByAction(id, c.phase, k), c.power, w, upto)]);
    Confirm(Judge(written, k, true, ended), id, c.phase, now)
  }

  lemma ReadReaches(s: State, cfg: ValveConfig, a: Action, rejected: bool, s': State)
    requires Reachable(s) && AtPc(s) && s.loop.pc.Took? && cfg == s.info.config
    requires var u := Upgrade(s.actions[s.loop.id], cfg);
             (rejected <==> cfg.disabled && u.HoldsValveOpen()) && a == (if rejected then u.(state := Cancelled) else u)
    requires && s' == s.(loop := s'.loop, actions := s.actions[s.loop.id := a],
                         log := s.log.(starts := s.log.starts[s.loop.id := cfg]))
             && s'.loop == Busy(s.loop.id, if rejected then Rejected else Ready(cfg))
    ensures Reachable(s') && SameStart(s, s', s.loop.id)
  {
    assert s' == DoReadConfig(s);
    RunReaches(s, RunStep.ReadConfig);
  }

  lemma RetireReaches(s: State, rejected: bool, listed: bool, s': State)
    requires Reachable(s) && AtPc(s) && s.loop == Busy(s.loop.id, if rejected then Rejected else Retiring)
    requires listed <==> rejected || !s.actions[s.loop.id].IsInternalSafetyPing()
    requires && s' == s.(loop := Rest(s), history := s'.history, log := s'.log)
             && s'.history == (if listed then Pushed(s.history, s.loop.id) else s.history)
             && s'.log == s.log.(retired := s.log.retired + [s.loop.id],
                                 finished := if listed then s.log.finished + [s.loop.id] else s.log.finished)
    ensures Reachable(s') && SameStart(s, s', s.loop.id)
  {
    assert s' == DoRetire(s, s.loop.id, listed);
    RunReaches(s, if rejected then Reject else RunStep.Retire);
  }

  lemma BeginReaches(s: State, c: Call, at: Attempt, s': State)
    requires Reachable(s) && Active(s) && s.loop == Busy(s.loop.id, Calling(c, Head(at.n))) && at.n < c.retries
    requires at == Attempt(at.n, s.info.bridgeName, s.info.CommandTarget(),
                           if c.power then 1 else s.info.CloseSends(), 0, 0, false)
    requires && s' == s.(loop := s'.loop, actions := s'.actions, log := s'.log)
             && s'.loop == Busy(s.loop.id, Calling(c, Begun(at)))
             && s'.actions == s.actions[c.subject := s.actions[c.subject].(attempts := at.n + 1,
                                                                           lastAttempt := Some(s.now))]
             && s'.log == s.log.(attempts := s.log.attempts + [NewAttempt(s)])
    ensures Reachable(s') && SameStart(s, s', s.loop.id)
  {
    assert s' == DoBeginAttempt(s);
    CallReaches(s, CallStep.BeginAttempt);
  }

  lemma SensorsReach(s: State, ev: SensorEvent, s': State)
    requires Reachable(s) && s' == s.(info := WithSensors(s.info, ev))
    ensures Reachable(s')
  {
    assert s' == EnvNext(s, EnvStep.UpdateSensors(ev));
    ReachableStep(s, Env(EnvStep.UpdateSensors(ev)));
  }

  lemma GapReaches(s: State, c: Call, at: Attempt, until: int, s': State)
    requires Reachable(s) && s.loop.Busy? && s.loop == Busy(s.loop.id, Calling(c, Gap(at, until)))
    requires at.w < |s.net.waiters| && (s.now >= until || WaiterDone(s, s.net.waiters[at.w]))
    requires s' == s.(loop := Busy(s.loop.id, Calling(c, ToSend(at))))
    ensures Reachable(s') && SameStart(s, s', s.loop.id)
  {
    PlaceKnown(s);
    assert s' == CallNext(s, CallStep.GapEnd);
    CallReaches(s, CallStep.GapEnd);
  }

  lemma HoldReaches(s: State, c: Call, t0: int, timed: bool, s': State)
    requires Reachable(s) && AtPc(s) && s.loop == Busy(s.loop.id, Done(c, t0))
    requires timed == s.actions[s.loop.id].typ.OpenTimed?
    requires && s' == s.(loop := s'.loop, actions := s'.actions)
             && s'.loop == Busy(s.loop.id, if timed then Expiring(c, t0) else Clearing(false))
             && var a := s.actions[s.loop.id];
                s'.actions == if timed
                              then s.actions[s.loop.id := a.(expiresAt := Some(t0 + a.duration), state := Closing)]
                              else s.actions
    ensures Reachable(s') && SameStart(s, s', s.loop.id)
  {
    assert s' == DoAfterFulfil(s, c, t0);
    ExecReaches(s, ExecStep.AfterFulfil);
  }

  lemma DowngradeReaches(s: State, timed: bool, wrote: bool, s': State)
    requires Reachable(s) && AtPc(s) && s.loop == Busy(s.loop.id, Unconfirmed(timed))
    requires wrote == s.info.state.ValveClosed?
    requires && s' == s.(loop := s'.loop, info := s'.info, log := s'.log)
             && s'.loop == Busy(s.loop.id, if wrote then Downgrading(timed, s.now + STATUS_LIMIT)
                                           else AfterDowngrade(timed))
             && s'.info == (if wrote then s.info.(state := ValveUnknown) else s.info)
             && s'.log == if wrote then s.log.(writes := s.log.writes + [CloseFailed(s.loop.id)]) else s.log
    ensures Reachable(s') && SameStart(s, s', s.loop.id)
  {
    assert s' == DoDowngrade(s, timed);
    ExecReaches(s, ExecStep.Downgrade);
  }

  lemma DecideReaches(s: State, sent: bool, s': State)
    requires Reachable(s) && s.ping.Snapped? && sent == !Suppressed(s, s.ping.cur)
    requires var seen := s.ping.seen;
             s' == if sent
                   then s.(ping := InRound(RoundOf(seen), PBegun),
                           log := s.log.(rounds := s.log.rounds + [RoundLog(seen, |s.log.pings|, |s.net.dispatched|)]))
                   else s.(ping := PIdle)
    ensures Reachable(s')
  {
    assert s' == DoPingDecide(s);
    PingReaches(s, PingDecide);
  }

  // ----- what a call of attemptWithRetry adds to the books

  ghost predicate Names(a: AttemptLog, id: ID, c: Call, n: nat) {
    a.id == id && a.phase == c.phase && a.n == n && a.power == c.power
  }

  /** One more attempt, judged. */
  ghost predicate OneMore(l: Log, l': Log, id: ID, c: Call, n: nat, success: bool) {
    && |l'.attempts| == |l.attempts| + 1 && l'.attempts[..|l.attempts|] == l.attempts
    && |l'.sends| == |l.sends| + T.Owed(l'.attempts[|l.attempts|])
    && Names(l'.attempts[|l.attempts|], id, c, n)
    && l'.verdicts == l.verdicts[|l.attempts| := success]
  }

  /** The attempts of one call so far: all judged, all failed but possibly the last. */
  ghost predicate CallLog(l: Log, l': Log, id: ID, c: Call, success: bool) {
    && |l.attempts| <= |l'.attempts| && l'.attempts[..|l.attempts|] == l.attempts
    && (success ==> |l.attempts| < |l'.attempts|)
    && (forall k :: |l.attempts| <= k < |l'.attempts| ==>
          && l'.attempts[k].id == id && l'.attempts[k].phase == c.phase && l'.attempts[k].power == c.power
          && l'.attempts[k].n == k - |l.attempts|
          && k in l'.verdicts && (l'.verdicts[k] <==> success && k == |l'.attempts| - 1))
  }

  lemma CallLogMore(l: Log, l1: Log, l2: Log, id: ID, c: Call, n: nat, success: bool)
    requires CallLog(l, l1, id, c, false) && |l1.attempts| == |l.attempts| + n && OneMore(l1, l2, id, c, n, success)
    ensures CallLog(l, l2, id, c, success)
  {
    assert l2.attempts[..|l.attempts|] == l2.attempts[..|l1.attempts|][..|l.attempts|];
    forall k | |l.attempts| <= k < |l1.attempts| ensures l2.attempts[k] == l1.attempts[k] {
      assert l2.attempts[k] == l2.attempts[..|l1.attempts|][k];
    }
  }

  // ----- how an execution ends

  /** What the record of an ended execution says, against what was sent and seen. */
  ghost predicate EndOf(s: State, id: ID) {
    && id in s.actions && Ended(s.actions[id])
    && id in s.log.asked && id in s.log.starts && T.Shaped(s.actions[id], s.log.asked[id], s.log.starts[id])
    && (if s.actions[id].typ.OpenTimed?
        then (O.HasSeen(s.log.writes, id, Primary) <==> O.HasOff(s.log.sends, id))
             && (s.actions[id].state.Fulfilled? <==> O.HasSeen(s.log.writes, id, Shutoff))
        else s.actions[id].state.Fulfilled? <==> O.HasSeen(s.log.writes, id, Primary))
  }

  lemma EndKnown(s: State, id: ID)
    requires Reachable(s) && id in s.log.retired && id in s.actions
    ensures EndOf(s, id)
  {
    RetiredEnded(s, id);
    if s.actions[id].typ.OpenTimed? { Th.ConfirmedTimedOpenIsClosed(s, id); NoCloseBeforeOpen(s, id); }
    else { Th.FulfilledExactlyIfConfirmed(s, id); }
  }

  lemma RetiredEnded(s: State, id: ID)
    requires Reachable(s) && id in s.log.retired && id in s.actions
    ensures Ended(s.actions[id])
    ensures id in s.log.asked && id in s.log.starts && T.Shaped(s.actions[id], s.log.asked[id], s.log.starts[id])
  {
    assert T.Started(s) && T.AllShaped(s) && Book(s) && Known(s) && AllEnded(s.log.retired, s.actions) by {
      ReachableInv(s);
    }
  }

  lemma NoCloseBeforeOpen(s: State, id: ID)
    requires Reachable(s) && id in s.log.retired && id in s.actions
    ensures O.HasSeen(s.log.writes, id, Shutoff) ==> s.actions[id].state.Fulfilled?
  {
    assert O.SeenBook(s) by { ReachableInv(s); }
  }

  /** Between executions nothing is current. */
  lemma RestKnown(s: State)
    requires Reachable(s) && !s.loop.Busy?
    ensures s.current.None? && s.cancelFn.None? && s.log.begun == s.log.retired
    ensures s.info.currentActionID == "" || s.info.currentActionID == s.log.initialID
  {
    assert Slot(s) && Shown(s) && Book(s) by { ReachableInv(s); }
  }

  lemma HeadKnown(s: State)
    requires Reachable(s) && s.queue.items != []
    ensures s.queue.items[0] in s.actions
  {
    assert Book(s) && Known(s) by { ReachableInv(s); }
    HeadOnce(s.queue);
  }

  /** A new id is in no Enqueue call and was never admitted. */
  lemma CallKnown(s: State, id: ID)
    requires Reachable(s) && id !in s.actions
    ensures Q.CanQ(s.queue, Q.QStep.Call(id))
    ensures s.cancelFn.Some? ==> s.cancelFn == Some(s.execNo)
    ensures s.cancelFn.Some? <==> s.current.Some?
  {
    ReachableInv(s);
  }

  /** An Enqueue call moves on only by its own steps. */
  lemma CallStays(s: State, st: Step, id: ID)
    requires Enabled(s, st) && id in s.queue.calls
    requires st !in {Env(QueueTry(id)), Env(QueueDiscard(id)), Env(QueuePush(id))}
    ensures id in Next(s, st).queue.calls && Next(s, st).queue.calls[id] == s.queue.calls[id]
  {
    match st
    case InCall(cs) => CallFrames(s, cs);
    case Exec(xs) => ExecFrames(s, xs);
    case OfPing(ps) => PingFrames(s, ps);
    case Env(e) => EnvCallStays(s, e, id);
    case OfRun(rs) => RunCallStays(s, rs, id);
  }

  lemma EnvCallStays(s: State, e: EnvStep, id: ID)
    requires EnvEnabled(s, e) && id in s.queue.calls && e !in {QueueTry(id), QueueDiscard(id), QueuePush(id)}
    ensures id in EnvNext(s, e).queue.calls && EnvNext(s, e).queue.calls[id] == s.queue.calls[id]
  {
  }

  lemma RunCallStays(s: State, rs: RunStep, id: ID)
    requires RunEnabled(s, rs) && id in s.queue.calls
    ensures id in RunNext(s, rs).queue.calls && RunNext(s, rs).queue.calls[id] == s.queue.calls[id]
  {
  }

  lemma ItemsBounded(s: State)
    requires Reachable(s)
    ensures |s.queue.items| <= Q.CAPACITY
  {
    ReachableInv(s);
  }

  lemma CurrentKnown(s: State)
    requires Reachable(s) && s.current.Some?
    ensures s.current.value in s.actions
  {
    assert Slot(s) && Book(s) && Known(s) by { ReachableInv(s); }
    OngoingApart(s);
  }

  lemma HistoryKnown(s: State, id: ID)
    requires Reachable(s) && id in s.history
    ensures id in s.actions
  {
    Th.HistoryIsNewest(s);
  }

  lemma PingPlaceKnown(s: State)
    requires Reachable(s) && s.ping.InRound? && (s.ping.pp.PGap? || s.ping.pp.PReceiving?)
    ensures s.ping.r.w < |s.net.waiters|
  {
    assert E.PingWaits(s) by { ReachableInv(s); }
  }

  /** newAction and lines 65-69 of Enqueue: a new action, and a close cancels what is
      current. */
  ghost predicate Called(s: State, s': State, id: ID, typ: ActionType, duration: int) {
    && id !in s.actions && s'.actions == s.actions[id := NewAction(id, s.info, typ, duration, s.now)]
    && s'.cancelled == (s.cancelled || (typ.Close? && s.current.Some?))
    && s'.current == s.current && s'.history == s.history && s'.info == s.info && s'.queue.items == s.queue.items
  }

  /** An Enqueue call that has returned has put its action last; otherwise it blocks at
      line 79, on a full channel. */
  ghost predicate Enqueued(s: State, id: ID, returned: bool) {
    if returned then s.queue.items != [] && s.queue.items[|s.queue.items| - 1] == id
    else id in s.queue.calls && s.queue.calls[id].MustSend? && |s.queue.items| >= Q.CAPACITY
  }

  // ----- ids

  /** generateID: distinct from every id in use. */
  method GenerateID(used: map<ID, Action>) returns (id: ID)
    ensures id != "" && id !in used
  {
    var rest := used.Keys;
    var n: nat := 0;
    while rest != {}
      invariant rest <= used.Keys
      invariant forall x :: x in used && x !in rest ==> |x| <= n
      decreases |rest|
    {
      var x :| x in rest;
      if |x| > n { n := |x|; }
      rest := rest - {x};
    }
    id := seq(n + 1, i => 'f');
    assert |id| == n + 1;
  }

  datatype World = World(
    now: int, execNo: nat, cancelled: bool, grace: Option<int>, rootDone: bool, net: W.Net, ping: Ping)

  class Pipeline {
    // the fields of the source
    var info: ValveInfo
    var current: Option<ID>
    var cancelFn: Option<nat>
    var history: seq<ID>
    var queue: Q.Queue            // actionCh and the Enqueue calls in progress
    var actions: map<ID, Action>  // the Action objects, by id
    // where the action loop is, as readers, producers and the ping see it go on
    var loop: Loop
    // the clock, contexts, device reports and the ping goroutine
    var world: World
    // what happened
    ghost var log: Log

    /** The state without its log. */
    function View(): State
      reads this
    {
      State(world.now, info, current, cancelFn, world.execNo, world.cancelled, world.grace, world.rootDone,
            actions, history, queue, world.net, loop, world.ping, NoLog(ValveUnset, ""))
    }

    ghost function Abs(): State
      reads this
    {
      View().(log := log)
    }

    ghost predicate Valid()
      reads this
    {
      Reachable(Abs())
    }

    /** newPipeline. */
    constructor (spec: ValveInfo, time: int)
      ensures Valid() && Init(Abs()) && info == spec && world.now == time
    {
      info, current, cancelFn, history := spec, None, None, [];
      queue, actions := Q.EMPTY, map[];
      loop, log := Idle, NoLog(spec.state, spec.currentActionID);
      world := World(time, 0, false, None, false, W.QUIET, PIdle);
      new;
      assert Run(Abs(), [], Abs());
    }

    // ----- interference

    method Assign(s: State, ghost l: Log)
      modifies this
      ensures Abs() == s.(log := l)
    {
      info, current, cancelFn, history, queue, actions := s.info, s.current, s.cancelFn, s.history, s.queue, s.actions;
      loop, log := s.loop, l;
      world := World(s.now, s.execNo, s.cancelled, s.grace, s.rootDone, s.net, s.ping);
    }

    /** Any step. */
    method Take(st: Step)
      requires Valid() && Enabled(Abs(), st)
      modifies this
      ensures Valid() && Abs() == Next(old(Abs()), st)
    {
      LogApart(Abs(), View().log, st);
      LogApart(View(), log, st);
      ghost var l := Next(Abs(), st).log;
      ReachableStep(Abs(), st);
      Assign(Next(View(), st), l);
    }

    /** Whether a step is possible. */
    method Possible(st: Step) returns (possible: bool)
      ensures possible <==> Enabled(Abs(), st)
    {
      possible := Enabled(View(), st);
      if possible { LogApart(View(), log, st); }
      ghost var v := View().log;
      if Enabled(Abs(), st) { LogApart(Abs(), v, st); }
    }

    /** Any number of steps of everybody but the action loop. */
    method Interfere()
      requires Valid()
      modifies this
      ensures Valid() && LoopKept(old(Abs()), Abs())
    {
      W.ExtendsSelf(world.net);
      var n: nat := *;
      while n > 0
        invariant Valid() && LoopKept(old(Abs()), Abs())
      {
        var st: Step := *;
        var possible := Possible(st);
        if possible && (st.Env? || st.OfPing?) { Disturb(st); }
        n := n - 1;
      }
    }

    method Disturb(st: Step)
      requires Valid() && Enabled(Abs(), st) && (st.Env? || st.OfPing?)
      modifies this
      ensures Valid() && Abs() == Next(old(Abs()), st)
      ensures forall s :: LoopKept(s, old(Abs())) ==> LoopKept(s, Abs())
    {
      ghost var s := Abs();
      assert LoopKept(s, Next(s, st)) by {
        ReachableInv(s);
        LoopKeptStep(s, st);
      }
      forall r | LoopKept(r, s) ensures LoopKept(r, Next(s, st)) { LoopKeptTransitive(r, s, Next(s, st)); }
      Take(st);
    }

    // ----- attemptWithRetry

    /** Lines 290-302. */
    method BeginAttempt(id: ID, c: Call, n: nat) returns (at: Attempt)
      requires Valid() && loop == Busy(id, Calling(c, Head(n))) && n < c.retries
      modifies this
      ensures Valid() && SameStart(old(Abs()), Abs(), id) && loop == Busy(id, Calling(c, Begun(at)))
      ensures at == Attempt(n, old(info).bridgeName, old(info).CommandTarget(),
                            if c.power then 1 else old(info).CloseSends(), 0, 0, false)
      ensures log == old(log).(attempts := old(log.attempts) +
                       [AttemptLog(id, c.phase, n, c.power, old(info), |old(log.sends)|,
                                   |old(world.net.dispatched)|, CallDone(old(Abs()), c))])
      ensures c.subject in old(actions)
      ensures actions == old(actions)[c.subject :=
                           old(actions)[c.subject].(attempts := n + 1, lastAttempt := Some(old(world.now)))]
    {
      ghost var s := Abs();
      PlaceKnown(s);
      ghost var late := CallDone(Abs(), c);
      var target := info.CommandTarget();
      var sendCount := 1;
      if !c.power {
        sendCount := info.CloseSends();
      }
      var a := actions[c.subject];
      actions := actions[c.subject := a.(attempts := n + 1, lastAttempt := Some(world.now))];
      at := Attempt(n, info.bridgeName, target, sendCount, 0, 0, false);
      loop := Busy(id, Calling(c, Begun(at)));
      log := log.(attempts := log.attempts +
                    [AttemptLog(id, c.phase, n, c.power, info, |log.sends|, |world.net.dispatched|, late)]);
      BeginReaches(s, c, at, Abs());
    }

    /** Lines 305-312 and waitForPower. */
    method RegisterWaiter(id: ID, c: Call, at0: Attempt) returns (at: Attempt)
      requires Valid() && loop == Busy(id, Calling(c, Begun(at0))) && log.attempts != []
      modifies this
      ensures Valid() && SameStart(old(Abs()), Abs(), id) && loop == Busy(id, Calling(c, ToSend(at)))
      ensures at == at0.(w := |old(world.net.waiters)|)
      ensures log == old(log).(waits := old(log.waits)[|old(log.attempts)| - 1 := at.w])
      ensures world.net == WithWaiter(old(world.net), c, at0, old(world.now), old(world.execNo))
    {
      ghost var s := Abs();
      PlaceKnown(s);
      at := at0.(w := |world.net.waiters|);
      world := world.(net := WithWaiter(world.net, c, at0, world.now, world.execNo));
      actions := actions[c.subject := actions[c.subject].(state := WaitingConfirmation)];
      loop := Busy(id, Calling(c, ToSend(at)));
      log := log.(waits := log.waits[|log.attempts| - 1 := at.w]);
      RegisterReaches(s, c, at0, Abs());
    }

    /** The call of SendZbSend at line 322. */
    method SendBegin(id: ID, c: Call, at: Attempt)
      requires Valid() && loop == Busy(id, Calling(c, ToSend(at)))
      modifies this
      ensures Valid() && SameStart(old(Abs()), Abs(), id) && loop == Busy(id, Calling(c, InSend(at)))
      ensures log == old(log).(sends := old(log.sends) +
                       [Send(id, c.phase, at.n, at.i, c.power, at.bridge, at.target, old(world.now))])
    {
      ghost var s := Abs();
      PlaceKnown(s);
      loop := Busy(id, Calling(c, InSend(at)));
      log := log.(sends := log.sends + [Send(id, c.phase, at.n, at.i, c.power, at.bridge, at.target, world.now)]);
      assert Abs() == DoSendBegin(s);
      CallReaches(s, CallStep.SendBegin);
    }

    /** ctx.Err() != nil. */
    method ContextErr(c: Call) returns (ended: bool)
      ensures ended == CallDone(Abs(), c)
    {
      ended := CallDone(View(), c);
    }

    /** Lines 329-331. */
    method CancelIfLost(at: Attempt) returns (net: W.Net)
      requires at.w < |world.net.waiters|
      ensures net == SentNet(world.net, at)
    {
      net := world.net;
      if at.i >= at.sends && !at.published {
        net := W.Stop(net, at.w);
      }
    }

    /** The end of SendZbSend, and lines 323-332. */
    method SendEnd(id: ID, c: Call, at0: Attempt, ok: bool) returns (at: Attempt)
      requires Valid() && loop == Busy(id, Calling(c, InSend(at0))) && log.attempts != []
      modifies this
      ensures Valid() && SameStart(old(Abs()), Abs(), id)
      ensures at == at0.(i := at0.i + 1, published := at0.published || ok)
      ensures loop == Busy(id, Calling(c, AfterSend(at, old(world.now))))
      ensures log == SendEndLog(old(log), |old(log.attempts)| - 1, ok, Lost(at), CallDone(old(Abs()), c))
    {
      ghost var s := Abs();
      SendKnown(s);
      at := at0.(i := at0.i + 1, published := at0.published || ok);
      var ended := ContextErr(c);
      var net := CancelIfLost(at);
      world, loop := world.(net := net), Busy(id, Calling(c, AfterSend(at, world.now)));
      log := SendEndLog(s.log, |s.log.attempts| - 1, ok, Lost(at), ended);
      SendEndReaches(s, c, at0, at, ok, Abs());
    }

    /** Time passes. */
    method Advance(to: int)
      requires Valid() && world.now <= to
      modifies this
      ensures Valid() && LoopKept(old(Abs()), Abs()) && world == old(world).(now := to)
    {
      ghost var s := Abs();
      world := world.(now := to);
      assert Abs() == Next(s, Env(Tick(to)));
      ReachableStep(s, Env(Tick(to)));
      W.ExtendsSelf(world.net);
    }

    /** The select of line 317 ends when the timer fires or the waiter's context ends. */
    method PassGap(at: Attempt, until: int)
      requires Valid() && loop.Busy? && loop.pc.Calling? && loop.pc.cp == Gap(at, until)
      modifies this
      ensures Valid() && LoopKept(old(Abs()), Abs())
      ensures at.w < |world.net.waiters|
      ensures world.now >= until || WaiterDone(Abs(), world.net.waiters[at.w])
    {
      PlaceKnown(Abs());
      W.ExtendsSelf(world.net);
      if world.now < until && !WaiterDone(View(), world.net.waiters[at.w]) {
        Advance(until);
      }
    }

    /** Lines 317-320. */
    method WaitGap(id: ID, c: Call, at: Attempt, until: int)
      requires Valid() && loop == Busy(id, Calling(c, Gap(at, until)))
      modifies this
      ensures Valid() && SameStart(old(Abs()), Abs(), id) && loop == Busy(id, Calling(c, ToSend(at)))
      ensures log.attempts == old(log.attempts) && log.verdicts == old(log.verdicts) && log.sends == old(log.sends)
      ensures world.now >= until || (at.w < |world.net.waiters| && WaiterDone(Abs(), world.net.waiters[at.w]))
    {
      Interfere();
      PassGap(at, until);
      ghost var s := Abs();
      loop := Busy(id, Calling(c, ToSend(at)));
      GapReaches(s, c, at, until, Abs());
    }

    /** The receive from the waiter's channel blocks at most until the waiter's
        context has ended and its goroutine has noticed. */
    method Await(w: nat)
      requires Valid() && w < |world.net.waiters|
      modifies this
      ensures Valid() && LoopKept(old(Abs()), Abs()) && Settled(Abs(), w)
    {
      Interfere();
      if world.net.waiters[w].outcome.None? {
        if !WaiterDone(View(), world.net.waiters[w]) {
          Disturb(Env(Tick(world.net.waiters[w].deadline)));
        }
        Disturb(Env(WaiterTimeout(w)));
      }
    }

    /** Lines 334-344. */
    method Receive(id: ID, c: Call, at: Attempt) returns (confirmed: bool, ended: bool)
      requires Valid() && loop == Busy(id, Calling(c, Receiving(at))) && Settled(Abs(), at.w) && log.attempts != []
      modifies this
      ensures Valid() && SameStart(old(Abs()), Abs(), id)
      ensures (confirmed <==> old(world.net.waiters)[at.w].outcome.value.Confirmed?)
      ensures ended == CallDone(old(Abs()), c) && loop == Busy(id, Calling(c, AfterReceive(at, confirmed, ended)))
      ensures log == if confirmed then old(log) else Judge(old(log), |old(log.attempts)| - 1, false, ended)
      ensures c.subject in old(actions)
      ensures actions == if confirmed || !ended then old(actions)
                         else old(actions)[c.subject := old(actions)[c.subject].(state := Cancelled)]
    {
      ghost var s := Abs();
      ReceiveKnown(s);
      ended := ContextErr(c);
      confirmed := world.net.waiters[at.w].outcome.value.Confirmed?;
      world := world.(net := W.Stop(world.net, at.w));
      if !confirmed {
        log := Judge(log, |log.attempts| - 1, false, ended);
        if ended {
          actions := actions[c.subject := actions[c.subject].(state := Cancelled)];
        }
      }
      loop := Busy(id, Calling(c, AfterReceive(at, confirmed, ended)));
      ReceiveReaches(s, c, at, confirmed, ended, Abs());
    }

    /** applyDeviceState, called by the loop; then the status write. */
    method ApplyDeviceState(id: ID, c: Call, at: Attempt)
      requires Valid() && loop == Busy(id, Calling(c, Proved(at))) && log.attempts != []
      modifies this
      ensures Valid() && SameStart(old(Abs()), Abs(), id) && loop == Busy(id, Calling(c, Returned(None)))
      ensures log.attempts == old(log.attempts) && log.sends == old(log.sends)
      ensures log.verdicts == old(log.verdicts)[|old(log.attempts)| - 1 := true]
      ensures && |log.writes| > |old(log.writes)| && log.writes[..|old(log.writes)|] == old(log.writes)
              && log.writes[|old(log.writes)|] == Seen(ByAction(id, c.phase, |old(log.attempts)| - 1), c.power, at.w,
                                                       |old(world.net.dispatched)|)
    {
      RecordState(id, c, at);
      Interfere();
      ApplyEnd(id, c);
    }

    /** Lines 352-364. */
    method RecordState(id: ID, c: Call, at: Attempt)
      requires Valid() && loop == Busy(id, Calling(c, Proved(at))) && log.attempts != []
      modifies this
      ensures Valid() && SameStart(old(Abs()), Abs(), id)
      ensures loop == Busy(id, Calling(c, Applying(old(world.now) + STATUS_LIMIT)))
      ensures info == Recorded(old(info), c.power, old(world.now))
      ensures log.writes == old(log.writes) + [Seen(ByAction(id, c.phase, |old(log.attempts)| - 1), c.power, at.w,
                                                    |old(world.net.dispatched)|)]
      ensures log.attempts == old(log.attempts) && log.sends == old(log.sends)
      ensures log.verdicts == old(log.verdicts)[|old(log.attempts)| - 1 := true]
    {
      ghost var s := Abs();
      info := Stamp(info, c.power, world.now);
      log := ApplyLog(log, id, c, at.w, |world.net.dispatched|, CallDone(s, c), world.now);
      loop := Busy(id, Calling(c, Applying(world.now + STATUS_LIMIT)));
      ApplyReaches(s, c, at, Abs());
    }

    static method Stamp(info: ValveInfo, power: bool, now: int) returns (v: ValveInfo)
      ensures v == Recorded(info, power, now)
    {
      if power {
        v := info.(state := ValveOpen, lastOpenTime := Some(now));
      } else {
        v := info.(state := ValveClosed, lastCloseTime := Some(now));
      }
    }

    method ApplyEnd(id: ID, c: Call)
      requires Valid() && loop.Busy? && loop.id == id && loop.pc.Calling? && loop.pc.c == c && loop.pc.cp.Applying?
      modifies this
      ensures Valid() && SameStart(old(Abs()), Abs(), id) && loop == Busy(id, Calling(c, Returned(None)))
      ensures log == old(log)
    {
      ghost var s := Abs();
      PlaceKnown(s);
      loop := Busy(id, Calling(c, Returned(None)));
      assert Abs() == CallNext(s, CallStep.ApplyEnd);
      CallReaches(s, CallStep.ApplyEnd);
    }

    /** The inner loop, lines 314-327: exactly at.sends calls of SendZbSend. */
    method SendAll(id: ID, c: Call, at0: Attempt) returns (at: Attempt)
      requires Valid() && loop == Busy(id, Calling(c, ToSend(at0))) && at0.i == 0 && at0.sends >= 1 && !at0.published
      requires log.attempts != []
      modifies this
      ensures Valid() && SameStart(old(Abs()), Abs(), id) && at == at0.(i := at0.sends, published := at.published)
      ensures loop == Busy(id, Calling(c, if at.published then Receiving(at) else Head(at.n + 1)))
      ensures log.attempts == old(log.attempts)
      ensures log.verdicts == if at.published then old(log.verdicts) else old(log.verdicts)[|log.attempts| - 1 := false]
      ensures |log.sends| == |old(log.sends)| + at.sends
    {
      at := at0;
      var until := world.now;
      while at.i < at.sends
        invariant Valid() && SameStart(old(Abs()), Abs(), id)
        invariant at == at0.(i := at.i, published := at.published) && at.i <= at.sends
        invariant at.i == 0 ==> loop == Busy(id, Calling(c, ToSend(at)))
        invariant 0 < at.i < at.sends ==> loop == Busy(id, Calling(c, Gap(at, until)))
        invariant at.i == at.sends ==>
                    loop == Busy(id, Calling(c, if at.published then Receiving(at) else Head(at.n + 1)))
        invariant log.attempts == old(log.attempts) && |log.sends| == |old(log.sends)| + at.i
        invariant log.verdicts == if at.i < at.sends || at.published then old(log.verdicts)
                                  else old(log.verdicts)[|log.attempts| - 1 := false]
        decreases at.sends - at.i
      {
        if at.i > 0 {
          WaitGap(id, c, at, until);
        }
        at, until := SendOnce(id, c, at);
      }
    }

    method SendOnce(id: ID, c: Call, at0: Attempt) returns (at: Attempt, until: int)
      requires Valid() && loop == Busy(id, Calling(c, ToSend(at0))) && log.attempts != []
      modifies this
      ensures Valid() && SameStart(old(Abs()), Abs(), id) && at == at0.(i := at0.i + 1, published := at.published)
      ensures at.i < at.sends ==> loop == Busy(id, Calling(c, Gap(at, until)))
      ensures at.i >= at.sends ==> loop == Busy(id, Calling(c, if at.published then Receiving(at) else Head(at.n + 1)))
      ensures log.attempts == old(log.attempts) && |log.sends| == |old(log.sends)| + 1
      ensures log.verdicts == if at.i < at.sends || at.published then old(log.verdicts)
                              else old(log.verdicts)[|log.attempts| - 1 := false]
    {
      StartSend(id, c, at0);
      var ok: bool := *;
      until := world.now + SEND_GAP;
      at := SendEnd(id, c, at0, ok);
    }

    /** SendZbSend up to its return. */
    method StartSend(id: ID, c: Call, at: Attempt)
      requires Valid() && loop == Busy(id, Calling(c, ToSend(at)))
      modifies this
      ensures Valid() && SameStart(old(Abs()), Abs(), id) && loop == Busy(id, Calling(c, InSend(at)))
      ensures log.attempts == old(log.attempts) && |log.sends| == |old(log.sends)| + 1
      ensures log.verdicts == old(log.verdicts)
    {
      SendBegin(id, c, at);
      Interfere();
    }

    /** One iteration of the loop at line 280. */
    method OneAttempt(id: ID, c: Call, n: nat) returns (cp: CallPc)
      requires Valid() && loop == Busy(id, Calling(c, Head(n))) && n < c.retries
      modifies this
      ensures Valid() && SameStart(old(Abs()), Abs(), id) && loop == Busy(id, Calling(c, cp))
      ensures cp == Head(n + 1) || cp == Returned(None) || cp == Returned(Some(ContextEnded))
      ensures OneMore(old(log), log, id, c, n, cp == Returned(None))
    {
      var at := StartAttempt(id, c, n);
      cp := FinishAttempt(id, c, at);
    }

    /** Lines 313-344. */
    method FinishAttempt(id: ID, c: Call, at0: Attempt) returns (cp: CallPc)
      requires Valid() && loop == Busy(id, Calling(c, ToSend(at0))) && at0.i == 0 && at0.sends >= 1 && !at0.published
      requires log.attempts != []
      modifies this
      ensures Valid() && SameStart(old(Abs()), Abs(), id) && loop == Busy(id, Calling(c, cp))
      ensures cp == Head(at0.n + 1) || cp == Returned(None) || cp == Returned(Some(ContextEnded))
      ensures log.attempts == old(log.attempts) && |log.sends| == |old(log.sends)| + at0.sends
      ensures log.verdicts == old(log.verdicts)[|old(log.attempts)| - 1 := cp == Returned(None)]
    {
      var at := SendAll(id, c, at0);
      if at.published {
        cp := Conclude(id, c, at);
      } else {
        cp := Head(at.n + 1);
      }
    }

    /** Lines 290-312. */
    method StartAttempt(id: ID, c: Call, n: nat) returns (at: Attempt)
      requires Valid() && loop == Busy(id, Calling(c, Head(n))) && n < c.retries
      modifies this
      ensures Valid() && SameStart(old(Abs()), Abs(), id) && loop == Busy(id, Calling(c, ToSend(at)))
      ensures |log.attempts| == |old(log.attempts)| + 1 && log.attempts[..|old(log.attempts)|] == old(log.attempts)
      ensures var a := log.attempts[|old(log.attempts)|];
              Names(a, id, c, n) && at == Attempt(n, a.seen.bridgeName, a.seen.CommandTarget(), T.Owed(a), at.w, 0,
                                                  false)
      ensures log.verdicts == old(log.verdicts) && log.sends == old(log.sends)
    {
      Interfere();
      at := BeginAttempt(id, c, n);
      Interfere();
      at := RegisterWaiter(id, c, at);
    }

    method AwaitAndReceive(id: ID, c: Call, at: Attempt) returns (confirmed: bool, ended: bool)
      requires Valid() && loop == Busy(id, Calling(c, Receiving(at))) && log.attempts != []
      modifies this
      ensures Valid() && SameStart(old(Abs()), Abs(), id)
      ensures loop == Busy(id, Calling(c, AfterReceive(at, confirmed, ended)))
      ensures log.attempts == old(log.attempts) && log.sends == old(log.sends)
      ensures log.verdicts == if confirmed then old(log.verdicts)
              else old(log.verdicts)[|old(log.attempts)| - 1 := false]
    {
      PlaceKnown(Abs());
      Await(at.w);
      confirmed, ended := Receive(id, c, at);
    }

    /** Lines 334-344. */
    method Conclude(id: ID, c: Call, at: Attempt) returns (cp: CallPc)
      requires Valid() && loop == Busy(id, Calling(c, Receiving(at))) && log.attempts != []
      modifies this
      ensures Valid() && SameStart(old(Abs()), Abs(), id) && loop == Busy(id, Calling(c, cp))
      ensures cp == Head(at.n + 1) || cp == Returned(None) || cp == Returned(Some(ContextEnded))
      ensures log.attempts == old(log.attempts) && log.sends == old(log.sends)
      ensures log.verdicts == old(log.verdicts)[|old(log.attempts)| - 1 := cp == Returned(None)]
    {
      var confirmed, ended := AwaitAndReceive(id, c, at);
      if confirmed {
        ApplyDeviceState(id, c, at);
        cp := Returned(None);
      } else if ended {
        cp := Returned(Some(ContextEnded));
      } else {
        cp := Head(at.n + 1);
      }
    }

    /** attemptWithRetry: at most retryCount attempts, numbered from zero, each judged;
        it returns nil exactly when the last one succeeded, and gives up only after
        all of them or when its context has ended. */
    method AttemptWithRetry(id: ID, c: Call) returns (err: Option<CallError>)
      requires Valid() && loop == Busy(id, Calling(c, Head(0)))
      modifies this
      ensures Valid() && SameStart(old(Abs()), Abs(), id) && loop == Busy(id, Calling(c, Returned(err)))
      ensures CallLog(old(log), log, id, c, err.None?)
      ensures |log.attempts| - |old(log.attempts)| <= (if c.retries < 0 then 0 else c.retries)
      ensures err.Some? && err.value.NoConfirmation? ==>
                |log.attempts| - |old(log.attempts)| == (if c.retries < 0 then 0 else c.retries)
    {
      var attempt := 0;
      while attempt < c.retries
        invariant Valid() && SameStart(old(Abs()), Abs(), id) && attempt >= 0
        invariant loop == Busy(id, Calling(c, Head(attempt)))
        invariant CallLog(old(log), log, id, c, false) && |log.attempts| == |old(log.attempts)| + attempt
        invariant attempt <= (if c.retries < 0 then 0 else c.retries)
      {
        ghost var l := log;
        var cp := OneAttempt(id, c, attempt);
        CallLogMore(old(log), l, log, id, c, attempt, cp == Returned(None));
        if cp.Returned? {
          return cp.err;
        }
        attempt := attempt + 1;
      }
      Interfere();
      err := Some(NoConfirmation(c.retries));
      ReturnError(id, c, attempt);
    }

    /** Line 347. */
    method ReturnError(id: ID, c: Call, n: nat)
      requires Valid() && loop == Busy(id, Calling(c, Head(n))) && n >= c.retries
      modifies this
      ensures Valid() && SameStart(old(Abs()), Abs(), id)
      ensures loop == Busy(id, Calling(c, Returned(Some(NoConfirmation(c.retries))))) && log == old(log)
    {
      ghost var s := Abs();
      PlaceKnown(s);
      loop := Busy(id, Calling(c, Returned(Some(NoConfirmation(c.retries)))));
      assert Abs() == CallNext(s, GiveUp);
      CallReaches(s, GiveUp);
    }

    // ----- execute

    /** Lines 163-171. */
    static method Prepare(a0: Action, cfg: ValveConfig) returns (a: Action, rejected: bool)
      ensures rejected <==> cfg.disabled && Upgrade(a0, cfg).HoldsValveOpen()
      ensures a == if rejected then Upgrade(a0, cfg).(state := Cancelled) else Upgrade(a0, cfg)
    {
      a := a0;
      if a.typ.Open? && cfg.maxOpenDuration > 0 {
        a := a.(typ := OpenTimed, duration := cfg.maxOpenDuration);
      }
      rejected := cfg.disabled && (a.typ.Open? || a.typ.OpenTimed?);
      if rejected {
        a := a.(state := Cancelled);
      }
    }

    /** Lines 160-172. */
    method ReadConfig(id: ID) returns (cfg: ValveConfig, rejected: bool)
      requires Valid() && loop == Busy(id, Took)
      modifies this
      ensures Valid() && SameStart(old(Abs()), Abs(), id) && cfg == old(info).config && id in old(actions)
      ensures rejected <==> cfg.disabled && old(actions)[id].HoldsValveOpen()
      ensures var a := Upgrade(old(actions)[id], cfg);
              actions == old(actions)[id := if rejected then a.(state := Cancelled) else a]
      ensures loop == Busy(id, if rejected then Rejected else Ready(cfg))
    {
      ghost var s := Abs();
      PlaceKnown(s);
      cfg := info.config;
      var a;
      a, rejected := Prepare(actions[id], cfg);
      actions := actions[id := a];
      loop := Busy(id, if rejected then Rejected else Ready(cfg));
      log := log.(starts := log.starts[id := cfg]);
      ReadReaches(s, cfg, a, rejected, Abs());
    }

    /** Lines 177-181 and 194. */
    method Install(id: ID, cfg: ValveConfig) returns (c: Call)
      requires Valid() && loop == Busy(id, Ready(cfg))
      modifies this
      ensures Valid() && SameStart(old(Abs()), Abs(), id) && loop == Busy(id, Calling(c, Head(0)))
      ensures c.phase.Primary? && c.subject == id
      ensures c.retries == cfg.retryCount && c.timeout == cfg.commandTimeout
      ensures id in old(actions) && c.power == Power(old(actions)[id].typ)
      ensures current == Some(id) && cancelFn == Some(world.execNo) && !world.cancelled
    {
      ghost var s := Abs();
      PlaceKnown(s);
      var a := actions[id];
      c := Call(id, Primary, Power(a.typ), cfg.retryCount, cfg.commandTimeout, world.grace);
      world := world.(execNo := world.execNo + 1, cancelled := false);
      cancelFn, current := Some(world.execNo), Some(id);
      actions := actions[id := a.(state := Sending)];
      loop := Busy(id, Calling(c, Head(0)));
      assert Abs() == DoInstall(s);
      RunReaches(s, RunStep.Install);
    }

    /** Lines 196-205. */
    method RecordFailure(id: ID, c: Call, err: CallError) returns (unconfirmed: bool)
      requires Valid() && loop == Busy(id, Calling(c, Returned(Some(err)))) && c.phase.Primary?
      modifies this
      ensures Valid() && SameStart(old(Abs()), Abs(), id)
      ensures loop == Busy(id, if unconfirmed then Unconfirmed(false) else Leaving)
      ensures id in old(actions) && (unconfirmed <==> !old(actions)[id].state.Cancelled? && !c.power)
      ensures var a := old(actions)[id];
              actions == if a.state.Cancelled? then old(actions)
                         else old(actions)[id := a.(state := Failed, failedAt := Some(old(world.now)),
                                                    errorMessage := CommandFailed(err))]
    {
      ghost var s := Abs();
      PlaceKnown(s);
      var a := actions[id];
      unconfirmed := false;
      if !a.state.Cancelled? {
        actions := actions[id := a.(state := Failed, failedAt := Some(world.now), errorMessage := CommandFailed(err))];
        unconfirmed := !c.power;
      }
      loop := Busy(id, if unconfirmed then Unconfirmed(false) else Leaving);
      assert Abs() == DoFail(s, c, err);
      ExecReaches(s, ExecStep.Fail);
    }

    /** Lines 219-221. */
    method Fulfil(id: ID, c: Call) returns (t0: int)
      requires Valid() && loop == Busy(id, Calling(c, Returned(None))) && c.phase.Primary?
      modifies this
      ensures Valid() && SameStart(old(Abs()), Abs(), id) && loop == Busy(id, Done(c, t0)) && t0 == old(world.now)
      ensures id in old(actions)
      ensures actions == old(actions)[id := old(actions)[id].(fulfilledAt := Some(t0), state := Fulfilled)]
    {
      ghost var s := Abs();
      PlaceKnown(s);
      t0 := world.now;
      actions := actions[id := actions[id].(fulfilledAt := Some(t0), state := Fulfilled)];
      loop := Busy(id, Done(c, t0));
      assert Abs() == DoFulfil(s, c);
      ExecReaches(s, ExecStep.Fulfil);
    }

    /** Lines 231-234. */
    method BeginHold(id: ID, c: Call, t0: int) returns (timed: bool)
      requires Valid() && loop == Busy(id, Done(c, t0))
      modifies this
      ensures Valid() && SameStart(old(Abs()), Abs(), id)
      ensures loop == Busy(id, if timed then Expiring(c, t0) else Clearing(false))
      ensures id in old(actions) && (timed <==> old(actions)[id].typ.OpenTimed?)
      ensures var a := old(actions)[id];
              actions == if timed then old(actions)[id := a.(expiresAt := Some(t0 + a.duration), state := Closing)]
                         else old(actions)
    {
      ghost var s := Abs();
      PlaceKnown(s);
      var a := actions[id];
      timed := a.typ.OpenTimed?;
      if timed {
        actions := actions[id := a.(expiresAt := Some(t0 + a.duration), state := Closing)];
      }
      loop := Busy(id, if timed then Expiring(c, t0) else Clearing(false));
      HoldReaches(s, c, t0, timed, Abs());
    }

    /** Lines 235-240: announce the action, then wait for the timer or a cancel. */
    method HoldOpen(id: ID, c: Call, t0: int) returns (until: int)
      requires Valid() && loop == Busy(id, Expiring(c, t0))
      modifies this
      ensures Valid() && SameStart(old(Abs()), Abs(), id) && loop == Busy(id, Holding(c, t0, until))
      ensures world.now >= until || ExecDone(Abs())
    {
      Announce(id, c, t0);
      Interfere();
      until := StartTimer(id, c, t0);
      Interfere();
      if world.now < until && !ExecDone(View()) {
        Advance(until);
      }
    }

    /** updateActionID(a.ID). */
    method Announce(id: ID, c: Call, t0: int)
      requires Valid() && loop == Busy(id, Expiring(c, t0))
      modifies this
      ensures Valid() && SameStart(old(Abs()), Abs(), id)
      ensures loop == Busy(id, Announcing(c, t0, old(world.now) + STATUS_LIMIT))
      ensures info == old(info).(currentActionID := id)
    {
      ghost var s := Abs();
      PlaceKnown(s);
      info := info.(currentActionID := id);
      loop := Busy(id, Announcing(c, t0, world.now + STATUS_LIMIT));
      assert Abs() == ExecNext(s, ExecStep.Announce);
      ExecReaches(s, ExecStep.Announce);
    }

    method StartTimer(id: ID, c: Call, t0: int) returns (until: int)
      requires Valid() && loop.Busy? && loop.pc.Announcing? && loop == Busy(id, Announcing(c, t0, loop.pc.until))
      modifies this
      ensures Valid() && SameStart(old(Abs()), Abs(), id) && loop == Busy(id, Holding(c, t0, until))
      ensures id in old(actions) && until == old(world.now) + old(actions)[id].duration
    {
      ghost var s := Abs();
      PlaceKnown(s);
      until := world.now + actions[id].duration;
      log := log.(timers := log.timers[id := world.now]);
      loop := Busy(id, Holding(c, t0, until));
      assert Abs() == ExecNext(s, AnnounceEnd);
      ExecReaches(s, AnnounceEnd);
    }

    /** Lines 243-245. */
    method StartClose(id: ID, c: Call, t0: int, until: int) returns (c': Call)
      requires Valid() && loop == Busy(id, Holding(c, t0, until)) && (world.now >= until || ExecDone(Abs()))
      modifies this
      ensures Valid() && SameStart(old(Abs()), Abs(), id) && loop == Busy(id, Calling(c', Head(0)))
      ensures c'.phase.Shutoff? && !c'.power
      ensures c'.retries == c.retries && c'.deadline == Some(old(world.now) + CLOSE_LIMIT)
    {
      ghost var s := Abs();
      PlaceKnown(s);
      var closeId := GenerateID(actions);
      var a := NewAction(closeId, info, ActionType.Close, 0, world.now).(state := Sending);
      c' := Call(closeId, Shutoff, false, c.retries, c.timeout, Some(world.now + CLOSE_LIMIT));
      log := log.(asked := log.asked[closeId := a],
                  closeStarts := log.closeStarts[id := CloseStart(world.now, ExecDone(Abs()))]);
      actions := actions[closeId := a];
      loop := Busy(id, Calling(c', Head(0)));
      assert Abs() == DoEndHold(s, c, closeId);
      ExecReaches(s, EndHold(closeId));
    }

    /** Lines 251-269. */
    method RecordClose(id: ID, c: Call, err: Option<CallError>)
      requires Valid() && loop == Busy(id, Calling(c, Returned(err))) && c.phase.Shutoff?
      modifies this
      ensures Valid() && SameStart(old(Abs()), Abs(), id)
      ensures loop == Busy(id, if err.Some? then Unconfirmed(true) else Clearing(true))
      ensures id in old(actions)
      ensures var a := old(actions)[id].(closedAt := Some(old(world.now)));
              actions == old(actions)[id := if err.None? then a.(state := Fulfilled)
                                            else a.(state := Failed, failedAt := a.closedAt,
                                                    errorMessage := CloseNotConfirmed(err.value))]
    {
      ghost var s := Abs();
      PlaceKnown(s);
      var closedAt := world.now;
      var a := actions[id].(closedAt := Some(closedAt));
      if err.Some? {
        a := a.(state := Failed, failedAt := Some(closedAt), errorMessage := CloseNotConfirmed(err.value));
      } else {
        a := a.(state := Fulfilled);
      }
      actions := actions[id := a];
      loop := Busy(id, if err.Some? then Unconfirmed(true) else Clearing(true));
      assert Abs() == DoFinishClose(s, err);
      ExecReaches(s, FinishClose);
    }

    /** markCloseUnconfirmed. */
    method MarkCloseUnconfirmed(id: ID, timed: bool) returns (wrote: bool)
      requires Valid() && loop == Busy(id, Unconfirmed(timed))
      modifies this
      ensures Valid() && SameStart(old(Abs()), Abs(), id) && loop == Busy(id, AfterDowngrade(timed))
      ensures wrote <==> old(info).state.ValveClosed?
      ensures wrote ==> |log.writes| > |old(log.writes)| && log.writes[..|old(log.writes)|] == old(log.writes)
                        && log.writes[|old(log.writes)|] == CloseFailed(id)
      ensures !wrote ==> info == old(info) && log.writes == old(log.writes)
    {
      wrote := Downgrade(id, timed);
      if wrote {
        Interfere();
        DowngradeEnd(id, timed);
      }
    }

    /** Lines 394-402: a recorded "closed" becomes "unknown", anything else stays. */
    method Downgrade(id: ID, timed: bool) returns (wrote: bool)
      requires Valid() && loop == Busy(id, Unconfirmed(timed))
      modifies this
      ensures Valid() && SameStart(old(Abs()), Abs(), id) && (wrote <==> old(info).state.ValveClosed?)
      ensures info == if wrote then old(info).(state := ValveUnknown) else old(info)
      ensures log.writes == if wrote then old(log.writes) + [CloseFailed(id)] else old(log.writes)
      ensures loop == Busy(id, if wrote then Downgrading(timed, old(world.now) + STATUS_LIMIT)
                           else AfterDowngrade(timed))
    {
      ghost var s := Abs();
      PlaceKnown(s);
      wrote := info.state.ValveClosed?;
      if wrote {
        info := info.(state := ValveUnknown);
        log := log.(writes := log.writes + [CloseFailed(id)]);
      }
      loop := Busy(id, if wrote then Downgrading(timed, world.now + STATUS_LIMIT) else AfterDowngrade(timed));
      DowngradeReaches(s, timed, wrote, Abs());
    }

    method DowngradeEnd(id: ID, timed: bool)
      requires Valid() && loop.Busy? && loop.pc.Downgrading? && loop == Busy(id, Downgrading(timed, loop.pc.until))
      modifies this
      ensures Valid() && SameStart(old(Abs()), Abs(), id) && loop == Busy(id, AfterDowngrade(timed))
      ensures log == old(log)
    {
      ghost var s := Abs();
      PlaceKnown(s);
      loop := Busy(id, AfterDowngrade(timed));
      assert Abs() == ExecNext(s, ExecStep.DowngradeEnd);
      ExecReaches(s, ExecStep.DowngradeEnd);
    }

    /** Line 272: updateActionID(""). */
    method ClearActionID(id: ID)
      requires Valid() && loop.Busy? && loop.id == id && loop.pc.Clearing?
      modifies this
      ensures Valid() && SameStart(old(Abs()), Abs(), id) && loop == Busy(id, Leaving)
      ensures info.currentActionID == ""
    {
      Clear(id);
      Interfere();
      ClearEnd(id);
    }

    method Clear(id: ID)
      requires Valid() && loop.Busy? && loop.id == id && loop.pc.Clearing?
      modifies this
      ensures Valid() && SameStart(old(Abs()), Abs(), id) && loop == Busy(id, Cleared(old(world.now) + STATUS_LIMIT))
      ensures info == old(info).(currentActionID := "")
    {
      ghost var s := Abs();
      PlaceKnown(s);
      info := info.(currentActionID := "");
      loop := Busy(id, Cleared(world.now + STATUS_LIMIT));
      assert Abs() == ExecNext(s, ExecStep.Clear);
      ExecReaches(s, ExecStep.Clear);
    }

    method ClearEnd(id: ID)
      requires Valid() && loop.Busy? && loop.id == id && loop.pc.Cleared?
      modifies this
      ensures Valid() && SameStart(old(Abs()), Abs(), id) && loop == Busy(id, Leaving) && info == old(info)
    {
      ghost var s := Abs();
      PlaceKnown(s);
      loop := Busy(id, Leaving);
      assert Abs() == ExecNext(s, ExecStep.ClearEnd);
      ExecReaches(s, ExecStep.ClearEnd);
    }

    /** Lines 184-188. */
    method Leave(id: ID)
      requires Valid() && loop == Busy(id, Leaving)
      modifies this
      ensures Valid() && SameStart(old(Abs()), Abs(), id) && loop == Busy(id, Retiring) && current.None?
      ensures cancelFn.None?
    {
      ghost var s := Abs();
      PlaceKnown(s);
      world := world.(cancelled := true);
      cancelFn, current := None, None;
      loop := Busy(id, Retiring);
      assert Abs() == RunNext(s, RunStep.Leave);
      RunReaches(s, RunStep.Leave);
    }

    /** addToHistory: newest first, at most a hundred. */
    method AddToHistory(id: ID)
      modifies this`history
      ensures history == Pushed(old(history), id) && history != [] && history[0] == id
    {
      history := [id] + history;
      if |history| > HISTORY_LIMIT {
        history := history[..HISTORY_LIMIT];
      }
    }

    /** The end of execute: line 173, or lines 189-191. */
    method Retire(id: ID, rejected: bool) returns (listed: bool)
      requires Valid() && loop == Busy(id, if rejected then Rejected else Retiring)
      modifies this
      ensures Valid() && SameStart(old(Abs()), Abs(), id) && id in actions && actions == old(actions)
      ensures loop == Rest(Abs())
      ensures log.retired == old(log.retired) + [id]
      ensures listed <==> rejected || !actions[id].IsInternalSafetyPing()
      ensures history == (if listed then Pushed(old(history), id) else old(history)) && (listed ==> id == history[0])
    {
      ghost var s := Abs();
      PlaceKnown(s);
      listed := rejected || !actions[id].IsInternalSafetyPing();
      if listed {
        AddToHistory(id);
      }
      log := log.(retired := log.retired + [id], finished := if listed then log.finished + [id] else log.finished);
      loop := if world.grace.Some? then Stopped else Idle;
      RetireReaches(s, rejected, listed, Abs());
    }

    /** The failing branch, lines 195-210. */
    method FailCommand(id: ID, c: Call, err: CallError)
      requires Valid() && loop == Busy(id, Calling(c, Returned(Some(err)))) && c.phase.Primary?
      modifies this
      ensures Valid() && SameStart(old(Abs()), Abs(), id) && loop == Busy(id, Leaving)
    {
      var unconfirmed := RecordFailure(id, c, err);
      if unconfirmed {
        Interfere();
        var _ := MarkCloseUnconfirmed(id, false);
      }
    }

    /** Lines 243-270: the close of a timed open, whatever ended the hold. */
    method CloseAgain(id: ID, c: Call, t0: int, until: int)
      requires Valid() && loop == Busy(id, Holding(c, t0, until)) && (world.now >= until || ExecDone(Abs()))
      modifies this
      ensures Valid() && SameStart(old(Abs()), Abs(), id) && loop == Busy(id, Clearing(true))
    {
      var c' := StartClose(id, c, t0, until);
      var err := AttemptWithRetry(id, c');
      Interfere();
      RecordClose(id, c', err);
      if err.Some? {
        Interfere();
        var _ := MarkCloseUnconfirmed(id, true);
      }
    }

    /** The confirmed branch, lines 219-272. */
    method FinishCommand(id: ID, c: Call)
      requires Valid() && loop == Busy(id, Calling(c, Returned(None))) && c.phase.Primary?
      modifies this
      ensures Valid() && SameStart(old(Abs()), Abs(), id) && loop == Busy(id, Leaving)
    {
      var t0 := Fulfil(id, c);
      Interfere();
      var timed := BeginHold(id, c, t0);
      Interfere();
      if timed {
        var until := HoldOpen(id, c, t0);
        CloseAgain(id, c, t0, until);
        Interfere();
      }
      ClearActionID(id);
    }

    /** Lines 177-272, up to line 188 of the deferred function. */
    method Perform(id: ID, cfg: ValveConfig)
      requires Valid() && loop == Busy(id, Ready(cfg))
      modifies this
      ensures Valid() && SameStart(old(Abs()), Abs(), id) && loop == Busy(id, Retiring)
    {
      var c := Install(id, cfg);
      var err := AttemptWithRetry(id, c);
      Interfere();
      if err.Some? {
        FailCommand(id, c, err.value);
      } else {
        FinishCommand(id, c);
      }
      Interfere();
      Leave(id);
      Interfere();
    }

    /** execute: whatever acts in between, the action ends, is listed, and a timed
        open whose ON was confirmed has sent OFF and is fulfilled exactly if its
        close was confirmed. */
    method Execute(id: ID)
      requires Valid() && loop == Busy(id, Took)
      modifies this
      ensures Valid() && SameStart(old(Abs()), Abs(), id) && loop == Rest(Abs())
      ensures current.None? && cancelFn.None? && (info.currentActionID == "" || info.currentActionID == log.initialID)
      ensures id in log.retired && id in actions && EndOf(Abs(), id)
      ensures !actions[id].IsInternalSafetyPing() ==> history != [] && history[0] == id
    {
      Interfere();
      var cfg, rejected := ReadConfig(id);
      Interfere();
      if !rejected {
        Perform(id, cfg);
      }
      Conclusion(id, rejected);
    }

    method Conclusion(id: ID, rejected: bool)
      requires Valid() && loop == Busy(id, if rejected then Rejected else Retiring)
      modifies this
      ensures Valid() && SameStart(old(Abs()), Abs(), id) && loop == Rest(Abs())
      ensures current.None? && cancelFn.None? && (info.currentActionID == "" || info.currentActionID == log.initialID)
      ensures id in log.retired && id in actions && EndOf(Abs(), id)
      ensures !actions[id].IsInternalSafetyPing() ==> history != [] && history[0] == id
    {
      var _ := Retire(id, rejected);
      EndKnown(Abs(), id);
      RestKnown(Abs());
    }

    // ----- run

    /** A number of iterations of the select loop of run: every execution that
        began has ended, in order. */
    method RunLoop(n: nat)
      requires Valid() && loop.Idle?
      modifies this
      ensures Valid() && !loop.Busy? && log.begun == log.retired
    {
      var k := n;
      while k > 0 && loop.Idle?
        invariant Valid() && !loop.Busy?
        decreases k
      {
        Interfere();
        var ready: bool := *;
        if ready && queue.items != [] {
          var id := Dequeue();
          Execute(id);
        } else if world.rootDone {
          Shutdown();
        }
        k := k - 1;
      }
      RestKnown(Abs());
    }

    /** Line 117. */
    method Dequeue() returns (id: ID)
      requires Valid() && loop.Idle? && queue.items != []
      modifies this
      ensures Valid() && id == old(queue.items)[0] && loop == Busy(id, Took) && queue.items == old(queue.items)[1..]
    {
      ghost var s := Abs();
      HeadKnown(s);
      id := queue.items[0];
      queue := Q.Remove(queue, Q.Ran);
      loop := Busy(id, Took);
      log := log.(begun := log.begun + [id]);
      assert Abs() == DoDequeue(s);
      RunReaches(s, RunStep.Dequeue);
    }

    /** Lines 120-127: an open valve is closed once more. */
    method Shutdown()
      requires Valid() && loop.Idle? && world.rootDone
      modifies this
      ensures Valid() && loop.Stopped?
      ensures old(info).state.ValveOpen? ==>
                exists id :: id in log.retired && id !in old(actions) && EndOf(Abs(), id) && actions[id].typ.Close?
    {
      if info.state.ValveOpen? {
        var id := BeginShutdown();
        Execute(id);
        assert actions[id].typ.Close?;
      } else {
        StopRun();
      }
    }

    method BeginShutdown() returns (id: ID)
      requires Valid() && loop.Idle? && world.rootDone && info.state.ValveOpen?
      modifies this
      ensures Valid() && loop == Busy(id, Took) && id !in old(actions) && world.grace.Some?
      ensures id in log.asked && log.asked[id].typ.Close?
      ensures actions == old(actions)[id := NewAction(id, info, ActionType.Close, 0, world.now)]
    {
      ghost var s := Abs();
      id := GenerateID(actions);
      var a := NewAction(id, info, ActionType.Close, 0, world.now);
      actions := actions[id := a];
      world := world.(grace := Some(world.now + CLOSE_LIMIT));
      loop := Busy(id, Took);
      log := log.(asked := log.asked[id := a], begun := log.begun + [id], shut := log.shut + [id]);
      assert Abs() == DoShutdown(s, id);
      RunReaches(s, RunStep.BeginShutdown(id));
    }

    method StopRun()
      requires Valid() && loop.Idle? && world.rootDone && !info.state.ValveOpen?
      modifies this
      ensures Valid() && loop == Stopped
    {
      ghost var s := Abs();
      loop := Stopped;
      assert Abs() == RunNext(s, RunStep.StopRun);
      RunReaches(s, RunStep.StopRun);
    }

    // ----- producers

    /** newAction and Enqueue, lines 65-81, while nobody else acts: the newest action is
        admitted, at the price of the oldest one when the channel is full, and a close
        cancels the running action. */
    method EnqueueAlone(typ: ActionType, duration: int) returns (id: ID)
      requires Valid() && (typ.OpenTimed? ==> duration > 0)
      modifies this
      ensures Valid() && id !in old(actions)
      ensures actions == old(actions)[id := NewAction(id, info, typ, duration, world.now)]
      ensures queue.items == (if |old(queue.items)| < Q.CAPACITY then old(queue.items) else old(queue.items)[1..]) +
              [id]
      ensures world == old(world).(cancelled := old(world.cancelled) || (typ.Close? && cancelFn.Some?))
      ensures unchanged(this`info, this`current, this`cancelFn, this`history, this`loop)
    {
      id := GenerateID(actions);
      Request(id, typ, duration);
      var sent := TrySend(id);
      if !sent {
        MakeRoom(id);
        MustSend(id);
      }
    }

    method Request(id: ID, typ: ActionType, duration: int)
      requires Valid() && id != "" && id !in actions && (typ.OpenTimed? ==> duration > 0)
      modifies this`actions, this`queue, this`world, this`log
      ensures Valid() && queue.items == old(queue.items)
      ensures queue.calls == old(queue.calls)[id := Q.TrySend]
      ensures Called(old(Abs()), Abs(), id, typ, duration)
      ensures actions == old(actions)[id := NewAction(id, info, typ, duration, world.now)]
      ensures world == old(world).(cancelled := old(world.cancelled) || (typ.Close? && cancelFn.Some?))
    {
      ghost var s := Abs();
      CallKnown(s, id);
      var a := NewAction(id, info, typ, duration, world.now);
      if typ.Close? && cancelFn.Some? {
        world := world.(cancelled := true);
      }
      actions := actions[id := a];
      queue := queue.(calls := queue.calls[id := Q.TrySend]);
      log := log.(asked := log.asked[id := a]);
      RequestReaches(s, id, typ, duration, Abs());
    }

    method TrySend(id: ID) returns (sent: bool)
      requires Valid() && id in queue.calls && queue.calls[id].TrySend?
      modifies this`queue
      ensures Valid() && (sent <==> |old(queue.items)| < Q.CAPACITY)
      ensures sent ==> queue.items == old(queue.items) + [id]
      ensures !sent ==> queue == old(queue).(calls := old(queue.calls)[id := Q.MakeRoom])
    {
      ghost var s := Abs();
      sent := |queue.items| < Q.CAPACITY;
      queue := if sent then Q.Admit(queue, id) else queue.(calls := queue.calls[id := Q.MakeRoom]);
      assert Abs() == EnvNext(s, QueueTry(id));
      ReachableStep(s, Env(QueueTry(id)));
    }

    method MakeRoom(id: ID)
      requires Valid() && id in queue.calls && queue.calls[id].MakeRoom?
      modifies this`queue
      ensures Valid() && id in queue.calls && queue.calls[id].MustSend?
      ensures queue.items == (if old(queue.items) == [] then [] else old(queue.items)[1..])
      ensures |queue.items| < Q.CAPACITY
    {
      ghost var s := Abs();
      ItemsBounded(s);
      if queue.items != [] {
        queue := Q.Remove(queue, Q.Dropped);
      }
      queue := queue.(calls := queue.calls[id := Q.MustSend]);
      assert Abs() == EnvNext(s, QueueDiscard(id));
      ReachableStep(s, Env(QueueDiscard(id)));
    }

    method MustSend(id: ID)
      requires Valid() && id in queue.calls && queue.calls[id].MustSend? && |queue.items| < Q.CAPACITY
      modifies this`queue
      ensures Valid() && queue.items == old(queue.items) + [id]
    {
      ghost var s := Abs();
      queue := Q.Admit(queue, id);
      assert Abs() == EnvNext(s, QueuePush(id));
      ReachableStep(s, Env(QueuePush(id)));
    }

    /** Steps of everybody, other producers included, but of the Enqueue call for id. */
    method InterfereWithProducer(id: ID)
      requires Valid() && id in queue.calls
      modifies this
      ensures Valid() && id in queue.calls && queue.calls[id] == old(queue.calls)[id]
      ensures info.Key() == old(info.Key())
    {
      var n: nat := *;
      while n > 0
        invariant Valid() && id in queue.calls && queue.calls[id] == old(queue.calls)[id]
        invariant info.Key() == old(info.Key())
      {
        var st: Step := *;
        var possible := Possible(st);
        if possible && st !in {Env(QueueTry(id)), Env(QueueDiscard(id)), Env(QueuePush(id))} {
          CallStays(Abs(), st, id);
          Th.KeyStaysStep(Abs(), st);
          Take(st);
        }
        n := n - 1;
      }
    }

    /** Enqueue among other producers: the call returns only when its action is the last
        one in the channel; otherwise it still blocks at line 79, on a full channel. A
        close cancels what is running when the call begins. */
    method Enqueue(typ: ActionType, duration: int) returns (id: ID, admitted: bool, ghost called: State)
      requires Valid() && (typ.OpenTimed? ==> duration > 0)
      modifies this
      ensures Valid() && info.Key() == old(info.Key())
      ensures Called(old(Abs()), called, id, typ, duration) && Enqueued(Abs(), id, admitted)
    {
      id := GenerateID(actions);
      Request(id, typ, duration);
      called := Abs();
      InterfereWithProducer(id);
      admitted := TrySend(id);
      if !admitted {
        admitted := SendAfterDiscard(id);
      }
    }

    /** Lines 75-79. */
    method SendAfterDiscard(id: ID) returns (admitted: bool)
      requires Valid() && id in queue.calls && queue.calls[id].MakeRoom?
      modifies this
      ensures Valid() && info.Key() == old(info.Key()) && Enqueued(Abs(), id, admitted)
    {
      InterfereWithProducer(id);
      MakeRoom(id);
      InterfereWithProducer(id);
      var patience: nat := *;
      while |queue.items| >= Q.CAPACITY && patience > 0
        invariant Valid() && id in queue.calls && queue.calls[id].MustSend? && info.Key() == old(info.Key())
        decreases patience
      {
        InterfereWithProducer(id);
        patience := patience - 1;
      }
      admitted := |queue.items| < Q.CAPACITY;
      if admitted {
        MustSend(id);
      }
    }

    /** UpdateConfig: only what the spec says; not the recorded state, nor anything
        of the running action. */
    method UpdateConfig(spec: ValveInfo)
      requires Valid()
      modifies this`info
      ensures Valid() && info == WithSpec(old(info), spec) && Abs() == old(Abs()).(info := info)
    {
      ghost var s := Abs();
      info := info.(config := spec.config, friendlyName := spec.friendlyName, shortAddr := spec.shortAddr);
      info := info.(bridgeName := spec.bridgeName, bridgeHost := spec.bridgeHost, bridgePort := spec.bridgePort);
      assert Abs() == EnvNext(s, EnvStep.UpdateConfig(spec));
      ReachableStep(s, Env(EnvStep.UpdateConfig(spec)));
    }

    /** UpdateSensorFields: only telemetry. */
    method UpdateSensors(ev: SensorEvent)
      requires Valid()
      modifies this`info
      ensures Valid() && info == WithSensors(old(info), ev)
    {
      ghost var s := Abs();
      info := CopySensors(info, ev);
      SensorsReach(s, ev, Abs());
    }

    static method CopySensors(info: ValveInfo, ev: SensorEvent) returns (v: ValveInfo)
      ensures v == WithSensors(info, ev)
    {
      v := info;
      if ev.linkQuality.Some? { v := v.(linkQuality := Int32(ev.linkQuality.value)); }
      if ev.batteryPercentage.Some? { v := v.(batteryPercentage := Int32(ev.batteryPercentage.value)); }
      if ev.dailyIrrigationVolume.Some? { v := v.(dailyIrrigationVolume := ev.dailyIrrigationVolume.value); }
      if ev.lastValveOpenDuration.Some? { v := v.(lastValveOpenDuration := ev.lastValveOpenDuration.value); }
    }

    /** The pipeline's own context ends (DeregisterValve). */
    method CancelContext()
      requires Valid()
      modifies this`world
      ensures Valid() && world == old(world).(rootDone := true) && Abs() == old(Abs()).(rootDone := true)
    {
      ghost var s := Abs();
      world := world.(rootDone := true);
      assert Abs() == EnvNext(s, CancelRoot);
      ReachableStep(s, Env(CancelRoot));
    }

    /** The end of Scheduler.Open and Close: the pipeline goes on between the caller's
        lookup and its Enqueue, and during it. */
    method Ask(typ: ActionType, duration: int) returns (id: ID, returned: bool, ghost mid: State, ghost called: State)
      requires Valid() && (typ.OpenTimed? ==> duration > 0)
      modifies this
      ensures Valid() && info.Key() == old(info.Key())
      ensures exists steps :: Run(old(Abs()), steps, mid)
      ensures Called(mid, called, id, typ, duration) && Enqueued(Abs(), id, returned)
    {
      ghost var steps := Elapse();
      mid := Abs();
      id, returned, called := Enqueue(typ, duration);
    }

    // ----- readers

    /** Any number of steps of everybody. */
    method Elapse() returns (ghost steps: seq<Step>)
      requires Valid()
      modifies this
      ensures Valid() && Run(old(Abs()), steps, Abs()) && info.Key() == old(info.Key())
    {
      steps := [];
      var n: nat := *;
      while n > 0
        invariant Valid() && Run(old(Abs()), steps, Abs())
      {
        var st: Step := *;
        var possible := Possible(st);
        if possible {
          RunAppend(old(Abs()), steps, Abs(), st);
          steps := steps + [st];
          Take(st);
        }
        n := n - 1;
      }
      Th.KeyStays(old(Abs()), steps, Abs());
    }

    /** ListActions: the history, then the current action; never an action twice. */
    method ListActions() returns (ids: seq<ID>)
      requires Valid()
      modifies this
      ensures Valid() && info.Key() == old(info.Key()) && Q.NoDuplicates(ids)
      ensures ids == (if current.Some? then [current.value] else []) + old(history)
    {
      ghost var s := Abs();
      var h := history;
      ghost var steps := Elapse();
      Th.NeverListedTwice(s, steps, Abs());
      ids := h;
      if current.Some? {
        ids := [current.value] + h;
      } else {
        assert [] + h == h;
      }
    }

    /** GetAction: the current action, then the history. */
    method GetAction(id: ID) returns (found: Option<ID>)
      requires Valid()
      modifies this
      ensures Valid() && info.Key() == old(info.Key()) && (found.Some? ==> found.value == id && id in actions)
      ensures found.Some? <==> old(current) == Some(id) || (old(current) != Some(id) && id in history)
    {
      if current == Some(id) {
        CurrentKnown(Abs());
        return current;
      }
      ghost var _ := Elapse();
      var i := 0;
      while i < |history| && history[i] != id
        invariant 0 <= i <= |history| && id !in history[..i]
      {
        i := i + 1;
      }
      if i < |history| {
        HistoryKnown(Abs(), id);
        return Some(history[i]);
      }
      assert history[..i] == history;
      found := None;
    }

    // ----- keepClosedPing

    /** One step of anybody but the ping. */
    method StepElsewhere(st: Step)
      requires Valid() && Enabled(Abs(), st) && !st.OfPing?
      modifies this
      ensures Valid() && Abs() == Next(old(Abs()), st)
      ensures forall s :: PingKept(s, old(Abs())) ==> PingKept(s, Abs())
    {
      ghost var s := Abs();
      NetKnown(s);
      PingKeptStep(s, st);
      forall r | PingKept(r, s) ensures PingKept(r, Next(s, st)) { PingKeptTransitive(r, s, Next(s, st)); }
      Take(st);
    }

    method InterfereWithPing()
      requires Valid()
      modifies this
      ensures Valid() && PingKept(old(Abs()), Abs())
    {
      W.ExtendsSelf(world.net);
      var n: nat := *;
      while n > 0
        invariant Valid() && PingKept(old(Abs()), Abs())
      {
        var st: Step := *;
        var possible := Possible(st);
        if possible && !st.OfPing? { StepElsewhere(st); }
        n := n - 1;
      }
    }

    /** Time passes, or a waiter gives up. */
    method WaitForPing(w: nat)
      requires Valid() && w < |world.net.waiters|
      modifies this
      ensures Valid() && PingKept(old(Abs()), Abs()) && Settled(Abs(), w)
    {
      InterfereWithPing();
      if world.net.waiters[w].outcome.None? {
        if !WaiterDone(View(), world.net.waiters[w]) {
          StepElsewhere(Env(Tick(world.net.waiters[w].deadline)));
        }
        StepElsewhere(Env(WaiterTimeout(w)));
      }
    }

    /** keepClosedPing. A tick sends nothing if its check finds the action it read an
        unfinished open; otherwise exactly as many OFFs as the config it read says. */
    method KeepClosedPing() returns (sent: bool, ghost check: State)
      requires Valid() && world.ping.PIdle?
      modifies this
      ensures Valid() && world.ping.PIdle? && (sent <==> !Suppressed(check, old(current)))
      ensures !sent ==> log.rounds == old(log.rounds) && log.pings == old(log.pings)
      ensures sent ==>
                log.rounds == old(log.rounds) + [RoundLog(old(info), |old(log.pings)|, |check.net.dispatched|)]
      ensures sent ==> |log.pings| == |old(log.pings)| + old(info).CloseSends()
    {
      var cur, seen := current, info;
      TakeSnapshot();
      InterfereWithPing();
      check := Abs();
      sent := Decide(cur, seen);
      if sent {
        SendPings();
        var confirmed := ReceivePing();
        if confirmed {
          var granted, _ := RecordPing();
        }
      }
    }

    /** Lines 415-418. */
    method TakeSnapshot()
      requires Valid() && world.ping.PIdle?
      modifies this`world
      ensures Valid() && world == old(world).(ping := Snapped(current, info))
    {
      ghost var s := Abs();
      world := world.(ping := Snapped(current, info));
      assert Abs() == PingNext(s, PingSnapshot);
      PingReaches(s, PingSnapshot);
    }

    /** Lines 425-436. */
    method Decide(cur: Option<ID>, seen: ValveInfo) returns (sent: bool)
      requires Valid() && world.ping == Snapped(cur, seen)
      modifies this
      ensures Valid() && (sent <==> !Suppressed(old(Abs()), cur))
      ensures !sent ==> world.ping.PIdle? && log == old(log)
      ensures sent ==>
                && world.ping.InRound? && world.ping.pp.PBegun? && world.ping.r.sends == seen.CloseSends()
                    && world.ping.r.i == 0
                && log.rounds == old(log.rounds) + [RoundLog(seen, |old(log.pings)|, |old(world.net.dispatched)|)]
                && log.pings == old(log.pings)
    {
      ghost var s := Abs();
      sent := !Suppressed(View(), cur);
      if sent {
        var r := NewRound(seen);
        world := world.(ping := InRound(r, PBegun));
        log := log.(rounds := log.rounds + [RoundLog(seen, |log.pings|, |world.net.dispatched|)]);
      } else {
        world := world.(ping := PIdle);
      }
      DecideReaches(s, sent, Abs());
    }

    /** What a round takes from its snapshot. */
    static method NewRound(seen: ValveInfo) returns (r: Round)
      ensures r == RoundOf(seen)
    {
      var timeout := seen.config.commandTimeout;
      if timeout <= 0 {
        timeout := PING_TIMEOUT;
      }
      r := Round(seen.bridgeName, seen.CommandTarget(), timeout, seen.CloseSends(), 0, 0);
    }

    /** Lines 440-458: exactly r.sends calls of SendZbSend. */
    method SendPings()
      requires Valid() && world.ping.InRound? && world.ping.pp.PBegun? && world.ping.r.i == 0 && world.ping.r.sends >= 1
      modifies this
      ensures Valid() && world.ping.InRound? && world.ping.pp.PReceiving?
      ensures log.rounds == old(log.rounds) && |log.pings| == |old(log.pings)| + old(world.ping.r.sends)
    {
      var sends := world.ping.r.sends;
      RegisterPing();
      var i := 0;
      while i < sends
        invariant 0 <= i <= sends && Valid() && world.ping.InRound? && world.ping.r.sends == sends
        invariant world.ping.r.i == i
        invariant i == 0 ==> world.ping.pp.PToSend?
        invariant 0 < i < sends ==> world.ping.pp.PGap?
        invariant i == sends ==> world.ping.pp.PReceiving?
        invariant log.rounds == old(log.rounds) && |log.pings| == |old(log.pings)| + i
      {
        if i > 0 {
          WaitPingGap();
        }
        SendPing();
        i := i + 1;
      }
    }

    method RegisterPing()
      requires Valid() && world.ping.InRound? && world.ping.pp.PBegun?
      modifies this
      ensures Valid() && world.ping.InRound? && world.ping.pp.PToSend?
      ensures world.ping.r.sends == old(world.ping.r.sends) && world.ping.r.i == old(world.ping.r.i)
      ensures log.rounds == old(log.rounds) && log.pings == old(log.pings)
    {
      InterfereWithPing();
      ghost var s := Abs();
      var r := world.ping.r;
      world := world.(net := W.Register(world.net, r.target, 0, world.now + r.timeout, W.PingScope),
                      ping := InRound(r.(w := |world.net.waiters|), PToSend));
      assert Abs() == PingNext(s, PingRegister);
      PingReaches(s, PingRegister);
    }

    method WaitPingGap()
      requires Valid() && world.ping.InRound? && world.ping.pp.PGap?
      modifies this
      ensures Valid() && world.ping.InRound? && world.ping.pp.PToSend? && world.ping.r == old(world.ping.r)
      ensures log.rounds == old(log.rounds) && log.pings == old(log.pings)
    {
      InterfereWithPing();
      PingPlaceKnown(Abs());
      if world.now < world.ping.pp.until && !WaiterDone(View(), world.net.waiters[world.ping.r.w]) {
        StepElsewhere(Env(Tick(world.ping.pp.until)));
      }
      ghost var s := Abs();
      world := world.(ping := InRound(world.ping.r, PToSend));
      assert Abs() == PingNext(s, PingGapEnd);
      PingReaches(s, PingGapEnd);
    }

    method SendPing()
      requires Valid() && world.ping.InRound? && world.ping.pp.PToSend?
      modifies this
      ensures Valid() && world.ping.InRound? && world.ping.r == old(world.ping.r).(i := old(world.ping.r.i) + 1)
      ensures if world.ping.r.i < world.ping.r.sends then world.ping.pp.PGap? else world.ping.pp.PReceiving?
      ensures log.rounds == old(log.rounds) && |log.pings| == |old(log.pings)| + 1
    {
      BeginPing();
      InterfereWithPing();
      EndPing();
    }

    method BeginPing()
      requires Valid() && world.ping.InRound? && world.ping.pp.PToSend?
      modifies this
      ensures Valid() && world.ping == InRound(old(world.ping.r), PInSend)
      ensures log.rounds == old(log.rounds) && |log.pings| == |old(log.pings)| + 1
    {
      ghost var s := Abs();
      var r := world.ping.r;
      log := log.(pings := log.pings + [PingSend(r.bridge, r.target, world.now)]);
      world := world.(ping := InRound(r, PInSend));
      assert Abs() == PingNext(s, PingSendBegin);
      PingReaches(s, PingSendBegin);
    }

    method EndPing()
      requires Valid() && world.ping.InRound? && world.ping.pp.PInSend?
      modifies this
      ensures Valid() && world.ping.InRound? && world.ping.r == old(world.ping.r).(i := old(world.ping.r.i) + 1)
      ensures if world.ping.r.i < world.ping.r.sends then world.ping.pp.PGap? else world.ping.pp.PReceiving?
      ensures log == old(log)
    {
      ghost var s := Abs();
      var r := world.ping.r.(i := world.ping.r.i + 1);
      world := world.(ping := InRound(r, if r.i < r.sends then PGap(world.now + SEND_GAP) else PReceiving));
      assert Abs() == DoPingSendEnd(s);
      PingReaches(s, PingSendEnd);
    }

    /** Lines 463-466. */
    method ReceivePing() returns (confirmed: bool)
      requires Valid() && world.ping.InRound? && world.ping.pp.PReceiving?
      modifies this
      ensures Valid() && world.ping == (if confirmed then InRound(old(world.ping.r), PProved) else PIdle)
      ensures confirmed <==> ConfirmedW(Abs(), old(world.ping.r.w))
      ensures log.rounds == old(log.rounds) && log.pings == old(log.pings)
    {
      PingPlaceKnown(Abs());
      WaitForPing(world.ping.r.w);
      ghost var s := Abs();
      var r := world.ping.r;
      confirmed := ConfirmedW(View(), r.w);
      world := world.(net := W.Stop(world.net, r.w), ping := if confirmed then InRound(r, PProved) else PIdle);
      assert Abs() == PingNext(s, PingReceive);
      PingReaches(s, PingReceive);
    }

    /** Lines 467-468: the check and the write are separate critical sections. */
    method RecordPing() returns (granted: bool, ghost check: State)
      requires Valid() && world.ping.InRound? && world.ping.pp.PProved?
      modifies this
      ensures Valid() && world.ping.PIdle? && log.rounds == old(log.rounds) && log.pings == old(log.pings)
      ensures granted <==> Free(check)
      ensures granted ==>
                exists i, upto :: |old(log.writes)| <= i < |log.writes|
                  && log.writes[i] == Seen(ByPing(RoundNo(old(Abs()))), false, old(world.ping.r.w), upto)
      ensures !granted ==> N.NotByRound(log.writes, RoundNo(old(Abs())))
    {
      assert N.NotByRound(log.writes, RoundNo(Abs())) by { N.ReachableInOrder(Abs()); }
      InterfereWithPing();
      check := Abs();
      granted := CheckPing();
      if granted {
        InterfereWithPing();
        ghost var n, w, upto := |log.writes|, world.ping.r.w, |world.net.dispatched|;
        ApplyPing();
        assert log.writes[n] == Seen(ByPing(RoundNo(old(Abs()))), false, w, upto);
        InterfereWithPing();
        EndPingWrite();
      }
    }

    method CheckPing() returns (granted: bool)
      requires Valid() && world.ping.InRound? && world.ping.pp.PProved?
      modifies this
      ensures Valid() && world.ping == (if granted then InRound(old(world.ping.r), PGranted) else PIdle)
      ensures log == old(log) && (granted <==> Free(old(Abs())))
    {
      ghost var s := Abs();
      granted := current.None? || (current.value in actions && actions[current.value].IsTerminal());
      world := world.(ping := if granted then InRound(world.ping.r, PGranted) else PIdle);
      assert Abs() == PingNext(s, PingCheck);
      PingReaches(s, PingCheck);
    }

    method ApplyPing()
      requires Valid() && world.ping.InRound? && world.ping.pp.PGranted?
      modifies this
      ensures Valid() && world.ping.InRound? && world.ping.pp.PWriting?
      ensures info == Recorded(old(info), false, old(world.now))
      ensures log.rounds == old(log.rounds) && log.pings == old(log.pings)
      ensures log.writes == old(log.writes) + [Seen(ByPing(RoundNo(old(Abs()))), false, old(world.ping.r.w),
                                                    |old(world.net.dispatched)|)]
    {
      ghost var s := Abs();
      ghost var k := RoundNo(Abs());
      info := info.(state := ValveClosed, lastCloseTime := Some(world.now));
      log := log.(writes := log.writes + [Seen(ByPing(k), false, world.ping.r.w, |world.net.dispatched|)]);
      world := world.(ping := InRound(world.ping.r, PWriting(world.now + STATUS_LIMIT)));
      assert Abs() == PingNext(s, PingStep.PingApply);
      PingReaches(s, PingStep.PingApply);
    }

    method EndPingWrite()
      requires Valid() && world.ping.InRound? && world.ping.pp.PWriting?
      modifies this
      ensures Valid() && world.ping.PIdle? && log == old(log)
    {
      ghost var s := Abs();
      world := world.(ping := PIdle);
      assert Abs() == PingNext(s, PingWriteEnd);
      PingReaches(s, PingWriteEnd);
    }
  }
}
