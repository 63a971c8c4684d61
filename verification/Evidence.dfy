/** Every recorded valve state rests on what a device reported. */
module Evidence {
  import opened Device
  import opened DispatchKeys
  import opened Machine
  import opened Frames
  import W = Waiters

  // ----- the waiters

  lemma NetEnv(s: State, e: EnvStep)
    requires W.NInv(s.net) && EnvEnabled(s, e)
    ensures W.NInv(EnvNext(s, e).net) && W.Extends(s.net, EnvNext(s, e).net)
  {
    match e
    case DispatchEvent(ev) => W.DispatchKeeps(s.net, ev);
    case HandlerCall(d) => W.DeliverKeeps(s.net, d);
    case WaiterTimeout(w) => W.ExpireKeeps(s.net, w);
    case RunUnsubscribe(w) => W.UnsubscribeKeeps(s.net, w);
    case _ =>
  }

  lemma NetRegister(s: State)
    requires W.NInv(s.net) && CallEnabled(s, RegisterWaiter)
    ensures W.NInv(DoRegister(s).net) && W.Extends(s.net, DoRegister(s).net)
  {
    var c := s.loop.pc.c;
    W.RegisterKeeps(s.net, s.loop.pc.cp.at.target, if c.power then 1 else 0, WaitDeadline(s.now, c.timeout, c.deadline),
                    if c.phase.Primary? then W.ActionScope(s.execNo) else W.CloseScope);
  }

  lemma NetStop(s: State, cs: CallStep)
    requires W.NInv(s.net) && CallEnabled(s, cs) && (cs.SendEnd? || cs.Receive?)
    ensures CallNext(s, cs).net == s.net || CallNext(s, cs).net == W.Stop(s.net, s.loop.pc.cp.at.w)
    ensures W.NInv(CallNext(s, cs).net) && W.Extends(s.net, CallNext(s, cs).net)
  {
    W.StopKeeps(s.net, s.loop.pc.cp.at.w);
  }

  lemma NetCall(s: State, cs: CallStep)
    requires W.NInv(s.net) && CallEnabled(s, cs)
    ensures W.NInv(CallNext(s, cs).net) && W.Extends(s.net, CallNext(s, cs).net)
  {
    match cs
    case RegisterWaiter => NetRegister(s);
    case SendEnd(_) => NetStop(s, cs);
    case Receive => NetStop(s, cs);
    case _ =>
  }

  lemma NetPing(s: State, ps: PingStep)
    requires W.NInv(s.net) && PingEnabled(s, ps)
    ensures W.NInv(PingNext(s, ps).net) && W.Extends(s.net, PingNext(s, ps).net)
  {
    match ps
    case PingRegister => NetPingRegister(s);
    case PingReceive => NetPingReceive(s);
    case _ => PingNetSame(s, ps); W.ExtendsSelf(s.net);
  }

  lemma NetPingRegister(s: State)
    requires W.NInv(s.net) && PingEnabled(s, PingRegister)
    ensures W.NInv(PingNext(s, PingRegister).net) && W.Extends(s.net, PingNext(s, PingRegister).net)
  {
    PingRegisters(s);
    W.RegisterKeeps(s.net, s.ping.r.target, 0, s.now + s.ping.r.timeout, W.PingScope);
  }

  lemma NetPingReceive(s: State)
    requires W.NInv(s.net) && PingEnabled(s, PingReceive)
    ensures W.NInv(PingNext(s, PingReceive).net) && W.Extends(s.net, PingNext(s, PingReceive).net)
  {
    PingStops(s);
    W.StopKeeps(s.net, s.ping.r.w);
  }

  lemma PingRegisters(s: State)
    requires PingEnabled(s, PingRegister)
    ensures PingNext(s, PingRegister).net
            == W.Register(s.net, s.ping.r.target, 0, s.now + s.ping.r.timeout, W.PingScope)
  {
  }

  lemma PingStops(s: State)
    requires PingEnabled(s, PingReceive)
    ensures s.ping.r.w < |s.net.waiters| && PingNext(s, PingReceive).net == W.Stop(s.net, s.ping.r.w)
  {
  }

  lemma PingNetSame(s: State, ps: PingStep)
    requires PingEnabled(s, ps) && !ps.PingRegister? && !ps.PingReceive?
    ensures PingNext(s, ps).net == s.net
  {
  }

  // ----- who waits on which waiter

  /** Waiter w waits for the given power of the given device. */
  ghost predicate WaitsFor(n: W.Net, w: nat, target: string, power: bool) {
    && w < |n.waiters|
    && n.waiters[w].key == DispatchKey(target)
    && n.waiters[w].power == (if power then 1 else 0)
  }

  ghost predicate ConfirmedFor(n: W.Net, w: nat, target: string, power: bool) {
    WaitsFor(n, w, target, power) && n.waiters[w].outcome.Some? && n.waiters[w].outcome.value.Confirmed?
  }

  lemma WaitsStay(n: W.Net, n': W.Net, w: nat, target: string, power: bool)
    requires W.Extends(n, n')
    ensures WaitsFor(n, w, target, power) ==> WaitsFor(n', w, target, power)
    ensures ConfirmedFor(n, w, target, power) ==> ConfirmedFor(n', w, target, power)
  {
    if w < |n.waiters| { assert W.SameWait(n.waiters[w], n'.waiters[w]); }
  }

  /** The waiter of the loop's current attempt. */
  ghost predicate LoopWaits(s: State) {
    s.loop.Busy? && s.loop.pc.Calling? ==>
      var c, cp := s.loop.pc.c, s.loop.pc.cp;
      && ((cp.ToSend? || cp.InSend? || cp.Gap? || cp.Receiving?) ==> WaitsFor(s.net, cp.at.w, cp.at.target, c.power))
      && (cp.Receiving? ==> cp.at.published)
      && (cp.Proved? ==> ConfirmedFor(s.net, cp.at.w, cp.at.target, c.power) && cp.at.published)
  }

  /** The waiter of the ping's current round. */
  ghost predicate PingWaits(s: State) {
    s.ping.InRound? ==>
      var r, pp := s.ping.r, s.ping.pp;
      && ((pp.PToSend? || pp.PInSend? || pp.PGap? || pp.PReceiving?) ==> WaitsFor(s.net, r.w, r.target, false))
      && ((pp.PProved? || pp.PGranted?) ==> ConfirmedFor(s.net, r.w, r.target, false))
  }

  lemma LoopWaitsKept(s: State, s': State)
    requires LoopWaits(s) && s'.loop == s.loop && W.Extends(s.net, s'.net)
    ensures LoopWaits(s')
  {
    if s.loop.Busy? && s.loop.pc.Calling? {
      var c, cp := s.loop.pc.c, s.loop.pc.cp;
      if cp.ToSend? || cp.InSend? || cp.Gap? || cp.Receiving? || cp.Proved? {
        WaitsStay(s.net, s'.net, cp.at.w, cp.at.target, c.power);
      }
    }
  }

  lemma PingWaitsKept(s: State, s': State)
    requires PingWaits(s) && s'.ping == s.ping && W.Extends(s.net, s'.net)
    ensures PingWaits(s')
  {
    if s.ping.InRound? { WaitsStay(s.net, s'.net, s.ping.r.w, s.ping.r.target, false); }
  }

  lemma LoopWaitsCall(s: State, cs: CallStep)
    requires LoopWaits(s) && W.NInv(s.net) && CallEnabled(s, cs)
    ensures LoopWaits(CallNext(s, cs))
  {
    match cs
    case SendEnd(_) => LoopWaitsStop(s, cs);
    case Receive => LoopWaitsStop(s, cs);
    case _ =>
  }

  lemma LoopWaitsStop(s: State, cs: CallStep)
    requires LoopWaits(s) && W.NInv(s.net) && CallEnabled(s, cs) && (cs.SendEnd? || cs.Receive?)
    ensures LoopWaits(CallNext(s, cs))
  {
    var at := s.loop.pc.cp.at;
    W.StopKeeps(s.net, at.w);
    WaitsStay(s.net, W.Stop(s.net, at.w), at.w, at.target, s.loop.pc.c.power);
  }

  lemma PingWaitsPing(s: State, ps: PingStep)
    requires PingWaits(s) && W.NInv(s.net) && PingEnabled(s, ps)
    ensures PingWaits(PingNext(s, ps))
  {
    if ps.PingReceive? {
      W.StopKeeps(s.net, s.ping.r.w);
      WaitsStay(s.net, W.Stop(s.net, s.ping.r.w), s.ping.r.w, s.ping.r.target, false);
    }
  }

  // ----- the recorded state

  function ValueOf(wr: Write): ValveState {
    match wr
    case Seen(_, open, _, _) => if open then ValveOpen else ValveClosed
    case CloseFailed(_) => ValveUnknown
  }

  /** The state after a sequence of writes: the last one decides. */
  function After(initial: ValveState, writes: seq<Write>): ValveState {
    if writes == [] then initial else ValueOf(writes[|writes| - 1])
  }

  /** A confirmed waiter for the written power stands behind a write. */
  ghost predicate Backed(n: W.Net, wr: Write) {
    wr.Seen? ==>
      && wr.w < |n.waiters|
      && n.waiters[wr.w].outcome.Some? && n.waiters[wr.w].outcome.value.Confirmed?
      && n.waiters[wr.w].power == (if wr.open then 1 else 0)
      && (wr.who.ByPing? ==> !wr.open)
      && n.waiters[wr.w].outcome.value.k < |n.delivered|
      && n.delivered[n.waiters[wr.w].outcome.value.k].e < wr.upto
  }

  ghost predicate AllBacked(n: W.Net, writes: seq<Write>) {
    forall k :: 0 <= k < |writes| ==> Backed(n, writes[k])
  }

  /** A failed close is recorded only over a recorded "closed". */
  ghost predicate DowngradesClosed(initial: ValveState, writes: seq<Write>) {
    forall k :: 0 <= k < |writes| && writes[k].CloseFailed? ==> After(initial, writes[..k]) == ValveClosed
  }

  ghost predicate Recording(s: State) {
    && s.info.state == After(s.log.initial, s.log.writes)
    && AllBacked(s.net, s.log.writes)
    && DowngradesClosed(s.log.initial, s.log.writes)
  }

  lemma BackedStays(n: W.Net, n': W.Net, writes: seq<Write>)
    requires W.Extends(n, n') && AllBacked(n, writes)
    ensures AllBacked(n', writes)
  {
    forall k | 0 <= k < |writes| ensures Backed(n', writes[k]) {
      assert Backed(n, writes[k]);
      if writes[k].Seen? {
        var j := n.waiters[writes[k].w].outcome.value.k;
        assert W.SameWait(n.waiters[writes[k].w], n'.waiters[writes[k].w]);
        assert n'.delivered[j] == n'.delivered[..|n.delivered|][j];
      }
    }
  }

  lemma RecordingKept(s: State, s': State)
    requires Recording(s) && W.Extends(s.net, s'.net)
    requires s'.info.state == s.info.state && s'.log.writes == s.log.writes && s'.log.initial == s.log.initial
    ensures Recording(s')
  {
    BackedStays(s.net, s'.net, s.log.writes);
  }

  lemma RecordingWrites(s: State, s': State, wr: Write)
    requires Recording(s) && s'.net == s.net && s'.log.initial == s.log.initial
    requires s'.log.writes == s.log.writes + [wr] && s'.info.state == ValueOf(wr)
    requires Backed(s.net, wr) && (wr.CloseFailed? ==> s.info.state == ValveClosed)
    ensures Recording(s')
  {
    var ws := s'.log.writes;
    forall k | 0 <= k < |ws| && ws[k].CloseFailed? ensures After(s.log.initial, ws[..k]) == ValveClosed {
      if k < |s.log.writes| {
        assert ws[..k] == s.log.writes[..k];
      } else {
        assert ws[..k] == s.log.writes;
      }
    }
  }

  /** The event a confirmed waiter was called with has been dispatched. */
  lemma ConfirmedBefore(n: W.Net, w: nat)
    requires W.NInv(n) && w < |n.waiters| && n.waiters[w].outcome.Some? && n.waiters[w].outcome.value.Confirmed?
    ensures n.waiters[w].outcome.value.k < |n.delivered|
    ensures n.delivered[n.waiters[w].outcome.value.k].e < |n.dispatched|
  {
    assert W.OutcomeOk(n, w);
  }

  lemma RecordingCall(s: State, cs: CallStep)
    requires Recording(s) && LoopWaits(s) && W.NInv(s.net) && CallEnabled(s, cs)
    ensures Recording(CallNext(s, cs))
  {
    var s' := CallNext(s, cs);
    if cs.Apply? {
      var c, at := s.loop.pc.c, s.loop.pc.cp.at;
      ConfirmedBefore(s.net, at.w);
      RecordingWrites(s, s', Seen(ByAction(s.loop.id, c.phase, AttemptNo(s)), c.power, at.w, |s.net.dispatched|));
    } else {
      NetCall(s, cs);
      WritesOnlyApply(s, cs);
      RecordingKept(s, s');
    }
  }

  lemma WritesOnlyApply(s: State, cs: CallStep)
    requires CallEnabled(s, cs) && !cs.Apply?
    ensures CallNext(s, cs).info == s.info && CallNext(s, cs).log.writes == s.log.writes
    ensures CallNext(s, cs).log.initial == s.log.initial
  {
  }

  lemma RecordingExec(s: State, xs: ExecStep)
    requires Recording(s) && ExecEnabled(s, xs)
    ensures Recording(ExecNext(s, xs))
  {
    var s' := ExecNext(s, xs);
    ExecFrames(s, xs);
    if xs.Downgrade? && s.info.state.ValveClosed? {
      RecordingWrites(s, s', CloseFailed(s.loop.id));
    } else {
      RecordingKept(s, s');
    }
  }

  lemma RecordingPing(s: State, ps: PingStep)
    requires Recording(s) && PingWaits(s) && W.NInv(s.net) && PingEnabled(s, ps)
    ensures Recording(PingNext(s, ps))
  {
    var s' := PingNext(s, ps);
    if ps.PingApply? {
      ConfirmedBefore(s.net, s.ping.r.w);
      RecordingWrites(s, s', Seen(ByPing(RoundNo(s)), false, s.ping.r.w, |s.net.dispatched|));
    } else {
      NetPing(s, ps);
      RecordingKept(s, s');
    }
  }
}
