/** What the pipeline guarantees, over every run: any interleaving of the action
    loop, the ping, producers, reconciles, device reports, shutdown and time. */
module Theorems {
  import opened Options
  import opened Device
  import opened Actions
  import opened DispatchKeys
  import opened Machine
  import opened Frames
  import opened Books
  import opened Lifecycle
  import opened Reachability
  import T = Traffic
  import E = Evidence
  import V = Verdicts
  import O = Outcomes
  import Timing
  import Hubs
  import D = Dispatching
  import N = Order
  import F = Fates
  import Q = ActionQueues
  import W = Waiters

  // ----- a confirmed timed open is closed

  /** Over every run: an execution of a timed open sends OFF exactly if its ON was
      confirmed; then it ends fulfilled exactly if the close was confirmed, and
      otherwise failed at its close time. */
  lemma ConfirmedTimedOpenIsClosed(s: State, id: ID)
    requires Reachable(s) && id in s.log.retired && id in s.actions && s.actions[id].typ.OpenTimed?
    ensures O.HasSeen(s.log.writes, id, Primary) <==> O.HasOff(s.log.sends, id)
    ensures O.HasSeen(s.log.writes, id, Primary) ==>
              var a := s.actions[id];
              && a.closedAt.Some?
              && (a.state.Fulfilled? <==> O.HasSeen(s.log.writes, id, Shutoff))
              && (!a.state.Fulfilled? ==> a.state.Failed? && a.failedAt == a.closedAt)
    ensures !O.HasSeen(s.log.writes, id, Primary) ==> s.actions[id].state in {Failed, Cancelled}
  {
    ReachableInv(s);
    assert Ended(s.actions[id]);
    assert O.SeenEnd(O.HasSeen(s.log.writes, id, Primary), O.HasSeen(s.log.writes, id, Shutoff), s.actions[id]);
  }

  /** For every other command, fulfilled and confirmed are the same. */
  lemma FulfilledExactlyIfConfirmed(s: State, id: ID)
    requires Reachable(s) && id in s.log.retired && id in s.actions && !s.actions[id].typ.OpenTimed?
    ensures s.actions[id].state.Fulfilled? <==> O.HasSeen(s.log.writes, id, Primary)
    ensures !O.HasOff(s.log.sends, id)
  {
    ReachableInv(s);
    assert Ended(s.actions[id]);
    assert O.SeenEnd(O.HasSeen(s.log.writes, id, Primary), O.HasSeen(s.log.writes, id, Shutoff), s.actions[id]);
  }

  // ----- confirmation is sound and not lost

  /** An ended attempt succeeded exactly if one of its publishes went through and
      its waiter's handler was called, before the waiter gave up, with an event
      that confirms. */
  lemma AttemptSucceedsExactly(s: State, k: nat)
    requires Reachable(s) && k in s.log.verdicts
    ensures k < |s.log.attempts| && k in s.log.waits && s.log.waits[k] < |s.net.waiters|
    ensures s.log.verdicts[k] <==>
            k in s.log.published &&
            exists j :: 0 <= j < |s.net.delivered| && s.net.delivered[j].w == s.log.waits[k]
                        && W.Hit(s.net, s.net.delivered[j]) && !W.GaveUpBefore(s.net.waiters[s.log.waits[k]], j)
  {
    ReachableInv(s);
    assert V.VerdictOk(s.net, V.TriesOf(s.log), k);
    assert E.WaitsFor(s.net, s.log.waits[k], s.log.attempts[k].seen.CommandTarget(), s.log.attempts[k].power);
    W.ConfirmationExact(s.net, s.log.waits[k]);
  }

  /** An event confirms an attempt exactly if it was dispatched after the waiter
      was registered, reports the commanded power and names, by name or address,
      the device the attempt commanded. */
  lemma WhatConfirms(s: State, k: nat, e: nat)
    requires Reachable(s) && k in s.log.waits && e < |s.net.dispatched|
    ensures k < |s.log.attempts| && s.log.waits[k] < |s.net.waiters|
    ensures W.Hit(s.net, W.Delivery(s.log.waits[k], e)) <==>
            var ev, a := s.net.dispatched[e], s.log.attempts[k];
            && s.net.waiters[s.log.waits[k]].since <= e
            && ev.power == Some(if a.power then 1 else 0)
            && W.Names(ev, a.seen.CommandTarget())
  {
    assert V.Aimed(s.net, V.TriesOf(s.log)) by { ReachableInv(s); }
    HitsExactly(s, k, e);
  }

  lemma HitsExactly(s: State, k: nat, e: nat)
    requires V.Aimed(s.net, V.TriesOf(s.log)) && k in s.log.waits && e < |s.net.dispatched|
    ensures k < |s.log.attempts| && s.log.waits[k] < |s.net.waiters|
    ensures W.Hit(s.net, W.Delivery(s.log.waits[k], e)) <==>
            var ev, a := s.net.dispatched[e], s.log.attempts[k];
            && s.net.waiters[s.log.waits[k]].since <= e
            && ev.power == Some(if a.power then 1 else 0)
            && W.Names(ev, a.seen.CommandTarget())
  {
    assert k in V.TriesOf(s.log).waits;
    var target := s.log.attempts[k].seen.CommandTarget();
    assert E.WaitsFor(s.net, s.log.waits[k], target, s.log.attempts[k].power);
    EventReaches(s.net.dispatched[e], target);
  }

  /** While a waiter is unsettled, no event that would confirm it has been lost. */
  lemma NoConfirmationLost(s: State, w: nat, target: string, e: nat)
    requires Reachable(s) && w < |s.net.waiters| && s.net.waiters[w].key == DispatchKey(target)
    requires s.net.waiters[w].outcome.None? && s.net.waiters[w].since <= e < |s.net.dispatched|
    requires s.net.dispatched[e].power == Some(s.net.waiters[w].power) && W.Names(s.net.dispatched[e], target)
    ensures W.Delivery(w, e) in s.net.inflight
  {
    ReachableInv(s);
    W.ConfirmationNotLost(s.net, w, target, e);
  }

  // ----- the recorded state

  /** The device whose report a write rests on. */
  function WriteTarget(log: Log, wr: Write): string {
    if wr.Seen? && wr.who.ByAction? && wr.who.k < |log.attempts| then log.attempts[wr.who.k].seen.CommandTarget()
    else if wr.Seen? && wr.who.ByPing? && wr.who.k < |log.rounds| then log.rounds[wr.who.k].seen.CommandTarget()
    else ""
  }

  /** The number of events dispatched before the attempt or the ping round of a write
      began. */
  function Began(log: Log, wr: Write): nat {
    if wr.Seen? && wr.who.ByAction? && wr.who.k < |log.attempts| then log.attempts[wr.who.k].since
    else if wr.Seen? && wr.who.ByPing? && wr.who.k < |log.rounds| then log.rounds[wr.who.k].since
    else 0
  }

  /** The commanded device reported the written power, by event number from or later,
      after the waiter of the write was registered and before the write. */
  ghost predicate ReportedSince(s: State, wr: Write, from: nat)
    requires wr.Seen?
  {
    wr.w < |s.net.waiters| &&
    exists e :: from <= e < |s.net.dispatched|
      && s.net.waiters[wr.w].since <= e < wr.upto
      && s.net.dispatched[e].power == Some(if wr.open then 1 else 0)
      && W.Names(s.net.dispatched[e], WriteTarget(s.log, wr))
  }

  /** ... and that was after the attempt or the round itself began. */
  ghost predicate Reported(s: State, wr: Write)
    requires wr.Seen?
  {
    ReportedSince(s, wr, Began(s.log, wr))
  }

  /** The recorded state is the initial one or that of the last write. "open" is
      written only by the action loop, "open" and "closed" only on a report of that
      power by the commanded device between the start of the attempt or ping round and
      the write, "unknown" only by a failed close over a recorded "closed". */
  lemma RecordedStateHasEvidence(s: State)
    requires Reachable(s)
    ensures s.log.writes == [] ==> s.info.state == s.log.initial
    ensures s.log.writes != [] ==> s.info.state == E.ValueOf(s.log.writes[|s.log.writes| - 1])
    ensures forall i :: 0 <= i < |s.log.writes| && s.log.writes[i].Seen? ==>
              Reported(s, s.log.writes[i]) && (s.log.writes[i].open ==> s.log.writes[i].who.ByAction?)
    ensures forall i :: 0 <= i < |s.log.writes| && s.log.writes[i].CloseFailed? ==>
              E.After(s.log.initial, s.log.writes[..i]) == ValveClosed
  {
    ReachableInv(s);
    forall i | 0 <= i < |s.log.writes| && s.log.writes[i].Seen?
      ensures Reported(s, s.log.writes[i]) && (s.log.writes[i].open ==> s.log.writes[i].who.ByAction?) {
      WriteReported(s, i);
    }
  }

  lemma WriteReported(s: State, i: nat)
    requires Inv(s) && i < |s.log.writes| && s.log.writes[i].Seen?
    ensures Reported(s, s.log.writes[i]) && (s.log.writes[i].open ==> s.log.writes[i].who.ByAction?)
  {
    var wr := s.log.writes[i];
    assert E.Backed(s.net, wr);
    WaitedByWriter(s, wr);
    ConfirmedReport(s, wr);
  }

  /** A write rests on a waiter of its own attempt or round. */
  lemma WaitedByWriter(s: State, wr: Write)
    requires RuleInv(s) && wr in s.log.writes && wr.Seen? && E.Backed(s.net, wr)
    ensures s.net.waiters[wr.w].key == DispatchKey(WriteTarget(s.log, wr))
    ensures Began(s.log, wr) <= s.net.waiters[wr.w].since
  {
    if wr.who.ByAction? {
      assert V.RuledWrite(s.log, wr);
      assert E.WaitsFor(s.net, s.log.waits[wr.who.k], s.log.attempts[wr.who.k].seen.CommandTarget(), wr.open);
    } else {
      assert V.PingedWrite(s.net, s.log, wr);
    }
  }

  lemma ConfirmedReport(s: State, wr: Write)
    requires W.NInv(s.net) && wr.Seen? && E.Backed(s.net, wr)
    requires s.net.waiters[wr.w].key == DispatchKey(WriteTarget(s.log, wr))
    requires Began(s.log, wr) <= s.net.waiters[wr.w].since
    ensures Reported(s, wr)
  {
    assert W.OutcomeOk(s.net, wr.w);
    var d := s.net.delivered[s.net.waiters[wr.w].outcome.value.k];
    EventReaches(s.net.dispatched[d.e], WriteTarget(s.log, wr));
    assert W.Names(s.net.dispatched[d.e], WriteTarget(s.log, wr));
  }

  /** A confirmation of a command is recorded exactly if one of the command's own
      attempts succeeded, whose waiter the write rests on. */
  lemma RecordedExactlyIfSucceeded(s: State, id: ID, phase: Phase)
    requires Reachable(s)
    ensures O.HasSeen(s.log.writes, id, phase) <==>
            exists k :: k in s.log.verdicts && s.log.verdicts[k] && k < |s.log.attempts|
                        && s.log.attempts[k].id == id && s.log.attempts[k].phase == phase
    ensures forall i :: 0 <= i < |s.log.writes| && s.log.writes[i].Seen? && s.log.writes[i].who.ByAction? ==>
              V.RuledWrite(s.log, s.log.writes[i])
  {
    assert V.Written(s) && V.Rulings(s) by { ReachableInv(s); }
    if O.HasSeen(s.log.writes, id, phase) {
      var i :| 0 <= i < |s.log.writes| && O.IsSeen(s.log.writes[i], id, phase);
      assert V.RuledWrite(s.log, s.log.writes[i]);
    }
    forall k | k in s.log.verdicts && s.log.verdicts[k] && k < |s.log.attempts|
               && s.log.attempts[k].id == id && s.log.attempts[k].phase == phase
      ensures O.HasSeen(s.log.writes, id, phase) {
      assert V.WrittenVerdict(s.log, k);
      var i :| 0 <= i < |s.log.writes| && s.log.writes[i].Seen? && s.log.writes[i].who == ByAction(id, phase, k);
      assert O.IsSeen(s.log.writes[i], id, phase);
    }
  }

  /** Nothing but the loop's and the ping's confirmation writes and the downgrade
      changes the recorded state; reconciles and telemetry never do. */
  lemma OnlyWritesChangeState(s: State, st: Step)
    requires Reachable(s) && Enabled(s, st)
    ensures Next(s, st).info.state != s.info.state ==>
              st in {InCall(Apply), Exec(Downgrade), OfPing(PingApply)}
                  && |Next(s, st).log.writes| == |s.log.writes| + 1
  {
    match st
    case Env(e) => EnvFrames(s, e);
    case OfRun(rs) => RunFrames(s, rs);
    case InCall(cs) => if !cs.Apply? { E.WritesOnlyApply(s, cs); }
    case Exec(xs) => ExecStateOnlyDowngrade(s, xs);
    case OfPing(ps) => PingStateOnlyApply(s, ps);
  }

  lemma ExecStateOnlyDowngrade(s: State, xs: ExecStep)
    requires ExecEnabled(s, xs)
    ensures ExecNext(s, xs).info.state != s.info.state ==>
              xs.Downgrade? && |ExecNext(s, xs).log.writes| == |s.log.writes| + 1
  {
  }

  lemma PingStateOnlyApply(s: State, ps: PingStep)
    requires PingEnabled(s, ps)
    ensures PingNext(s, ps).info.state != s.info.state ==>
              ps.PingApply? && |PingNext(s, ps).log.writes| == |s.log.writes| + 1
  {
  }

  // ----- a failed close

  /** The close of execution id, alone or at the end of a timed open, has failed
      without being cancelled, and the downgrade step has not been made. */
  ghost predicate CloseFailing(s: State, id: ID) {
    && s.loop.Busy? && s.loop.id == id && id in s.actions
    && (match s.loop.pc
        case Calling(c, cp) =>
          && !c.power && cp.Returned? && cp.err.Some?
          && (c.phase.Primary? ==> !s.actions[id].state.Cancelled?)
        case Unconfirmed(_) => true
        case _ => false)
  }

  /** The action of the failed close has failed; its record is not "closed" any more,
      and is as it was if it was not "closed" before. */
  ghost predicate Downgraded(s: State, s': State, id: ID) {
    && id in s.actions && s.actions[id].state.Failed? && s'.actions == s.actions
    && s'.info.state != ValveClosed && (s.info.state != ValveClosed ==> s'.info == s.info)
  }

  /** Over every run from there to wherever the execution has gone on: one step of the
      run is the downgrade. */
  lemma {:induction false} FailedCloseIsDowngraded(s: State, id: ID, steps: seq<Step>, s': State)
    returns (pre: seq<Step>, m: State, post: seq<Step>)
    requires Reachable(s) && CloseFailing(s, id) && Run(s, steps, s') && !CloseFailing(s', id)
    ensures steps == pre + [Exec(Downgrade)] + post
    ensures Run(s, pre, m) && Enabled(m, Exec(Downgrade)) && Run(Next(m, Exec(Downgrade)), post, s')
    ensures CloseFailing(m, id) && Downgraded(m, Next(m, Exec(Downgrade)), id)
    decreases |steps|
  {
    assert steps != [];
    var st, s1 := steps[0], Next(s, steps[0]);
    assert steps == [st] + steps[1..];
    if st == Exec(Downgrade) {
      DowngradeDoes(s, id);
      pre, m, post := [], s, steps[1..];
    } else {
      FailingStays(s, id, st);
      ReachableStep(s, st);
      var rest;
      rest, m, post := FailedCloseIsDowngraded(s1, id, steps[1..], s');
      RunPrepend(s, st, rest, m);
      pre := [st] + rest;
      assert steps == [st] + (rest + [Exec(Downgrade)] + post);
    }
  }

  lemma RunPrepend(s: State, st: Step, steps: seq<Step>, s': State)
    requires Enabled(s, st) && Run(Next(s, st), steps, s')
    ensures Run(s, [st] + steps, s')
  {
    assert ([st] + steps)[1..] == steps;
  }

  lemma DowngradeDoes(s: State, id: ID)
    requires Reachable(s) && CloseFailing(s, id) && ExecEnabled(s, Downgrade)
    ensures Downgraded(s, ExecNext(s, Downgrade), id)
  {
    assert s.actions[id].state.Failed? by {
      ReachableInv(s);
      UnconfirmedFailed(s);
    }
  }

  lemma FailingStays(s: State, id: ID, st: Step)
    requires Reachable(s) && CloseFailing(s, id) && Enabled(s, st) && st != Exec(Downgrade)
    ensures CloseFailing(Next(s, st), id)
  {
    match st
    case Env(e) => FailingEnv(s, id, e);
    case OfPing(ps) => PingFrames(s, ps);
    case Exec(xs) => FailingExec(s, id, xs);
    case _ =>
  }

  lemma FailingEnv(s: State, id: ID, e: EnvStep)
    requires CloseFailing(s, id) && EnvEnabled(s, e)
    ensures CloseFailing(EnvNext(s, e), id)
  {
    EnvFrames(s, e);
    EnvKeepsActions(s, e);
  }

  lemma FailingExec(s: State, id: ID, xs: ExecStep)
    requires CloseFailing(s, id) && ExecEnabled(s, xs) && !xs.Downgrade?
    ensures CloseFailing(ExecNext(s, xs), id)
  {
    ExecMoves(s, xs);
    ExecFrames(s, xs);
  }

  lemma UnconfirmedFailed(s: State)
    requires Life(s) && Book(s) && Known(s) && s.loop.Busy? && s.loop.pc.Unconfirmed?
    ensures s.loop.id in s.actions && s.actions[s.loop.id].state.Failed?
  {
    OngoingApart(s);
  }

  /** The write log only grows. */
  lemma WritesGrowStep(s: State, st: Step)
    requires Enabled(s, st)
    ensures |s.log.writes| <= |Next(s, st).log.writes| && Next(s, st).log.writes[..|s.log.writes|] == s.log.writes
  {
    match st
    case Env(e) => EnvFrames(s, e);
    case OfRun(rs) => RunFrames(s, rs);
    case InCall(cs) => if !cs.Apply? { E.WritesOnlyApply(s, cs); }
    case Exec(xs) => ExecWritesGrow(s, xs);
    case OfPing(ps) => PingWritesGrow(s, ps);
  }

  lemma ExecWritesGrow(s: State, xs: ExecStep)
    requires ExecEnabled(s, xs)
    ensures |s.log.writes| <= |ExecNext(s, xs).log.writes|
    ensures ExecNext(s, xs).log.writes[..|s.log.writes|] == s.log.writes
  {
  }

  lemma PingWritesGrow(s: State, ps: PingStep)
    requires PingEnabled(s, ps)
    ensures |s.log.writes| <= |PingNext(s, ps).log.writes|
    ensures PingNext(s, ps).log.writes[..|s.log.writes|] == s.log.writes
  {
  }

  lemma {:induction false} WritesGrowRun(s: State, steps: seq<Step>, s': State)
    requires Run(s, steps, s')
    ensures |s.log.writes| <= |s'.log.writes| && s'.log.writes[..|s.log.writes|] == s.log.writes
    decreases |steps|
  {
    if steps != [] {
      var s1 := Next(s, steps[0]);
      WritesGrowStep(s, steps[0]);
      WritesGrowRun(s1, steps[1..], s');
      assert s'.log.writes[..|s.log.writes|] == s'.log.writes[..|s1.log.writes|][..|s.log.writes|];
    }
  }

  /** Once the record is not "closed", only a later write on a Power=0 report of the
      commanded device makes it "closed" again. The report itself is later too, if the
      goroutine that wrote was not in the middle of an attempt, or of a round. */
  lemma ClosedAgainOnlyOnReport(s: State, steps: seq<Step>, s': State)
    requires Reachable(s) && Run(s, steps, s')
    requires s.info.state != ValveClosed && s'.info.state == ValveClosed
    ensures |s'.log.writes| > |s.log.writes|
    ensures var wr := s'.log.writes[|s'.log.writes| - 1];
            && wr.Seen? && !wr.open && Reported(s', wr)
            && ((if wr.who.ByAction? then !V.InTry(s.loop) else !s.ping.InRound?) ==>
                  ReportedSince(s', wr, |s.net.dispatched|))
  {
    ReachableRun(s, steps, s');
    WritesGrowRun(s, steps, s');
    InitialStays(s, steps, s');
    RecordingHolds(s);
    RecordingHolds(s');
    LastWriteCloses(s, s');
    LastReported(s');
    LastIsNewer(s, steps, s');
  }

  lemma LastIsNewer(s: State, steps: seq<Step>, s': State)
    requires Reachable(s) && Run(s, steps, s') && |s'.log.writes| > |s.log.writes|
    requires var wr := s'.log.writes[|s'.log.writes| - 1]; wr.Seen? && Reported(s', wr)
    ensures var wr := s'.log.writes[|s'.log.writes| - 1];
            (if wr.who.ByAction? then !V.InTry(s.loop) else !s.ping.InRound?) ==>
              ReportedSince(s', wr, |s.net.dispatched|)
  {
    var wr := s'.log.writes[|s'.log.writes| - 1];
    assert forall i :: 0 <= i < |s'.log.writes| && s'.log.writes[i].Seen? ==>
      (s'.log.writes[i].who.ByAction? ==> s'.log.writes[i].who.k < |s'.log.attempts|)
      && (s'.log.writes[i].who.ByPing? ==> s'.log.writes[i].who.k < |s'.log.rounds|) by {
      ReachableRun(s, steps, s');
      WritersLogged(s');
    }
    if wr.who.ByAction? && !V.InTry(s.loop) {
      N.LoopNewerRun(s, s, steps, s');
      assert |s.net.dispatched| <= Began(s'.log, wr);
    } else if wr.who.ByPing? && !s.ping.InRound? {
      N.PingNewerRun(s, s, steps, s');
      assert |s.net.dispatched| <= Began(s'.log, wr);
    }
  }

  lemma WritersLogged(s: State)
    requires Reachable(s)
    ensures forall i :: 0 <= i < |s.log.writes| && s.log.writes[i].Seen? ==>
              (s.log.writes[i].who.ByAction? ==> s.log.writes[i].who.k < |s.log.attempts|)
              && (s.log.writes[i].who.ByPing? ==> s.log.writes[i].who.k < |s.log.rounds|)
  {
    assert V.Written(s) by { ReachableInv(s); }
    forall i | 0 <= i < |s.log.writes| && s.log.writes[i].Seen?
      ensures (s.log.writes[i].who.ByAction? ==> s.log.writes[i].who.k < |s.log.attempts|)
              && (s.log.writes[i].who.ByPing? ==> s.log.writes[i].who.k < |s.log.rounds|) {
      if s.log.writes[i].who.ByAction? { assert V.RuledWrite(s.log, s.log.writes[i]); }
      else { assert V.PingedWrite(s.net, s.log, s.log.writes[i]); }
    }
  }

  lemma RecordingHolds(s: State)
    requires Reachable(s)
    ensures E.Recording(s)
  {
    ReachableInv(s);
  }

  lemma LastReported(s: State)
    requires Reachable(s) && s.log.writes != [] && s.log.writes[|s.log.writes| - 1].Seen?
    ensures Reported(s, s.log.writes[|s.log.writes| - 1])
  {
    ReachableInv(s);
    WriteReported(s, |s.log.writes| - 1);
  }

  lemma LastWriteCloses(s: State, s': State)
    requires E.Recording(s) && E.Recording(s') && s'.log.initial == s.log.initial
    requires |s.log.writes| <= |s'.log.writes| && s'.log.writes[..|s.log.writes|] == s.log.writes
    requires s.info.state != ValveClosed && s'.info.state == ValveClosed
    ensures |s'.log.writes| > |s.log.writes|
    ensures var wr := s'.log.writes[|s'.log.writes| - 1]; wr.Seen? && !wr.open
  {
    assert |s'.log.writes| == |s.log.writes| ==> s'.log.writes == s.log.writes;
  }

  lemma {:induction false} InitialStays(s: State, steps: seq<Step>, s': State)
    requires Run(s, steps, s')
    ensures s'.log.initial == s.log.initial
    decreases |steps|
  {
    if steps != [] {
      InitialStaysStep(s, steps[0]);
      InitialStays(Next(s, steps[0]), steps[1..], s');
    }
  }

  lemma InitialStaysStep(s: State, st: Step)
    requires Enabled(s, st)
    ensures Next(s, st).log.initial == s.log.initial
  {
    match st
    case Env(e) => EnvFrames(s, e);
    case OfRun(rs) => RunFrames(s, rs);
    case InCall(cs) => CallFrames(s, cs);
    case Exec(xs) => ExecFrames(s, xs);
    case OfPing(ps) => PingFrames(s, ps);
  }

  /** A pipeline serves the same valve for all its life. */
  lemma {:induction false} KeyStays(s: State, steps: seq<Step>, s': State)
    requires Run(s, steps, s')
    ensures s'.info.Key() == s.info.Key()
    decreases |steps|
  {
    if steps != [] {
      KeyStaysStep(s, steps[0]);
      KeyStays(Next(s, steps[0]), steps[1..], s');
    }
  }

  lemma KeyStaysStep(s: State, st: Step)
    requires Enabled(s, st)
    ensures Next(s, st).info.Key() == s.info.Key()
  {
    match st
    case Env(e) => EnvKeepsKey(s, e);
    case OfRun(rs) => RunFrames(s, rs);
    case InCall(cs) => if !cs.Apply? { E.WritesOnlyApply(s, cs); }
    case Exec(xs) => ExecKeepsKey(s, xs);
    case OfPing(ps) => PingKeepsKey(s, ps);
  }

  lemma EnvKeepsKey(s: State, e: EnvStep)
    requires EnvEnabled(s, e)
    ensures EnvNext(s, e).info.Key() == s.info.Key()
  {
  }

  lemma PingKeepsKey(s: State, ps: PingStep)
    requires PingEnabled(s, ps)
    ensures PingNext(s, ps).info.Key() == s.info.Key()
  {
  }

  lemma ExecKeepsKey(s: State, xs: ExecStep)
    requires ExecEnabled(s, xs)
    ensures ExecNext(s, xs).info.Key() == s.info.Key()
  {
  }

  // ----- real time

  /** In prompt runs an uncancelled timed open starts its OFF phase between its
      expiry and ten seconds later, a cancelled one no later than that, and every
      one is closed at most 10 + 120 + 10 seconds after its expiry: beyond that time
      there is no confirmed timed open without a close time. */
  lemma ClosedInTime(s: State, id: ID)
    requires PromptlyReachable(s) && id in s.actions
    ensures id in s.log.closeStarts ==>
              var x := s.log.closeStarts[id];
              && s.actions[id].expiresAt.Some?
              && x.time <= s.actions[id].expiresAt.value + 10_000
              && (!x.cancelled ==> s.actions[id].expiresAt.value <= x.time)
    ensures s.actions[id].closedAt.Some? ==>
              && s.actions[id].expiresAt.Some?
              && s.actions[id].closedAt.value <= s.actions[id].expiresAt.value + 10_000 + 120_000 + 10_000
    ensures s.actions[id].typ.OpenTimed? && s.actions[id].fulfilledAt.Some? && s.actions[id].closedAt.None?
            && id in s.log.begun ==>
              s.now <= s.actions[id].fulfilledAt.value + s.actions[id].duration + 10_000 + 120_000 + 10_000
  {
    assert Timing.Times(s) by { PromptlyReachableInv(s); }
    if s.actions[id].typ.OpenTimed? && s.actions[id].fulfilledAt.Some? && s.actions[id].closedAt.None?
       && id in s.log.begun {
      OpenNotTooLong(s, id);
    }
  }

  lemma OpenNotTooLong(s: State, id: ID)
    requires PromptlyReachable(s) && id in s.actions && id in s.log.begun
    requires s.actions[id].typ.OpenTimed? && s.actions[id].fulfilledAt.Some? && s.actions[id].closedAt.None?
    ensures s.now <= s.actions[id].fulfilledAt.value + s.actions[id].duration + 140_000
  {
    assert BookInv(s) && SendInv(s) && TimeInv(s) by { PromptlyReachableInv(s); }
    StillOpenIsCurrent(s, id);
    StartedNow(s);
    TimedPositive(s);
    HeldNotTooLong(s);
  }

  lemma RetiredIsClosed(s: State, id: ID)
    requires AllEnded(s.log.retired, s.actions) && id in s.log.retired && id in s.actions
    ensures s.actions[id].typ.OpenTimed? && s.actions[id].fulfilledAt.Some? ==> s.actions[id].closedAt.Some?
  {
    assert Ended(s.actions[id]);
  }

  /** A confirmed timed open without a close time is being executed. */
  lemma StillOpenIsCurrent(s: State, id: ID)
    requires BookInv(s) && id in s.actions && id in s.log.begun
    requires s.actions[id].typ.OpenTimed? && s.actions[id].fulfilledAt.Some? && s.actions[id].closedAt.None?
    ensures s.loop.Busy? && s.loop.id == id
  {
    assert s.log.begun == s.log.retired + Ongoing(s.loop);
    if id in s.log.retired { RetiredIsClosed(s, id); }
  }

  lemma StartedNow(s: State)
    requires BookInv(s) && SendInv(s) && s.loop.Busy? && s.loop.id in s.actions
    requires s.actions[s.loop.id].fulfilledAt.Some?
    ensures s.loop.id in s.log.starts
  {
    OngoingApart(s);
    assert AtPoint(s.actions[s.loop.id], s.log.asked[s.loop.id], s.loop.pc);
  }

  lemma HeldNotTooLong(s: State)
    requires Life(s) && TimeInv(s) && Known(s) && s.loop.Busy? && s.loop.id in s.actions
    requires var a := s.actions[s.loop.id]; a.typ.OpenTimed? && a.fulfilledAt.Some? && a.closedAt.None?
    requires s.actions[s.loop.id].duration > 0
    ensures s.now <= s.actions[s.loop.id].fulfilledAt.value + s.actions[s.loop.id].duration + 140_000
  {
    assert AtPoint(s.actions[s.loop.id], s.log.asked[s.loop.id], s.loop.pc);
  }

  // ----- the traffic of the action loop

  /** Every attempt is within the retry budget its execution started with, and the
      attempts of one call follow each other. */
  lemma AttemptsAreBounded(s: State, k: nat)
    requires Reachable(s) && k < |s.log.attempts|
    ensures var a := s.log.attempts[k];
            && a.id in s.log.starts && a.n < s.log.starts[a.id].retryCount
            && (a.n > 0 ==> k > 0 && s.log.attempts[k - 1].id == a.id && s.log.attempts[k - 1].phase == a.phase
                            && s.log.attempts[k - 1].n == a.n - 1)
  {
    ReachableInv(s);
    assert T.Numbered(s.log.attempts) && T.BoundedV(s.log.attempts, s.log.starts);
  }

  /** Action.Attempts stays within the budget too. */
  lemma CounterIsBounded(s: State, id: ID)
    requires Reachable(s) && id in s.log.starts && id in s.actions
    ensures s.actions[id].attempts <= T.Budget(s.log.starts[id])
  {
    assert T.Tallied(s) by { ReachableInv(s); }
  }

  /** An ended attempt made exactly the send calls it owed under the config it read
      itself, to the device and bridge it read itself; the next attempt's calls
      follow. */
  lemma AttemptTraffic(s: State, k: nat)
    requires Reachable(s) && k in s.log.verdicts
    ensures k < |s.log.attempts|
    ensures var a := s.log.attempts[k];
            && a.base + T.Owed(a) <= |s.log.sends|
            && (forall j :: a.base <= j < a.base + T.Owed(a) ==> T.Belongs(s.log.sends[j], a, j - a.base))
            && (k + 1 < |s.log.attempts| ==> s.log.attempts[k + 1].base == a.base + T.Owed(a))
  {
    ReachableInv(s);
    assert V.VerdictOk(s.net, V.TriesOf(s.log), k);
    AttemptBlock(s, k);
  }

  lemma AttemptBlock(s: State, k: nat)
    requires T.Flow(s) && V.Rulings(s) && k in s.log.verdicts && k < |s.log.attempts|
    ensures var a := s.log.attempts[k];
            && a.base + T.Owed(a) <= |s.log.sends|
            && (forall j :: a.base <= j < a.base + T.Owed(a) ==> T.Belongs(s.log.sends[j], a, j - a.base))
            && (k + 1 < |s.log.attempts| ==> s.log.attempts[k + 1].base == a.base + T.Owed(a))
  {
    assert T.Tiled(s.log.attempts, s.log.sends);
    if k + 1 == |s.log.attempts| { LastAttemptOver(s); }
    BlockIsFull(s.log.attempts, s.log.sends, k);
  }

  lemma BlockIsFull(attempts: seq<AttemptLog>, sends: seq<Send>, k: nat)
    requires T.Tiled(attempts, sends) && k < |attempts|
    requires k + 1 == |attempts| ==> |sends| == T.Total(attempts)
    ensures var a := attempts[k];
            && a.base + T.Owed(a) <= |sends|
            && (forall j :: a.base <= j < a.base + T.Owed(a) ==> T.Belongs(sends[j], a, j - a.base))
            && (k + 1 < |attempts| ==> attempts[k + 1].base == a.base + T.Owed(a))
  {
    if k + 1 < |attempts| { assert attempts[k + 1].base <= |sends|; }
  }

  lemma LastAttemptOver(s: State)
    requires T.Flow(s) && V.Rulings(s) && s.log.attempts != [] && |s.log.attempts| - 1 in s.log.verdicts
    ensures |s.log.sends| == T.Total(s.log.attempts)
  {
    assert V.TryPoint(s.loop, V.TriesOf(s.log));
    assert !V.InTry(s.loop);
  }

  /** Every ON belongs to an open whose start-of-execution config was not disabled;
      if that config limits open times, the open is timed with a positive duration:
      the requested one, or the limit when none was requested. */
  lemma OnIsLicensed(s: State, j: nat)
    requires Reachable(s) && j < |s.log.sends| && s.log.sends[j].power
    ensures var id := s.log.sends[j].id;
            && id in s.log.starts && id in s.actions && id in s.log.asked
            && !s.log.starts[id].disabled && s.actions[id].HoldsValveOpen()
            && (s.log.starts[id].maxOpenDuration > 0 ==>
                  && s.actions[id].typ.OpenTimed? && s.actions[id].duration > 0
                  && s.actions[id].duration ==
                     if s.log.asked[id].typ.OpenTimed? then s.log.asked[id].duration
                         else s.log.starts[id].maxOpenDuration)
  {
    assert SendInv(s) && Book(s) && Known(s) && Asked(s.log.asked) by { ReachableInv(s); }
    SenderShaped(s, j);
  }

  lemma SenderShaped(s: State, j: nat)
    requires SendInv(s) && Book(s) && Known(s) && Asked(s.log.asked)
    requires j < |s.log.sends| && s.log.sends[j].power
    ensures var id := s.log.sends[j].id;
            && id in s.log.starts && id in s.actions && id in s.log.asked
            && !s.log.starts[id].disabled && s.actions[id].HoldsValveOpen()
            && T.Shaped(s.actions[id], s.log.asked[id], s.log.starts[id])
            && (s.log.asked[id].typ.OpenTimed? ==> s.log.asked[id].duration > 0)
  {
    var id := s.log.sends[j].id;
    assert T.Shaped(s.actions[id], s.log.asked[id], s.log.starts[id]);
  }

  // ----- cancelled or failed

  /** Attempt k is the last one of the command of id itself. */
  ghost predicate LastTry(attempts: seq<AttemptLog>, id: ID, k: nat) {
    && k < |attempts| && attempts[k].id == id && attempts[k].phase.Primary?
    && forall j :: k < j < |attempts| && attempts[j].id == id ==> attempts[j].phase.Shutoff?
  }

  /** A command that was not confirmed ends cancelled exactly if its last attempt had a
      successful publish and its context had ended when that attempt was judged;
      otherwise it ends failed. */
  lemma CancelledExactly(s: State, id: ID, k: nat)
    requires Reachable(s) && id in s.log.retired && id in s.actions && LastTry(s.log.attempts, id, k)
    requires !O.HasSeen(s.log.writes, id, Primary)
    ensures k in s.log.stale
    ensures s.actions[id].state.Cancelled? <==> k in s.log.published && s.log.stale[k]
    ensures !s.actions[id].state.Cancelled? ==> s.actions[id].state.Failed?
  {
    UnconfirmedEnd(s, id);
    LastTryJudged(s, id, k);
    if k in s.log.verdicts && s.log.verdicts[k] { RecordedExactlyIfSucceeded(s, id, Primary); }
    StoppedAtLast(s, id, k);
  }

  /** So if the context had ended before the last attempt began, the command fails
      exactly if none of that attempt's publishes went through. */
  lemma LateCommandFails(s: State, id: ID, k: nat)
    requires Reachable(s) && id in s.log.retired && id in s.actions && LastTry(s.log.attempts, id, k)
    requires !O.HasSeen(s.log.writes, id, Primary) && s.log.attempts[k].late
    ensures s.actions[id].state.Failed? <==> k !in s.log.published
  {
    CancelledExactly(s, id, k);
    assert F.Staleness(s) by { ReachableInv(s); }
  }

  /** A command without an attempt ends cancelled exactly if execute rejected it. */
  lemma RejectedExactly(s: State, id: ID)
    requires Reachable(s) && id in s.log.retired && id in s.actions
    requires forall k :: 0 <= k < |s.log.attempts| && s.log.attempts[k].id == id ==> s.log.attempts[k].phase.Shutoff?
    ensures id in s.log.starts
    ensures s.actions[id].state.Cancelled? <==> s.log.starts[id].disabled && s.actions[id].HoldsValveOpen()
  {
    assert F.StopBook(s) && T.Started(s) by { ReachableInv(s); }
    assert F.StopFate(F.Stopped(s.log, id), s.actions[id], s.log.starts[id]);
    forall k: nat ensures !F.StoppedAt(s.log, k, id) { }
  }

  lemma UnconfirmedEnd(s: State, id: ID)
    requires Reachable(s) && id in s.log.retired && id in s.actions && !O.HasSeen(s.log.writes, id, Primary)
    ensures s.actions[id].state.Cancelled? || s.actions[id].state.Failed?
  {
    assert AllEnded(s.log.retired, s.actions) && O.SeenBook(s) by { ReachableInv(s); }
    assert Ended(s.actions[id]);
    assert O.SeenEnd(O.HasSeen(s.log.writes, id, Primary), O.HasSeen(s.log.writes, id, Shutoff), s.actions[id]);
  }

  /** Every attempt of an ended execution is judged. */
  lemma LastTryJudged(s: State, id: ID, k: nat)
    requires Reachable(s) && id in s.log.retired && LastTry(s.log.attempts, id, k)
    ensures k in s.log.verdicts && k in s.log.stale
  {
    assert T.Flow(s) && V.Rulings(s) && F.Staleness(s) && Book(s) by { ReachableInv(s); }
    JudgedAtEnd(s, id, k);
  }

  lemma JudgedAtEnd(s: State, id: ID, k: nat)
    requires T.Flow(s) && V.Rulings(s) && F.Staleness(s) && Book(s)
    requires id in s.log.retired && LastTry(s.log.attempts, id, k)
    ensures k in s.log.verdicts && k in s.log.stale
  {
    if V.InTry(s.loop) { OngoingApart(s); LastIsOngoing(s); }
    assert V.TryPoint(s.loop, V.TriesOf(s.log));
  }

  lemma LastIsOngoing(s: State)
    requires T.Flow(s) && V.InTry(s.loop)
    ensures s.log.attempts != [] && s.log.attempts[|s.log.attempts| - 1].id == s.loop.id
  {
    var c, cp := s.loop.pc.c, s.loop.pc.cp;
    assert T.InAttempt(s.log.attempts, |s.log.sends|, s.loop.id, c, cp);
    assert T.LastIs(s.log.attempts, s.loop.id, c.phase, cp.at.n);
  }

  lemma StoppedAtLast(s: State, id: ID, k: nat)
    requires Reachable(s) && id in s.log.retired && id in s.actions && LastTry(s.log.attempts, id, k)
    requires k in s.log.verdicts && k in s.log.stale && !s.log.verdicts[k]
    ensures s.actions[id].state.Cancelled? <==> k in s.log.published && s.log.stale[k]
  {
    assert F.StopBook(s) && F.Admitted(s) && F.LastStop(s.log) && T.BoundedV(s.log.attempts, s.log.starts) by {
      ReachableInv(s);
    }
    assert F.StopFate(F.Stopped(s.log, id), s.actions[id], s.log.starts[id]);
    if F.Stopped(s.log, id) {
      var j :| F.StoppedAt(s.log, j, id);
      assert j == k;
    }
    if k in s.log.published && s.log.stale[k] { assert F.StoppedAt(s.log, k, id); }
  }

  // ----- one action at a time

  /** At most one action is current; its cancel function is set exactly with it; a
      non-empty announced id is that of the current timed open, or one the pipeline was
      created with. */
  lemma CurrentAction(s: State)
    requires Reachable(s)
    ensures s.current.Some? <==> s.cancelFn.Some?
    ensures s.cancelFn.Some? ==> s.cancelFn.value == s.execNo
    ensures s.info.currentActionID != "" && s.info.currentActionID != s.log.initialID ==>
              && s.current == Some(s.info.currentActionID) && s.info.currentActionID in s.actions
              && s.actions[s.info.currentActionID].typ.OpenTimed?
    ensures s.current.None? ==> s.info.currentActionID == "" || s.info.currentActionID == s.log.initialID
  {
    ReachableInv(s);
    SlotFacts(s);
  }

  lemma SlotFacts(s: State)
    requires Slot(s) && Shown(s) && Life(s) && Book(s) && Known(s)
    ensures s.current.Some? <==> s.cancelFn.Some?
    ensures s.cancelFn.Some? ==> s.cancelFn.value == s.execNo
    ensures s.info.currentActionID != "" && s.info.currentActionID != s.log.initialID ==>
              && s.current == Some(s.info.currentActionID) && s.info.currentActionID in s.actions
              && s.actions[s.info.currentActionID].typ.OpenTimed?
    ensures s.current.None? ==> s.info.currentActionID == "" || s.info.currentActionID == s.log.initialID
  {
    if s.loop.Busy? {
      OngoingApart(s);
      assert AtPoint(s.actions[s.loop.id], s.log.asked[s.loop.id], s.loop.pc);
      if Announced(s.loop.pc) { AnnouncedTimed(s.actions[s.loop.id], s.log.asked[s.loop.id], s.loop.pc); }
    }
  }

  lemma AnnouncedTimed(a: Action, asked: Action, pc: ExecPc)
    requires AtPoint(a, asked, pc) && Announced(pc)
    ensures a.typ.OpenTimed? && Inside(pc)
  {
  }

  /** Every id a caller enqueued is in exactly one place: in its Enqueue call,
      queued, executing, ended or dropped; executions follow admission order. */
  lemma OneActionOnePlace(s: State, id: ID) returns (at: seq<nat>)
    requires Reachable(s)
    ensures id in s.queue.admitted <==>
              || id in s.queue.items || Q.Gone(s.queue, id, Q.Dropped)
              || (Q.Gone(s.queue, id, Q.Ran) && (id in s.log.retired || (s.loop.Busy? && s.loop.id == id)))
    ensures id in s.queue.calls ==> id !in s.queue.admitted && id !in s.log.begun
    ensures id in s.queue.items ==> !Q.Gone(s.queue, id, Q.Dropped) && id !in s.log.begun
    ensures Q.Gone(s.queue, id, Q.Dropped) ==> !Q.Gone(s.queue, id, Q.Ran)
    ensures s.loop.Busy? && s.loop.id == id ==> id !in s.log.retired
    ensures |s.queue.items| <= 8
    ensures s.log.begun == Q.RanIds(s.queue.removed) + s.log.shut
    ensures Q.Embeds(Q.RanIds(s.queue.removed), s.queue.admitted, at)
  {
    ReachableInv(s);
    Q.ExactlyOnePlace(s.queue, id);
    at := Q.ExecutionOrder(s.queue);
    RanMember(s.queue.removed, id);
    if s.loop.Busy? { OngoingApart(s); }
    assert id in s.log.begun <==> id in s.log.retired || (s.loop.Busy? && s.loop.id == id) by {
      assert s.log.begun == s.log.retired + Ongoing(s.loop);
    }
    assert id in Q.RanIds(s.queue.removed) ==> id in s.log.begun;
  }

  lemma {:induction false} RanMember(rs: seq<Q.Removal>, id: ID)
    ensures Q.Removal(id, Q.Ran) in rs <==> id in Q.RanIds(rs)
  {
    if rs != [] {
      var n := |rs| - 1;
      RanMember(rs[..n], id);
      assert rs == rs[..n] + [rs[n]];
    }
  }

  // ----- the history

  /** The history is the newest hundred of all ended executions but the internal pings,
      each of them terminal. */
  lemma HistoryIsNewest(s: State)
    requires Reachable(s)
    ensures s.history == Newest(F.Listed(s.log.retired, s.actions)) && |s.history| <= 100
    ensures forall id :: id in s.history ==> id in s.actions && s.actions[id].IsTerminal()
  {
    assert Hist(s) && F.Listing(s) && Book(s) && Known(s) && AllEnded(s.log.retired, s.actions) by { ReachableInv(s); }
    HistoryIsTerminal(s);
  }

  lemma HistoryIsTerminal(s: State)
    requires Hist(s) && Book(s) && Known(s) && AllEnded(s.log.retired, s.actions)
    ensures forall id :: id in s.history ==> id in s.actions && s.actions[id].IsTerminal()
  {
    forall id | id in s.history ensures id in s.actions && s.actions[id].IsTerminal() {
      HistoryRetired(s, id);
      assert id in s.log.begun;
      assert Ended(s.actions[id]);
    }
  }

  /** A terminal action never changes again, except that a confirmed timed open
      that is still current goes on to its hold. */
  lemma TerminalIsFinal(s: State, st: Step, id: ID)
    requires Reachable(s) && Enabled(s, st) && id in s.log.begun && id in s.actions && s.actions[id].IsTerminal()
    ensures id in Next(s, st).actions
    ensures Next(s, st).actions[id] == s.actions[id] ||
            (st == Exec(AfterFulfil) && s.current == Some(id) && s.actions[id].state.Fulfilled?
             && s.actions[id].typ.OpenTimed? && Next(s, st).actions[id].state.Closing?)
  {
    assert BookInv(s) by { ReachableInv(s); }
    TerminalStep(s, st, id);
  }

  lemma TerminalStep(s: State, st: Step, id: ID)
    requires BookInv(s) && Enabled(s, st) && id in s.log.begun && id in s.actions && s.actions[id].IsTerminal()
    ensures id in Next(s, st).actions
    ensures Next(s, st).actions[id] == s.actions[id] ||
            (st == Exec(AfterFulfil) && s.current == Some(id) && s.actions[id].state.Fulfilled?
             && s.actions[id].typ.OpenTimed? && Next(s, st).actions[id].state.Closing?)
  {
    if s.loop.Busy? { OngoingApart(s); }
    match st
    case Env(e) => EnvKeepsActions(s, e);
    case OfRun(rs) => TerminalRun(s, rs, id);
    case InCall(cs) => TerminalCall(s, cs, id);
    case Exec(xs) => TerminalExec(s, xs, id);
    case OfPing(ps) => PingFrames(s, ps);
  }

  lemma EnvKeepsActions(s: State, e: EnvStep)
    requires EnvEnabled(s, e)
    ensures forall id :: id in s.actions ==> id in EnvNext(s, e).actions && EnvNext(s, e).actions[id] == s.actions[id]
  {
  }

  lemma TerminalRun(s: State, rs: RunStep, id: ID)
    requires Life(s) && RunEnabled(s, rs) && id in s.actions && s.actions[id].IsTerminal()
    requires s.loop.Busy? ==> s.loop.id in s.log.asked
    ensures id in RunNext(s, rs).actions && RunNext(s, rs).actions[id] == s.actions[id]
  {
    if rs.ReadConfig? || rs.Install? {
      assert AtPoint(s.actions[s.loop.id], s.log.asked[s.loop.id], s.loop.pc);
      assert id != s.loop.id;
    }
  }

  lemma TerminalCall(s: State, cs: CallStep, id: ID)
    requires Subject(s) && Life(s) && CallEnabled(s, cs) && id in s.actions && s.actions[id].IsTerminal()
    requires s.loop.id in s.log.asked && id in s.log.begun
    ensures id in CallNext(s, cs).actions && CallNext(s, cs).actions[id] == s.actions[id]
  {
    CallFrames(s, cs);
    assert InCallPoint(s.actions[s.loop.id], s.loop.pc.c, s.loop.pc.cp);
    assert !s.loop.pc.cp.Returned?;
  }

  lemma TerminalExec(s: State, xs: ExecStep, id: ID)
    requires BookInv(s) && ExecEnabled(s, xs) && id in s.actions && s.actions[id].IsTerminal()
    requires s.loop.id in s.log.asked
    ensures id in ExecNext(s, xs).actions
    ensures ExecNext(s, xs).actions[id] == s.actions[id] ||
            (xs == AfterFulfil && s.current == Some(id) && s.actions[id].state.Fulfilled?
             && s.actions[id].typ.OpenTimed? && ExecNext(s, xs).actions[id].state.Closing?)
  {
    if id != s.loop.id {
      T.OthersKept(s, xs);
    } else {
      OwnTerminal(s, xs);
    }
  }

  /** Past its terminal state an executing action is only read. */
  lemma OwnTerminal(s: State, xs: ExecStep)
    requires ExecEnabled(s, xs) && s.actions[s.loop.id].IsTerminal()
    requires s.loop.id in s.log.asked && AtPoint(s.actions[s.loop.id], s.log.asked[s.loop.id], s.loop.pc)
    ensures s.loop.id in ExecNext(s, xs).actions
    ensures ExecNext(s, xs).actions[s.loop.id] == s.actions[s.loop.id] ||
            (xs == AfterFulfil && s.actions[s.loop.id].state.Fulfilled? && s.actions[s.loop.id].typ.OpenTimed?
             && ExecNext(s, xs).actions[s.loop.id].state.Closing?)
  {
  }

  /** An entry of the history never changes again. */
  lemma HistoryIsFinal(s: State, steps: seq<Step>, s': State, id: ID)
    requires Reachable(s) && Run(s, steps, s') && id in s.history
    ensures id in s.actions && id in s'.actions && s'.actions[id] == s.actions[id]
  {
    HistoryIsNewest(s);
    assert id in s.log.retired by {
      ReachableInv(s);
      HistoryRetired(s, id);
    }
    RetiredIsFinal(s, steps, s', id);
  }

  lemma {:induction false} RetiredIsFinal(s: State, steps: seq<Step>, s': State, id: ID)
    requires Reachable(s) && Run(s, steps, s') && id in s.log.retired && id in s.actions
    ensures id in s'.actions && s'.actions[id] == s.actions[id]
    decreases |steps|
  {
    if steps != [] {
      RetiredUnchanged(s, steps[0], id);
      RetiredStaysStep(s, steps[0], id);
      ReachableStep(s, steps[0]);
      RetiredIsFinal(Next(s, steps[0]), steps[1..], s', id);
    }
  }

  lemma RetiredUnchanged(s: State, st: Step, id: ID)
    requires Reachable(s) && Enabled(s, st) && id in s.log.retired && id in s.actions
    ensures id in Next(s, st).actions && Next(s, st).actions[id] == s.actions[id]
  {
    assert id in s.log.begun && s.actions[id].IsTerminal() && s.current != Some(id) by {
      ReachableInv(s);
      assert Ended(s.actions[id]);
      CurrentNotRetired(s);
    }
    TerminalIsFinal(s, st, id);
  }

  /** Retired executions stay retired. */
  lemma {:induction false} RetiredStays(s: State, steps: seq<Step>, s': State, id: ID)
    requires Run(s, steps, s') && id in s.log.retired
    ensures id in s'.log.retired
    decreases |steps|
  {
    if steps != [] {
      RetiredStaysStep(s, steps[0], id);
      RetiredStays(Next(s, steps[0]), steps[1..], s', id);
    }
  }

  lemma RetiredStaysStep(s: State, st: Step, id: ID)
    requires Enabled(s, st) && id in s.log.retired
    ensures id in Next(s, st).log.retired
  {
    match st
    case Env(e) => EnvFrames(s, e);
    case OfRun(rs) => RetiredStaysRun(s, rs, id);
    case InCall(cs) => CallFrames(s, cs);
    case Exec(xs) => ExecFrames(s, xs);
    case OfPing(ps) => PingFrames(s, ps);
  }

  lemma RetiredStaysRun(s: State, rs: RunStep, id: ID)
    requires RunEnabled(s, rs) && id in s.log.retired
    ensures id in RunNext(s, rs).log.retired
  {
    if rs.ReadConfig? { ReadFrames(s); }
  }

  /** ListActions reads the history, then the current action, with any steps in
      between: no action is listed twice. */
  lemma NeverListedTwice(s: State, steps: seq<Step>, s': State)
    requires Reachable(s) && Run(s, steps, s')
    ensures Q.NoDuplicates((if s'.current.Some? then [s'.current.value] else []) + s.history)
  {
    assert Hist(s) by { ReachableInv(s); }
    ReversedDistinct(s.log.finished);
    forall id | id in s.history ensures id in s'.log.retired {
      HistoryRetired(s, id);
      RetiredStays(s, steps, s', id);
    }
    assert s'.current.Some? ==> s'.current.value !in s'.log.retired by {
      ReachableRun(s, steps, s');
      ReachableInv(s');
      CurrentNotRetired(s');
    }
  }

  lemma CurrentNotRetired(s: State)
    requires Slot(s) && Book(s)
    ensures s.current.Some? ==> s.current.value !in s.log.retired
  {
    if s.loop.Busy? { OngoingApart(s); }
  }

  // ----- waiters and the dispatcher

  /** What a step does to the waiters is one operation on the dispatcher, or none. */
  lemma StepOnHub(s: State, st: Step) returns (ops: seq<Hubs.HubStep>)
    requires W.NInv(s.net) && Enabled(s, st)
    ensures |ops| <= 1
    ensures if ops == [] then Next(s, st).net == s.net
            else Hubs.CanNet(s.net, ops[0]) && Next(s, st).net == Hubs.NextNet(s.net, ops[0])
  {
    match st
    case Env(e) => ops := EnvOnHub(s, e);
    case OfRun(rs) => RunFrames(s, rs); ops := [];
    case InCall(cs) => ops := CallOnHub(s, cs);
    case Exec(xs) => ExecFrames(s, xs); ops := [];
    case OfPing(ps) => ops := PingOnHub(s, ps);
  }

  lemma EnvOnHub(s: State, e: EnvStep) returns (ops: seq<Hubs.HubStep>)
    requires W.NInv(s.net) && EnvEnabled(s, e)
    ensures |ops| <= 1
    ensures if ops == [] then EnvNext(s, e).net == s.net
            else Hubs.CanNet(s.net, ops[0]) && EnvNext(s, e).net == Hubs.NextNet(s.net, ops[0])
  {
    match e
    case DispatchEvent(ev) => ops := [Hubs.Dispatch(ev)];
    case HandlerCall(d) => ops := [Hubs.Deliver(d)];
    case WaiterTimeout(w) => ops := [Hubs.Expire(w)];
    case RunUnsubscribe(w) => ops := [Hubs.Unsubscribe(w)];
    case _ => ops := [];
  }

  lemma CallOnHub(s: State, cs: CallStep) returns (ops: seq<Hubs.HubStep>)
    requires CallEnabled(s, cs)
    ensures |ops| <= 1
    ensures if ops == [] then CallNext(s, cs).net == s.net
            else Hubs.CanNet(s.net, ops[0]) && CallNext(s, cs).net == Hubs.NextNet(s.net, ops[0])
  {
    var c := s.loop.pc.c;
    match cs
    case RegisterWaiter =>
      var want, until := if c.power then 1 else 0, WaitDeadline(s.now, c.timeout, c.deadline);
      var scope := if c.phase.Primary? then W.ActionScope(s.execNo) else W.CloseScope;
      ops := [Hubs.Register(s.loop.pc.cp.at.target, want, until, scope)];
    case SendEnd(ok) =>
      ops := if CallNext(s, cs).net == s.net then [] else [Hubs.Stop(s.loop.pc.cp.at.w)];
    case Receive => ops := [Hubs.Stop(s.loop.pc.cp.at.w)];
    case _ => ops := [];
  }

  lemma PingOnHub(s: State, ps: PingStep) returns (ops: seq<Hubs.HubStep>)
    requires PingEnabled(s, ps)
    ensures |ops| <= 1
    ensures if ops == [] then PingNext(s, ps).net == s.net
            else Hubs.CanNet(s.net, ops[0]) && PingNext(s, ps).net == Hubs.NextNet(s.net, ops[0])
  {
    match ps
    case PingRegister => ops := [Hubs.Register(s.ping.r.target, 0, s.now + s.ping.r.timeout, W.PingScope)];
    case PingReceive => ops := [Hubs.Stop(s.ping.r.w)];
    case _ => E.PingNetSame(s, ps); ops := [];
  }

  /** So every run of the pipeline is one of its waiters on a dispatcher. */
  lemma {:induction false} RunOnHub(s: State, steps: seq<Step>, s': State, h: Hubs.Hub)
    returns (ops: seq<Hubs.HubStep>, h': Hubs.Hub)
    requires Reachable(s) && Run(s, steps, s') && h.net == s.net
    ensures Hubs.HubRun(h, ops, h') && h'.net == s'.net
    decreases |steps|
  {
    if steps == [] {
      ops, h' := [], h;
    } else {
      assert W.NInv(s.net) by { ReachableInv(s); }
      var op := StepOnHub(s, steps[0]);
      ReachableStep(s, steps[0]);
      var h1 := if op == [] then h else Hubs.NextHub(h, op[0]);
      ops, h' := RunOnHub(Next(s, steps[0]), steps[1..], s', h1);
      if op != [] {
        Hubs.HubRunPrepend(h, op[0], ops, h');
        ops := [op[0]] + ops;
      }
    }
  }

  /** In every reachable state, an event makes the dispatcher call the handler of each
      waiter subscribed to its device, once, and no other. */
  lemma DispatcherServesWaiters(s: State, ev: SensorEvent) returns (h: Hubs.Hub)
    requires Reachable(s)
    ensures h.net == s.net && Hubs.Mirrors(h.list, s.net.live)
    ensures var c := D.Calls(h.list, ev);
            && (forall w :: (exists x :: x in c && x.handler == w) <==> w in W.Recipients(s.net.live, ev))
            && (forall i, j :: 0 <= i < j < |c| ==> c[i].handler != c[j].handler)
  {
    var s0, steps :| Init(s0) && Run(s0, steps, s);
    assert Run(s0, [], s0);
    var ops;
    ops, h := RunOnHub(s0, steps, s, Hubs.EMPTY);
    Hubs.RunHub(Hubs.EMPTY, ops, h);
    Hubs.DispatcherCallsRecipients(ops, h, ev);
  }

  // ----- waiters settle once

  /** Over any run a settled waiter keeps its outcome. */
  lemma {:induction false} WaiterSettlesOnce(s: State, steps: seq<Step>, s': State, w: nat)
    requires Reachable(s) && Run(s, steps, s') && w < |s.net.waiters| && s.net.waiters[w].outcome.Some?
    ensures w < |s'.net.waiters| && s'.net.waiters[w].outcome == s.net.waiters[w].outcome
    decreases |steps|
  {
    if steps != [] {
      var s1 := Next(s, steps[0]);
      assert W.NInv(s.net) by { ReachableInv(s); }
      NetGrows(s, steps[0]);
      ReachableStep(s, steps[0]);
      assert W.SameWait(s.net.waiters[w], s1.net.waiters[w]);
      WaiterSettlesOnce(s1, steps[1..], s', w);
    }
  }

  lemma NetGrows(s: State, st: Step)
    requires W.NInv(s.net) && Enabled(s, st)
    ensures W.Extends(s.net, Next(s, st).net)
  {
    match st
    case Env(e) => E.NetEnv(s, e);
    case OfRun(rs) => RunFrames(s, rs); W.ExtendsSelf(s.net);
    case InCall(cs) => E.NetCall(s, cs);
    case Exec(xs) => ExecFrames(s, xs); W.ExtendsSelf(s.net);
    case OfPing(ps) => E.NetPing(s, ps);
  }

  /** Every live subscription belongs to an unsettled waiter or to a confirmed one
      whose unsubscribe is still pending. */
  lemma NoLeakedSubscription(s: State, w: nat)
    requires Reachable(s) && w in s.net.live
    ensures w < |s.net.waiters|
    ensures s.net.waiters[w].outcome.None? || EnvEnabled(s, RunUnsubscribe(w))
  {
    assert W.NInv(s.net) by { ReachableInv(s); }
    W.LiveSubscriptions(s.net, w);
  }
}
