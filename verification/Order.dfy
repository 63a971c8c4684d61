/** What comes after what: the writes of attempts and rounds in their order; and attempts,
    reports and writes after a given state. */
module Order {
  import opened Machine
  import opened Frames
  import opened Books
  import opened Reachability
  import E = Evidence
  import V = Verdicts
  import W = Waiters

  // ----- writes in order

  /** Of two confirmations by the same goroutine, the later write is that of a later attempt
      or round. */
  predicate Before(a: Write, b: Write) {
    a.Seen? && b.Seen? ==>
      && (a.who.ByAction? && b.who.ByAction? ==> a.who.k < b.who.k)
      && (a.who.ByPing? && b.who.ByPing? ==> a.who.k < b.who.k)
  }

  ghost predicate WritesOrdered(writes: seq<Write>) {
    forall i, j :: 0 <= i < j < |writes| ==> Before(writes[i], writes[j])
  }

  /** No write is that of ping round k or a later one. */
  ghost predicate NotByRound(writes: seq<Write>, k: nat) {
    forall i :: 0 <= i < |writes| && writes[i].Seen? && writes[i].who.ByPing? ==> writes[i].who.k < k
  }

  /** A ping round that is not past its check has written nothing, and an action it read has
      begun. */
  ghost predicate PingOrder(s: State) {
    && (s.ping.InRound? && !s.ping.pp.PWriting? ==> s.log.rounds != [] && NotByRound(s.log.writes, |s.log.rounds| - 1))
    && (s.ping.Snapped? && s.ping.cur.Some? ==> s.ping.cur.value in s.log.begun)
  }

  ghost predicate InOrder(s: State) { WritesOrdered(s.log.writes) && PingOrder(s) }

  lemma OrderedMore(writes: seq<Write>, wr: Write)
    requires WritesOrdered(writes) && forall i :: 0 <= i < |writes| ==> Before(writes[i], wr)
    ensures WritesOrdered(writes + [wr])
  {
  }

  /** Steps in which only a failed close can be written, and the ping stays where it is. */
  lemma InOrderKept(s: State, s': State)
    requires InOrder(s) && s'.ping == s.ping && s'.log.rounds == s.log.rounds
    requires s'.log.writes == s.log.writes || exists id :: s'.log.writes == s.log.writes + [CloseFailed(id)]
    requires forall id :: id in s.log.begun ==> id in s'.log.begun
    ensures InOrder(s')
  {
    if s'.log.writes != s.log.writes {
      var id :| s'.log.writes == s.log.writes + [CloseFailed(id)];
      OrderedMore(s.log.writes, CloseFailed(id));
    }
  }

  lemma InOrderApply(s: State)
    requires InOrder(s) && V.Written(s) && V.Rulings(s) && CallEnabled(s, Apply)
    ensures InOrder(DoApply(s))
  {
    AppliedIsLast(s);
    OrderedMore(s.log.writes, V.Applied(s));
    assert DoApply(s).log.writes == s.log.writes + [V.Applied(s)];
  }

  /** The attempt that confirms is later than all judged ones. */
  lemma AppliedIsLast(s: State)
    requires V.Written(s) && V.Rulings(s) && CallEnabled(s, Apply)
    ensures forall i :: 0 <= i < |s.log.writes| ==> Before(s.log.writes[i], V.Applied(s))
  {
    V.NotJudged(s);
    forall i | 0 <= i < |s.log.writes| ensures Before(s.log.writes[i], V.Applied(s)) {
      if s.log.writes[i].Seen? && s.log.writes[i].who.ByAction? { assert V.RuledWrite(s.log, s.log.writes[i]); }
    }
  }

  lemma InOrderPingApply(s: State)
    requires InOrder(s) && PingEnabled(s, PingApply)
    ensures InOrder(PingNext(s, PingApply))
  {
    PingWrites(s, PingApply);
    OrderedMore(s.log.writes, Seen(ByPing(RoundNo(s)), false, s.ping.r.w, |s.net.dispatched|));
  }

  lemma InOrderDecide(s: State)
    requires InOrder(s) && V.Written(s) && PingEnabled(s, PingDecide)
    ensures InOrder(DoPingDecide(s))
  {
    forall i | 0 <= i < |s.log.writes| && s.log.writes[i].Seen? && s.log.writes[i].who.ByPing?
      ensures s.log.writes[i].who.k < |s.log.rounds| {
      assert V.PingedWrite(s.net, s.log, s.log.writes[i]);
    }
  }

  lemma InOrderSnapshot(s: State)
    requires InOrder(s) && Slot(s) && Book(s) && PingEnabled(s, PingSnapshot)
    ensures InOrder(PingNext(s, PingSnapshot))
  {
    if s.loop.Busy? { OngoingApart(s); }
  }

  lemma InOrderPing(s: State, ps: PingStep)
    requires InOrder(s) && V.Written(s) && Slot(s) && Book(s) && PingEnabled(s, ps)
    ensures InOrder(PingNext(s, ps))
  {
    match ps
    case PingApply => InOrderPingApply(s);
    case PingDecide => InOrderDecide(s);
    case PingSnapshot => InOrderSnapshot(s);
    case _ => InOrderRound(s, ps);
  }

  lemma InOrderRound(s: State, ps: PingStep)
    requires InOrder(s) && PingEnabled(s, ps) && !ps.PingApply? && !ps.PingDecide? && !ps.PingSnapshot?
    ensures InOrder(PingNext(s, ps))
  {
  }

  lemma InOrderStep(s: State, st: Step)
    requires InOrder(s) && V.Written(s) && V.Rulings(s) && Slot(s) && Book(s) && Enabled(s, st)
    ensures InOrder(Next(s, st))
  {
    match st
    case Env(e) => EnvFrames(s, e); InOrderKept(s, EnvNext(s, e));
    case OfRun(rs) => RunFrames(s, rs); BegunGrows(s, rs); InOrderKept(s, RunNext(s, rs));
    case InCall(cs) =>
      if cs.Apply? {
        InOrderApply(s);
      } else {
        CallFrames(s, cs);
        E.WritesOnlyApply(s, cs);
        InOrderKept(s, CallNext(s, cs));
      }
    case Exec(xs) => ExecFrames(s, xs); ExecWritesNoReport(s, xs); InOrderKept(s, ExecNext(s, xs));
    case OfPing(ps) => InOrderPing(s, ps);
  }

  lemma BegunGrows(s: State, rs: RunStep)
    requires RunEnabled(s, rs)
    ensures forall id :: id in s.log.begun ==> id in RunNext(s, rs).log.begun
  {
    if rs.ReadConfig? { ReadFrames(s); }
  }

  lemma {:induction false} InOrderRun(s: State, steps: seq<Step>, s': State)
    requires Inv(s) && InOrder(s) && Run(s, steps, s')
    ensures InOrder(s')
    decreases |steps|
  {
    if steps != [] {
      InOrderStep(s, steps[0]);
      InvStep(s, steps[0]);
      InOrderRun(Next(s, steps[0]), steps[1..], s');
    }
  }

  lemma ReachableInOrder(s: State)
    requires Reachable(s)
    ensures InOrder(s)
  {
    var s0, steps :| Init(s0) && Run(s0, steps, s);
    InitInv(s0);
    InOrderRun(s0, steps, s);
  }

  // ----- after a given state

  /** Since s, where no attempt was being made: attempts that the loop recorded began
      after s, and with them their reports. */
  ghost predicate LoopNewer(s: State, t: State) {
    && |s.net.dispatched| <= |t.net.dispatched|
    && |s.log.attempts| <= |t.log.attempts| && |s.log.writes| <= |t.log.writes|
    && (V.InTry(t.loop) ==> |s.log.attempts| < |t.log.attempts|)
    && (forall k :: |s.log.attempts| <= k < |t.log.attempts| ==> |s.net.dispatched| <= t.log.attempts[k].since)
    && (forall i :: |s.log.writes| <= i < |t.log.writes| && t.log.writes[i].Seen? && t.log.writes[i].who.ByAction? ==>
          |s.log.attempts| <= t.log.writes[i].who.k)
  }

  /** The same for the ping, since a state in which it was not in a round. */
  ghost predicate PingNewer(s: State, t: State) {
    && |s.net.dispatched| <= |t.net.dispatched|
    && |s.log.rounds| <= |t.log.rounds| && |s.log.writes| <= |t.log.writes|
    && (t.ping.InRound? ==> |s.log.rounds| < |t.log.rounds|)
    && (forall k :: |s.log.rounds| <= k < |t.log.rounds| ==> |s.net.dispatched| <= t.log.rounds[k].since)
    && (forall i :: |s.log.writes| <= i < |t.log.writes| && t.log.writes[i].Seen? && t.log.writes[i].who.ByPing? ==>
          |s.log.rounds| <= t.log.writes[i].who.k)
  }

  /** Steps that begin no attempt and record nothing for the loop. */
  lemma LoopNewerKept(s: State, t: State, t': State)
    requires LoopNewer(s, t) && |t.net.dispatched| <= |t'.net.dispatched| && t'.log.attempts == t.log.attempts
    requires V.InTry(t'.loop) ==> V.InTry(t.loop)
    requires |t.log.writes| <= |t'.log.writes| && t'.log.writes[..|t.log.writes|] == t.log.writes
    requires forall i :: |t.log.writes| <= i < |t'.log.writes| && t'.log.writes[i].Seen? ==>
               t'.log.writes[i].who.ByPing?
    ensures LoopNewer(s, t')
  {
    forall i | 0 <= i < |t.log.writes| ensures t'.log.writes[i] == t.log.writes[i] {
      assert t'.log.writes[i] == t'.log.writes[..|t.log.writes|][i];
    }
  }

  lemma LoopNewerBegin(s: State, t: State)
    requires LoopNewer(s, t) && CallEnabled(t, BeginAttempt)
    ensures LoopNewer(s, DoBeginAttempt(t))
  {
  }

  lemma LoopNewerApply(s: State, t: State)
    requires LoopNewer(s, t) && CallEnabled(t, Apply)
    ensures LoopNewer(s, DoApply(t))
  {
  }

  lemma TryOnlyBegins(t: State, cs: CallStep)
    requires CallEnabled(t, cs) && !cs.BeginAttempt?
    ensures V.InTry(CallNext(t, cs).loop) ==> V.InTry(t.loop)
    ensures CallNext(t, cs).log.attempts == t.log.attempts
  {
  }

  lemma LoopNewerCall(s: State, t: State, cs: CallStep)
    requires LoopNewer(s, t) && W.NInv(t.net) && CallEnabled(t, cs)
    ensures LoopNewer(s, CallNext(t, cs))
  {
    match cs
    case BeginAttempt => LoopNewerBegin(s, t);
    case Apply => LoopNewerApply(s, t);
    case _ =>
      TryOnlyBegins(t, cs);
      E.NetCall(t, cs);
      E.WritesOnlyApply(t, cs);
      LoopNewerKept(s, t, CallNext(t, cs));
  }

  lemma ExecWritesNoReport(t: State, xs: ExecStep)
    requires ExecEnabled(t, xs)
    ensures var ws, ws' := t.log.writes, ExecNext(t, xs).log.writes;
            ws' == ws || ws' == ws + [CloseFailed(t.loop.id)]
  {
  }

  lemma LoopNewerStep(s: State, t: State, st: Step)
    requires LoopNewer(s, t) && W.NInv(t.net) && Enabled(t, st)
    ensures LoopNewer(s, Next(t, st))
  {
    match st
    case Env(e) => EnvFrames(t, e); E.NetEnv(t, e); LoopNewerKept(s, t, EnvNext(t, e));
    case OfRun(rs) => RunFrames(t, rs); RunOutside(t, rs); LoopNewerKept(s, t, RunNext(t, rs));
    case InCall(cs) => LoopNewerCall(s, t, cs);
    case Exec(xs) =>
      ExecFrames(t, xs);
      ExecOutside(t, xs);
      ExecWritesNoReport(t, xs);
      LoopNewerKept(s, t, ExecNext(t, xs));
    case OfPing(ps) =>
      PingFrames(t, ps);
      E.NetPing(t, ps);
      PingWrites(t, ps);
      LoopNewerKept(s, t, PingNext(t, ps));
  }

  lemma {:induction false} LoopNewerRun(s: State, t: State, steps: seq<Step>, t': State)
    requires Reachable(t) && LoopNewer(s, t) && Run(t, steps, t')
    ensures LoopNewer(s, t')
    decreases |steps|
  {
    if steps != [] {
      assert W.NInv(t.net) by { ReachableInv(t); }
      LoopNewerStep(s, t, steps[0]);
      ReachableStep(t, steps[0]);
      LoopNewerRun(s, Next(t, steps[0]), steps[1..], t');
    }
  }

  // ----- the ping

  lemma PingNewerKept(s: State, t: State, t': State)
    requires PingNewer(s, t) && |t.net.dispatched| <= |t'.net.dispatched| && t'.log.rounds == t.log.rounds
    requires t'.ping.InRound? ==> t.ping.InRound?
    requires |t.log.writes| <= |t'.log.writes| && t'.log.writes[..|t.log.writes|] == t.log.writes
    requires forall i :: |t.log.writes| <= i < |t'.log.writes| && t'.log.writes[i].Seen? ==>
               t'.log.writes[i].who.ByAction?
    ensures PingNewer(s, t')
  {
    forall i | 0 <= i < |t.log.writes| ensures t'.log.writes[i] == t.log.writes[i] {
      assert t'.log.writes[i] == t'.log.writes[..|t.log.writes|][i];
    }
  }

  lemma PingNewerDecide(s: State, t: State)
    requires PingNewer(s, t) && PingEnabled(t, PingDecide)
    ensures PingNewer(s, DoPingDecide(t))
  {
  }

  lemma PingNewerApply(s: State, t: State)
    requires PingNewer(s, t) && PingEnabled(t, PingApply)
    ensures PingNewer(s, PingNext(t, PingApply))
  {
  }

  lemma RoundOnlyDecides(t: State, ps: PingStep)
    requires PingEnabled(t, ps) && !ps.PingDecide?
    ensures PingNext(t, ps).log.rounds == t.log.rounds
    ensures PingNext(t, ps).ping.InRound? ==> t.ping.InRound?
  {
  }

  lemma PingNewerPing(s: State, t: State, ps: PingStep)
    requires PingNewer(s, t) && W.NInv(t.net) && PingEnabled(t, ps)
    ensures PingNewer(s, PingNext(t, ps))
  {
    match ps
    case PingDecide => PingNewerDecide(s, t);
    case PingApply => PingNewerApply(s, t);
    case _ =>
      RoundOnlyDecides(t, ps);
      E.NetPing(t, ps);
      PingWrites(t, ps);
      PingNewerKept(s, t, PingNext(t, ps));
  }

  lemma ApplyWrites(t: State)
    requires CallEnabled(t, Apply)
    ensures |DoApply(t).log.writes| == |t.log.writes| + 1 && DoApply(t).log.writes[..|t.log.writes|] == t.log.writes
    ensures var wr := DoApply(t).log.writes[|t.log.writes|]; wr.Seen? && wr.who.ByAction?
  {
  }

  lemma PingNewerStep(s: State, t: State, st: Step)
    requires PingNewer(s, t) && W.NInv(t.net) && Enabled(t, st)
    ensures PingNewer(s, Next(t, st))
  {
    match st
    case Env(e) => EnvFrames(t, e); E.NetEnv(t, e); PingNewerKept(s, t, EnvNext(t, e));
    case OfRun(rs) => RunFrames(t, rs); PingNewerKept(s, t, RunNext(t, rs));
    case InCall(cs) => PingNewerCall(s, t, cs);
    case Exec(xs) => ExecFrames(t, xs); ExecWritesNoReport(t, xs); PingNewerKept(s, t, ExecNext(t, xs));
    case OfPing(ps) => PingNewerPing(s, t, ps);
  }

  lemma PingNewerCall(s: State, t: State, cs: CallStep)
    requires PingNewer(s, t) && W.NInv(t.net) && CallEnabled(t, cs)
    ensures PingNewer(s, CallNext(t, cs))
  {
    CallFrames(t, cs);
    E.NetCall(t, cs);
    if cs.Apply? { ApplyWrites(t); } else { E.WritesOnlyApply(t, cs); }
    PingNewerKept(s, t, CallNext(t, cs));
  }

  lemma {:induction false} PingNewerRun(s: State, t: State, steps: seq<Step>, t': State)
    requires Reachable(t) && PingNewer(s, t) && Run(t, steps, t')
    ensures PingNewer(s, t')
    decreases |steps|
  {
    if steps != [] {
      assert W.NInv(t.net) by { ReachableInv(t); }
      PingNewerStep(s, t, steps[0]);
      ReachableStep(t, steps[0]);
      PingNewerRun(s, Next(t, steps[0]), steps[1..], t');
    }
  }
}
