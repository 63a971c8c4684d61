/** What the keep-closed ping does, over every run: what a tick sends, when it disturbs a
    timed open that is being held, and when its write overwrites a newer one. */
module PingTheorems {
  import opened Options
  import opened Device
  import opened Actions
  import opened Machine
  import opened Frames
  import opened Books
  import opened Lifecycle
  import opened Reachability
  import E = Evidence
  import V = Verdicts
  import P = PingRounds
  import N = Order
  import Th = Theorems

  // ----- the hold is quiet

  /** A run during which the execution of id stays within the given points. */
  ghost predicate RunWithin(s: State, steps: seq<Step>, s': State, id: ID, within: ExecPc -> bool)
    decreases |steps|
  {
    && s.loop.Busy? && s.loop.id == id && within(s.loop.pc)
    && (if steps == [] then s' == s
        else Enabled(s, steps[0]) && RunWithin(Next(s, steps[0]), steps[1..], s', id, within))
  }

  /** Lines 235-240: the valve is meant to be open. */
  predicate OnHold(pc: ExecPc) { pc.Expiring? || pc.Announcing? || pc.Holding? }

  /** If the ping is quiet, neither goroutine sends anything until the hold ends. */
  lemma {:induction false} HoldIsQuiet(s: State, steps: seq<Step>, s': State, id: ID)
    requires Reachable(s) && RunWithin(s, steps, s', id, OnHold) && P.Quiet(s.ping, id)
    ensures s'.log.pings == s.log.pings && s'.log.sends == s.log.sends && P.Quiet(s'.ping, id)
    decreases |steps|
  {
    if steps != [] {
      QuietStep(s, steps[0]);
      ReachableStep(s, steps[0]);
      HoldIsQuiet(Next(s, steps[0]), steps[1..], s', id);
    }
  }

  /** And the ping stays quiet until the execution's own close has ended. */
  lemma {:induction false} ShutoffIsUndisturbed(s: State, steps: seq<Step>, s': State, id: ID)
    requires Reachable(s) && RunWithin(s, steps, s', id, P.HoldPc) && P.Quiet(s.ping, id)
    ensures s'.log.pings == s.log.pings && P.Quiet(s'.ping, id)
    decreases |steps|
  {
    if steps != [] {
      QuietStep(s, steps[0]);
      ReachableStep(s, steps[0]);
      ShutoffIsUndisturbed(Next(s, steps[0]), steps[1..], s', id);
    }
  }

  lemma QuietStep(s: State, st: Step)
    requires Reachable(s) && Enabled(s, st) && s.loop.Busy? && P.HoldPc(s.loop.pc) && P.Quiet(s.ping, s.loop.id)
    ensures P.Quiet(Next(s, st).ping, s.loop.id) && Next(s, st).log.pings == s.log.pings
    ensures OnHold(s.loop.pc) ==> Next(s, st).log.sends == s.log.sends
  {
    match st
    case Env(e) => EnvFrames(s, e);
    case OfRun(rs) => RunFrames(s, rs);
    case InCall(cs) => CallFrames(s, cs);
    case Exec(xs) => ExecFrames(s, xs);
    case OfPing(ps) =>
      PingPremises(s);
      P.QuietPing(s, ps);
      PingFrames(s, ps);
  }

  lemma PingPremises(s: State)
    requires Reachable(s)
    ensures Slot(s) && Life(s) && Book(s) && Known(s)
  {
    ReachableInv(s);
  }

  /** A run within the hold of id during which the ping sends. */
  ghost predicate Disturbs(s: State, steps: seq<Step>, s': State, id: ID) {
    RunWithin(s, steps, s', id, OnHold) && s'.log.pings != s.log.pings
  }

  /** During the hold of id the ping can still send OFF exactly if it is not quiet: it read,
      before, another current action or none, or it is in a round with send calls left. */
  lemma HoldDisturbedExactly(s: State, id: ID)
    requires Reachable(s) && s.loop.Busy? && s.loop.id == id && OnHold(s.loop.pc)
    ensures (exists steps, s' :: Disturbs(s, steps, s', id)) <==> !P.Quiet(s.ping, id)
  {
    if P.Quiet(s.ping, id) {
      forall steps, s' | RunWithin(s, steps, s', id, OnHold) ensures !Disturbs(s, steps, s', id) {
        HoldIsQuiet(s, steps, s', id);
      }
    } else {
      var steps, s' := PingGetsThrough(s, id);
      assert Disturbs(s, steps, s', id);
    }
  }

  /** One more step of the ping at the front of a run in which it sends. */
  lemma Through(s: State, id: ID, st: Step, steps: seq<Step>, s': State) returns (all: seq<Step>)
    requires s.loop.Busy? && s.loop.id == id && OnHold(s.loop.pc) && Enabled(s, st)
    requires RunWithin(Next(s, st), steps, s', id, OnHold)
    ensures RunWithin(s, all, s', id, OnHold)
  {
    all := [st] + steps;
    assert all[1..] == steps;
  }

  lemma SendsNow(s: State, id: ID) returns (steps: seq<Step>, s': State)
    requires s.loop.Busy? && s.loop.id == id && OnHold(s.loop.pc) && s.ping.InRound? && s.ping.pp.PToSend?
    ensures RunWithin(s, steps, s', id, OnHold) && |s'.log.pings| == |s.log.pings| + 1
  {
    s' := PingNext(s, PingSendBegin);
    assert RunWithin(s', [], s', id, OnHold);
    steps := Through(s, id, OfPing(PingSendBegin), [], s');
  }

  lemma SendsAfterGap(s: State, id: ID) returns (steps: seq<Step>, s': State)
    requires s.loop.Busy? && s.loop.id == id && OnHold(s.loop.pc) && s.ping.InRound? && s.ping.pp.PGap?
    requires s.ping.r.w < |s.net.waiters|
    ensures RunWithin(s, steps, s', id, OnHold) && |s'.log.pings| == |s.log.pings| + 1
  {
    var tick := Tick(if s.ping.pp.until < s.now then s.now else s.ping.pp.until);
    var s1 := EnvNext(s, tick);
    var s2 := PingNext(s1, PingGapEnd);
    steps, s' := SendsNow(s2, id);
    steps := Through(s1, id, OfPing(PingGapEnd), steps, s');
    steps := Through(s, id, Env(tick), steps, s');
  }

  lemma SendsInRound(s: State, id: ID) returns (steps: seq<Step>, s': State)
    requires s.loop.Busy? && s.loop.id == id && OnHold(s.loop.pc) && s.ping.InRound? && !P.Quiet(s.ping, id)
    requires E.PingWaits(s)
    ensures RunWithin(s, steps, s', id, OnHold) && |s'.log.pings| == |s.log.pings| + 1
  {
    match s.ping.pp
    case PBegun =>
      steps, s' := SendsNow(PingNext(s, PingRegister), id);
      steps := Through(s, id, OfPing(PingRegister), steps, s');
    case PInSend =>
      steps, s' := SendsAfterGap(PingNext(s, PingSendEnd), id);
      steps := Through(s, id, OfPing(PingSendEnd), steps, s');
    case PGap(_) => steps, s' := SendsAfterGap(s, id);
    case PToSend => steps, s' := SendsNow(s, id);
  }

  /** An action the ping read before and that is not current any more does not suppress it. */
  lemma OldDoesNotSuppress(s: State, id: ID)
    requires Life(s) && Book(s) && Known(s) && N.PingOrder(s)
    requires s.loop.Busy? && s.loop.id == id && s.ping.Snapped? && s.ping.cur != Some(id)
    ensures !Suppressed(s, s.ping.cur)
  {
    if s.ping.cur.Some? {
      var x := s.ping.cur.value;
      assert x in s.log.retired by { assert s.log.begun == s.log.retired + [id]; }
      assert x in s.actions ==> Ended(s.actions[x]);
    }
  }

  /** A ping that is not quiet gets an OFF through. */
  lemma PingGetsThrough(s: State, id: ID) returns (steps: seq<Step>, s': State)
    requires Reachable(s) && s.loop.Busy? && s.loop.id == id && OnHold(s.loop.pc) && !P.Quiet(s.ping, id)
    ensures RunWithin(s, steps, s', id, OnHold) && |s'.log.pings| == |s.log.pings| + 1
  {
    if s.ping.Snapped? {
      NotSuppressed(s, id);
      steps, s' := SendsAfterCheck(s, id);
    } else {
      PingWaitsHold(s);
      steps, s' := SendsInRound(s, id);
    }
  }

  lemma NotSuppressed(s: State, id: ID)
    requires Reachable(s) && s.loop.Busy? && s.loop.id == id && s.ping.Snapped? && s.ping.cur != Some(id)
    ensures !Suppressed(s, s.ping.cur)
  {
    PingPremises(s);
    N.ReachableInOrder(s);
    OldDoesNotSuppress(s, id);
  }

  lemma PingWaitsHold(s: State)
    requires Reachable(s)
    ensures E.PingWaits(s)
  {
    ReachableInv(s);
  }

  lemma SendsAfterCheck(s: State, id: ID) returns (steps: seq<Step>, s': State)
    requires s.loop.Busy? && s.loop.id == id && OnHold(s.loop.pc) && s.ping.Snapped? && !Suppressed(s, s.ping.cur)
    ensures RunWithin(s, steps, s', id, OnHold) && |s'.log.pings| == |s.log.pings| + 1
  {
    steps, s' := SendsInRound(DoPingDecide(s), id);
    steps := Through(s, id, OfPing(PingDecide), steps, s');
  }

  // ----- what a tick sends

  /** When the ping is between ticks, every round it started has made its full
      number of OFF calls, to the device its snapshot named. */
  lemma RoundsAreComplete(s: State, k: nat)
    requires Reachable(s) && s.ping.PIdle? && k < |s.log.rounds|
    ensures var r := s.log.rounds[k];
            && r.base + r.seen.CloseSends() <= |s.log.pings|
            && (forall j :: r.base <= j < r.base + r.seen.CloseSends() ==> P.ToDevice(s.log.pings[j], r.seen))
            && (k + 1 < |s.log.rounds| ==> s.log.rounds[k + 1].base == r.base + r.seen.CloseSends())
            && (k + 1 == |s.log.rounds| ==> |s.log.pings| == r.base + r.seen.CloseSends())
  {
    assert P.Rounds(s) by { ReachableInv(s); }
    CompleteRound(s.log.rounds, s.log.pings, k);
  }

  lemma CompleteRound(rounds: seq<RoundLog>, pings: seq<PingSend>, k: nat)
    requires P.RoundsTiled(rounds, pings) && |pings| == P.RoundTotal(rounds) && k < |rounds|
    ensures var r := rounds[k];
            && r.base + r.seen.CloseSends() <= |pings|
            && (forall j :: r.base <= j < r.base + r.seen.CloseSends() ==> P.ToDevice(pings[j], r.seen))
            && (k + 1 < |rounds| ==> rounds[k + 1].base == r.base + r.seen.CloseSends())
            && (k + 1 == |rounds| ==> |pings| == r.base + r.seen.CloseSends())
  {
    if k + 1 < |rounds| { assert rounds[k + 1].base <= |pings|; }
  }

  /** A run in which the ping is not between ticks before the last state. */
  ghost predicate WithinTick(s: State, steps: seq<Step>, s': State)
    decreases |steps|
  {
    if steps == [] then s' == s
    else !s.ping.PIdle? && Enabled(s, steps[0]) && WithinTick(Next(s, steps[0]), steps[1..], s')
  }

  /** The action read at the tick deliberately holds the valve open at the check. */
  predicate Holds(m: State, cur: Option<ID>) {
    && cur.Some? && cur.value in m.actions
    && m.actions[cur.value].typ in {ActionType.Open, OpenTimed}
    && m.actions[cur.value].state in {Pending, Sending, WaitingConfirmation, Closing}
  }

  /** Over every run from the snapshot of a tick to its end, whatever acts in between: at the
      check m, if the action read at the snapshot is an unfinished open, the tick sends
      nothing; otherwise it makes exactly max(1, CloseRepeatCount) OFF calls to the device, all
      of the snapshot, and starts one round. */
  lemma TickSendsExactly(s: State, steps: seq<Step>, s': State) returns (pre: seq<Step>, m: State, post: seq<Step>)
    requires Reachable(s) && PingEnabled(s, PingSnapshot)
    requires WithinTick(PingNext(s, PingSnapshot), steps, s') && s'.ping.PIdle?
    ensures steps == pre + [OfPing(PingDecide)] + post && Run(PingNext(s, PingSnapshot), pre, m)
    ensures PingEnabled(m, PingDecide) && Run(PingNext(m, PingDecide), post, s')
    ensures s.log.pings <= s'.log.pings
    ensures if Holds(m, s.current) then s'.log.pings == s.log.pings && s'.log.rounds == s.log.rounds
            else && |s'.log.pings| == |s.log.pings| + s.info.CloseSends()
                 && (forall j :: |s.log.pings| <= j < |s'.log.pings| ==> P.ToDevice(s'.log.pings[j], s.info))
                 && s'.log.rounds == s.log.rounds + [RoundLog(s.info, |s.log.pings|, |m.net.dispatched|)]
  {
    var s1 := PingNext(s, PingSnapshot);
    ReachableStep(s, OfPing(PingSnapshot));
    pre, m, post := UntilCheck(s1, steps, s');
    Decides(m);
    RoundToEnd(PingNext(m, PingDecide), post, s');
    WithinIsRun(PingNext(m, PingDecide), post, s');
    if !Holds(m, s.current) {
      WithinIsRun(s1, steps, s');
      ReachableRun(s1, steps, s');
      RoundsAreComplete(s', |s.log.rounds|);
    }
  }

  lemma Decides(m: State)
    requires PingEnabled(m, PingDecide)
    ensures if Holds(m, m.ping.cur) then PingNext(m, PingDecide).ping.PIdle?
            else PingNext(m, PingDecide).ping.InRound?
                 && PingNext(m, PingDecide).log.rounds
                    == m.log.rounds + [RoundLog(m.ping.seen, |m.log.pings|, |m.net.dispatched|)]
    ensures PingNext(m, PingDecide).log.pings == m.log.pings
    ensures Holds(m, m.ping.cur) ==> PingNext(m, PingDecide).log == m.log
  {
  }

  lemma {:induction false} WithinIsRun(s: State, steps: seq<Step>, s': State)
    requires WithinTick(s, steps, s')
    ensures Run(s, steps, s')
    decreases |steps|
  {
    if steps != [] { WithinIsRun(Next(s, steps[0]), steps[1..], s'); }
  }

  /** Everybody else leaves the ping and its sends alone. */
  lemma PingStays(s: State, st: Step)
    requires Enabled(s, st) && !st.OfPing?
    ensures Next(s, st).ping == s.ping && Next(s, st).log.pings == s.log.pings
    ensures Next(s, st).log.rounds == s.log.rounds
  {
    match st
    case Env(e) => EnvFrames(s, e);
    case OfRun(rs) => RunFrames(s, rs);
    case InCall(cs) => CallFrames(s, cs);
    case Exec(xs) => ExecFrames(s, xs);
  }

  /** From the snapshot the ping goes nowhere but to its check. */
  lemma {:induction false} UntilCheck(s: State, steps: seq<Step>, s': State)
    returns (pre: seq<Step>, m: State, post: seq<Step>)
    requires s.ping.Snapped? && WithinTick(s, steps, s') && s'.ping.PIdle?
    ensures steps == pre + [OfPing(PingDecide)] + post && Run(s, pre, m)
    ensures m.ping == s.ping && m.log.pings == s.log.pings && m.log.rounds == s.log.rounds
    ensures WithinTick(PingNext(m, PingDecide), post, s')
    decreases |steps|
  {
    var st := steps[0];
    assert steps == [st] + steps[1..];
    if st.OfPing? {
      assert st.ps.PingDecide?;
      pre, m, post := [], s, steps[1..];
    } else {
      PingStays(s, st);
      var rest;
      rest, m, post := UntilCheck(Next(s, st), steps[1..], s');
      Th.RunPrepend(s, st, rest, m);
      pre := [st] + rest;
      assert steps == [st] + (rest + [OfPing(PingDecide)] + post);
    }
  }

  /** After the check no other round begins before the tick has ended. */
  lemma {:induction false} RoundToEnd(s: State, steps: seq<Step>, s': State)
    requires (s.ping.InRound? || s.ping.PIdle?) && WithinTick(s, steps, s')
    ensures s'.log.rounds == s.log.rounds && s.log.pings <= s'.log.pings
    ensures s.ping.PIdle? ==> s' == s
    decreases |steps|
  {
    if steps != [] {
      if steps[0].OfPing? { RoundGoesOn(s, steps[0].ps); } else { PingStays(s, steps[0]); }
      RoundToEnd(Next(s, steps[0]), steps[1..], s');
    }
  }

  lemma RoundGoesOn(s: State, ps: PingStep)
    requires s.ping.InRound? && PingEnabled(s, ps)
    ensures PingNext(s, ps).log.rounds == s.log.rounds && s.log.pings <= PingNext(s, ps).log.pings
    ensures PingNext(s, ps).ping.InRound? || PingNext(s, ps).ping.PIdle?
  {
  }

  // ----- the ping's write

  /** The ping is granted its write only while the action loop makes no attempt. */
  lemma FreeNotTrying(s: State)
    requires Reachable(s) && Free(s)
    ensures !V.InTry(s.loop)
  {
    PingPremises(s);
    if s.loop.Busy? && s.loop.pc.Calling? {
      OngoingApart(s);
      assert InCallPoint(s.actions[s.loop.id], s.loop.pc.c, s.loop.pc.cp);
    }
  }

  /** The ping has recorded nothing between g and s. */
  ghost predicate PingSilent(g: State, s: State) {
    forall i :: |g.log.writes| <= i < |s.log.writes| && s.log.writes[i].Seen? ==> s.log.writes[i].who.ByAction?
  }

  /** Attempt k is a confirmed ON. */
  ghost predicate Opens(log: Log, k: nat) {
    k < |log.attempts| && k in log.verdicts && log.verdicts[k] && log.attempts[k].power
  }

  /** Attempt k is the last confirmed one, and an ON. */
  ghost predicate LastOpens(log: Log, k: nat) {
    Opens(log, k) && forall j :: k < j < |log.attempts| && j in log.verdicts ==> !log.verdicts[j]
  }

  /** Between the check g of the ping and its write, in s: the write records "closed", and it
      overwrites an open recorded since the check exactly if the last confirmed attempt is
      an ON that began after the check. */
  lemma PingOverwritesNewerOpens(g: State, steps: seq<Step>, s: State)
    requires Reachable(g) && PingEnabled(g, PingCheck) && Free(g)
    requires Run(PingNext(g, PingCheck), steps, s) && PingEnabled(s, PingApply) && PingSilent(g, s)
    ensures PingNext(s, PingApply).info.state.ValveClosed? && |g.log.writes| <= |s.log.writes|
    ensures s.info.state.ValveOpen? && |g.log.writes| < |s.log.writes| <==>
            exists k :: |g.log.attempts| <= k && LastOpens(s.log, k)
  {
    SinceCheck(g, steps, s);
    OpenExactly(g.log, s.log, s.info.state);
  }

  lemma OpenExactly(g: Log, l: Log, state: ValveState)
    requires V.WritesRuled(g) && LogFacts(l, state) && N.WritesOrdered(l.writes)
    requires |g.writes| <= |l.writes| && l.writes[..|g.writes|] == g.writes
    requires forall i :: |g.writes| <= i < |l.writes| && l.writes[i].Seen? ==>
               l.writes[i].who.ByAction? && |g.attempts| <= l.writes[i].who.k
    ensures state.ValveOpen? && |g.writes| < |l.writes| <==> exists k :: |g.attempts| <= k && LastOpens(l, k)
  {
    if state.ValveOpen? && |g.writes| < |l.writes| { OpenByLast(g, l, state); }
    if exists k :: |g.attempts| <= k && LastOpens(l, k) {
      var k :| |g.attempts| <= k && LastOpens(l, k);
      LastIsWritten(g, l, state, k);
    }
  }

  lemma SinceCheck(g: State, steps: seq<Step>, s: State)
    requires Reachable(g) && PingEnabled(g, PingCheck) && Free(g) && Run(PingNext(g, PingCheck), steps, s)
    ensures N.LoopNewer(g, s) && |g.log.writes| <= |s.log.writes| && s.log.writes[..|g.log.writes|] == g.log.writes
    ensures LogFacts(g.log, g.info.state) && LogFacts(s.log, s.info.state) && N.WritesOrdered(s.log.writes)
  {
    var g1 := PingNext(g, PingCheck);
    FreeNotTrying(g);
    ReachableStep(g, OfPing(PingCheck));
    ReachableRun(g1, steps, s);
    N.LoopNewerRun(g, g1, steps, s);
    Th.WritesGrowRun(g1, steps, s);
    N.ReachableInOrder(s);
    LogFactsHold(g);
    LogFactsHold(s);
  }

  /** Writes and verdicts belong together, and the last write is the recorded state. */
  ghost predicate LogFacts(log: Log, state: ValveState) {
    && V.WritesRuled(log) && V.VerdictsWritten(log) && E.DowngradesClosed(log.initial, log.writes)
    && state == E.After(log.initial, log.writes)
  }

  lemma LogFactsHold(s: State)
    requires Reachable(s)
    ensures LogFacts(s.log, s.info.state)
  {
    ReachableInv(s);
  }

  /** No attempt later than that of the last write has succeeded. */
  lemma WrittenUpTo(l: Log, j: nat)
    requires V.VerdictsWritten(l) && N.WritesOrdered(l.writes) && l.writes != []
    requires var wr := l.writes[|l.writes| - 1]; wr.Seen? && wr.who.ByAction?
    requires j < |l.attempts| && j in l.verdicts && l.verdicts[j]
    ensures j <= l.writes[|l.writes| - 1].who.k
  {
    assert V.WrittenVerdict(l, j);
    var i :| 0 <= i < |l.writes| && l.writes[i].Seen?
             && l.writes[i].who == ByAction(l.attempts[j].id, l.attempts[j].phase, j);
    assert i < |l.writes| - 1 ==> N.Before(l.writes[i], l.writes[|l.writes| - 1]);
  }

  lemma OpenByLast(g: Log, l: Log, state: ValveState)
    requires LogFacts(l, state) && N.WritesOrdered(l.writes) && |g.writes| < |l.writes| && state.ValveOpen?
    requires forall i :: |g.writes| <= i < |l.writes| && l.writes[i].Seen? ==>
               l.writes[i].who.ByAction? && |g.attempts| <= l.writes[i].who.k
    ensures exists k :: |g.attempts| <= k && LastOpens(l, k)
  {
    var n := |l.writes| - 1;
    var k := l.writes[n].who.k;
    assert V.RuledWrite(l, l.writes[n]);
    forall j | k < j < |l.attempts| && j in l.verdicts ensures !l.verdicts[j] {
      if l.verdicts[j] { WrittenUpTo(l, j); }
    }
    assert LastOpens(l, k);
  }

  lemma LastIsWritten(g: Log, l: Log, state: ValveState, k: nat)
    requires V.WritesRuled(g) && LogFacts(l, state) && N.WritesOrdered(l.writes)
    requires |g.writes| <= |l.writes| && l.writes[..|g.writes|] == g.writes
    requires forall i :: |g.writes| <= i < |l.writes| && l.writes[i].Seen? ==> l.writes[i].who.ByAction?
    requires |g.attempts| <= k && LastOpens(l, k)
    ensures state.ValveOpen? && |g.writes| < |l.writes|
  {
    assert V.WrittenVerdict(l, k);
    var i :| 0 <= i < |l.writes| && l.writes[i].Seen?
             && l.writes[i].who == ByAction(l.attempts[k].id, l.attempts[k].phase, k);
    assert V.RuledWrite(l, l.writes[i]);
    OldByOld(g, l);
    assert i + 1 == |l.writes|;
  }

  lemma OldByOld(g: Log, l: Log)
    requires V.WritesRuled(g) && |g.writes| <= |l.writes| && l.writes[..|g.writes|] == g.writes
    ensures forall i :: 0 <= i < |g.writes| && l.writes[i].Seen? && l.writes[i].who.ByAction? ==>
              l.writes[i].who.k < |g.attempts|
  {
    forall i | 0 <= i < |g.writes| && l.writes[i].Seen? && l.writes[i].who.ByAction?
      ensures l.writes[i].who.k < |g.attempts| {
      assert g.writes[i] == l.writes[..|g.writes|][i];
      assert V.RuledWrite(g, g.writes[i]);
    }
  }
}
