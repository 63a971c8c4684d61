/** The invariants hold in every reachable state. */
module Reachability {
  import opened Machine
  import opened Frames
  import opened Books
  import opened Lifecycle
  import opened Traffic
  import Evidence
  import Fates
  import Outcomes
  import PingRounds
  import Timing
  import Verdicts
  import W = Waiters

  ghost predicate BookInv(s: State) {
    Slot(s) && Shown(s) && Known(s) && Book(s) && Hist(s) && Subject(s) && Life(s)
  }

  ghost predicate ProofInv(s: State) {
    W.NInv(s.net) && Evidence.LoopWaits(s) && Evidence.PingWaits(s) && Evidence.Recording(s) && PingRounds.Rounds(s)
  }

  ghost predicate SendInv(s: State) {
    Flow(s) && Started(s) && Bounded(s) && AllShaped(s) && Permitted(s) && Licensed(s) && Tallied(s)
  }

  ghost predicate EndInv(s: State) {
    && Outcomes.OffNow(s) && Outcomes.OffBook(s)
    && Outcomes.SeenNow(s) && Outcomes.SeenBook(s) && Outcomes.WritersBegun(s)
  }

  ghost predicate RuleInv(s: State) { Verdicts.Rulings(s) && Verdicts.Written(s) && Verdicts.PingRound(s) }

  ghost predicate FateInv(s: State) { Fates.Listing(s) && Fates.Fate(s) }

  ghost predicate Inv(s: State) {
    BookInv(s) && ProofInv(s) && SendInv(s) && EndInv(s) && RuleInv(s) && FateInv(s)
  }

  lemma InitInv(s: State)
    requires Init(s)
    ensures Inv(s)
  {
    InitBooks(s);
    InitProofs(s);
    InitSends(s);
    InitEnds(s);
    InitRules(s);
    InitFates(s);
  }

  lemma InitFates(s: State)
    requires Init(s)
    ensures FateInv(s)
  {
  }

  lemma InitRules(s: State)
    requires Init(s)
    ensures RuleInv(s)
  {
  }

  lemma InitBooks(s: State)
    requires Init(s)
    ensures BookInv(s)
  {
  }

  lemma InitProofs(s: State)
    requires Init(s)
    ensures ProofInv(s)
  {
  }

  lemma InitSends(s: State)
    requires Init(s)
    ensures SendInv(s)
  {
  }

  lemma InitEnds(s: State)
    requires Init(s)
    ensures EndInv(s)
  {
  }

  // ----- books

  lemma BookInvEnv(s: State, e: EnvStep)
    requires BookInv(s) && EnvEnabled(s, e)
    ensures BookInv(EnvNext(s, e))
  {
    EnvFrames(s, e);
    KnownEnv(s, e);
    BookEnv(s, e);
    SubjectEnv(s, e);
    LifeEnv(s, e);
  }

  lemma BookInvRun(s: State, rs: RunStep)
    requires BookInv(s) && RunEnabled(s, rs)
    ensures BookInv(RunNext(s, rs))
  {
    SlotRun(s, rs);
    ShownRun(s, rs);
    KnownRun(s, rs);
    BookRun(s, rs);
    HistRun(s, rs);
    SubjectRun(s, rs);
    LifeRun(s, rs);
  }

  lemma BookInvCall(s: State, cs: CallStep)
    requires BookInv(s) && CallEnabled(s, cs)
    ensures BookInv(CallNext(s, cs))
  {
    CallFrames(s, cs);
    LifeCall(s, cs);
    BooksCall(s, CallNext(s, cs));
  }

  lemma BooksCall(s: State, s': State)
    requires BookInv(s) && CallFrame(s, s') && Life(s')
    ensures BookInv(s')
  {
    KnownCall(s, s');
  }

  lemma KnownCall(s: State, s': State)
    requires Known(s) && CallFrame(s, s')
    ensures Known(s')
  {
  }

  lemma BookInvExec(s: State, xs: ExecStep)
    requires BookInv(s) && ExecEnabled(s, xs)
    ensures BookInv(ExecNext(s, xs))
  {
    ExecFrames(s, xs);
    ExecKeepsShape(s, xs);
    ShownExec(s, xs);
    KnownExec(s, xs);
    NoEmptyId(s, xs);
    BookExec(s, ExecNext(s, xs));
    SubjectExec(s, xs);
    LifeExec(s, xs);
  }

  lemma NoEmptyId(s: State, xs: ExecStep)
    requires Book(s) && ExecEnabled(s, xs)
    ensures "" !in ExecNext(s, xs).log.asked
  {
  }

  lemma BookInvPing(s: State, ps: PingStep)
    requires BookInv(s) && PingEnabled(s, ps)
    ensures BookInv(PingNext(s, ps))
  {
    PingFrames(s, ps);
  }

  // ----- evidence

  lemma ProofInvEnv(s: State, e: EnvStep)
    requires ProofInv(s) && EnvEnabled(s, e)
    ensures ProofInv(EnvNext(s, e))
  {
    var s' := EnvNext(s, e);
    EnvFrames(s, e);
    Evidence.NetEnv(s, e);
    Evidence.LoopWaitsKept(s, s');
    Evidence.PingWaitsKept(s, s');
    Evidence.RecordingKept(s, s');
    PingRounds.RoundsKept(s, s');
  }

  lemma ProofInvRun(s: State, rs: RunStep)
    requires ProofInv(s) && RunEnabled(s, rs)
    ensures ProofInv(RunNext(s, rs))
  {
    var s' := RunNext(s, rs);
    RunFrames(s, rs);
    W.ExtendsSelf(s.net);
    Evidence.PingWaitsKept(s, s');
    Evidence.RecordingKept(s, s');
    PingRounds.RoundsKept(s, s');
  }

  lemma ProofInvCall(s: State, cs: CallStep)
    requires ProofInv(s) && CallEnabled(s, cs)
    ensures ProofInv(CallNext(s, cs))
  {
    var s' := CallNext(s, cs);
    CallFrames(s, cs);
    Evidence.NetCall(s, cs);
    Evidence.LoopWaitsCall(s, cs);
    Evidence.PingWaitsKept(s, s');
    Evidence.RecordingCall(s, cs);
    PingRounds.RoundsKept(s, s');
  }

  lemma ProofInvExec(s: State, xs: ExecStep)
    requires ProofInv(s) && ExecEnabled(s, xs)
    ensures ProofInv(ExecNext(s, xs))
  {
    var s' := ExecNext(s, xs);
    ExecFrames(s, xs);
    W.ExtendsSelf(s.net);
    Evidence.PingWaitsKept(s, s');
    Evidence.RecordingExec(s, xs);
    PingRounds.RoundsKept(s, s');
    NoWaiterYet(s, xs);
  }

  lemma NoWaiterYet(s: State, xs: ExecStep)
    requires ExecEnabled(s, xs)
    ensures Evidence.LoopWaits(ExecNext(s, xs))
  {
  }

  lemma ProofInvPing(s: State, ps: PingStep)
    requires ProofInv(s) && PingEnabled(s, ps)
    ensures ProofInv(PingNext(s, ps))
  {
    PingFrames(s, ps);
    Evidence.NetPing(s, ps);
    Evidence.LoopWaitsKept(s, PingNext(s, ps));
    Evidence.PingWaitsPing(s, ps);
    Evidence.RecordingPing(s, ps);
    PingRounds.RoundsPing(s, ps);
  }

  // ----- traffic

  lemma SendInvEnv(s: State, e: EnvStep)
    requires SendInv(s) && BookInv(s) && EnvEnabled(s, e)
    ensures SendInv(EnvNext(s, e))
  {
    var s' := EnvNext(s, e);
    EnvFrames(s, e);
    FlowKept(s, s');
    AskedGrows(s, e);
    LicensedKept(s, s');
    ShapedKept(s, s');
    StartsAreActions(s);
    TalliedKept(s, s');
  }

  lemma AskedGrows(s: State, e: EnvStep)
    requires EnvEnabled(s, e) && Known(s) && Book(s) && Started(s)
    ensures forall id :: id in s.log.asked ==>
              id in EnvNext(s, e).log.asked && EnvNext(s, e).log.asked[id] == s.log.asked[id]
    ensures forall id :: id in s.actions ==> id in EnvNext(s, e).actions && EnvNext(s, e).actions[id] == s.actions[id]
    ensures forall id :: id in s.log.starts ==> id in s.log.asked
  {
  }

  lemma SendInvRun(s: State, rs: RunStep)
    requires SendInv(s) && BookInv(s) && RunEnabled(s, rs)
    ensures SendInv(RunNext(s, rs))
  {
    RunFrames(s, rs);
    FlowRun(s, rs);
    StartedRun(s, rs);
    BoundedRun(s, rs);
    ShapedRun(s, rs);
    PermittedRun(s, rs);
    TalliedRun(s, rs);
    LogsGrowRun(s, rs);
    LicensedKept(s, RunNext(s, rs));
  }

  lemma SendInvCall(s: State, cs: CallStep)
    requires SendInv(s) && BookInv(s) && CallEnabled(s, cs)
    ensures SendInv(CallNext(s, cs))
  {
    FlowCall(s, cs);
    BoundedCall(s, cs);
    LicensedCall(s, cs);
    ShapedCall(s, cs);
    StartedCall(s, cs);
    TalliedCall(s, cs);
  }

  lemma ShapedCall(s: State, cs: CallStep)
    requires AllShaped(s) && Started(s) && Book(s) && Known(s) && CallEnabled(s, cs)
    ensures AllShaped(CallNext(s, cs))
  {
    CallFrames(s, cs);
    CallKeepsShape(s, cs);
    StartsKnown(s);
    ShapedKept(s, CallNext(s, cs));
  }

  lemma StartedCall(s: State, cs: CallStep)
    requires Started(s) && CallEnabled(s, cs)
    ensures Started(CallNext(s, cs))
  {
    CallFrames(s, cs);
  }

  lemma StartsKnown(s: State)
    requires Started(s) && Book(s)
    ensures forall id :: id in s.log.starts ==> id in s.log.asked
  {
  }

  lemma SendInvExec(s: State, xs: ExecStep)
    requires SendInv(s) && BookInv(s) && ExecEnabled(s, xs)
    ensures SendInv(ExecNext(s, xs))
  {
    var s' := ExecNext(s, xs);
    ExecFrames(s, xs);
    FlowExec(s, xs);
    StartedExec(s, s');
    BoundedExec(s, xs);
    PermittedExec(s, xs);
    TalliedExec(s, xs);
    ShapedExec(s, xs);
    LicensedKept(s, s');
  }

  lemma StartedExec(s: State, s': State)
    requires Started(s) && ExecFrame(s, s')
    ensures Started(s')
  {
  }

  lemma ShapedExec(s: State, xs: ExecStep)
    requires AllShaped(s) && Started(s) && Book(s) && Known(s) && ExecEnabled(s, xs)
    ensures AllShaped(ExecNext(s, xs))
    ensures forall id :: id in s.log.asked ==>
              id in ExecNext(s, xs).log.asked && ExecNext(s, xs).log.asked[id] == s.log.asked[id]
  {
    ExecFrames(s, xs);
    ExecKeepsShape(s, xs);
    StartsKnown(s);
    ShapedKept(s, ExecNext(s, xs));
  }

  lemma SendInvPing(s: State, ps: PingStep)
    requires SendInv(s) && PingEnabled(s, ps)
    ensures SendInv(PingNext(s, ps))
  {
    PingFrames(s, ps);
    FlowKept(s, PingNext(s, ps));
    LicensedKept(s, PingNext(s, ps));
  }

  // ----- outcomes

  lemma EndInvEnv(s: State, e: EnvStep)
    requires EndInv(s) && BookInv(s) && EnvEnabled(s, e)
    ensures EndInv(EnvNext(s, e))
  {
    EnvFrames(s, e);
    Outcomes.OffEnv(s, e);
    Outcomes.SeenEnv(s, e);
  }

  lemma EndInvRun(s: State, rs: RunStep)
    requires EndInv(s) && BookInv(s) && SendInv(s) && RunEnabled(s, rs)
    ensures EndInv(RunNext(s, rs))
  {
    RunFrames(s, rs);
    LogsGrowRun(s, rs);
    Outcomes.OffRun(s, rs);
    Outcomes.SeenRun(s, rs);
  }

  lemma EndInvCall(s: State, cs: CallStep)
    requires EndInv(s) && BookInv(s) && SendInv(s) && CallEnabled(s, cs)
    ensures EndInv(CallNext(s, cs))
  {
    Outcomes.OffCall(s, cs);
    Outcomes.SeenCall(s, cs);
  }

  lemma EndInvExec(s: State, xs: ExecStep)
    requires EndInv(s) && BookInv(s) && ExecEnabled(s, xs)
    ensures EndInv(ExecNext(s, xs))
  {
    Outcomes.OffExec(s, xs);
    Outcomes.SeenExec(s, xs);
  }

  lemma EndInvPing(s: State, ps: PingStep)
    requires EndInv(s) && PingEnabled(s, ps)
    ensures EndInv(PingNext(s, ps))
  {
    PingFrames(s, ps);
    Outcomes.SeenPing(s, ps);
  }

  // ----- verdicts

  lemma RuleInvEnv(s: State, e: EnvStep)
    requires RuleInv(s) && W.NInv(s.net) && EnvEnabled(s, e)
    ensures RuleInv(EnvNext(s, e))
  {
    var s' := EnvNext(s, e);
    EnvFrames(s, e);
    Evidence.NetEnv(s, e);
    Verdicts.RulingsKept(s, s');
    Verdicts.JudgedAttempts(s);
    Verdicts.WrittenGrows(s, s');
    Verdicts.PingRoundKept(s, s');
  }

  lemma RuleInvRun(s: State, rs: RunStep)
    requires RuleInv(s) && RunEnabled(s, rs)
    ensures RuleInv(RunNext(s, rs))
  {
    var s' := RunNext(s, rs);
    RunFrames(s, rs);
    RunOutside(s, rs);
    W.ExtendsSelf(s.net);
    Verdicts.RulingsIdle(s, s');
    Verdicts.WrittenDowngrade(s, s');
    Verdicts.PingRoundKept(s, s');
  }

  lemma RunOutside(s: State, rs: RunStep)
    requires RunEnabled(s, rs)
    ensures !Verdicts.InTry(s.loop) && !Verdicts.InTry(RunNext(s, rs).loop)
  {
  }

  lemma RuleInvCall(s: State, cs: CallStep)
    requires RuleInv(s) && W.NInv(s.net) && Evidence.LoopWaits(s) && Flow(s) && CallEnabled(s, cs)
    ensures RuleInv(CallNext(s, cs))
  {
    CallFrames(s, cs);
    Verdicts.RulingsCall(s, cs);
    if cs.Apply? { ApplyLast(s); }
    Verdicts.WrittenCall(s, cs);
    Evidence.NetCall(s, cs);
    Verdicts.PingRoundKept(s, CallNext(s, cs));
  }

  lemma ApplyLast(s: State)
    requires Flow(s) && CallEnabled(s, Apply)
    ensures Verdicts.LastIs(s.log.attempts, s.loop.id, s.loop.pc.c.phase)
  {
  }

  lemma RuleInvExec(s: State, xs: ExecStep)
    requires RuleInv(s) && ExecEnabled(s, xs)
    ensures RuleInv(ExecNext(s, xs))
  {
    ExecFrames(s, xs);
    ExecOutside(s, xs);
    Verdicts.RulingsIdle(s, ExecNext(s, xs));
    Verdicts.WrittenExec(s, xs);
    W.ExtendsSelf(s.net);
    Verdicts.PingRoundKept(s, ExecNext(s, xs));
  }

  lemma ExecOutside(s: State, xs: ExecStep)
    requires ExecEnabled(s, xs)
    ensures !Verdicts.InTry(s.loop) && !Verdicts.InTry(ExecNext(s, xs).loop)
  {
  }

  lemma RuleInvPing(s: State, ps: PingStep)
    requires RuleInv(s) && ProofInv(s) && PingEnabled(s, ps)
    ensures RuleInv(PingNext(s, ps))
  {
    PingFrames(s, ps);
    Evidence.NetPing(s, ps);
    Verdicts.RulingsKept(s, PingNext(s, ps));
    Verdicts.WrittenPing(s, ps);
    Verdicts.PingRoundPing(s, ps);
  }

  // ----- fates

  lemma FateInvEnv(s: State, e: EnvStep)
    requires EnvEnabled(s, e) && FateInv(s) && BookInv(s) && SendInv(s)
    ensures FateInv(EnvNext(s, e))
  {
    EnvFrames(s, e);
    AskedGrows(s, e);
    Fates.RetiredKnown(s);
    Fates.ListingKept(s, EnvNext(s, e));
    Fates.FateEnv(s, e);
  }

  lemma FateInvRun(s: State, rs: RunStep)
    requires RunEnabled(s, rs) && FateInv(s) && BookInv(s) && SendInv(s)
    ensures FateInv(RunNext(s, rs))
  {
    Fates.ListingRun(s, rs);
    Fates.FateRun(s, rs);
  }

  lemma FateInvCall(s: State, cs: CallStep)
    requires CallEnabled(s, cs) && FateInv(s) && BookInv(s) && SendInv(s) && Evidence.LoopWaits(s)
    requires Verdicts.Rulings(s)
    ensures FateInv(CallNext(s, cs))
  {
    Fates.FateCall(s, cs);
    CallFrames(s, cs);
    CallKeepsShape(s, cs);
    Fates.CallKinds(s, cs);
    Fates.ListingKept(s, CallNext(s, cs));
  }

  lemma FateInvExec(s: State, xs: ExecStep)
    requires ExecEnabled(s, xs) && FateInv(s) && BookInv(s) && SendInv(s)
    ensures FateInv(ExecNext(s, xs))
  {
    Fates.FateExec(s, xs);
    ExecFrames(s, xs);
    Fates.RetiredKnown(s);
    OthersKept(s, xs);
    Fates.ListingKept(s, ExecNext(s, xs));
  }

  lemma FateInvPing(s: State, ps: PingStep)
    requires PingEnabled(s, ps) && FateInv(s) && BookInv(s) && SendInv(s)
    ensures FateInv(PingNext(s, ps))
  {
    PingFrames(s, ps);
    Fates.FatePing(s, ps);
    Fates.ListingKept(s, PingNext(s, ps));
  }

  // ----- all steps, all runs

  lemma InvOfEnv(s: State, e: EnvStep)
    requires Inv(s) && EnvEnabled(s, e)
    ensures Inv(EnvNext(s, e))
  {
    BookInvEnv(s, e);
    ProofInvEnv(s, e);
    SendInvEnv(s, e);
    EndInvEnv(s, e);
    RuleInvEnv(s, e);
    FateInvEnv(s, e);
  }

  lemma InvOfRun(s: State, rs: RunStep)
    requires Inv(s) && RunEnabled(s, rs)
    ensures Inv(RunNext(s, rs))
  {
    BookInvRun(s, rs);
    ProofInvRun(s, rs);
    SendInvRun(s, rs);
    EndInvRun(s, rs);
    RuleInvRun(s, rs);
    FateInvRun(s, rs);
  }

  lemma InvOfCall(s: State, cs: CallStep)
    requires Inv(s) && CallEnabled(s, cs)
    ensures Inv(CallNext(s, cs))
  {
    BookInvCall(s, cs);
    ProofInvCall(s, cs);
    SendInvCall(s, cs);
    EndInvCall(s, cs);
    RuleInvCall(s, cs);
    FateInvCall(s, cs);
  }

  lemma InvOfExec(s: State, xs: ExecStep)
    requires Inv(s) && ExecEnabled(s, xs)
    ensures Inv(ExecNext(s, xs))
  {
    BookInvExec(s, xs);
    ProofInvExec(s, xs);
    SendInvExec(s, xs);
    EndInvExec(s, xs);
    RuleInvExec(s, xs);
    FateInvExec(s, xs);
  }

  lemma InvOfPing(s: State, ps: PingStep)
    requires Inv(s) && PingEnabled(s, ps)
    ensures Inv(PingNext(s, ps))
  {
    BookInvPing(s, ps);
    ProofInvPing(s, ps);
    SendInvPing(s, ps);
    EndInvPing(s, ps);
    RuleInvPing(s, ps);
    FateInvPing(s, ps);
  }

  lemma InvStep(s: State, st: Step)
    requires Inv(s) && Enabled(s, st)
    ensures Inv(Next(s, st))
  {
    match st
    case Env(e) => InvOfEnv(s, e);
    case OfRun(rs) => InvOfRun(s, rs);
    case InCall(cs) => InvOfCall(s, cs);
    case Exec(xs) => InvOfExec(s, xs);
    case OfPing(ps) => InvOfPing(s, ps);
  }

  /** The state after some run of a pipeline from its creation. */
  ghost predicate Reachable(s: State) {
    exists s0, steps :: Init(s0) && Run(s0, steps, s)
  }

  lemma {:induction false} InvRun(s: State, steps: seq<Step>, s': State)
    requires Inv(s) && Run(s, steps, s')
    ensures Inv(s')
    decreases |steps|
  {
    if steps != [] {
      InvStep(s, steps[0]);
      InvRun(Next(s, steps[0]), steps[1..], s');
    }
  }

  lemma ReachableInv(s: State)
    requires Reachable(s)
    ensures Inv(s)
  {
    var s0, steps :| Init(s0) && Run(s0, steps, s);
    InitInv(s0);
    InvRun(s0, steps, s);
  }

  lemma {:induction false} RunAppend(s: State, steps: seq<Step>, s': State, st: Step)
    requires Run(s, steps, s') && Enabled(s', st)
    ensures Run(s, steps + [st], Next(s', st))
    decreases |steps|
  {
    if steps == [] {
      assert ([st])[1..] == [];
    } else {
      RunAppend(Next(s, steps[0]), steps[1..], s', st);
      assert (steps + [st])[1..] == steps[1..] + [st];
    }
  }

  lemma ReachableStep(s: State, st: Step)
    requires Reachable(s) && Enabled(s, st)
    ensures Reachable(Next(s, st))
  {
    var s0, steps :| Init(s0) && Run(s0, steps, s);
    RunAppend(s0, steps, s, st);
  }

  lemma {:induction false} ReachableRun(s: State, steps: seq<Step>, s': State)
    requires Reachable(s) && Run(s, steps, s')
    ensures Reachable(s')
    decreases |steps|
  {
    if steps != [] {
      ReachableStep(s, steps[0]);
      ReachableRun(Next(s, steps[0]), steps[1..], s');
    }
  }

  // ----- prompt runs

  ghost predicate TimeInv(s: State) { Timing.Clock(s) && Timing.Times(s) }

  lemma TimeInvEnv(s: State, e: EnvStep)
    requires Inv(s) && TimeInv(s) && EnvEnabled(s, e) && Timing.PromptStep(s, Env(e))
    ensures TimeInv(EnvNext(s, e))
  {
    EnvFrames(s, e);
    Timing.TimesEnv(s, e);
    if e.Tick? {
      Timing.ClockTick(s, e.to);
    } else {
      Evidence.NetEnv(s, e);
      AskedGrows(s, e);
      if s.loop.Busy? { OngoingApart(s); }
      SameTime(s, e);
      Timing.ClockEnv(s, EnvNext(s, e));
    }
  }

  lemma SameTime(s: State, e: EnvStep)
    requires EnvEnabled(s, e) && !e.Tick?
    ensures EnvNext(s, e).now == s.now
  {
  }

  lemma TimeInvCall(s: State, cs: CallStep)
    requires Inv(s) && TimeInv(s) && CallEnabled(s, cs)
    ensures TimeInv(CallNext(s, cs))
  {
    Timing.ClockCall(s, cs);
    Timing.TimesCall(s, cs);
  }

  lemma TimeInvExec(s: State, xs: ExecStep)
    requires Inv(s) && TimeInv(s) && ExecEnabled(s, xs)
    ensures TimeInv(ExecNext(s, xs))
  {
    OngoingApart(s);
    if xs.AnnounceEnd? { TimedPositive(s); }
    Timing.ClockExec(s, xs);
    Timing.TimesExec(s, xs);
  }

  /** A timed open has a positive duration. */
  lemma TimedPositive(s: State)
    requires BookInv(s) && SendInv(s) && s.loop.Busy? && s.loop.id in s.log.starts && s.loop.id in s.actions
    ensures s.actions[s.loop.id].typ.OpenTimed? ==> s.actions[s.loop.id].duration > 0
  {
    OngoingApart(s);
    assert Shaped(s.actions[s.loop.id], s.log.asked[s.loop.id], s.log.starts[s.loop.id]);
  }

  lemma TimeInvPing(s: State, ps: PingStep)
    requires Inv(s) && TimeInv(s) && PingEnabled(s, ps)
    ensures TimeInv(PingNext(s, ps))
  {
    PingFrames(s, ps);
    Evidence.NetPing(s, ps);
    if s.loop.Busy? { OngoingApart(s); }
    Timing.ClockEnv(s, PingNext(s, ps));
    TimesSame(s, PingNext(s, ps));
  }

  lemma TimesSame(s: State, s': State)
    requires Timing.Times(s) && s'.actions == s.actions && s'.loop == s.loop
    requires Timing.SameClocks(s.log, s'.log) && s'.log.begun == s.log.begun
    ensures Timing.Times(s')
  {
  }

  lemma InitTime(s: State)
    requires Init(s)
    ensures TimeInv(s)
  {
  }

  lemma TimeInvStep(s: State, st: Step)
    requires Inv(s) && TimeInv(s) && Enabled(s, st) && Timing.PromptStep(s, st)
    ensures TimeInv(Next(s, st))
  {
    match st
    case Env(e) => TimeInvEnv(s, e);
    case OfRun(rs) => Timing.ClockRun(s, rs); Timing.TimesRun(s, rs);
    case InCall(cs) => TimeInvCall(s, cs);
    case Exec(xs) => TimeInvExec(s, xs);
    case OfPing(ps) => TimeInvPing(s, ps);
  }

  /** A run in which time passes only as the action loop allows. */
  ghost predicate PromptRun(s: State, steps: seq<Step>, s': State)
    decreases |steps|, 1
  {
    if steps == [] then s' == s else PromptRunOn(s, steps, s')
  }

  ghost predicate PromptRunOn(s: State, steps: seq<Step>, s': State)
    requires steps != []
    decreases |steps|, 0
  {
    Enabled(s, steps[0]) && Timing.PromptStep(s, steps[0]) && PromptRun(Next(s, steps[0]), steps[1..], s')
  }

  ghost predicate PromptlyReachable(s: State) {
    exists s0, steps :: Init(s0) && PromptRun(s0, steps, s)
  }

  lemma {:induction false} TimeInvRun(s: State, steps: seq<Step>, s': State)
    requires Inv(s) && TimeInv(s) && PromptRun(s, steps, s')
    ensures Inv(s') && TimeInv(s')
    decreases |steps|
  {
    if steps != [] {
      InvStep(s, steps[0]);
      TimeInvStep(s, steps[0]);
      TimeInvRun(Next(s, steps[0]), steps[1..], s');
    }
  }

  lemma PromptlyReachableInv(s: State)
    requires PromptlyReachable(s)
    ensures Inv(s) && TimeInv(s)
  {
    var s0, steps :| Init(s0) && PromptRun(s0, steps, s);
    InitInv(s0);
    InitTime(s0);
    TimeInvRun(s0, steps, s);
  }
  lemma {:induction false} PromptAppend(s: State, steps: seq<Step>, s': State, st: Step)
    requires PromptRun(s, steps, s') && Enabled(s', st) && Timing.PromptStep(s', st)
    ensures PromptRun(s, steps + [st], Next(s', st))
    decreases |steps|
  {
    if steps == [] {
      assert ([st])[1..] == [];
    } else {
      PromptAppend(Next(s, steps[0]), steps[1..], s', st);
      assert (steps + [st])[1..] == steps[1..] + [st];
    }
  }

  lemma PromptlyReachableStep(s: State, st: Step)
    requires PromptlyReachable(s) && Enabled(s, st) && Timing.PromptStep(s, st)
    ensures PromptlyReachable(Next(s, st))
  {
    var s0, steps :| Init(s0) && PromptRun(s0, steps, s);
    PromptAppend(s0, steps, s, st);
  }

  lemma {:induction false} PromptIsRun(s: State, steps: seq<Step>, s': State)
    requires PromptRun(s, steps, s')
    ensures Run(s, steps, s')
    decreases |steps|
  {
    if steps != [] { PromptIsRun(Next(s, steps[0]), steps[1..], s'); }
  }

  lemma PromptlyIsReachable(s: State)
    requires PromptlyReachable(s)
    ensures Reachable(s)
  {
    var s0, steps :| Init(s0) && PromptRun(s0, steps, s);
    PromptIsRun(s0, steps, s);
  }
}
