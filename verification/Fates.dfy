/** Which ended executions the history lists, and which of the failing ones end
    cancelled. */
module Fates {
  import opened Options
  import opened Device
  import opened Actions
  import opened Machine
  import opened Frames
  import opened Books
  import opened Lifecycle
  import opened Traffic
  import V = Verdicts

  // ----- what the history lists

  /** All but the internal pings, in order. */
  ghost function Listed(ids: seq<ID>, actions: map<ID, Action>): seq<ID> {
    if ids == [] then []
    else
      var n := |ids| - 1;
      Listed(ids[..n], actions) + (if IsPing(actions, ids[n]) then [] else [ids[n]])
  }

  predicate IsPing(actions: map<ID, Action>, id: ID) { id in actions && actions[id].IsInternalSafetyPing() }

  /** Every ended execution is listed, unless it is an internal ping. */
  ghost predicate Listing(s: State) { s.log.finished == Listed(s.log.retired, s.actions) }

  lemma {:induction false} ListedSame(ids: seq<ID>, m: map<ID, Action>, m': map<ID, Action>)
    requires forall id :: id in ids ==> IsPing(m', id) == IsPing(m, id)
    ensures Listed(ids, m') == Listed(ids, m)
  {
    if ids != [] {
      assert forall id :: id in ids[..|ids| - 1] ==> id in ids;
      ListedSame(ids[..|ids| - 1], m, m');
    }
  }

  lemma ListedAppend(ids: seq<ID>, id: ID, m: map<ID, Action>)
    ensures Listed(ids + [id], m) == if IsPing(m, id) then Listed(ids, m) else Listed(ids, m) + [id]
  {
    assert (ids + [id])[..|ids|] == ids;
  }

  lemma ListingKept(s: State, s': State)
    requires Listing(s) && s'.log.finished == s.log.finished && s'.log.retired == s.log.retired
    requires forall id :: id in s.log.retired ==> IsPing(s'.actions, id) == IsPing(s.actions, id)
    ensures Listing(s')
  {
    ListedSame(s.log.retired, s.actions, s'.actions);
  }

  lemma ListingRetire(s: State, id: ID, listed: bool)
    requires Listing(s) && (listed <==> !IsPing(s.actions, id))
    ensures Listing(DoRetire(s, id, listed))
  {
    ListedAppend(s.log.retired, id, s.actions);
  }

  /** Past executions are known, and not the present one. */
  lemma RetiredKnown(s: State)
    requires Book(s) && Known(s)
    ensures forall id :: id in s.log.retired ==> id in s.actions && (s.loop.Busy? ==> id != s.loop.id)
  {
    if s.loop.Busy? { OngoingApart(s); }
    assert forall id :: id in s.log.retired ==> id in s.log.begun;
  }

  lemma ListingRun(s: State, rs: RunStep)
    requires Listing(s) && Life(s) && Book(s) && Known(s) && RunEnabled(s, rs)
    ensures Listing(RunNext(s, rs))
  {
    RetiredKnown(s);
    match rs
    case Reject => ListingReject(s);
    case Retire => ListingRetire(s, s.loop.id, !s.actions[s.loop.id].IsInternalSafetyPing());
    case ReadConfig => ReadFrames(s); ListingKept(s, DoReadConfig(s));
    case _ => ListingKept(s, RunNext(s, rs));
  }

  lemma ListingReject(s: State)
    requires Listing(s) && Life(s) && Book(s) && Known(s) && RunEnabled(s, Reject)
    ensures Listing(DoRetire(s, s.loop.id, true))
  {
    assert s.actions[s.loop.id].HoldsValveOpen() by { OngoingApart(s); }
    ListingRetire(s, s.loop.id, true);
  }

  // ----- cancelled or failed

  /** Attempt k of the command of id itself was published, failed, and its context had
      ended by then. */
  ghost predicate StoppedAt(log: Log, k: nat, id: ID) {
    && k < |log.attempts| && log.attempts[k].id == id && log.attempts[k].phase.Primary?
    && k in log.published && k in log.verdicts && !log.verdicts[k] && k in log.stale && log.stale[k]
  }

  ghost predicate Stopped(log: Log, id: ID) { exists k :: StoppedAt(log, k, id) }

  /** What the program point says about that. */
  ghost predicate StopPoint(has: bool, a: Action, pc: ExecPc) {
    match pc
    case Calling(c, cp) => has <==> c.phase.Primary? && cp == Returned(Some(ContextEnded))
    case Unconfirmed(_) => has <==> a.state.Cancelled?
    case Downgrading(_, _) => has <==> a.state.Cancelled?
    case Clearing(_) => has <==> a.state.Cancelled?
    case Cleared(_) => has <==> a.state.Cancelled?
    case Leaving => has <==> a.state.Cancelled?
    case Retiring => has <==> a.state.Cancelled?
    case _ => !has
  }

  /** An open of a disabled valve, which execute rejects. */
  predicate Barred(a: Action, cfg: ValveConfig) { cfg.disabled && a.HoldsValveOpen() }

  ghost predicate StopNow(s: State) {
    s.loop.Busy? && s.loop.id in s.actions ==>
      && StopPoint(Stopped(s.log, s.loop.id), s.actions[s.loop.id], s.loop.pc)
      && (s.loop.id in s.log.starts && !s.loop.pc.Took? ==>
            (s.loop.pc.Rejected? <==> Barred(s.actions[s.loop.id], s.log.starts[s.loop.id])))
  }

  ghost predicate StopBook(s: State) {
    forall id :: id in s.log.retired && id in s.actions && id in s.log.starts ==>
      StopFate(Stopped(s.log, id), s.actions[id], s.log.starts[id])
  }

  ghost predicate StopFate(has: bool, a: Action, cfg: ValveConfig) {
    if Barred(a, cfg) then a.state.Cancelled? && !has else has <==> a.state.Cancelled?
  }

  /** A command makes no attempt after a stopped one. */
  ghost predicate LastStop(log: Log) {
    forall k: nat, j, id :: StoppedAt(log, k, id) && k < j < |log.attempts| && log.attempts[j].id == id ==>
      log.attempts[j].phase.Shutoff?
  }

  /** Attempts belong to commands that were not rejected. */
  ghost predicate Admitted(s: State) {
    forall k :: 0 <= k < |s.log.attempts| && s.log.attempts[k].id in s.log.starts &&
                s.log.attempts[k].id in s.actions ==>
      !Barred(s.actions[s.log.attempts[k].id], s.log.starts[s.log.attempts[k].id])
  }

  /** A context that had ended when an attempt began still is when it is judged. */
  ghost predicate Staleness(s: State) {
    && s.log.stale.Keys == s.log.verdicts.Keys
    && (forall k :: k in s.log.stale && k < |s.log.attempts| && s.log.attempts[k].late ==> s.log.stale[k])
    && (V.InTry(s.loop) && s.log.attempts != [] && s.log.attempts[|s.log.attempts| - 1].late ==>
          CallDone(s, s.loop.pc.c))
  }

  ghost predicate Fate(s: State) {
    StopNow(s) && StopBook(s) && LastStop(s.log) && Admitted(s) && Staleness(s)
  }

  // ----- steps that judge nothing

  /** The parts of the log that these facts are about. */
  ghost predicate SameJudgements(l: Log, l': Log) {
    && l'.attempts == l.attempts && l'.published == l.published && l'.verdicts == l.verdicts && l'.stale == l.stale
    && l'.starts == l.starts
  }

  lemma StoppedSame(l: Log, l': Log)
    requires SameJudgements(l, l')
    ensures forall k, id :: StoppedAt(l', k, id) <==> StoppedAt(l, k, id)
    ensures forall id :: Stopped(l', id) <==> Stopped(l, id)
  {
    forall id ensures Stopped(l', id) <==> Stopped(l, id) {
      if Stopped(l', id) { var k :| StoppedAt(l', k, id); assert StoppedAt(l, k, id); }
      if Stopped(l, id) { var k :| StoppedAt(l, k, id); assert StoppedAt(l', k, id); }
    }
  }

  lemma LastStopSame(l: Log, l': Log)
    requires LastStop(l) && SameJudgements(l, l')
    ensures LastStop(l')
  {
    StoppedSame(l, l');
  }

  /** Nobody but the executing action changes, and not what kind of command it is. */
  ghost predicate SameKinds(s: State, s': State) {
    && (forall id :: id in s.log.starts ==> id in s.actions && id in s'.actions
                                            && s'.actions[id].HoldsValveOpen() == s.actions[id].HoldsValveOpen())
    && (forall id :: id in s.log.retired ==> id in s.actions && id in s'.actions && s'.actions[id] == s.actions[id])
  }

  lemma StopBookSame(s: State, s': State)
    requires StopBook(s) && SameJudgements(s.log, s'.log) && s'.log.retired == s.log.retired && SameKinds(s, s')
    ensures StopBook(s')
  {
    StoppedSame(s.log, s'.log);
  }

  lemma AdmittedSame(s: State, s': State)
    requires Admitted(s) && s'.log.attempts == s.log.attempts && s'.log.starts == s.log.starts && SameKinds(s, s')
    ensures Admitted(s')
  {
  }

  /** Steps of everybody but the action loop. */
  lemma FateKept(s: State, s': State)
    requires Fate(s) && SameJudgements(s.log, s'.log) && s'.log.retired == s.log.retired && SameKinds(s, s')
    requires s'.loop == s.loop
    requires s.loop.Busy? ==> s.loop.id in s.actions && s.loop.id in s'.actions
                              && s'.actions[s.loop.id] == s.actions[s.loop.id]
    requires V.InTry(s.loop) && CallDone(s, s.loop.pc.c) ==> CallDone(s', s.loop.pc.c)
    ensures Fate(s')
  {
    StoppedSame(s.log, s'.log);
    LastStopSame(s.log, s'.log);
    StopBookSame(s, s');
    AdmittedSame(s, s');
  }

  lemma DoneStays(s: State, e: EnvStep, c: Call)
    requires EnvEnabled(s, e) && CallDone(s, c)
    ensures CallDone(EnvNext(s, e), c)
  {
  }

  lemma FateEnv(s: State, e: EnvStep)
    requires Fate(s) && Started(s) && Book(s) && Known(s) && EnvEnabled(s, e)
    requires forall id :: id in s.actions ==> id in EnvNext(s, e).actions && EnvNext(s, e).actions[id] == s.actions[id]
    ensures Fate(EnvNext(s, e))
  {
    EnvFrames(s, e);
    RetiredKnown(s);
    StartsAreActions(s);
    if V.InTry(s.loop) && CallDone(s, s.loop.pc.c) { DoneStays(s, e, s.loop.pc.c); }
    if s.loop.Busy? { OngoingApart(s); }
    FateKept(s, EnvNext(s, e));
  }

  lemma FatePing(s: State, ps: PingStep)
    requires Fate(s) && Started(s) && Book(s) && Known(s) && PingEnabled(s, ps)
    ensures Fate(PingNext(s, ps))
  {
    PingFrames(s, ps);
    RetiredKnown(s);
    StartsAreActions(s);
    if s.loop.Busy? { OngoingApart(s); }
    FateKept(s, PingNext(s, ps));
  }

  /** Steps of execute outside attemptWithRetry. */
  lemma StopMoves(has: bool, a: Action, asked: Action, pc: ExecPc, a': Action, pc': ExecPc)
    requires StopPoint(has, a, pc) && AtPoint(a, asked, pc) && Moves(a, pc, a', pc')
    ensures StopPoint(has, a', pc') && !pc.Took? && !pc.Rejected? && !pc'.Took? && !pc'.Rejected?
    ensures a'.HoldsValveOpen() == a.HoldsValveOpen()
  {
  }

  lemma FateExec(s: State, xs: ExecStep)
    requires Fate(s) && Started(s) && Life(s) && Book(s) && Known(s) && ExecEnabled(s, xs)
    ensures Fate(ExecNext(s, xs))
  {
    var s', id := ExecNext(s, xs), s.loop.id;
    OngoingApart(s);
    ExecFrames(s, xs);
    ExecMoves(s, xs);
    StopMoves(Stopped(s.log, id), s.actions[id], s.log.asked[id], s.loop.pc, s'.actions[id], s'.loop.pc);
    ExecOutsideTry(s, xs);
    ExecKinds(s, xs);
    FateMoved(s, s');
  }

  lemma ExecKinds(s: State, xs: ExecStep)
    requires Started(s) && Life(s) && Book(s) && Known(s) && ExecEnabled(s, xs)
    ensures SameKinds(s, ExecNext(s, xs))
  {
    RetiredKnown(s);
    StartsAreActions(s);
    OthersKept(s, xs);
    ExecKeepsShape(s, xs);
    OwnAction(s, xs);
  }

  lemma OwnAction(s: State, xs: ExecStep)
    requires ExecEnabled(s, xs)
    ensures s.loop.id in ExecNext(s, xs).actions
  {
    ExecMoves(s, xs);
  }

  lemma FateMoved(s: State, s': State)
    requires Fate(s) && SameJudgements(s.log, s'.log) && s'.log.retired == s.log.retired && SameKinds(s, s')
    requires s.loop.Busy? && s'.loop.Busy? && s'.loop.id == s.loop.id && s.loop.id in s.actions
    requires s.loop.id in s'.actions
    requires StopPoint(Stopped(s.log, s.loop.id), s'.actions[s.loop.id], s'.loop.pc)
    requires !s.loop.pc.Took? && !s.loop.pc.Rejected? && !s'.loop.pc.Took? && !s'.loop.pc.Rejected?
    requires s'.actions[s.loop.id].HoldsValveOpen() == s.actions[s.loop.id].HoldsValveOpen()
    requires !V.InTry(s'.loop)
    ensures Fate(s')
  {
    StoppedSame(s.log, s'.log);
    LastStopSame(s.log, s'.log);
    StopBookSame(s, s');
    AdmittedSame(s, s');
  }

  lemma ExecOutsideTry(s: State, xs: ExecStep)
    requires ExecEnabled(s, xs)
    ensures !V.InTry(ExecNext(s, xs).loop)
  {
  }

  // ----- steps of run

  lemma NotStoppedYet(s: State, id: ID)
    requires Bounded(s) && id !in s.log.starts
    ensures !Stopped(s.log, id)
  {
  }

  lemma FateDequeue(s: State)
    requires Fate(s) && Started(s) && Bounded(s) && Book(s) && RunEnabled(s, Dequeue)
    ensures Fate(DoDequeue(s))
  {
    var s' := DoDequeue(s);
    HeadOnce(s.queue);
    NotStoppedYet(s, s.queue.items[0]);
    StoppedSame(s.log, s'.log);
    LastStopSame(s.log, s'.log);
  }

  lemma FateShutdown(s: State, id: ID)
    requires Fate(s) && Started(s) && Bounded(s) && Book(s) && Known(s) && RunEnabled(s, BeginShutdown(id))
    ensures Fate(DoShutdown(s, id))
  {
    var s' := DoShutdown(s, id);
    RetiredKnown(s);
    StartsAreActions(s);
    NotStoppedYet(s, id);
    StoppedSame(s.log, s'.log);
    LastStopSame(s.log, s'.log);
    StopBookSame(s, s');
    AdmittedSame(s, s');
  }

  lemma FateRead(s: State, s': State)
    requires Fate(s) && Started(s) && Bounded(s) && Book(s) && Known(s) && ReadEffect(s, s') && s.loop.pc.Took?
    ensures Fate(s')
  {
    RetiredKnown(s);
    NotStoppedYet(s, s.loop.id);
    StoppedRead(s.log, s'.log);
  }

  lemma StoppedRead(l: Log, l': Log)
    requires LastStop(l) && SameJudgements(l, l'.(starts := l.starts))
    ensures LastStop(l')
    ensures forall id :: Stopped(l', id) <==> Stopped(l, id)
  {
    LastStopSame(l, l'.(starts := l.starts));
    StoppedSame(l, l'.(starts := l.starts));
    StoppedAnyStart(l'.(starts := l.starts), l');
  }

  lemma StoppedAnyStart(l: Log, l': Log)
    requires l' == l.(starts := l'.starts)
    ensures forall k, id :: StoppedAt(l', k, id) <==> StoppedAt(l, k, id)
    ensures forall id :: Stopped(l', id) <==> Stopped(l, id)
  {
    forall id ensures Stopped(l', id) <==> Stopped(l, id) {
      if Stopped(l', id) { var k :| StoppedAt(l', k, id); assert StoppedAt(l, k, id); }
      if Stopped(l, id) { var k :| StoppedAt(l, k, id); assert StoppedAt(l', k, id); }
    }
  }

  lemma FateInstall(s: State)
    requires Fate(s) && Started(s) && Book(s) && Known(s) && RunEnabled(s, Install)
    ensures Fate(DoInstall(s))
  {
    RetiredKnown(s);
    StartsAreActions(s);
    StoppedSame(s.log, DoInstall(s).log);
    LastStopSame(s.log, DoInstall(s).log);
    StopBookSame(s, DoInstall(s));
    AdmittedSame(s, DoInstall(s));
  }

  lemma FateRetire(s: State, listed: bool)
    requires Fate(s) && Started(s) && Life(s) && Book(s) && Known(s) && AtPc(s)
    requires s.loop.pc.Rejected? || s.loop.pc.Retiring?
    ensures Fate(DoRetire(s, s.loop.id, listed))
  {
    var s' := DoRetire(s, s.loop.id, listed);
    OngoingApart(s);
    StoppedSame(s.log, s'.log);
    LastStopSame(s.log, s'.log);
    assert AtPoint(s.actions[s.loop.id], s.log.asked[s.loop.id], s.loop.pc);
    assert StopFate(Stopped(s.log, s.loop.id), s.actions[s.loop.id], s.log.starts[s.loop.id]);
  }

  lemma FateLeave(s: State)
    requires Fate(s) && RunEnabled(s, RunStep.Leave)
    ensures Fate(RunNext(s, RunStep.Leave))
  {
    StoppedSame(s.log, RunNext(s, RunStep.Leave).log);
  }

  lemma FateRun(s: State, rs: RunStep)
    requires Fate(s) && Started(s) && Bounded(s) && Life(s) && Book(s) && Known(s) && RunEnabled(s, rs)
    ensures Fate(RunNext(s, rs))
  {
    match rs
    case Dequeue => FateDequeue(s);
    case BeginShutdown(id) => FateShutdown(s, id);
    case ReadConfig => ReadFrames(s); FateRead(s, DoReadConfig(s));
    case Install => FateInstall(s);
    case Reject => FateRetire(s, true);
    case Retire => FateRetire(s, !s.actions[s.loop.id].IsInternalSafetyPing());
    case Leave => FateLeave(s);
    case StopRun =>
  }

  // ----- steps of attemptWithRetry

  /** Only attempt k of the running command may become a stopped one. */
  ghost predicate CutAt(l: Log, l': Log, k: nat, id: ID, cut: bool) {
    forall j, x :: StoppedAt(l', j, x) <==> StoppedAt(l, j, x) || (cut && j == k && x == id)
  }

  lemma CutStops(l: Log, l': Log, k: nat, id: ID, cut: bool)
    requires CutAt(l, l', k, id, cut)
    ensures forall x :: Stopped(l', x) <==> Stopped(l, x) || (cut && x == id)
  {
    forall x ensures Stopped(l', x) <==> Stopped(l, x) || (cut && x == id) {
      if Stopped(l', x) { var j :| StoppedAt(l', j, x); assert StoppedAt(l, j, x) || (cut && x == id); }
      if Stopped(l, x) { var j :| StoppedAt(l, j, x); assert StoppedAt(l', j, x); }
      if cut && x == id { assert StoppedAt(l', k, x); }
    }
  }

  lemma SendEndCut(l: Log, k: nat, ok: bool, lost: bool, ended: bool, id: ID)
    requires k !in l.verdicts && (lost ==> !ok && k !in l.published)
    ensures CutAt(l, SendEndLog(l, k, ok, lost, ended), k, id, false)
  {
  }

  lemma JudgeCut(l: Log, l': Log, k: nat, success: bool, ended: bool)
    requires k !in l.verdicts && k < |l.attempts|
    requires l' == Judge(l.(writes := l'.writes, confirmed := l'.confirmed), k, success, ended)
    ensures CutAt(l, l', k, l.attempts[k].id, !success && ended && k in l.published && l.attempts[k].phase.Primary?)
  {
  }

  /** The books after a step that judges at most the attempt being made. */
  lemma FateCut(s: State, s': State, cut: bool)
    requires Fate(s) && Book(s) && Known(s) && Started(s) && CallFrame(s, s') && s'.log.attempts == s.log.attempts
    requires SameKinds(s, s') && CutAt(s.log, s'.log, AttemptNo(s), s.loop.id, cut)
    requires s'.actions[s.loop.id].HoldsValveOpen() == s.actions[s.loop.id].HoldsValveOpen()
    requires s'.loop.pc.c.phase.Primary? ==> (s'.loop.pc.cp == Returned(Some(ContextEnded)) <==>
                                                cut || s.loop.pc.cp == Returned(Some(ContextEnded)))
    requires s'.loop.pc.c.phase.Shutoff? ==> !cut
    requires Staleness(s')
    ensures Fate(s')
  {
    OngoingApart(s);
    CutStops(s.log, s'.log, AttemptNo(s), s.loop.id, cut);
    CutIsLast(s.log, s'.log, s.loop.id, cut);
    AdmittedSame(s, s');
  }

  lemma CutIsLast(l: Log, l': Log, id: ID, cut: bool)
    requires LastStop(l) && l'.attempts == l.attempts
    requires CutAt(l, l', if l.attempts == [] then 0 else |l.attempts| - 1, id, cut)
    ensures LastStop(l')
  {
  }

  lemma CallKinds(s: State, cs: CallStep)
    requires Life(s) && Book(s) && Known(s) && Started(s) && Subject(s) && CallEnabled(s, cs)
    ensures SameKinds(s, CallNext(s, cs)) && s.loop.id in CallNext(s, cs).actions
    ensures CallNext(s, cs).actions[s.loop.id].HoldsValveOpen() == s.actions[s.loop.id].HoldsValveOpen()
  {
    CallFrames(s, cs);
    CallKeepsShape(s, cs);
    RetiredKnown(s);
    StartsAreActions(s);
    assert forall id :: id in s.log.retired ==> id in s.log.begun;
  }

  // ... the attempt that begins

  lemma FateBegin(s: State)
    requires Fate(s) && V.Rulings(s) && Life(s) && Book(s) && Known(s) && Started(s) && Subject(s)
    requires CallEnabled(s, BeginAttempt)
    ensures Fate(DoBeginAttempt(s))
  {
    var s' := DoBeginAttempt(s);
    CallFrames(s, BeginAttempt);
    CallKinds(s, BeginAttempt);
    V.JudgedAttempts(s);
    OngoingApart(s);
    BeginStops(s.log, s'.log, NewAttempt(s));
    StopBookSameStops(s, s');
    AdmittedBegin(s, s');
  }

  lemma BeginStops(l: Log, l': Log, a: AttemptLog)
    requires LastStop(l) && l' == l.(attempts := l.attempts + [a])
    requires forall k :: k in l.verdicts ==> k < |l.attempts|
    requires a.phase.Primary? ==> !Stopped(l, a.id)
    ensures LastStop(l')
    ensures forall id :: Stopped(l', id) <==> Stopped(l, id)
  {
    forall k: nat, id ensures StoppedAt(l', k, id) <==> StoppedAt(l, k, id) { }
    assert CutAt(l, l', 0, "", false);
    CutStops(l, l', 0, "", false);
  }

  lemma StopBookSameStops(s: State, s': State)
    requires StopBook(s) && s'.log.retired == s.log.retired && s'.log.starts == s.log.starts && SameKinds(s, s')
    requires forall id :: Stopped(s'.log, id) <==> Stopped(s.log, id)
    ensures StopBook(s')
  {
  }

  lemma AdmittedBegin(s: State, s': State)
    requires Admitted(s) && StopNow(s) && Started(s) && SameKinds(s, s') && s'.log.starts == s.log.starts
    requires s.loop.Busy? && s.loop.pc.Calling? && s.loop.pc.cp.Head? && s.loop.id in s.actions
    requires s'.log.attempts == s.log.attempts + [NewAttempt(s)]
    ensures Admitted(s')
  {
  }

  // ... the end of a send, a receive, and the record

  lemma OpenAttempt(s: State)
    requires V.Rulings(s) && V.InTry(s.loop)
    ensures s.log.attempts != [] && AttemptNo(s) !in s.log.verdicts
    ensures V.Trying(s.loop.pc.cp) ==> (AttemptNo(s) in s.log.published <==> s.loop.pc.cp.at.published)
  {
    assert V.Open(V.TriesOf(s.log), s.loop.pc.c, s.loop.pc.cp);
  }

  lemma FateSendEnd(s: State, ok: bool)
    requires Fate(s) && V.Rulings(s) && Life(s) && Book(s) && Known(s) && Started(s) && Subject(s)
    requires CallEnabled(s, SendEnd(ok))
    ensures Fate(DoSendEnd(s, ok))
  {
    OpenAttempt(s);
    CallKinds(s, SendEnd(ok));
    SendEndDecides(s, ok);
  }

  lemma SendEndDecides(s: State, ok: bool)
    requires CallEnabled(s, SendEnd(ok)) && s.log.attempts != [] && AttemptNo(s) !in s.log.verdicts
    requires s.loop.pc.cp.at.published <==> AttemptNo(s) in s.log.published
    requires Fate(s) && Book(s) && Known(s) && Started(s)
    requires SameKinds(s, DoSendEnd(s, ok)) && s.loop.id in DoSendEnd(s, ok).actions
    requires DoSendEnd(s, ok).actions[s.loop.id].HoldsValveOpen() == s.actions[s.loop.id].HoldsValveOpen()
    ensures Fate(DoSendEnd(s, ok))
  {
    var at := s.loop.pc.cp.at.(i := s.loop.pc.cp.at.i + 1, published := s.loop.pc.cp.at.published || ok);
    SendEndFrames(s, ok);
    SendEndCut(s.log, AttemptNo(s), ok, Lost(at), CallDone(s, s.loop.pc.c), s.loop.id);
    StaleSendEnd(s, ok);
    FateCut(s, DoSendEnd(s, ok), false);
  }

  lemma StaleSendEnd(s: State, ok: bool)
    requires Staleness(s) && CallEnabled(s, SendEnd(ok)) && s.log.attempts != []
    ensures Staleness(DoSendEnd(s, ok))
  {
  }

  lemma FateReceive(s: State)
    requires CallEnabled(s, Receive) && s.loop.pc.cp.at.published
    requires Fate(s) && V.Rulings(s) && Life(s) && Book(s) && Known(s) && Started(s) && Subject(s)
    requires Traffic.LastIs(s.log.attempts, s.loop.id, s.loop.pc.c.phase, s.loop.pc.cp.at.n)
    ensures Fate(DoReceive(s))
  {
    OpenAttempt(s);
    CallKinds(s, Receive);
    ReceiveDecides(s);
  }

  lemma ReceiveDecides(s: State)
    requires CallEnabled(s, Receive) && s.log.attempts != [] && AttemptNo(s) !in s.log.verdicts
    requires AttemptNo(s) in s.log.published && Fate(s) && Book(s) && Known(s) && Started(s)
    requires Traffic.LastIs(s.log.attempts, s.loop.id, s.loop.pc.c.phase, s.loop.pc.cp.at.n)
    requires SameKinds(s, DoReceive(s)) && s.loop.id in DoReceive(s).actions
    requires DoReceive(s).actions[s.loop.id].HoldsValveOpen() == s.actions[s.loop.id].HoldsValveOpen()
    ensures Fate(DoReceive(s))
  {
    var c := s.loop.pc.c;
    var confirmed := s.net.waiters[s.loop.pc.cp.at.w].outcome.value.Confirmed?;
    ReceiveFrames(s);
    ReceiveCut(s);
    StaleReceive(s);
    FateCut(s, DoReceive(s), !confirmed && CallDone(s, c) && c.phase.Primary?);
  }

  lemma ReceiveCut(s: State)
    requires CallEnabled(s, Receive) && s.log.attempts != [] && AttemptNo(s) !in s.log.verdicts
    requires AttemptNo(s) in s.log.published
    requires Traffic.LastIs(s.log.attempts, s.loop.id, s.loop.pc.c.phase, s.loop.pc.cp.at.n)
    ensures var c, confirmed := s.loop.pc.c, s.net.waiters[s.loop.pc.cp.at.w].outcome.value.Confirmed?;
            CutAt(s.log, DoReceive(s).log, AttemptNo(s), s.loop.id, !confirmed && CallDone(s, c) && c.phase.Primary?)
  {
    var l', ended := DoReceive(s).log, CallDone(s, s.loop.pc.c);
    if l' != s.log { JudgeCut(s.log, l', AttemptNo(s), false, ended); }
  }

  lemma StaleReceive(s: State)
    requires Staleness(s) && CallEnabled(s, Receive) && s.log.attempts != []
    ensures Staleness(DoReceive(s))
  {
    ReceiveFrames(s);
    ReceiveLogs(s);
    StaleJudged(s, DoReceive(s));
  }

  lemma ReceiveLogs(s: State)
    requires CallEnabled(s, Receive) && s.log.attempts != []
    ensures DoReceive(s).log.attempts == s.log.attempts
    ensures DoReceive(s).log == s.log ||
            DoReceive(s).log == Judge(s.log, |s.log.attempts| - 1, false, CallDone(s, s.loop.pc.c))
  {
  }

  /** A verdict on the attempt being made, or none, on the way on. */
  lemma StaleJudged(s: State, s': State)
    requires Staleness(s) && CallFrame(s, s') && s.log.attempts != [] && V.InTry(s.loop)
    requires s'.log == s.log || s'.log == Judge(s.log, |s.log.attempts| - 1, false, CallDone(s, s.loop.pc.c))
    ensures Staleness(s')
  {
  }

  lemma FateApply(s: State)
    requires CallEnabled(s, Apply)
    requires Fate(s) && V.Rulings(s) && Life(s) && Book(s) && Known(s) && Started(s) && Subject(s)
    ensures Fate(CallNext(s, Apply))
  {
    OpenAttempt(s);
    CallFrames(s, Apply);
    CallKinds(s, Apply);
    StaleApply(s);
    FateCut(s, CallNext(s, Apply), false);
  }

  lemma StaleApply(s: State)
    requires CallEnabled(s, Apply) && Staleness(s) && s.log.attempts != [] && AttemptNo(s) !in s.log.verdicts
    ensures Staleness(CallNext(s, Apply)) && CallNext(s, Apply).log.attempts == s.log.attempts
    ensures CutAt(s.log, CallNext(s, Apply).log, AttemptNo(s), s.loop.id, false)
    ensures CallNext(s, Apply).loop.Busy? && CallNext(s, Apply).loop.pc.Calling?
    ensures CallNext(s, Apply).loop.pc.cp.Applying?
  {
    JudgeCut(s.log, CallNext(s, Apply).log, AttemptNo(s), true, CallDone(s, s.loop.pc.c));
  }

  lemma FateMove(s: State, cs: CallStep)
    requires Fate(s) && Life(s) && Book(s) && Known(s) && Started(s) && Subject(s) && CallEnabled(s, cs)
    requires cs.GiveUp? || cs.RegisterWaiter? || cs.SendBegin? || cs.GapEnd? || cs.ApplyEnd?
    ensures Fate(CallNext(s, cs))
  {
    CallFrames(s, cs);
    CallKinds(s, cs);
    MoveJudges(s, cs);
    StoppedSame(s.log, CallNext(s, cs).log);
    FateCut(s, CallNext(s, cs), false);
  }

  lemma MoveJudges(s: State, cs: CallStep)
    requires Staleness(s) && CallEnabled(s, cs)
    requires cs.GiveUp? || cs.RegisterWaiter? || cs.SendBegin? || cs.GapEnd? || cs.ApplyEnd?
    ensures SameJudgements(s.log, CallNext(s, cs).log) && Staleness(CallNext(s, cs))
    ensures CallNext(s, cs).loop.Busy? && CallNext(s, cs).loop.pc.Calling?
    ensures CallNext(s, cs).loop.pc.cp != Returned(Some(ContextEnded)) && s.loop.pc.cp != Returned(Some(ContextEnded))
  {
  }

  lemma FateCall(s: State, cs: CallStep)
    requires Fate(s) && V.Rulings(s) && Flow(s) && Life(s) && Book(s) && Known(s) && Started(s) && Subject(s)
    requires CallEnabled(s, cs) && (cs.Receive? ==> s.loop.pc.cp.at.published)
    ensures Fate(CallNext(s, cs))
  {
    match cs
    case BeginAttempt => FateBegin(s);
    case SendEnd(ok) => FateSendEnd(s, ok);
    case Receive => FateReceive(s);
    case Apply => FateApply(s);
    case _ => FateMove(s, cs);
  }
}
