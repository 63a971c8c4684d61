/** The command traffic of one pipeline: what is sent, how often, to whom, and
    with which licence. */
module Traffic {
  import opened Device
  import opened Actions
  import opened Machine
  import opened Frames
  import opened Books
  import opened Lifecycle

  // ----- attempts tile the send log

  /** The number of send calls an attempt owes: one ON, or as many OFFs as the
      config says that the attempt itself read. */
  function Owed(a: AttemptLog): nat { if a.power then 1 else a.seen.CloseSends() }

  /** Send call number i of an attempt, at whatever time. */
  predicate Belongs(x: Send, a: AttemptLog, i: nat) {
    x == Send(a.id, a.phase, a.n, i, a.power, a.seen.bridgeName, a.seen.CommandTarget(), x.time)
  }

  /** Attempts own consecutive blocks of the send log; only the last block may
      be incomplete. */
  ghost predicate Tiled(attempts: seq<AttemptLog>, sends: seq<Send>) {
    && (attempts != [] ==> attempts[0].base == 0)
    && (forall k :: 0 <= k < |attempts| - 1 ==> attempts[k + 1].base == attempts[k].base + Owed(attempts[k]))
    && (forall k :: 0 <= k < |attempts| ==> attempts[k].base <= |sends|)
    && (forall k, j :: 0 <= k < |attempts| && attempts[k].base <= j < attempts[k].base + Owed(attempts[k]) &&
                       j < |sends| ==>
          Belongs(sends[j], attempts[k], j - attempts[k].base))
    && |sends| <= Total(attempts)
  }

  function Total(attempts: seq<AttemptLog>): nat {
    if attempts == [] then 0 else attempts[|attempts| - 1].base + Owed(attempts[|attempts| - 1])
  }

  /** Attempts of one call are numbered from zero. */
  ghost predicate Numbered(attempts: seq<AttemptLog>) {
    forall k :: 0 <= k < |attempts| && attempts[k].n > 0 ==>
      && k > 0 && attempts[k - 1].n + 1 == attempts[k].n
      && attempts[k - 1].id == attempts[k].id && attempts[k - 1].phase == attempts[k].phase
  }

  ghost predicate LastIs(attempts: seq<AttemptLog>, id: ID, phase: Phase, n: nat) {
    attempts != [] &&
    var a := attempts[|attempts| - 1];
    a.id == id && a.phase == phase && a.n == n
  }

  /** The running attempt is the last one logged, with so many send calls made. */
  ghost predicate Running(attempts: seq<AttemptLog>, sent: nat, id: ID, c: Call, at: Attempt, made: nat) {
    && LastIs(attempts, id, c.phase, at.n)
    && (var a := attempts[|attempts| - 1];
        && a.power == c.power && at.bridge == a.seen.bridgeName && at.target == a.seen.CommandTarget()
        && at.sends == Owed(a) && sent == a.base + made)
    && at.i < at.sends && at.n < c.retries
  }

  ghost predicate InAttempt(attempts: seq<AttemptLog>, sent: nat, id: ID, c: Call, cp: CallPc) {
    match cp
    case Head(n) => n > 0 ==> LastIs(attempts, id, c.phase, n - 1) && n <= c.retries
    case Begun(at) => Running(attempts, sent, id, c, at, 0) && at.i == 0
    case ToSend(at) => Running(attempts, sent, id, c, at, at.i)
    case InSend(at) => Running(attempts, sent, id, c, at, at.i + 1)
    case Gap(at, _) => Running(attempts, sent, id, c, at, at.i)
    case Receiving(at) => LastIs(attempts, id, c.phase, at.n) && at.n < c.retries
    case Proved(at) => LastIs(attempts, id, c.phase, at.n) && at.n < c.retries
    case Applying(_) => c.retries > 0
    case Returned(err) => err.None? ==> c.retries > 0
  }

  /** Either the last block is complete, or an attempt is filling it. */
  ghost predicate InFlow(l: Loop, attempts: seq<AttemptLog>, sent: nat) {
    && (!Partial(l) ==> sent == Total(attempts))
    && (l.Busy? && l.pc.Calling? ==> InAttempt(attempts, sent, l.id, l.pc.c, l.pc.cp))
    && (l.Busy? && Committed(l.pc) ==> l.pc.c.retries > 0)
  }

  ghost predicate Flow(s: State) {
    && Tiled(s.log.attempts, s.log.sends)
    && Numbered(s.log.attempts)
    && InFlow(s.loop, s.log.attempts, |s.log.sends|)
  }

  /** Past the confirmation of the primary command. */
  predicate Committed(pc: ExecPc) {
    pc.Done? || pc.Expiring? || pc.Announcing? || pc.Holding? || (pc.Calling? && pc.c.phase.Shutoff?)
  }

  lemma TiledBegin(attempts: seq<AttemptLog>, sends: seq<Send>, a: AttemptLog)
    requires Tiled(attempts, sends) && Numbered(attempts) && |sends| == Total(attempts) && a.base == |sends|
    requires a.n > 0 ==> LastIs(attempts, a.id, a.phase, a.n - 1)
    ensures Tiled(attempts + [a], sends) && Numbered(attempts + [a])
  {
    TilesBegin(attempts, sends, a);
    NumbersBegin(attempts, a);
  }

  lemma NumbersBegin(attempts: seq<AttemptLog>, a: AttemptLog)
    requires Numbered(attempts) && (a.n > 0 ==> LastIs(attempts, a.id, a.phase, a.n - 1))
    ensures Numbered(attempts + [a])
  {
  }

  lemma TilesBegin(attempts: seq<AttemptLog>, sends: seq<Send>, a: AttemptLog)
    requires Tiled(attempts, sends) && |sends| == Total(attempts) && a.base == |sends|
    ensures Tiled(attempts + [a], sends)
  {
    var as', n := attempts + [a], |attempts|;
    forall k | 0 <= k < n ensures as'[k + 1].base == as'[k].base + Owed(as'[k]) {
      if k < n - 1 { assert as'[k + 1] == attempts[k + 1]; }
    }
    forall k, j | 0 <= k < n + 1 && as'[k].base <= j < as'[k].base + Owed(as'[k]) && j < |sends|
      ensures Belongs(sends[j], as'[k], j - as'[k].base) {
      if k < n { assert as'[k] == attempts[k]; }
    }
  }

  lemma TiledSend(attempts: seq<AttemptLog>, sends: seq<Send>, x: Send)
    requires Tiled(attempts, sends) && attempts != []
    requires var a := attempts[|attempts| - 1];
             |sends| < a.base + Owed(a) && Belongs(x, a, |sends| - a.base)
    ensures Tiled(attempts, sends + [x])
  {
    var n := |attempts| - 1;
    forall k | 0 <= k < n ensures attempts[k].base + Owed(attempts[k]) <= |sends| {
      assert attempts[k + 1].base <= |sends|;
    }
    forall k, j | 0 <= k < |attempts| && attempts[k].base <= j < attempts[k].base + Owed(attempts[k]) && j < |sends| + 1
      ensures Belongs((sends + [x])[j], attempts[k], j - attempts[k].base)
    {
    }
  }

  lemma FlowBegin(s: State)
    requires Flow(s) && CallEnabled(s, BeginAttempt)
    ensures Flow(DoBeginAttempt(s))
  {
    TiledBegin(s.log.attempts, s.log.sends, NewAttempt(s));
  }

  lemma FlowSend(s: State)
    requires Flow(s) && CallEnabled(s, SendBegin)
    ensures Flow(DoSendBegin(s))
  {
    var c, at := s.loop.pc.c, s.loop.pc.cp.at;
    TiledSend(s.log.attempts, s.log.sends,
              Send(s.loop.id, c.phase, at.n, at.i, c.power, at.bridge, at.target, s.now));
  }

  lemma LogsSame(s: State, cs: CallStep)
    requires CallEnabled(s, cs) && !cs.BeginAttempt? && !cs.SendBegin?
    ensures CallNext(s, cs).log.attempts == s.log.attempts && CallNext(s, cs).log.sends == s.log.sends
  {
  }

  lemma InFlowSendEnd(s: State, ok: bool)
    requires InFlow(s.loop, s.log.attempts, |s.log.sends|) && CallEnabled(s, SendEnd(ok))
    ensures InFlow(DoSendEnd(s, ok).loop, s.log.attempts, |s.log.sends|)
  {
    var at := s.loop.pc.cp.at;
    assert Running(s.log.attempts, |s.log.sends|, s.loop.id, s.loop.pc.c, at, at.i + 1);
  }

  lemma InFlowReceive(s: State)
    requires InFlow(s.loop, s.log.attempts, |s.log.sends|) && CallEnabled(s, Receive)
    ensures InFlow(DoReceive(s).loop, s.log.attempts, |s.log.sends|)
  {
  }

  lemma InFlowOther(s: State, cs: CallStep)
    requires InFlow(s.loop, s.log.attempts, |s.log.sends|) && CallEnabled(s, cs)
    requires !cs.BeginAttempt? && !cs.SendBegin? && !cs.SendEnd? && !cs.Receive?
    ensures InFlow(CallNext(s, cs).loop, s.log.attempts, |s.log.sends|)
  {
  }

  lemma FlowOther(s: State, cs: CallStep)
    requires Flow(s) && CallEnabled(s, cs) && !cs.BeginAttempt? && !cs.SendBegin?
    ensures Flow(CallNext(s, cs))
  {
    LogsSame(s, cs);
    match cs
    case SendEnd(ok) => InFlowSendEnd(s, ok);
    case Receive => InFlowReceive(s);
    case _ => InFlowOther(s, cs);
  }

  lemma FlowCall(s: State, cs: CallStep)
    requires Flow(s) && CallEnabled(s, cs)
    ensures Flow(CallNext(s, cs))
  {
    match cs
    case BeginAttempt => FlowBegin(s);
    case SendBegin => FlowSend(s);
    case _ => FlowOther(s, cs);
  }

  lemma FlowExec(s: State, xs: ExecStep)
    requires Flow(s) && ExecEnabled(s, xs)
    ensures Flow(ExecNext(s, xs))
  {
    ExecFrames(s, xs);
    CommittedExec(s, xs);
  }

  /** The retry count is handed on to the close of a timed open. */
  lemma CommittedExec(s: State, xs: ExecStep)
    requires ExecEnabled(s, xs)
    ensures var pc, pc' := s.loop.pc, ExecNext(s, xs).loop.pc;
            && (pc'.Calling? ==> pc'.cp == Head(0))
            && (Committed(pc') ==> && (Committed(pc) || (pc.Calling? && pc.cp.Returned? && pc.cp.err.None?))
                                   && pc'.c.retries == pc.c.retries)
  {
  }

  lemma FlowRun(s: State, rs: RunStep)
    requires Flow(s) && RunEnabled(s, rs)
    ensures Flow(RunNext(s, rs))
  {
    RunFrames(s, rs);
  }

  lemma FlowKept(s: State, s': State)
    requires Flow(s) && s'.loop == s.loop && s'.log.attempts == s.log.attempts && s'.log.sends == s.log.sends
    ensures Flow(s')
  {
  }

  // ----- no more attempts than the config read at the start allows

  ghost predicate BoundedV(attempts: seq<AttemptLog>, starts: map<ID, ValveConfig>) {
    forall k :: 0 <= k < |attempts| ==>
      attempts[k].id in starts && attempts[k].n < starts[attempts[k].id].retryCount
  }

  ghost predicate Bounded(s: State) {
    && BoundedV(s.log.attempts, s.log.starts)
    && (s.loop.Busy? && (s.loop.pc.Calling? || Committed(s.loop.pc)) ==>
          s.loop.id in s.log.starts && s.loop.pc.c.retries == s.log.starts[s.loop.id].retryCount)
  }

  lemma BoundedCall(s: State, cs: CallStep)
    requires Bounded(s) && CallEnabled(s, cs)
    ensures Bounded(CallNext(s, cs))
  {
    CallFrames(s, cs);
    if cs.BeginAttempt? {
      var s' := DoBeginAttempt(s);
    } else {
      AttemptsOnlyBegin(s, cs);
    }
  }

  lemma AttemptsOnlyBegin(s: State, cs: CallStep)
    requires CallEnabled(s, cs) && !cs.BeginAttempt?
    ensures CallNext(s, cs).log.attempts == s.log.attempts
  {
  }

  lemma BoundedExec(s: State, xs: ExecStep)
    requires Bounded(s) && ExecEnabled(s, xs)
    ensures Bounded(ExecNext(s, xs))
  {
    ExecFrames(s, xs);
  }

  lemma BoundedRun(s: State, rs: RunStep)
    requires Bounded(s) && Started(s) && RunEnabled(s, rs)
    ensures Bounded(RunNext(s, rs))
  {
    if rs.ReadConfig? { ReadFrames(s); BoundedRead(s, DoReadConfig(s)); }
  }

  lemma BoundedRead(s: State, s': State)
    requires Bounded(s) && Started(s) && ReadEffect(s, s') && s.loop.pc.Took?
    ensures Bounded(s')
  {
  }

  // ----- the licence to send ON

  /** Executions, and the config each of them read first. */
  ghost predicate Started(s: State) {
    && (forall id :: id in s.log.starts ==> id in s.log.begun)
    && (forall id :: id in s.log.retired ==> id in s.log.starts)
    && (s.loop.Busy? && !s.loop.pc.Took? ==> s.loop.id in s.log.starts)
    && (s.loop.Busy? && s.loop.pc.Took? ==> s.loop.id !in s.log.starts)
    && (s.loop.Busy? && s.loop.pc.Ready? && s.loop.id in s.log.starts ==> s.loop.pc.cfg == s.log.starts[s.loop.id])
  }

  lemma StartedRun(s: State, rs: RunStep)
    requires Started(s) && Book(s) && Known(s) && RunEnabled(s, rs)
    ensures Started(RunNext(s, rs))
  {
    match rs
    case Dequeue => StartedDequeue(s);
    case ReadConfig => ReadFrames(s); StartedRead(s, DoReadConfig(s));
    case BeginShutdown(id) => assert forall x :: x in s.log.begun ==> x in s.log.asked;
    case _ =>
  }

  lemma StartedDequeue(s: State)
    requires Started(s) && Book(s) && RunEnabled(s, Dequeue)
    ensures Started(DoDequeue(s))
  {
    HeadOnce(s.queue);
  }

  lemma StartedRead(s: State, s': State)
    requires Started(s) && Book(s) && ReadEffect(s, s')
    ensures Started(s')
  {
    OngoingApart(s);
  }

  /** A started action has the type and duration its start decided. */
  ghost predicate Shaped(a: Action, asked: Action, cfg: ValveConfig) {
    a.typ == Upgrade(asked, cfg).typ && a.duration == Upgrade(asked, cfg).duration
  }

  ghost predicate AllShaped(s: State) {
    forall id :: id in s.log.starts && id in s.actions && id in s.log.asked ==>
      Shaped(s.actions[id], s.log.asked[id], s.log.starts[id])
  }

  /** The executing action may switch ON only if its start was not disabled. */
  ghost predicate Permitted(s: State) {
    s.loop.Busy? && s.loop.pc.Calling? && s.loop.pc.c.power && s.loop.id in s.log.starts ==>
      !s.log.starts[s.loop.id].disabled && s.loop.pc.c.phase.Primary?
  }

  /** Every ON belongs to an open whose start-of-execution config allowed it. */
  ghost predicate Licensed(s: State) {
    forall j :: 0 <= j < |s.log.sends| ==>
      && s.log.sends[j].id in s.log.begun
      && (s.log.sends[j].power ==>
            && s.log.sends[j].id in s.log.starts && !s.log.starts[s.log.sends[j].id].disabled
            && s.log.sends[j].id in s.log.asked && Power(s.log.asked[s.log.sends[j].id].typ))
  }

  lemma UpgradePower(a: Action, cfg: ValveConfig)
    ensures Power(Upgrade(a, cfg).typ) == Power(a.typ)
  {
  }

  lemma LicensedSend(s: State)
    requires Licensed(s) && Permitted(s) && Started(s) && AllShaped(s) && Life(s) && Book(s) && Known(s)
    requires CallEnabled(s, SendBegin)
    ensures Licensed(DoSendBegin(s))
  {
    OngoingApart(s);
    UpgradePower(s.log.asked[s.loop.id], s.log.starts[s.loop.id]);
    assert InCallPoint(s.actions[s.loop.id], s.loop.pc.c, s.loop.pc.cp);
  }

  lemma SendsOnlyBegin(s: State, cs: CallStep)
    requires CallEnabled(s, cs) && !cs.SendBegin?
    ensures CallNext(s, cs).log.sends == s.log.sends
  {
  }

  lemma LicensedCall(s: State, cs: CallStep)
    requires Licensed(s) && Permitted(s) && Started(s) && AllShaped(s) && Life(s) && Book(s) && Known(s)
    requires CallEnabled(s, cs)
    ensures Licensed(CallNext(s, cs)) && Permitted(CallNext(s, cs))
  {
    CallFrames(s, cs);
    if cs.SendBegin? { LicensedSend(s); } else { SendsOnlyBegin(s, cs); }
  }

  lemma LicensedKept(s: State, s': State)
    requires Licensed(s) && s'.log.sends == s.log.sends
    requires forall id :: id in s.log.begun ==> id in s'.log.begun
    requires forall id :: id in s.log.starts ==> id in s'.log.starts && s'.log.starts[id] == s.log.starts[id]
    requires forall id :: id in s.log.asked ==> id in s'.log.asked && s'.log.asked[id] == s.log.asked[id]
    ensures Licensed(s')
  {
  }

  lemma LogsGrowRun(s: State, rs: RunStep)
    requires RunEnabled(s, rs) && Known(s) && Started(s)
    ensures forall id :: id in s.log.begun ==> id in RunNext(s, rs).log.begun
    ensures forall id :: id in s.log.starts ==>
              id in RunNext(s, rs).log.starts && RunNext(s, rs).log.starts[id] == s.log.starts[id]
    ensures forall id :: id in s.log.asked ==>
              id in RunNext(s, rs).log.asked && RunNext(s, rs).log.asked[id] == s.log.asked[id]
  {
    if rs.ReadConfig? { ReadFrames(s); }
  }

  lemma PermittedRun(s: State, rs: RunStep)
    requires Started(s) && Life(s) && Book(s) && Known(s) && RunEnabled(s, rs)
    ensures Permitted(RunNext(s, rs))
  {
    if rs.Install? { OngoingApart(s); }
  }

  lemma PermittedExec(s: State, xs: ExecStep)
    requires ExecEnabled(s, xs)
    ensures Permitted(ExecNext(s, xs))
  {
  }

  // ----- types and durations stay as decided

  lemma ShapedKept(s: State, s': State)
    requires AllShaped(s) && s'.log.starts == s.log.starts && Known(s)
    requires forall id :: id in s.actions && id in s'.actions ==>
               s'.actions[id].typ == s.actions[id].typ && s'.actions[id].duration == s.actions[id].duration
    requires forall id :: id in s.log.asked ==> id in s'.log.asked && s'.log.asked[id] == s.log.asked[id]
    requires forall id :: id in s.log.starts ==> id in s.log.asked
    ensures AllShaped(s')
  {
  }

  lemma CallKeepsShape(s: State, cs: CallStep)
    requires CallEnabled(s, cs)
    ensures forall id :: id in s.actions && id in CallNext(s, cs).actions ==>
               CallNext(s, cs).actions[id].typ == s.actions[id].typ
                   && CallNext(s, cs).actions[id].duration == s.actions[id].duration
  {
  }

  lemma OwnShape(s: State, xs: ExecStep)
    requires ExecEnabled(s, xs) && !xs.EndHold?
    ensures s.loop.id in ExecNext(s, xs).actions
    ensures ExecNext(s, xs).actions[s.loop.id].typ == s.actions[s.loop.id].typ
    ensures ExecNext(s, xs).actions[s.loop.id].duration == s.actions[s.loop.id].duration
  {
  }

  lemma ExecKeepsShape(s: State, xs: ExecStep)
    requires ExecEnabled(s, xs) && Known(s)
    ensures forall id :: id in s.actions && id in ExecNext(s, xs).actions ==>
               ExecNext(s, xs).actions[id].typ == s.actions[id].typ
                   && ExecNext(s, xs).actions[id].duration == s.actions[id].duration
    ensures forall id :: id in s.log.asked ==>
              id in ExecNext(s, xs).log.asked && ExecNext(s, xs).log.asked[id] == s.log.asked[id]
  {
    if xs.EndHold? {
      var s' := DoEndHold(s, s.loop.pc.c, xs.closeId);
    } else {
      OwnShape(s, xs);
      OwnOnly(s, xs);
    }
  }

  lemma ShapedRead(s: State, s': State)
    requires AllShaped(s) && Life(s) && Book(s) && Known(s) && ReadEffect(s, s') && s.loop.pc.Took?
    ensures AllShaped(s')
  {
    OngoingApart(s);
    assert s.actions[s.loop.id] == s.log.asked[s.loop.id];
  }

  lemma ShapedShutdown(s: State, id: ID)
    requires AllShaped(s) && Started(s) && Book(s) && Known(s) && RunEnabled(s, BeginShutdown(id))
    ensures AllShaped(DoShutdown(s, id))
  {
    assert forall x :: x in s.log.starts ==> x in s.log.begun && x in s.log.asked;
  }

  lemma ShapedRun(s: State, rs: RunStep)
    requires AllShaped(s) && Started(s) && Life(s) && Book(s) && Known(s) && RunEnabled(s, rs)
    ensures AllShaped(RunNext(s, rs))
  {
    match rs
    case ReadConfig => ReadFrames(s); ShapedRead(s, DoReadConfig(s));
    case BeginShutdown(id) => ShapedShutdown(s, id);
    case _ =>
  }

  // ----- the attempt counter

  function Budget(cfg: ValveConfig): nat { if cfg.retryCount < 0 then 0 else cfg.retryCount }

  /** Action.Attempts never exceeds the retry budget read at the start. */
  ghost predicate Tallied(s: State) {
    forall id :: id in s.log.starts && id in s.actions ==> s.actions[id].attempts <= Budget(s.log.starts[id])
  }

  lemma TalliedKept(s: State, s': State)
    requires Tallied(s) && s'.log.starts == s.log.starts
    requires forall id :: id in s.log.starts && id in s'.actions ==>
               id in s.actions && s'.actions[id].attempts <= s.actions[id].attempts
    ensures Tallied(s')
  {
  }

  lemma TalliedRead(s: State, s': State)
    requires Tallied(s) && Life(s) && Book(s) && Known(s) && ReadEffect(s, s') && s.loop.pc.Took?
    ensures Tallied(s')
  {
    OngoingApart(s);
    assert s.actions[s.loop.id] == s.log.asked[s.loop.id];
  }

  lemma TalliedRun(s: State, rs: RunStep)
    requires Tallied(s) && Started(s) && Life(s) && Book(s) && Known(s) && RunEnabled(s, rs)
    ensures Tallied(RunNext(s, rs))
  {
    if rs.ReadConfig? {
      ReadFrames(s);
      TalliedRead(s, DoReadConfig(s));
    } else {
      StartsAreActions(s);
      SameStarts(s, rs);
      TalliedKept(s, RunNext(s, rs));
    }
  }

  lemma StartsAreActions(s: State)
    requires Started(s) && Book(s) && Known(s)
    ensures forall id :: id in s.log.starts ==> id in s.actions
  {
  }

  lemma SameStarts(s: State, rs: RunStep)
    requires RunEnabled(s, rs) && !rs.ReadConfig? && Started(s) && Book(s) && Known(s)
    ensures RunNext(s, rs).log.starts == s.log.starts
    ensures forall id :: id in s.log.starts && id in s.actions && id in RunNext(s, rs).actions ==>
              RunNext(s, rs).actions[id].attempts == s.actions[id].attempts
  {
    if rs.BeginShutdown? { StartsAreActions(s); }
  }

  lemma TalliedBegin(s: State)
    requires Tallied(s) && Bounded(s) && Started(s) && Subject(s) && CallEnabled(s, BeginAttempt)
    ensures Tallied(DoBeginAttempt(s))
  {
  }

  lemma CallKeepsTally(s: State, cs: CallStep)
    requires CallEnabled(s, cs) && !cs.BeginAttempt?
    ensures var x := s.loop.pc.c.subject;
            x in CallNext(s, cs).actions && CallNext(s, cs).actions[x].attempts == s.actions[x].attempts
  {
  }

  lemma TalliedCall(s: State, cs: CallStep)
    requires Tallied(s) && Bounded(s) && Started(s) && Subject(s) && CallEnabled(s, cs)
    ensures Tallied(CallNext(s, cs))
  {
    if cs.BeginAttempt? {
      TalliedBegin(s);
    } else {
      CallFrames(s, cs);
      CallKeepsTally(s, cs);
      TalliedKept(s, CallNext(s, cs));
    }
  }

  lemma MovesKeepTally(a: Action, pc: ExecPc, a': Action, pc': ExecPc)
    requires Moves(a, pc, a', pc')
    ensures a'.attempts == a.attempts
  {
  }

  lemma TalliedExec(s: State, xs: ExecStep)
    requires Tallied(s) && Started(s) && Book(s) && Known(s) && ExecEnabled(s, xs)
    ensures Tallied(ExecNext(s, xs))
  {
    var s' := ExecNext(s, xs);
    ExecFrames(s, xs);
    ExecMoves(s, xs);
    MovesKeepTally(s.actions[s.loop.id], s.loop.pc, s'.actions[s.loop.id], s'.loop.pc);
    StartsAreActions(s);
    OthersKept(s, xs);
    TalliedKept(s, s');
  }

  /** Only the executing action, or a new one, changes. */
  lemma OthersKept(s: State, xs: ExecStep)
    requires ExecEnabled(s, xs)
    ensures forall id :: id in s.actions && id != s.loop.id ==>
              id in ExecNext(s, xs).actions && ExecNext(s, xs).actions[id] == s.actions[id]
  {
    if !xs.EndHold? { OwnOnly(s, xs); }
  }
}
