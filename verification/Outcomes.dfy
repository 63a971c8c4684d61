/** How executions end: a confirmed timed open is followed by an OFF, and is
    fulfilled only on a confirmed close. */
module Outcomes {
  import opened Options
  import opened Actions
  import opened Machine
  import opened Frames
  import opened Books
  import opened Lifecycle
  import opened Traffic
  import E = Evidence

  // ----- OFF sends of the shutoff phase

  ghost predicate IsOff(x: Send, id: ID) { x.id == id && x.phase.Shutoff? && !x.power }

  /** The execution of id made an OFF send call to end its open. */
  ghost predicate HasOff(sends: seq<Send>, id: ID) {
    exists j :: 0 <= j < |sends| && IsOff(sends[j], id)
  }

  lemma HasOffAppend(sends: seq<Send>, x: Send, id: ID)
    ensures HasOff(sends + [x], id) <==> HasOff(sends, id) || IsOff(x, id)
  {
    var sends' := sends + [x];
    if HasOff(sends, id) {
      var j :| 0 <= j < |sends| && IsOff(sends[j], id);
      assert IsOff(sends'[j], id);
    }
    if IsOff(x, id) { assert IsOff(sends'[|sends|], id); }
  }

  /** What the program point says about OFF sends of the executing action. */
  predicate OffPoint(has: bool, a: Action, pc: ExecPc) {
    match pc
    case Took => !has
    case Rejected => !has
    case Ready(_) => !has
    case Calling(c, cp) => OffInCall(has, c, cp)
    case Done(_, _) => !has
    case Expiring(_, _) => !has
    case Announcing(_, _, _) => !has
    case Holding(_, _, _) => !has
    case Unconfirmed(_) => has <==> a.closedAt.Some?
    case Downgrading(_, _) => has <==> a.closedAt.Some?
    case Clearing(_) => has <==> a.closedAt.Some?
    case Cleared(_) => has <==> a.closedAt.Some?
    case Leaving => has <==> a.closedAt.Some?
    case Retiring => has <==> a.closedAt.Some?
  }

  predicate OffInCall(has: bool, c: Call, cp: CallPc) {
    if c.phase.Primary? then !has
    else match cp
      case Head(n) => n > 0 ==> has
      case Begun(at) => at.n > 0 ==> has
      case ToSend(at) => at.n > 0 || at.i > 0 ==> has
      case InSend(_) => has
      case Gap(_, _) => has
      case Receiving(_) => has
      case Proved(_) => has
      case Applying(_) => has
      case Returned(_) => has
  }

  ghost predicate OffBook(s: State) {
    forall id :: id in s.log.retired && id in s.actions ==> (HasOff(s.log.sends, id) <==> s.actions[id].closedAt.Some?)
  }

  ghost predicate OffNow(s: State) {
    s.loop.Busy? && s.loop.id in s.actions ==>
      OffPoint(HasOff(s.log.sends, s.loop.id), s.actions[s.loop.id], s.loop.pc)
  }

  /** No send belongs to an action that has not begun. */
  lemma NoOffYet(s: State, id: ID)
    requires Licensed(s) && id !in s.log.begun
    ensures !HasOff(s.log.sends, id)
  {
  }

  lemma OffSend(s: State)
    requires OffNow(s) && OffBook(s) && Book(s) && Known(s) && Life(s) && CallEnabled(s, SendBegin)
    ensures OffNow(DoSendBegin(s)) && OffBook(DoSendBegin(s))
  {
    var c, at := s.loop.pc.c, s.loop.pc.cp.at;
    var x := Send(s.loop.id, c.phase, at.n, at.i, c.power, at.bridge, at.target, s.now);
    OngoingApart(s);
    assert InCallPoint(s.actions[s.loop.id], c, s.loop.pc.cp);
    forall id ensures HasOff(s.log.sends + [x], id) <==> HasOff(s.log.sends, id) || IsOff(x, id) {
      HasOffAppend(s.log.sends, x, id);
    }
  }

  /** The other steps of a call: no send, and the point moves on. */
  lemma OffMove(s: State, cs: CallStep, has: bool)
    requires CallEnabled(s, cs) && !cs.SendBegin? && OffInCall(has, s.loop.pc.c, s.loop.pc.cp)
    requires Flow(s)
    ensures CallNext(s, cs).loop.Busy? && CallNext(s, cs).loop.pc.Calling?
    ensures OffInCall(has, s.loop.pc.c, CallNext(s, cs).loop.pc.cp)
  {
  }

  lemma OffCall(s: State, cs: CallStep)
    requires OffNow(s) && OffBook(s) && Book(s) && Known(s) && Life(s) && Subject(s) && Flow(s) && CallEnabled(s, cs)
    ensures OffNow(CallNext(s, cs)) && OffBook(CallNext(s, cs))
  {
    if cs.SendBegin? {
      OffSend(s);
    } else {
      var s' := CallNext(s, cs);
      CallFrames(s, cs);
      SendsOnlyBegin(s, cs);
      OffMove(s, cs, HasOff(s.log.sends, s.loop.id));
      OngoingApart(s);
      assert forall id :: id in s.log.retired ==> id in s.log.begun;
      assert forall id :: id in s.log.retired && id in s.actions ==> s'.actions[id] == s.actions[id];
    }
  }

  lemma OffMoves(has: bool, a: Action, asked: Action, pc: ExecPc, a': Action, pc': ExecPc)
    requires OffPoint(has, a, pc) && AtPoint(a, asked, pc) && Moves(a, pc, a', pc')
    ensures OffPoint(has, a', pc')
  {
  }

  lemma OffOthers(s: State, s': State)
    requires OffBook(s) && Known(s) && s'.log.sends == s.log.sends && s'.log.retired == s.log.retired
    requires forall id :: id in s.log.retired ==> id in s.log.asked
    requires forall id :: id in s.log.retired && id in s.actions ==> id in s'.actions && s'.actions[id] == s.actions[id]
    ensures OffBook(s')
  {
  }

  lemma OffExec(s: State, xs: ExecStep)
    requires OffNow(s) && OffBook(s) && Book(s) && Known(s) && Life(s) && ExecEnabled(s, xs)
    ensures OffNow(ExecNext(s, xs)) && OffBook(ExecNext(s, xs))
  {
    OngoingApart(s);
    ExecFrames(s, xs);
    ExecMoves(s, xs);
    var s' := ExecNext(s, xs);
    OffMoves(HasOff(s.log.sends, s.loop.id), s.actions[s.loop.id], s.log.asked[s.loop.id], s.loop.pc,
             s'.actions[s.loop.id], s'.loop.pc);
    OthersKept(s, xs);
    OffOthers(s, s');
  }

  lemma OffRetire(s: State, listed: bool)
    requires OffNow(s) && OffBook(s) && AtPc(s)
    requires (s.loop.pc.Retiring? || (s.loop.pc.Rejected? && s.actions[s.loop.id].closedAt.None?))
    ensures OffNow(DoRetire(s, s.loop.id, listed)) && OffBook(DoRetire(s, s.loop.id, listed))
  {
  }

  lemma OffRead(s: State, s': State)
    requires OffNow(s) && OffBook(s) && Book(s) && ReadEffect(s, s') && s.loop.pc.Took?
    ensures OffNow(s') && OffBook(s')
  {
    OngoingApart(s);
  }

  lemma OffInstall(s: State)
    requires OffNow(s) && OffBook(s) && Book(s) && RunEnabled(s, Install)
    ensures OffNow(DoInstall(s)) && OffBook(DoInstall(s))
  {
    OngoingApart(s);
  }

  lemma OffShutdown(s: State, id: ID)
    requires OffBook(s) && Book(s) && Known(s) && Licensed(s) && RunEnabled(s, BeginShutdown(id))
    ensures OffNow(DoShutdown(s, id)) && OffBook(DoShutdown(s, id))
  {
    NoOffYet(s, id);
    assert forall x :: x in s.log.retired ==> x in s.log.begun && x in s.log.asked;
  }

  lemma OffRun(s: State, rs: RunStep)
    requires OffNow(s) && OffBook(s) && Book(s) && Known(s) && Life(s) && Licensed(s) && RunEnabled(s, rs)
    ensures OffNow(RunNext(s, rs)) && OffBook(RunNext(s, rs))
  {
    match rs
    case Dequeue => HeadOnce(s.queue); NoOffYet(s, s.queue.items[0]);
    case BeginShutdown(id) => OffShutdown(s, id);
    case StopRun =>
    case ReadConfig => ReadFrames(s); OffRead(s, DoReadConfig(s));
    case Install => OffInstall(s);
    case Reject => OngoingApart(s); OffRetire(s, true);
    case Leave =>
    case Retire => OffRetire(s, !s.actions[s.loop.id].IsInternalSafetyPing());
  }

  lemma OffEnv(s: State, e: EnvStep)
    requires OffNow(s) && OffBook(s) && Book(s) && Known(s) && EnvEnabled(s, e)
    ensures OffNow(EnvNext(s, e)) && OffBook(EnvNext(s, e))
  {
    if e.Request? {
      if s.loop.Busy? { OngoingApart(s); }
      assert forall x :: x in s.log.retired ==> x in s.log.begun && x in s.log.asked;
    }
  }

  // ----- confirmations recorded by an execution

  ghost predicate IsSeen(wr: Write, id: ID, phase: Phase) {
    wr.Seen? && wr.who.ByAction? && wr.who.id == id && wr.who.phase == phase
  }

  /** A confirmation of the given command of id was written to the valve state. */
  ghost predicate HasSeen(writes: seq<Write>, id: ID, phase: Phase) {
    exists k :: 0 <= k < |writes| && IsSeen(writes[k], id, phase)
  }

  lemma HasSeenAppend(writes: seq<Write>, wr: Write, id: ID, phase: Phase)
    ensures HasSeen(writes + [wr], id, phase) <==> HasSeen(writes, id, phase) || IsSeen(wr, id, phase)
  {
    var writes' := writes + [wr];
    if HasSeen(writes, id, phase) {
      var k :| 0 <= k < |writes| && IsSeen(writes[k], id, phase);
      assert IsSeen(writes'[k], id, phase);
    }
    if IsSeen(wr, id, phase) { assert IsSeen(writes'[|writes|], id, phase); }
  }

  predicate Confirmed(cp: CallPc) { cp.Applying? || cp == Returned(None) }

  /** p and q: the primary command and the shutoff were confirmed. */
  predicate SeenEnd(p: bool, q: bool, a: Action) {
    (p <==> a.fulfilledAt.Some?) && (q <==> a.closedAt.Some? && a.state.Fulfilled?)
  }

  predicate SeenPoint(p: bool, q: bool, a: Action, pc: ExecPc) {
    match pc
    case Took => !p && !q
    case Rejected => !p && !q
    case Ready(_) => !p && !q
    case Calling(c, cp) =>
      if c.phase.Primary? then !q && (p <==> Confirmed(cp)) else p && (q <==> Confirmed(cp))
    case Done(_, _) => p && !q
    case Expiring(_, _) => p && !q
    case Announcing(_, _, _) => p && !q
    case Holding(_, _, _) => p && !q
    case Unconfirmed(_) => SeenEnd(p, q, a)
    case Downgrading(_, _) => SeenEnd(p, q, a)
    case Clearing(_) => SeenEnd(p, q, a)
    case Cleared(_) => SeenEnd(p, q, a)
    case Leaving => SeenEnd(p, q, a)
    case Retiring => SeenEnd(p, q, a)
  }

  ghost predicate SeenBook(s: State) {
    forall id :: id in s.log.retired && id in s.actions ==>
      SeenEnd(HasSeen(s.log.writes, id, Primary), HasSeen(s.log.writes, id, Shutoff), s.actions[id])
  }

  ghost predicate SeenNow(s: State) {
    s.loop.Busy? && s.loop.id in s.actions ==>
      SeenPoint(HasSeen(s.log.writes, s.loop.id, Primary), HasSeen(s.log.writes, s.loop.id, Shutoff),
                s.actions[s.loop.id], s.loop.pc)
  }

  ghost predicate WritersBegun(s: State) {
    forall k :: 0 <= k < |s.log.writes| && s.log.writes[k].Seen? && s.log.writes[k].who.ByAction? ==>
      s.log.writes[k].who.id in s.log.begun
  }

  lemma NotSeenYet(s: State, id: ID)
    requires WritersBegun(s) && id !in s.log.begun
    ensures !HasSeen(s.log.writes, id, Primary) && !HasSeen(s.log.writes, id, Shutoff)
  {
  }

  /** A write by anybody else leaves these facts alone. */
  lemma OtherWrite(s: State, wr: Write)
    requires !(wr.Seen? && wr.who.ByAction?)
    ensures forall id, phase :: HasSeen(s.log.writes + [wr], id, phase) <==> HasSeen(s.log.writes, id, phase)
  {
    forall id, phase ensures HasSeen(s.log.writes + [wr], id, phase) <==> HasSeen(s.log.writes, id, phase) {
      HasSeenAppend(s.log.writes, wr, id, phase);
    }
  }

  lemma SeenApply(s: State)
    requires SeenNow(s) && SeenBook(s) && WritersBegun(s) && Book(s) && CallEnabled(s, Apply)
    ensures SeenNow(CallNext(s, Apply)) && SeenBook(CallNext(s, Apply)) && WritersBegun(CallNext(s, Apply))
  {
    OngoingApart(s);
    ApplySeen(s);
  }

  /** The confirmation write is one of the executing action and its phase. */
  lemma ApplySeen(s: State)
    requires CallEnabled(s, Apply)
    ensures CallNext(s, Apply).log.writes
            == s.log.writes + [Seen(ByAction(s.loop.id, s.loop.pc.c.phase, AttemptNo(s)), s.loop.pc.c.power,
                                    s.loop.pc.cp.at.w, |s.net.dispatched|)]
    ensures forall id, phase :: HasSeen(CallNext(s, Apply).log.writes, id, phase) <==>
              HasSeen(s.log.writes, id, phase) || (id == s.loop.id && phase == s.loop.pc.c.phase)
  {
    var c := s.loop.pc.c;
    var wr := Seen(ByAction(s.loop.id, c.phase, AttemptNo(s)), c.power, s.loop.pc.cp.at.w, |s.net.dispatched|);
    forall id, phase
      ensures HasSeen(s.log.writes + [wr], id, phase) <==> HasSeen(s.log.writes, id, phase) || IsSeen(wr, id, phase) {
      HasSeenAppend(s.log.writes, wr, id, phase);
    }
  }

  lemma ConfirmsOnlyApply(s: State, cs: CallStep)
    requires CallEnabled(s, cs) && !cs.Apply?
    ensures CallNext(s, cs).loop.Busy? && CallNext(s, cs).loop.pc.Calling?
    ensures Confirmed(CallNext(s, cs).loop.pc.cp) <==> Confirmed(s.loop.pc.cp)
  {
  }

  lemma SeenCall(s: State, cs: CallStep)
    requires SeenNow(s) && SeenBook(s) && WritersBegun(s) && Book(s) && Known(s) && Subject(s) && CallEnabled(s, cs)
    ensures SeenNow(CallNext(s, cs)) && SeenBook(CallNext(s, cs)) && WritersBegun(CallNext(s, cs))
  {
    if cs.Apply? {
      SeenApply(s);
    } else {
      var s' := CallNext(s, cs);
      CallFrames(s, cs);
      E.WritesOnlyApply(s, cs);
      ConfirmsOnlyApply(s, cs);
      OngoingApart(s);
      assert forall id :: id in s.log.retired ==> id in s.log.begun;
      assert forall id :: id in s.log.retired && id in s.actions ==> s'.actions[id] == s.actions[id];
    }
  }

  lemma SeenMoves(p: bool, q: bool, a: Action, asked: Action, pc: ExecPc, a': Action, pc': ExecPc)
    requires SeenPoint(p, q, a, pc) && AtPoint(a, asked, pc) && Moves(a, pc, a', pc')
    ensures SeenPoint(p, q, a', pc')
  {
  }

  lemma SeenOthers(s: State, s': State)
    requires SeenBook(s) && s'.log.retired == s.log.retired
    requires forall id, phase :: HasSeen(s'.log.writes, id, phase) <==> HasSeen(s.log.writes, id, phase)
    requires forall id :: id in s.log.retired ==> id in s.actions && id in s'.actions && s'.actions[id] == s.actions[id]
    ensures SeenBook(s')
  {
  }

  lemma ExecWrites(s: State, xs: ExecStep)
    requires ExecEnabled(s, xs) && WritersBegun(s)
    ensures forall id, phase :: HasSeen(ExecNext(s, xs).log.writes, id, phase) <==> HasSeen(s.log.writes, id, phase)
    ensures WritersBegun(ExecNext(s, xs))
  {
    ExecFrames(s, xs);
    if xs.Downgrade? { OtherWrite(s, CloseFailed(s.loop.id)); }
  }

  lemma SeenExec(s: State, xs: ExecStep)
    requires SeenNow(s) && SeenBook(s) && WritersBegun(s) && Book(s) && Known(s) && Life(s) && ExecEnabled(s, xs)
    ensures SeenNow(ExecNext(s, xs)) && SeenBook(ExecNext(s, xs)) && WritersBegun(ExecNext(s, xs))
  {
    var s' := ExecNext(s, xs);
    ExecFrames(s, xs);
    ExecWrites(s, xs);
    assert SeenNow(s') by {
      OngoingApart(s);
      ExecMoves(s, xs);
      SeenMoves(HasSeen(s.log.writes, s.loop.id, Primary), HasSeen(s.log.writes, s.loop.id, Shutoff),
                s.actions[s.loop.id], s.log.asked[s.loop.id], s.loop.pc, s'.actions[s.loop.id], s'.loop.pc);
    }
    assert SeenBook(s') by {
      RetiredApart(s);
      OthersKept(s, xs);
      SeenOthers(s, s');
    }
  }

  lemma RetiredApart(s: State)
    requires Book(s) && Known(s) && s.loop.Busy?
    ensures forall id :: id in s.log.retired ==> id != s.loop.id && id in s.actions
  {
    OngoingApart(s);
    assert forall id :: id in s.log.retired ==> id in s.log.begun;
  }

  lemma SeenPing(s: State, ps: PingStep)
    requires SeenNow(s) && SeenBook(s) && WritersBegun(s) && PingEnabled(s, ps)
    ensures SeenNow(PingNext(s, ps)) && SeenBook(PingNext(s, ps)) && WritersBegun(PingNext(s, ps))
  {
    PingFrames(s, ps);
    PingSeesNothing(s, ps);
  }

  /** A write of the ping confirms no command. */
  lemma PingSeesNothing(s: State, ps: PingStep)
    requires PingEnabled(s, ps) && WritersBegun(s)
    ensures forall id, phase :: HasSeen(PingNext(s, ps).log.writes, id, phase) <==> HasSeen(s.log.writes, id, phase)
    ensures WritersBegun(PingNext(s, ps))
  {
    PingFrames(s, ps);
    PingWrites(s, ps);
    if ps.PingApply? { OtherWrite(s, Seen(ByPing(RoundNo(s)), false, s.ping.r.w, |s.net.dispatched|)); }
  }

  lemma SeenRetire(s: State, listed: bool)
    requires SeenNow(s) && SeenBook(s) && AtPc(s)
    requires s.loop.pc.Retiring? || (s.loop.pc.Rejected? && Untouched(s.actions[s.loop.id]))
    ensures SeenNow(DoRetire(s, s.loop.id, listed)) && SeenBook(DoRetire(s, s.loop.id, listed))
  {
  }

  lemma SeenRead(s: State, s': State)
    requires SeenNow(s) && SeenBook(s) && Book(s) && ReadEffect(s, s') && s.loop.pc.Took?
    ensures SeenNow(s') && SeenBook(s')
  {
    OngoingApart(s);
  }

  lemma SeenInstall(s: State)
    requires SeenNow(s) && SeenBook(s) && Book(s) && RunEnabled(s, Install)
    ensures SeenNow(DoInstall(s)) && SeenBook(DoInstall(s))
  {
    OngoingApart(s);
  }

  lemma SeenShutdown(s: State, id: ID)
    requires SeenBook(s) && Book(s) && Known(s) && WritersBegun(s) && RunEnabled(s, BeginShutdown(id))
    ensures SeenNow(DoShutdown(s, id)) && SeenBook(DoShutdown(s, id))
  {
    NotSeenYet(s, id);
    assert forall x :: x in s.log.retired ==> x in s.log.begun && x in s.log.asked;
  }

  lemma SeenRun(s: State, rs: RunStep)
    requires SeenNow(s) && SeenBook(s) && WritersBegun(s) && Book(s) && Known(s) && Life(s) && RunEnabled(s, rs)
    ensures SeenNow(RunNext(s, rs)) && SeenBook(RunNext(s, rs))
  {
    match rs
    case Dequeue => HeadOnce(s.queue); NotSeenYet(s, s.queue.items[0]);
    case BeginShutdown(id) => SeenShutdown(s, id);
    case StopRun =>
    case ReadConfig => ReadFrames(s); SeenRead(s, DoReadConfig(s));
    case Install => SeenInstall(s);
    case Reject => OngoingApart(s); SeenRetire(s, true);
    case Leave =>
    case Retire => SeenRetire(s, !s.actions[s.loop.id].IsInternalSafetyPing());
  }

  lemma SeenEnv(s: State, e: EnvStep)
    requires SeenNow(s) && SeenBook(s) && Book(s) && Known(s) && EnvEnabled(s, e)
    ensures SeenNow(EnvNext(s, e)) && SeenBook(EnvNext(s, e))
  {
    if e.Request? {
      if s.loop.Busy? { OngoingApart(s); }
      assert forall x :: x in s.log.retired ==> x in s.log.begun && x in s.log.asked;
    }
  }
}
