/** When an attempt succeeds: at least one publish went through and its waiter was
    confirmed, no more and no less. */
module Verdicts {
  import opened Actions
  import opened Machine
  import opened Frames
  import opened Evidence
  import W = Waiters

  ghost predicate Confirmed(n: W.Net, w: nat) {
    w < |n.waiters| && n.waiters[w].outcome.Some? && n.waiters[w].outcome.value.Confirmed?
  }

  /** What is known about the attempts so far. */
  datatype Tries = Tries(attempts: seq<AttemptLog>, waits: map<nat, nat>, published: set<nat>, verdicts: map<nat, bool>)

  function TriesOf(log: Log): Tries { Tries(log.attempts, log.waits, log.published, log.verdicts) }

  /** The waiter of attempt k waits for what the attempt commanded. */
  ghost predicate Aimed(n: W.Net, t: Tries) {
    forall k :: k in t.waits ==>
      && k < |t.attempts|
      && WaitsFor(n, t.waits[k], t.attempts[k].seen.CommandTarget(), t.attempts[k].power)
      && t.attempts[k].since <= n.waiters[t.waits[k]].since
  }

  ghost predicate Dated(n: W.Net, t: Tries) {
    forall k :: 0 <= k < |t.attempts| ==> t.attempts[k].since <= |n.dispatched|
  }

  ghost predicate VerdictOk(n: W.Net, t: Tries, k: nat) {
    && k < |t.attempts| && k in t.waits && k in t.verdicts
    && (t.verdicts[k] <==> k in t.published && Confirmed(n, t.waits[k]))
    && (k in t.published ==> t.waits[k] < |n.waiters| && n.waiters[t.waits[k]].outcome.Some?)
  }

  ghost predicate Ruled(n: W.Net, t: Tries) {
    && Aimed(n, t) && Dated(n, t)
    && (forall k :: k in t.published ==> k < |t.attempts|)
    && (forall k :: k in t.verdicts ==> VerdictOk(n, t, k))
  }

  /** Between the registration of an attempt's waiter and its verdict. */
  predicate Trying(cp: CallPc) { cp.ToSend? || cp.InSend? || cp.Gap? || cp.Receiving? || cp.Proved? }

  predicate InTry(l: Loop) { l.Busy? && l.pc.Calling? && (l.pc.cp.Begun? || Trying(l.pc.cp)) }

  /** The attempt being made, the last one, has no verdict yet. */
  ghost predicate Open(t: Tries, c: Call, cp: CallPc)
    requires cp.Begun? || Trying(cp)
  {
    && t.attempts != []
    && (var k, at := |t.attempts| - 1, cp.at;
        && k !in t.verdicts
        && at.target == t.attempts[k].seen.CommandTarget() && c.power == t.attempts[k].power
        && (cp.Begun? ==> k !in t.published && !at.published)
        && (Trying(cp) ==> k in t.waits && t.waits[k] == at.w && (k in t.published <==> at.published)))
  }

  ghost predicate TryPoint(l: Loop, t: Tries) {
    if InTry(l)
    then Open(t, l.pc.c, l.pc.cp) && forall j :: 0 <= j < |t.attempts| - 1 ==> j in t.verdicts
    else forall j :: 0 <= j < |t.attempts| ==> j in t.verdicts
  }

  ghost predicate Rulings(s: State) { Ruled(s.net, TriesOf(s.log)) && TryPoint(s.loop, TriesOf(s.log)) }

  lemma RuledKept(n: W.Net, n': W.Net, t: Tries)
    requires Ruled(n, t) && W.Extends(n, n')
    ensures Ruled(n', t)
  {
    forall k | k in t.waits
      ensures && k < |t.attempts|
              && WaitsFor(n', t.waits[k], t.attempts[k].seen.CommandTarget(), t.attempts[k].power)
              && t.attempts[k].since <= n'.waiters[t.waits[k]].since {
      WaitsStay(n, n', t.waits[k], t.attempts[k].seen.CommandTarget(), t.attempts[k].power);
      assert W.SameWait(n.waiters[t.waits[k]], n'.waiters[t.waits[k]]);
    }
    forall k | k in t.verdicts ensures VerdictOk(n', t, k) {
      assert VerdictOk(n, t, k);
      if k in t.published { assert W.SameWait(n.waiters[t.waits[k]], n'.waiters[t.waits[k]]); }
    }
  }

  lemma RulingsKept(s: State, s': State)
    requires Rulings(s) && s'.loop == s.loop && W.Extends(s.net, s'.net) && TriesOf(s'.log) == TriesOf(s.log)
    ensures Rulings(s')
  {
    RuledKept(s.net, s'.net, TriesOf(s.log));
  }

  /** Outside of attempts nothing is judged. */
  lemma RulingsIdle(s: State, s': State)
    requires Rulings(s) && s'.net == s.net && TriesOf(s'.log) == TriesOf(s.log) && !InTry(s.loop) && !InTry(s'.loop)
    ensures Rulings(s')
  {
  }

  lemma RuledBegin(n: W.Net, t: Tries, a: AttemptLog)
    requires Ruled(n, t) && a.since <= |n.dispatched|
    ensures Ruled(n, t.(attempts := t.attempts + [a]))
  {
    forall k | k in t.verdicts ensures VerdictOk(n, t.(attempts := t.attempts + [a]), k) { assert VerdictOk(n, t, k); }
  }

  lemma RuledRegister(n: W.Net, t: Tries, w: nat)
    requires Ruled(n, t) && t.attempts != [] && |t.attempts| - 1 !in t.verdicts
    requires var a := t.attempts[|t.attempts| - 1];
             WaitsFor(n, w, a.seen.CommandTarget(), a.power) && a.since <= n.waiters[w].since
    ensures Ruled(n, t.(waits := t.waits[|t.attempts| - 1 := w]))
  {
    var t' := t.(waits := t.waits[|t.attempts| - 1 := w]);
    forall k | k in t.verdicts ensures VerdictOk(n, t', k) { assert VerdictOk(n, t, k); }
  }

  lemma RuledPublished(n: W.Net, t: Tries, k: nat)
    requires Ruled(n, t) && k < |t.attempts| && k !in t.verdicts
    ensures Ruled(n, t.(published := t.published + {k}))
  {
    var t' := t.(published := t.published + {k});
    forall j | j in t.verdicts ensures VerdictOk(n, t', j) { assert VerdictOk(n, t, j); }
  }

  /** A verdict on the attempt being made. */
  lemma RuledJudge(n: W.Net, t: Tries, k: nat, success: bool)
    requires Ruled(n, t) && k < |t.attempts| && k in t.waits && k !in t.verdicts
    requires success <==> k in t.published && Confirmed(n, t.waits[k])
    requires k in t.published ==> n.waiters[t.waits[k]].outcome.Some?
    ensures Ruled(n, t.(verdicts := t.verdicts[k := success]))
  {
    var t' := t.(verdicts := t.verdicts[k := success]);
    forall j | j in t'.verdicts ensures VerdictOk(n, t', j) {
      if j != k { assert VerdictOk(n, t, j); }
    }
  }

  lemma RulingsBegin(s: State)
    requires Rulings(s) && CallEnabled(s, BeginAttempt)
    ensures Rulings(DoBeginAttempt(s))
  {
    var t, a := TriesOf(s.log), NewAttempt(s);
    RuledBegin(s.net, t, a);
    assert TriesOf(DoBeginAttempt(s).log) == t.(attempts := t.attempts + [a]);
    assert |t.attempts| !in t.verdicts && |t.attempts| !in t.published;
  }

  ghost predicate RegisterEffect(s: State, s': State) {
    && s.loop.Busy? && s.loop.pc.Calling? && s.loop.pc.cp.Begun? && s.log.attempts != []
    && s'.loop == s.loop.(pc := Calling(s.loop.pc.c, ToSend(s.loop.pc.cp.at.(w := |s.net.waiters|))))
    && WaitsFor(s'.net, |s.net.waiters|, s.loop.pc.cp.at.target, s.loop.pc.c.power)
    && s'.net.waiters[|s.net.waiters|].since == |s.net.dispatched|
    && W.Extends(s.net, s'.net)
    && TriesOf(s'.log) == TriesOf(s.log).(waits := s.log.waits[|s.log.attempts| - 1 := |s.net.waiters|])
  }

  lemma RegisterRuled(s: State, s': State)
    requires Rulings(s) && RegisterEffect(s, s')
    ensures Rulings(s')
  {
    var t := TriesOf(s.log);
    assert Open(t, s.loop.pc.c, s.loop.pc.cp);
    RuledKept(s.net, s'.net, t);
    RuledRegister(s'.net, t, |s.net.waiters|);
    RegisterPoint(t, s.loop, s'.loop, |s.net.waiters|);
  }

  lemma RegisterPoint(t: Tries, l: Loop, l': Loop, w: nat)
    requires TryPoint(l, t) && l.Busy? && l.pc.Calling? && l.pc.cp.Begun?
    requires l' == l.(pc := Calling(l.pc.c, ToSend(l.pc.cp.at.(w := w))))
    ensures t.attempts != [] && TryPoint(l', t.(waits := t.waits[|t.attempts| - 1 := w]))
  {
    assert Open(t, l.pc.c, l.pc.cp);
  }

  lemma RulingsRegister(s: State)
    requires Rulings(s) && W.NInv(s.net) && CallEnabled(s, RegisterWaiter)
    ensures Rulings(DoRegister(s))
  {
    NetRegister(s);
    assert Open(TriesOf(s.log), s.loop.pc.c, s.loop.pc.cp);
    RegisterRuled(s, DoRegister(s));
  }

  /** What the end of a send leaves behind, while the attempt goes on ... */
  ghost predicate SendEndOpen(s: State, s': State, ok: bool) {
    && s.loop.Busy? && s.loop.pc.Calling? && s.loop.pc.cp.InSend? && s.log.attempts != []
    && s'.loop.Busy? && s'.loop.pc.Calling? && s'.loop.pc.c == s.loop.pc.c && s'.net == s.net && Trying(s'.loop.pc.cp)
    && s'.loop.pc.cp.at == s.loop.pc.cp.at.(i := s.loop.pc.cp.at.i + 1, published := s.loop.pc.cp.at.published || ok)
    && TriesOf(s'.log) ==
       (if ok then TriesOf(s.log).(published := s.log.published + {|s.log.attempts| - 1}) else TriesOf(s.log))
  }

  /** ... and when no publish went through. */
  ghost predicate AttemptLost(s: State, s': State, w: nat) {
    && s.log.attempts != [] && w < |s.net.waiters|
    && s'.loop.Busy? && s'.loop.pc.Calling? && !InTry(s'.loop) && s'.net == W.Stop(s.net, w)
    && TriesOf(s'.log) == TriesOf(s.log).(verdicts := s.log.verdicts[|s.log.attempts| - 1 := false])
  }

  lemma SendEndEffect(s: State, ok: bool)
    requires CallEnabled(s, SendEnd(ok)) && s.log.attempts != []
    ensures var at := s.loop.pc.cp.at;
            if at.i + 1 < at.sends || at.published || ok then SendEndOpen(s, DoSendEnd(s, ok), ok)
            else AttemptLost(s, DoSendEnd(s, ok), at.w)
  {
  }

  lemma OpenRuled(s: State, s': State, ok: bool)
    requires Rulings(s) && SendEndOpen(s, s', ok)
    ensures Rulings(s')
  {
    var t, k := TriesOf(s.log), |s.log.attempts| - 1;
    assert Open(t, s.loop.pc.c, s.loop.pc.cp);
    RuledPublished(s.net, t, k);
    OpenPoint(t, s.loop, s'.loop, ok);
  }

  lemma OpenPoint(t: Tries, l: Loop, l': Loop, ok: bool)
    requires TryPoint(l, t) && l.Busy? && l.pc.Calling? && l.pc.cp.InSend? && t.attempts != []
    requires l'.Busy? && l'.pc.Calling? && l'.pc.c == l.pc.c && Trying(l'.pc.cp)
    requires l'.pc.cp.at == l.pc.cp.at.(i := l.pc.cp.at.i + 1, published := l.pc.cp.at.published || ok)
    ensures TryPoint(l', if ok then t.(published := t.published + {|t.attempts| - 1}) else t)
  {
    assert Open(t, l.pc.c, l.pc.cp);
  }

  lemma LostRuled(s: State, s': State, w: nat)
    requires Rulings(s) && W.NInv(s.net) && AttemptLost(s, s', w) && InTry(s.loop) && Trying(s.loop.pc.cp)
    requires w == s.loop.pc.cp.at.w
    requires !Confirmed(s.net, w) || !s.loop.pc.cp.at.published
    requires s.loop.pc.cp.at.published ==> s.net.waiters[w].outcome.Some?
    ensures Rulings(s')
  {
    var t, k := TriesOf(s.log), |s.log.attempts| - 1;
    assert Ruled(s'.net, t.(verdicts := t.verdicts[k := false])) by { LostJudged(s.net, t, s.loop, k); }
    AllJudged(t, s.loop, s'.loop, false);
  }

  lemma LostJudged(n: W.Net, t: Tries, l: Loop, k: nat)
    requires Ruled(n, t) && W.NInv(n) && TryPoint(l, t) && InTry(l) && Trying(l.pc.cp) && k + 1 == |t.attempts|
    requires l.pc.cp.at.w < |n.waiters|
    requires !Confirmed(n, l.pc.cp.at.w) || !l.pc.cp.at.published
    requires l.pc.cp.at.published ==> n.waiters[l.pc.cp.at.w].outcome.Some?
    ensures Ruled(W.Stop(n, l.pc.cp.at.w), t.(verdicts := t.verdicts[k := false]))
  {
    assert Open(t, l.pc.c, l.pc.cp);
    StopRuled(n, t, l.pc.cp.at.w);
    RuledJudge(W.Stop(n, l.pc.cp.at.w), t, k, false);
  }

  lemma AllJudged(t: Tries, l: Loop, l': Loop, success: bool)
    requires TryPoint(l, t) && InTry(l) && !InTry(l')
    ensures TryPoint(l', t.(verdicts := t.verdicts[|t.attempts| - 1 := success]))
  {
  }

  lemma StopRuled(n: W.Net, t: Tries, w: nat)
    requires Ruled(n, t) && W.NInv(n) && w < |n.waiters|
    ensures Ruled(W.Stop(n, w), t) && W.Stop(n, w).waiters[w].outcome == n.waiters[w].outcome
  {
    W.StopKeeps(n, w);
    RuledKept(n, W.Stop(n, w), t);
  }

  lemma RulingsSendEnd(s: State, ok: bool)
    requires Rulings(s) && W.NInv(s.net) && CallEnabled(s, SendEnd(ok))
    ensures Rulings(DoSendEnd(s, ok))
  {
    var at := s.loop.pc.cp.at;
    assert Open(TriesOf(s.log), s.loop.pc.c, s.loop.pc.cp);
    SendEndEffect(s, ok);
    if at.i + 1 < at.sends || at.published || ok { OpenRuled(s, DoSendEnd(s, ok), ok); }
    else { LostRuled(s, DoSendEnd(s, ok), at.w); }
  }

  ghost predicate AttemptProved(s: State, s': State, at: Attempt) {
    && s.loop.Busy? && s.loop.pc.Calling? && s.log.attempts != [] && at.w < |s.net.waiters|
    && s'.loop == s.loop.(pc := Calling(s.loop.pc.c, Proved(at)))
    && s'.net == W.Stop(s.net, at.w) && TriesOf(s'.log) == TriesOf(s.log)
  }

  lemma ReceiveProved(s: State)
    requires CallEnabled(s, Receive) && s.log.attempts != [] && Confirmed(s.net, s.loop.pc.cp.at.w)
    ensures AttemptProved(s, DoReceive(s), s.loop.pc.cp.at)
  {
  }

  lemma ReceiveLost(s: State)
    requires CallEnabled(s, Receive) && s.log.attempts != [] && !Confirmed(s.net, s.loop.pc.cp.at.w)
    ensures AttemptLost(s, DoReceive(s), s.loop.pc.cp.at.w)
  {
  }

  lemma ProvedRuled(s: State, s': State, at: Attempt)
    requires Rulings(s) && W.NInv(s.net) && AttemptProved(s, s', at) && s.loop.pc.cp == Receiving(at)
    ensures Rulings(s')
  {
    assert Open(TriesOf(s.log), s.loop.pc.c, s.loop.pc.cp);
    StopRuled(s.net, TriesOf(s.log), at.w);
  }

  lemma RulingsReceive(s: State)
    requires Rulings(s) && LoopWaits(s) && W.NInv(s.net) && CallEnabled(s, Receive)
    ensures Rulings(DoReceive(s))
  {
    var at := s.loop.pc.cp.at;
    assert Open(TriesOf(s.log), s.loop.pc.c, s.loop.pc.cp);
    if Confirmed(s.net, at.w) {
      ReceiveProved(s);
      ProvedRuled(s, DoReceive(s), at);
    } else {
      ReceiveLost(s);
      LostRuled(s, DoReceive(s), at.w);
    }
  }

  lemma ProvedConfirmed(s: State)
    requires Rulings(s) && LoopWaits(s) && s.loop.Busy? && s.loop.pc.Calling? && s.loop.pc.cp.Proved?
    ensures s.log.attempts != []
    ensures var k := |s.log.attempts| - 1;
            k !in s.log.verdicts && k in s.log.waits && k in s.log.published && Confirmed(s.net, s.log.waits[k])
  {
    assert Open(TriesOf(s.log), s.loop.pc.c, s.loop.pc.cp);
  }

  lemma RulingsApply(s: State)
    requires Rulings(s) && LoopWaits(s) && CallEnabled(s, Apply)
    ensures Rulings(CallNext(s, Apply))
  {
    ProvedConfirmed(s);
    ApplyTries(s);
    SuccessRuled(s, CallNext(s, Apply));
  }

  lemma SuccessRuled(s: State, s': State)
    requires Rulings(s) && s.log.attempts != [] && InTry(s.loop) && !InTry(s'.loop) && s'.net == s.net
    requires var k := |s.log.attempts| - 1;
             && k !in s.log.verdicts && k in s.log.waits && k in s.log.published && Confirmed(s.net, s.log.waits[k])
             && TriesOf(s'.log) == TriesOf(s.log).(verdicts := s.log.verdicts[k := true])
    ensures Rulings(s')
  {
    RuledJudge(s.net, TriesOf(s.log), |s.log.attempts| - 1, true);
    AllJudged(TriesOf(s.log), s.loop, s'.loop, true);
  }

  lemma ApplyTries(s: State)
    requires CallEnabled(s, Apply) && s.log.attempts != []
    ensures CallNext(s, Apply).net == s.net && InTry(s.loop) && !InTry(CallNext(s, Apply).loop)
    ensures TriesOf(CallNext(s, Apply).log)
            == TriesOf(s.log).(verdicts := s.log.verdicts[|s.log.attempts| - 1 := true])
  {
  }

  ghost predicate MoveEffect(s: State, s': State) {
    && TriesOf(s'.log) == TriesOf(s.log) && s'.net == s.net && InTry(s'.loop) == InTry(s.loop)
    && (InTry(s.loop) ==> s'.loop.pc.c == s.loop.pc.c && s'.loop.pc.cp.at == s.loop.pc.cp.at
                          && Trying(s.loop.pc.cp) && Trying(s'.loop.pc.cp))
  }

  lemma MoveRuled(s: State, s': State)
    requires Rulings(s) && MoveEffect(s, s')
    ensures Rulings(s')
  {
  }

  lemma RulingsMove(s: State, cs: CallStep)
    requires Rulings(s) && CallEnabled(s, cs) && (cs.GiveUp? || cs.SendBegin? || cs.GapEnd? || cs.ApplyEnd?)
    ensures Rulings(CallNext(s, cs))
  {
    MoveRuled(s, CallNext(s, cs));
  }

  lemma RulingsCall(s: State, cs: CallStep)
    requires Rulings(s) && LoopWaits(s) && W.NInv(s.net) && CallEnabled(s, cs)
    ensures Rulings(CallNext(s, cs))
  {
    match cs
    case BeginAttempt => RulingsBegin(s);
    case RegisterWaiter => RulingsRegister(s);
    case SendEnd(ok) => RulingsSendEnd(s, ok);
    case Receive => RulingsReceive(s);
    case Apply => RulingsApply(s);
    case _ => RulingsMove(s, cs);
  }

  // ----- writes rest on verdicts

  /** Every confirmation the loop recorded is that of a successful attempt. */
  ghost predicate WritesRuled(log: Log) {
    forall i :: 0 <= i < |log.writes| && log.writes[i].Seen? && log.writes[i].who.ByAction? ==>
      RuledWrite(log, log.writes[i])
  }

  ghost predicate RuledWrite(log: Log, wr: Write)
    requires wr.Seen? && wr.who.ByAction?
  {
    var k := wr.who.k;
    && k < |log.attempts| && k in log.verdicts && log.verdicts[k] && k in log.waits && log.waits[k] == wr.w
    && log.attempts[k].id == wr.who.id && log.attempts[k].phase == wr.who.phase && log.attempts[k].power == wr.open
  }

  /** Every confirmation the ping recorded is that of its round. */
  ghost predicate WritesPinged(n: W.Net, log: Log) {
    forall i :: 0 <= i < |log.writes| && log.writes[i].Seen? && log.writes[i].who.ByPing? ==>
      PingedWrite(n, log, log.writes[i])
  }

  ghost predicate PingedWrite(n: W.Net, log: Log, wr: Write)
    requires wr.Seen? && wr.who.ByPing?
  {
    && wr.who.k < |log.rounds|
    && WaitsFor(n, wr.w, log.rounds[wr.who.k].seen.CommandTarget(), false)
    && log.rounds[wr.who.k].since <= n.waiters[wr.w].since
  }

  /** Every successful attempt was recorded. */
  ghost predicate VerdictsWritten(log: Log) {
    forall k :: k in log.verdicts && log.verdicts[k] && k < |log.attempts| ==> WrittenVerdict(log, k)
  }

  ghost predicate WrittenVerdict(log: Log, k: nat)
    requires k < |log.attempts|
  {
    exists i :: 0 <= i < |log.writes| && log.writes[i].Seen?
                && log.writes[i].who == ByAction(log.attempts[k].id, log.attempts[k].phase, k)
  }

  ghost predicate Written(s: State) { WritesRuled(s.log) && WritesPinged(s.net, s.log) && VerdictsWritten(s.log) }

  lemma VerdictStaysWritten(log: Log, log': Log, k: nat)
    requires k < |log.attempts| && WrittenVerdict(log, k)
    requires |log.writes| <= |log'.writes| && log'.writes[..|log.writes|] == log.writes
    requires |log.attempts| <= |log'.attempts| && log'.attempts[..|log.attempts|] == log.attempts
    ensures WrittenVerdict(log', k)
  {
    var i :| 0 <= i < |log.writes| && log.writes[i].Seen?
             && log.writes[i].who == ByAction(log.attempts[k].id, log.attempts[k].phase, k);
    assert log'.writes[i] == log'.writes[..|log.writes|][i];
    assert log'.attempts[k] == log'.attempts[..|log.attempts|][k];
  }

  lemma WrittenApply(s: State)
    requires Written(s) && Rulings(s) && CallEnabled(s, Apply)
    requires LastIs(s.log.attempts, s.loop.id, s.loop.pc.c.phase)
    ensures Written(DoApply(s))
  {
    NotJudged(s);
    ApplyRuled(s);
    WrittenBy(s, DoApply(s), AttemptNo(s), Applied(s), CallDone(s, s.loop.pc.c));
  }

  /** The write the Apply step makes. */
  function Applied(s: State): Write
    requires CallEnabled(s, Apply)
  {
    Seen(ByAction(s.loop.id, s.loop.pc.c.phase, AttemptNo(s)), s.loop.pc.c.power, s.loop.pc.cp.at.w, |s.net.dispatched|)
  }

  lemma ApplyRuled(s: State)
    requires Rulings(s) && CallEnabled(s, Apply) && LastIs(s.log.attempts, s.loop.id, s.loop.pc.c.phase)
    ensures RuledWrite(Judge(s.log, AttemptNo(s), true, CallDone(s, s.loop.pc.c)), Applied(s))
  {
    assert Open(TriesOf(s.log), s.loop.pc.c, s.loop.pc.cp);
  }

  /** One more write, of a judged attempt. */
  lemma WrittenBy(s: State, s': State, k: nat, wr: Write, ended: bool)
    requires Written(s) && k !in s.log.verdicts && wr.Seen? && wr.who.ByAction?
    requires RuledWrite(Judge(s.log, k, true, ended), wr) && wr.who.k == k
    requires s'.net == s.net
    requires s'.log == Judge(s.log.(writes := s.log.writes + [wr]), k, true, ended).(confirmed := s'.log.confirmed)
    ensures Written(s')
  {
    forall i | 0 <= i < |s'.log.writes| && s'.log.writes[i].Seen? && s'.log.writes[i].who.ByAction?
      ensures RuledWrite(s'.log, s'.log.writes[i]) {
      if i < |s.log.writes| { assert RuledWrite(s.log, s.log.writes[i]); }
    }
    forall i | 0 <= i < |s'.log.writes| && s'.log.writes[i].Seen? && s'.log.writes[i].who.ByPing?
      ensures PingedWrite(s'.net, s'.log, s'.log.writes[i]) {
      assert PingedWrite(s.net, s.log, s.log.writes[i]);
    }
    forall j | j in s'.log.verdicts && s'.log.verdicts[j] && j < |s'.log.attempts| ensures WrittenVerdict(s'.log, j) {
      if j == k {
        assert s'.log.writes[|s.log.writes|] == wr;
      } else {
        VerdictStaysWritten(s.log, s'.log, j);
      }
    }
  }

  ghost predicate LastIs(attempts: seq<AttemptLog>, id: ID, phase: Phase) {
    attempts != [] && attempts[|attempts| - 1].id == id && attempts[|attempts| - 1].phase == phase
  }

  lemma JudgedAttempts(s: State)
    requires Rulings(s)
    ensures forall k :: k in s.log.verdicts ==> k < |s.log.attempts|
  {
    forall k | k in s.log.verdicts ensures k < |s.log.attempts| { assert VerdictOk(s.net, TriesOf(s.log), k); }
  }

  /** Attempts, verdicts and rounds are only added to. */
  lemma WrittenGrows(s: State, s': State)
    requires Written(s) && s'.log.writes == s.log.writes && W.Extends(s.net, s'.net)
    requires |s.log.attempts| <= |s'.log.attempts| && s'.log.attempts[..|s.log.attempts|] == s.log.attempts
    requires |s.log.rounds| <= |s'.log.rounds| && s'.log.rounds[..|s.log.rounds|] == s.log.rounds
    requires forall k :: k in s.log.verdicts ==> k in s'.log.verdicts && s'.log.verdicts[k] == s.log.verdicts[k]
    requires forall k :: k in s'.log.verdicts && s'.log.verdicts[k] ==> k in s.log.verdicts && k < |s.log.attempts|
    requires forall k :: k in s.log.verdicts && k in s.log.waits ==>
               k in s'.log.waits && s'.log.waits[k] == s.log.waits[k]
    ensures Written(s')
  {
    forall i | 0 <= i < |s'.log.writes| && s'.log.writes[i].Seen? && s'.log.writes[i].who.ByAction?
      ensures RuledWrite(s'.log, s'.log.writes[i]) {
      var k := s.log.writes[i].who.k;
      assert RuledWrite(s.log, s.log.writes[i]);
      assert s'.log.attempts[k] == s'.log.attempts[..|s.log.attempts|][k];
    }
    forall i | 0 <= i < |s'.log.writes| && s'.log.writes[i].Seen? && s'.log.writes[i].who.ByPing?
      ensures PingedWrite(s'.net, s'.log, s'.log.writes[i]) {
      var wr := s.log.writes[i];
      assert PingedWrite(s.net, s.log, wr);
      assert s'.log.rounds[wr.who.k] == s'.log.rounds[..|s.log.rounds|][wr.who.k];
      WaitsStay(s.net, s'.net, wr.w, s.log.rounds[wr.who.k].seen.CommandTarget(), false);
      assert W.SameWait(s.net.waiters[wr.w], s'.net.waiters[wr.w]);
    }
    forall k | k in s'.log.verdicts && s'.log.verdicts[k] && k < |s'.log.attempts| ensures WrittenVerdict(s'.log, k) {
      VerdictStaysWritten(s.log, s'.log, k);
    }
  }

  /** Attempts grow; a verdict, and the waiter of a judged attempt, stay. */
  ghost predicate TriesGrow(t: Tries, t': Tries) {
    && |t.attempts| <= |t'.attempts| && t'.attempts[..|t.attempts|] == t.attempts
    && (forall k :: k in t.verdicts ==> k in t'.verdicts && t'.verdicts[k] == t.verdicts[k])
    && (forall k :: k in t'.verdicts && t'.verdicts[k] ==> k in t.verdicts)
    && (forall k :: k in t.verdicts && k in t.waits ==> k in t'.waits && t'.waits[k] == t.waits[k])
  }

  lemma GrowBegin(s: State)
    requires CallEnabled(s, BeginAttempt)
    ensures TriesGrow(TriesOf(s.log), TriesOf(DoBeginAttempt(s).log))
  {
  }

  lemma GrowRegister(s: State)
    requires Rulings(s) && CallEnabled(s, RegisterWaiter)
    ensures TriesGrow(TriesOf(s.log), TriesOf(DoRegister(s).log))
  {
    assert Open(TriesOf(s.log), s.loop.pc.c, s.loop.pc.cp);
  }

  /** At most the attempt being made is judged, as failed. */
  predicate JudgesAt(t: Tries, t': Tries, k: nat) {
    && t'.attempts == t.attempts && t'.waits == t.waits
    && (t'.verdicts == t.verdicts || t'.verdicts == t.verdicts[k := false])
  }

  lemma JudgedGrows(t: Tries, t': Tries, k: nat)
    requires k !in t.verdicts && JudgesAt(t, t', k)
    ensures TriesGrow(t, t')
  {
  }

  lemma SendEndJudges(s: State, ok: bool)
    requires CallEnabled(s, SendEnd(ok))
    ensures JudgesAt(TriesOf(s.log), TriesOf(DoSendEnd(s, ok).log), AttemptNo(s))
  {
  }

  lemma ReceiveJudges(s: State)
    requires CallEnabled(s, Receive)
    ensures JudgesAt(TriesOf(s.log), TriesOf(DoReceive(s).log), AttemptNo(s))
  {
  }

  lemma NotJudged(s: State)
    requires Rulings(s) && InTry(s.loop)
    ensures AttemptNo(s) !in TriesOf(s.log).verdicts
  {
    assert Open(TriesOf(s.log), s.loop.pc.c, s.loop.pc.cp);
  }

  lemma GrowCall(s: State, cs: CallStep)
    requires Rulings(s) && CallEnabled(s, cs) && !cs.Apply?
    ensures TriesGrow(TriesOf(s.log), TriesOf(CallNext(s, cs).log))
  {
    match cs
    case BeginAttempt => GrowBegin(s);
    case RegisterWaiter => GrowRegister(s);
    case SendEnd(ok) =>
      NotJudged(s);
      SendEndJudges(s, ok);
      JudgedGrows(TriesOf(s.log), TriesOf(DoSendEnd(s, ok).log), AttemptNo(s));
    case Receive =>
      NotJudged(s);
      ReceiveJudges(s);
      JudgedGrows(TriesOf(s.log), TriesOf(DoReceive(s).log), AttemptNo(s));
    case _ =>
  }

  lemma WrittenCall(s: State, cs: CallStep)
    requires Written(s) && Rulings(s) && LoopWaits(s) && W.NInv(s.net) && CallEnabled(s, cs)
    requires cs.Apply? ==> LastIs(s.log.attempts, s.loop.id, s.loop.pc.c.phase)
    ensures Written(CallNext(s, cs))
  {
    if cs.Apply? {
      WrittenApply(s);
    } else {
      GrowCall(s, cs);
      JudgedAttempts(s);
      NothingWritten(s, cs);
      WrittenGrows(s, CallNext(s, cs));
    }
  }

  lemma NothingWritten(s: State, cs: CallStep)
    requires W.NInv(s.net) && CallEnabled(s, cs) && !cs.Apply?
    ensures CallNext(s, cs).log.writes == s.log.writes && CallNext(s, cs).log.rounds == s.log.rounds
    ensures W.Extends(s.net, CallNext(s, cs).net)
  {
    CallFrames(s, cs);
    NetCall(s, cs);
    WritesOnlyApply(s, cs);
  }

  lemma WrittenDowngrade(s: State, s': State)
    requires Written(s) && s'.net == s.net
    requires s'.log.writes == s.log.writes || exists id :: s'.log.writes == s.log.writes + [CloseFailed(id)]
    requires s'.log.rounds == s.log.rounds && TriesOf(s'.log) == TriesOf(s.log)
    ensures Written(s')
  {
    forall i | 0 <= i < |s'.log.writes| && s'.log.writes[i].Seen?
      ensures i < |s.log.writes| && s'.log.writes[i] == s.log.writes[i] { }
    forall k | k in s'.log.verdicts && s'.log.verdicts[k] && k < |s'.log.attempts| ensures WrittenVerdict(s'.log, k) {
      VerdictStaysWritten(s.log, s'.log, k);
    }
  }

  lemma WrittenExec(s: State, xs: ExecStep)
    requires Written(s) && ExecEnabled(s, xs)
    ensures Written(ExecNext(s, xs))
  {
    ExecFrames(s, xs);
    WrittenDowngrade(s, ExecNext(s, xs));
  }

  /** The ping's round is the last one logged. */
  ghost predicate PingRound(s: State) {
    s.ping.InRound? ==>
      && s.log.rounds != []
      && (var l := s.log.rounds[|s.log.rounds| - 1];
          && l.seen.CommandTarget() == s.ping.r.target && l.since <= |s.net.dispatched|
          && (!s.ping.pp.PBegun? && !s.ping.pp.PWriting? ==>
                s.ping.r.w < |s.net.waiters| && l.since <= s.net.waiters[s.ping.r.w].since))
  }

  lemma PingRoundKept(s: State, s': State)
    requires PingRound(s) && s'.ping == s.ping && s'.log.rounds == s.log.rounds && W.Extends(s.net, s'.net)
    ensures PingRound(s')
  {
    if s.ping.InRound? && !s.ping.pp.PBegun? && !s.ping.pp.PWriting? {
      assert W.SameWait(s.net.waiters[s.ping.r.w], s'.net.waiters[s.ping.r.w]);
    }
  }

  lemma PingRoundPing(s: State, ps: PingStep)
    requires PingRound(s) && PingEnabled(s, ps)
    ensures PingRound(PingNext(s, ps))
  {
  }

  lemma WrittenPing(s: State, ps: PingStep)
    requires Written(s) && Rulings(s) && PingWaits(s) && PingRound(s) && W.NInv(s.net) && PingEnabled(s, ps)
    ensures Written(PingNext(s, ps))
  {
    if ps.PingApply? {
      WrittenPingApply(s);
    } else {
      PingFrames(s, ps);
      NetPing(s, ps);
      RoundsGrow(s, ps);
      JudgedAttempts(s);
      WrittenGrows(s, PingNext(s, ps));
    }
  }

  lemma RoundsGrow(s: State, ps: PingStep)
    requires PingEnabled(s, ps) && !ps.PingApply?
    ensures var s' := PingNext(s, ps);
            && s'.log.writes == s.log.writes
            && |s.log.rounds| <= |s'.log.rounds| && s'.log.rounds[..|s.log.rounds|] == s.log.rounds
  {
    if ps.PingDecide? { DecideGrows(s); }
  }

  lemma DecideGrows(s: State)
    requires s.ping.Snapped?
    ensures var l := DoPingDecide(s).log;
            l.writes == s.log.writes && |s.log.rounds| <= |l.rounds| && l.rounds[..|s.log.rounds|] == s.log.rounds
  {
    var x := RoundLog(s.ping.seen, |s.log.pings|, |s.net.dispatched|);
    assert DoPingDecide(s).log.rounds == s.log.rounds || DoPingDecide(s).log.rounds == s.log.rounds + [x];
    assert (s.log.rounds + [x])[..|s.log.rounds|] == s.log.rounds;
  }

  lemma WrittenPingApply(s: State)
    requires Written(s) && PingWaits(s) && PingRound(s) && PingEnabled(s, PingApply)
    ensures Written(PingNext(s, PingApply))
  {
    var log, log' := s.log, PingNext(s, PingApply).log;
    forall k | k in log'.verdicts && log'.verdicts[k] && k < |log'.attempts| ensures WrittenVerdict(log', k) {
      VerdictStaysWritten(log, log', k);
    }
  }
}
