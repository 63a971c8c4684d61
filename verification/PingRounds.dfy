/** The keep-closed ping: what one tick sends, and when it keeps quiet. */
module PingRounds {
  import opened Options
  import opened Device
  import opened Actions
  import opened Machine
  import opened Books
  import opened Lifecycle

  /** Rounds own consecutive blocks of the ping's send log, each as long as the
      repeat count of the config it read; only the last may be incomplete. */
  ghost predicate RoundsTiled(rounds: seq<RoundLog>, pings: seq<PingSend>) {
    && (rounds != [] ==> rounds[0].base == 0)
    && (forall k :: 0 <= k < |rounds| - 1 ==> rounds[k + 1].base == rounds[k].base + rounds[k].seen.CloseSends())
    && (forall k :: 0 <= k < |rounds| ==> rounds[k].base <= |pings|)
    && (forall k, j :: 0 <= k < |rounds| && rounds[k].base <= j < rounds[k].base + rounds[k].seen.CloseSends() &&
                       j < |pings| ==>
          ToDevice(pings[j], rounds[k].seen))
    && |pings| <= RoundTotal(rounds)
  }

  predicate ToDevice(x: PingSend, seen: ValveInfo) { x.bridge == seen.bridgeName && x.target == seen.CommandTarget() }

  function RoundTotal(rounds: seq<RoundLog>): nat {
    if rounds == [] then 0 else rounds[|rounds| - 1].base + rounds[|rounds| - 1].seen.CloseSends()
  }

  /** In the middle of a round's send calls. */
  predicate Unfinished(p: Ping) { p.InRound? && (p.pp.PBegun? || p.pp.PToSend? || p.pp.PInSend? || p.pp.PGap?) }

  function Made(p: Ping): nat
    requires p.InRound?
  {
    if p.pp.PBegun? then 0 else if p.pp.PInSend? then p.r.i + 1 else p.r.i
  }

  ghost predicate Rounds(s: State) {
    && RoundsTiled(s.log.rounds, s.log.pings)
    && (!Unfinished(s.ping) ==> |s.log.pings| == RoundTotal(s.log.rounds))
    && (Unfinished(s.ping) ==>
          && s.log.rounds != []
          && (var l, r := s.log.rounds[|s.log.rounds| - 1], s.ping.r;
              && r.bridge == l.seen.bridgeName && r.target == l.seen.CommandTarget() && r.sends == l.seen.CloseSends()
              && |s.log.pings| == l.base + Made(s.ping) && r.i < r.sends && (s.ping.pp.PBegun? ==> r.i == 0)))
  }

  lemma RoundsBegin(rounds: seq<RoundLog>, pings: seq<PingSend>, l: RoundLog)
    requires RoundsTiled(rounds, pings) && |pings| == RoundTotal(rounds) && l.base == |pings|
    ensures RoundsTiled(rounds + [l], pings)
  {
    var rs := rounds + [l];
    forall k | 0 <= k < |rs| - 1 ensures rs[k + 1].base == rs[k].base + rs[k].seen.CloseSends() { }
  }

  lemma RoundsSend(rounds: seq<RoundLog>, pings: seq<PingSend>, x: PingSend)
    requires RoundsTiled(rounds, pings) && rounds != []
    requires var l := rounds[|rounds| - 1]; |pings| < l.base + l.seen.CloseSends() && ToDevice(x, l.seen)
    ensures RoundsTiled(rounds, pings + [x])
  {
    var n := |rounds| - 1;
    forall k | 0 <= k < n ensures rounds[k].base + rounds[k].seen.CloseSends() <= |pings| {
      assert rounds[k + 1].base <= |pings|;
    }
    forall k, j | 0 <= k < |rounds| && rounds[k].base <= j < rounds[k].base + rounds[k].seen.CloseSends()
        && j < |pings| + 1
      ensures ToDevice((pings + [x])[j], rounds[k].seen)
    {
    }
  }

  lemma RoundsDecide(s: State)
    requires Rounds(s) && PingEnabled(s, PingDecide)
    ensures Rounds(DoPingDecide(s))
  {
    if !Suppressed(s, s.ping.cur) { RoundsStart(s, DoPingDecide(s)); }
  }

  lemma RoundsStart(s: State, s': State)
    requires Rounds(s) && s.ping.Snapped? && s'.ping == InRound(RoundOf(s.ping.seen), PBegun)
    requires var l := RoundLog(s.ping.seen, |s.log.pings|, |s.net.dispatched|);
             s'.log.rounds == s.log.rounds + [l] && s'.log.pings == s.log.pings
    ensures Rounds(s')
  {
    RoundsBegin(s.log.rounds, s.log.pings, RoundLog(s.ping.seen, |s.log.pings|, |s.net.dispatched|));
  }

  lemma RoundsSendBegin(s: State)
    requires Rounds(s) && PingEnabled(s, PingSendBegin)
    ensures Rounds(PingNext(s, PingSendBegin))
  {
    RoundsSend(s.log.rounds, s.log.pings, PingSend(s.ping.r.bridge, s.ping.r.target, s.now));
  }

  lemma RoundsPing(s: State, ps: PingStep)
    requires Rounds(s) && PingEnabled(s, ps)
    ensures Rounds(PingNext(s, ps))
  {
    match ps
    case PingDecide => RoundsDecide(s);
    case PingSendBegin => RoundsSendBegin(s);
    case _ => RoundsMove(s, ps);
  }

  lemma RoundsMove(s: State, ps: PingStep)
    requires Rounds(s) && PingEnabled(s, ps) && !ps.PingDecide? && !ps.PingSendBegin?
    ensures Rounds(PingNext(s, ps))
  {
    PingBooksStay(s, ps);
    var s' := PingNext(s, ps);
    assert Unfinished(s'.ping) <==> Unfinished(s.ping) && !(ps.PingSendEnd? && s.ping.r.i + 1 >= s.ping.r.sends);
  }

  lemma PingBooksStay(s: State, ps: PingStep)
    requires PingEnabled(s, ps) && !ps.PingDecide? && !ps.PingSendBegin?
    ensures PingNext(s, ps).log.rounds == s.log.rounds && PingNext(s, ps).log.pings == s.log.pings
  {
  }

  lemma RoundsKept(s: State, s': State)
    requires Rounds(s) && s'.ping == s.ping && s'.log.rounds == s.log.rounds && s'.log.pings == s.log.pings
    ensures Rounds(s')
  {
  }

  // ----- the suppression check

  /** A timed open is being held, or closed by its own execution. */
  predicate HoldPc(pc: ExecPc) {
    pc.Expiring? || pc.Announcing? || pc.Holding? || (pc.Calling? && pc.c.phase.Shutoff?)
  }

  /** No OFF of this tick is still to come while id is held: the ping is between ticks, has
      read id as the current action, or its last send call has been made. */
  predicate Quiet(p: Ping, id: ID) {
    match p
    case PIdle => true
    case Snapped(cur, _) => cur == Some(id)
    case InRound(r, pp) =>
      pp.PReceiving? || pp.PProved? || pp.PGranted? || pp.PWriting? || (pp.PInSend? && r.i + 1 >= r.sends)
  }

  /** While a timed open is held, a quiet ping stays quiet. */
  lemma QuietPing(s: State, ps: PingStep)
    requires Slot(s) && Life(s) && Book(s) && Known(s) && s.loop.Busy? && HoldPc(s.loop.pc)
    requires Quiet(s.ping, s.loop.id) && PingEnabled(s, ps)
    ensures Quiet(PingNext(s, ps).ping, s.loop.id)
    ensures PingNext(s, ps).log.pings == s.log.pings
  {
    if ps.PingSnapshot? || ps.PingDecide? {
      OngoingApart(s);
      assert HeldOpen(s.actions[s.loop.id]);
    } else {
      QuietMove(s, ps, s.loop.id);
    }
  }

  lemma QuietMove(s: State, ps: PingStep, id: ID)
    requires Quiet(s.ping, id) && PingEnabled(s, ps) && !ps.PingSnapshot? && !ps.PingDecide?
    ensures Quiet(PingNext(s, ps).ping, id) && PingNext(s, ps).log.pings == s.log.pings
  {
  }
}
