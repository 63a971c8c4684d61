/** How long a timed open is held: MaxOpenDuration in time. */
module Limits {
  import opened Options
  import opened Device
  import opened Actions
  import opened Machine
  import opened Reachability
  import HoldRuns
  import Timing
  import Q = ActionQueues
  import T = Traffic
  import W = Waiters

  /** The longest the close of a timed open waits beyond its duration: the status writes of
      lines 379 and 494. */
  const SLACK := 20_000

  /** Every close start is that of a confirmed timed open whose timer was started at most two
      status writes after its confirmation; the close starts when the timer fires, or earlier
      if the action was cancelled. */
  lemma CloseStarts(s: State, id: ID)
    requires PromptlyReachable(s) && id in s.log.closeStarts && id in s.actions
    ensures (id, Primary) in s.log.confirmed && id in s.log.timers && s.actions[id].fulfilledAt.Some?
    ensures var on, timer, done := s.log.confirmed[(id, Primary)], s.log.timers[id], s.actions[id].fulfilledAt.value;
            on <= done <= on + 10_000 && done <= timer <= done + 10_000
    ensures var x, timer := s.log.closeStarts[id], s.log.timers[id];
            && x.time <= timer + s.actions[id].duration
            && (!x.cancelled ==> x.time == timer + s.actions[id].duration)
  {
    assert Timing.Times(s) by { PromptlyReachableInv(s); }
    assert Timing.StartOk(s.log.closeStarts[id], s.actions[id], s.log.timers[id]);
  }

  /** The open id was asked for with a longer duration than the limit its execution read. */
  predicate AskedLonger(s: State, id: ID) {
    && id in s.log.asked && id in s.log.starts
    && s.log.asked[id].typ.OpenTimed? && s.log.asked[id].duration > s.log.starts[id].maxOpenDuration
  }

  /** Under a limit the duration is the requested one, or else the limit. */
  lemma DurationOf(s: State, id: ID)
    requires Reachable(s) && id in s.log.starts && id in s.log.asked && id in s.actions
    requires s.log.starts[id].maxOpenDuration > 0 && s.actions[id].HoldsValveOpen()
    ensures s.actions[id].typ.OpenTimed?
    ensures s.actions[id].duration ==
            if s.log.asked[id].typ.OpenTimed? then s.log.asked[id].duration else s.log.starts[id].maxOpenDuration
  {
    assert T.AllShaped(s) by { ReachableInv(s); }
    assert T.Shaped(s.actions[id], s.log.asked[id], s.log.starts[id]);
  }

  /** MaxOpenDuration against the time a timed open is held. An undisturbed close starts
      within the limit, counted from the confirmation of the ON or from FulfilledAt, exactly
      if the delay of the timer fits between duration and limit. Every close starts within
      the limit and two status writes if no longer duration was requested; and an undisturbed
      one starts after the limit if a longer one was. */
  lemma OpenLimit(s: State, id: ID)
    requires PromptlyReachable(s) && id in s.log.closeStarts && id in s.actions
    requires id in s.log.starts && id in s.log.asked && s.actions[id].HoldsValveOpen()
    requires s.log.starts[id].maxOpenDuration > 0
    ensures (id, Primary) in s.log.confirmed && id in s.log.timers && s.actions[id].fulfilledAt.Some?
    ensures var x, timer, limit := s.log.closeStarts[id], s.log.timers[id], s.log.starts[id].maxOpenDuration;
            var on, done, d := s.log.confirmed[(id, Primary)], s.actions[id].fulfilledAt.value, s.actions[id].duration;
            && (!x.cancelled ==> (x.time <= on + limit <==> timer - on <= limit - d))
            && (!x.cancelled ==> (x.time <= done + limit <==> timer - done <= limit - d))
            && (!AskedLonger(s, id) ==> x.time <= on + limit + SLACK && x.time <= done + limit + 10_000)
            && (AskedLonger(s, id) && !x.cancelled ==> x.time > done + limit)
            && (!AskedLonger(s, id) && s.actions[id].closedAt.Some? ==>
                  s.actions[id].closedAt.value <= on + limit + SLACK + CLOSE_LIMIT + STATUS_LIMIT)
  {
    CloseStarts(s, id);
    PromptlyIsReachable(s);
    DurationOf(s, id);
    assert Timing.Closes(s) by { PromptlyReachableInv(s); }
  }

  /** The close of id starts within the limit, counted from the confirmation of its ON. */
  ghost predicate KeepsLimit(s: State, id: ID, limit: int) {
    (id, Primary) in s.log.confirmed && id in s.log.closeStarts
    && s.log.closeStarts[id].time <= s.log.confirmed[(id, Primary)] + limit
  }

  /** A timed open of duration d under a limit that has come to its close. */
  ghost predicate ClosesUnder(s: State, id: ID, d: int, limit: int) {
    && id in s.log.closeStarts && id in s.actions && s.actions[id].duration == d
    && id in s.log.starts && s.log.starts[id].maxOpenDuration == limit
  }

  /** So a duration keeps the limit in every prompt run exactly if it leaves room for two
      status writes. The limit itself, which an untimed open gets, does not. */
  lemma LimitKeptExactly(d: int, limit: int)
    requires d > 0 && limit > 0
    ensures (forall s, id :: PromptlyReachable(s) && ClosesUnder(s, id, d, limit) ==> KeepsLimit(s, id, limit))
            <==> d + SLACK <= limit
  {
    if d + SLACK <= limit {
      forall s, id | PromptlyReachable(s) && ClosesUnder(s, id, d, limit) ensures KeepsLimit(s, id, limit) {
        CloseStarts(s, id);
      }
    } else {
      var s, id := LateClose(d, limit);
      assert PromptlyReachable(s) && ClosesUnder(s, id, d, limit) && !KeepsLimit(s, id, limit);
    }
  }

  /** A pipeline just created for a valve with the given limit. */
  function NewPipeline(limit: int): State {
    var cfg := ValveConfig(false, 1, 30_000, 300_000, limit, 1);
    var info := ValveInfo("valve", "garden", cfg, "valve", "", "bridge", "host", 1883, ValveClosed,
                          0, 0, 0.0, 0, "", None, None);
    State(0, info, None, None, 0, false, None, false, map[], [], Q.EMPTY, W.QUIET, Idle, PIdle, NoLog(ValveClosed, ""))
  }

  /** The run in which both status writes take their ten seconds. */
  lemma LateClose(d: int, limit: int) returns (s: State, id: ID)
    requires d > 0
    ensures PromptlyReachable(s) && ClosesUnder(s, id, d, limit)
    ensures (id, Primary) in s.log.confirmed
    ensures s.log.closeStarts[id].time == s.log.confirmed[(id, Primary)] + d + SLACK
  {
    id := "open";
    s := HoldRuns.CloseStartsLate(NewPipeline(limit), id, d, STATUS_LIMIT, STATUS_LIMIT);
  }

  /** A run in which a valve limited to one hour is held open for two. */
  lemma LimitExceeded(s: State, id: ID) returns (s': State)
    requires Init(s) && HoldRuns.Plain(s.info) && s.info.config.maxOpenDuration == 3_600_000
    requires !s.rootDone && id != ""
    ensures PromptlyReachable(s') && ClosesUnder(s', id, 7_200_000, 3_600_000) && (id, Primary) in s'.log.confirmed
    ensures s'.log.closeStarts[id].time == s'.log.confirmed[(id, Primary)] + 7_200_000
  {
    s' := HoldRuns.CloseStartsLate(s, id, 7_200_000, 0, 0);
  }

  /** A run in which nothing longer than the limit of a minute was requested, and the close
      still starts ten seconds after it, because the timer starts after the status write. */
  lemma LimitMissed(s: State, id: ID) returns (s': State)
    requires Init(s) && HoldRuns.Plain(s.info) && s.info.config.maxOpenDuration == 60_000
    requires !s.rootDone && id != ""
    ensures PromptlyReachable(s') && ClosesUnder(s', id, 60_000, 60_000) && (id, Primary) in s'.log.confirmed
    ensures !AskedLonger(s', id)
    ensures s'.log.closeStarts[id].time == s'.log.confirmed[(id, Primary)] + 70_000
  {
    s' := HoldRuns.CloseStartsLate(s, id, 60_000, 0, STATUS_LIMIT);
  }
}
