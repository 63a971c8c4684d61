/** Runs that reach surprising ends. A cancelled action may end failed: an attempt
    without a successful publish goes on without looking at its context. */
module Witness {
  import opened Options
  import opened Actions
  import opened Machine
  import opened Reachability

  /** An untimed open with a single attempt is executing. */
  ghost predicate Opening(s: State, id: ID, cp: CallPc) {
    && Reachable(s) && s.actions.Keys == {id} && s.actions[id].state != Cancelled
    && s.cancelFn == Some(s.execNo) && s.queue.calls == map[] && s.queue.admitted == [id] && s.queue.items == []
    && s.loop == Busy(id, Calling(Call(id, Primary, true, 1, 30_000, None), cp))
  }

  lemma Queued(s: State, id: ID) returns (s': State)
    requires Init(s) && id != ""
    ensures Reachable(s') && s'.actions == map[id := NewAction(id, s.info, ActionType.Open, 0, s.now)]
    ensures s'.loop.Idle? && s'.info == s.info && s'.grace.None?
    ensures s'.queue.calls == map[] && s'.queue.items == [id] && s'.queue.admitted == [id]
  {
    assert Run(s, [], s);
    var ask := Request(id, ActionType.Open, 0);
    ReachableStep(s, Env(ask));
    var s1 := EnvNext(s, ask);
    ReachableStep(s1, Env(QueueTry(id)));
    s' := EnvNext(s1, QueueTry(id));
  }

  lemma Taken(s: State, id: ID) returns (s': State)
    requires Reachable(s) && s.loop.Idle? && s.grace.None? && s.actions.Keys == {id} && s.actions[id].typ.Open?
    requires s.queue.calls == map[] && s.queue.items == [id] && s.queue.admitted == [id]
    requires s.info.config.maxOpenDuration == 0 && !s.info.config.disabled
    ensures Reachable(s') && s'.loop == Busy(id, Ready(s.info.config)) && s'.grace.None?
    ensures s'.actions.Keys == {id} && s'.actions[id].typ.Open?
    ensures s'.queue.calls == map[] && s'.queue.items == [] && s'.queue.admitted == [id]
  {
    ReachableStep(s, OfRun(Dequeue));
    var s1 := RunNext(s, Dequeue);
    ReachableStep(s1, OfRun(ReadConfig));
    s' := RunNext(s1, ReadConfig);
  }

  lemma Attempting(s: State, id: ID) returns (s': State, at: Attempt)
    requires Reachable(s) && s.loop.Busy? && s.loop.id == id && s.loop.pc.Ready? && s.grace.None?
    requires s.loop.pc.cfg.retryCount == 1 && s.loop.pc.cfg.commandTimeout == 30_000
    requires s.actions.Keys == {id} && s.actions[id].typ.Open?
    requires s.queue.calls == map[] && s.queue.items == [] && s.queue.admitted == [id]
    ensures Opening(s', id, Begun(at)) && at.sends == 1 && at.i == 0 && !at.published && at.n == 0
  {
    var s1 := Installed(s, id);
    ReachableStep(s1, InCall(BeginAttempt));
    s' := DoBeginAttempt(s1);
    at := s'.loop.pc.cp.at;
  }

  lemma Installed(s: State, id: ID) returns (s': State)
    requires Reachable(s) && s.loop.Busy? && s.loop.id == id && s.loop.pc.Ready? && s.grace.None?
    requires s.loop.pc.cfg.retryCount == 1 && s.loop.pc.cfg.commandTimeout == 30_000
    requires s.actions.Keys == {id} && s.actions[id].typ.Open?
    requires s.queue.calls == map[] && s.queue.items == [] && s.queue.admitted == [id]
    ensures Opening(s', id, Head(0))
  {
    ReachableStep(s, OfRun(Install));
    s' := DoInstall(s);
  }

  lemma Publishing(s: State, id: ID, at: Attempt) returns (s': State)
    requires Opening(s, id, Begun(at)) && at.sends == 1 && at.i == 0 && !at.published && at.n == 0
    ensures Opening(s', id, InSend(at.(w := |s.net.waiters|))) && |s.net.waiters| < |s'.net.waiters|
  {
    var s1 := Registered(s, id, at);
    ReachableStep(s1, InCall(SendBegin));
    s' := DoSendBegin(s1);
  }

  lemma Registered(s: State, id: ID, at: Attempt) returns (s': State)
    requires Opening(s, id, Begun(at))
    ensures Opening(s', id, ToSend(at.(w := |s.net.waiters|))) && |s.net.waiters| < |s'.net.waiters|
  {
    ReachableStep(s, InCall(RegisterWaiter));
    s' := DoRegister(s);
  }

  /** A close arrives, then the publish fails. */
  lemma CloseArrives(s: State, id: ID, close: ID, at: Attempt) returns (s': State)
    requires Opening(s, id, InSend(at)) && at.sends == 1 && at.i == 0 && !at.published && at.w < |s.net.waiters|
    requires close != "" && close != id
    ensures Reachable(s') && s'.cancelled && s'.cancelFn == Some(s'.execNo)
    ensures id in s'.actions && s'.actions[id].state != Cancelled
    ensures s'.loop == s.loop.(pc := Calling(s.loop.pc.c, Head(at.n + 1)))
  {
    var s1 := CloseAsked(s, id, close, at);
    s' := PublishFails(s1, id, at);
  }

  lemma CloseAsked(s: State, id: ID, close: ID, at: Attempt) returns (s': State)
    requires Opening(s, id, InSend(at)) && close != "" && close != id
    ensures Reachable(s') && s'.cancelled && s'.cancelFn == Some(s'.execNo)
    ensures s'.loop == s.loop && s'.net == s.net && id in s'.actions && s'.actions[id] == s.actions[id]
  {
    var ask := Request(close, ActionType.Close, 0);
    ReachableStep(s, Env(ask));
    s' := EnvNext(s, ask);
  }

  lemma PublishFails(s: State, id: ID, at: Attempt) returns (s': State)
    requires Reachable(s) && s.cancelled && s.cancelFn == Some(s.execNo) && s.loop.Busy? && id in s.actions
    requires s.loop.pc.Calling? && s.loop.pc.c.subject == id && s.loop == Busy(id, Calling(s.loop.pc.c, InSend(at)))
    requires at.sends == 1 && at.i == 0 && !at.published && at.w < |s.net.waiters|
    ensures Reachable(s') && s'.cancelled && s'.cancelFn == Some(s'.execNo)
    ensures id in s'.actions && s'.actions[id] == s.actions[id]
    ensures s'.loop == s.loop.(pc := Calling(s.loop.pc.c, Head(at.n + 1)))
  {
    ReachableStep(s, InCall(SendEnd(false)));
    s' := DoSendEnd(s, false);
  }

  lemma GivesUp(s: State, id: ID) returns (s': State)
    requires Reachable(s) && s.cancelled && s.cancelFn == Some(s.execNo) && id in s.actions
    requires s.actions[id].state != Cancelled
    requires s.loop == Busy(id, Calling(Call(id, Primary, true, 1, 30_000, None), Head(1)))
    ensures Reachable(s') && s'.cancelled && s'.cancelFn == Some(s'.execNo)
    ensures s'.loop == Busy(id, Leaving) && id in s'.actions && s'.actions[id].state.Failed?
  {
    ReachableStep(s, InCall(GiveUp));
    var s1 := CallNext(s, GiveUp);
    ReachableStep(s1, Exec(Fail));
    s' := ExecNext(s1, Fail);
  }

  /** A run in which a close cancels an open, and the open ends failed. */
  lemma CancelledYetFailed(s: State, id: ID, close: ID) returns (s': State)
    requires Init(s) && id != "" && close != "" && close != id
    requires s.info.config.maxOpenDuration == 0 && !s.info.config.disabled
    requires s.info.config.retryCount == 1 && s.info.config.commandTimeout == 30_000
    ensures Reachable(s') && s'.loop == Busy(id, Leaving) && s'.cancelled && s'.cancelFn == Some(s'.execNo)
    ensures id in s'.actions && s'.actions[id].state.Failed?
  {
    var s1 := Queued(s, id);
    var s2 := Taken(s1, id);
    var s3, at := Attempting(s2, id);
    var s4 := Publishing(s3, id, at);
    var s5 := CloseArrives(s4, id, close, at.(w := |s3.net.waiters|));
    s' := GivesUp(s5, id);
  }
}
