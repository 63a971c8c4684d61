/** One confirmation future with its bodies split at their checks
    (internal/scheduler/pipeline.go:534-546 and 551-557). Elsewhere each body is one step;
    here any number of handler calls with a confirming event and the timeout body
    interleave. Closing a closed channel stops the controller. */
module WaiterRaces {
  import opened Options

  datatype Body = Handler(i: nat) | Timeout

  /** Before the check of done, past it, past the send of nil, at the end. */
  datatype HandlerPc = Entered | Checked | Sent | HandlerOver

  /** Before the check of done, past it, past the close, at the end. */
  datatype TimeoutPc = Waiting | Ended | Closed | TimeoutOver

  datatype Event = Check(b: Body) | Close(b: Body)

  /** done and ch are the two channels, put lists the bodies that sent their value into ch:
      nil for a handler, the context error for the timeout. */
  datatype Future = Future(
    handlers: seq<HandlerPc>, timeout: TimeoutPc, done: bool, ch: Option<Body>, put: seq<Body>, trace: seq<Event>)

  const START := Future([], Waiting, false, None, [], [])

  datatype Move =
    | Call | HandlerCheck(i: nat) | HandlerSend(i: nat) | HandlerClose(i: nat)
    | TimeoutCheck | TimeoutClose | TimeoutSend | Receive

  /** done was closed twice. */
  ghost predicate Broken(f: Future) {
    exists i, j :: 0 <= i < j < |f.trace| && f.trace[i].Close? && f.trace[j].Close?
  }

  predicate HandlerAt(f: Future, i: nat, pc: HandlerPc) { i < |f.handlers| && f.handlers[i] == pc }

  ghost predicate Can(f: Future, m: Move) {
    !Broken(f) &&
    match m
    case Call => true
    case HandlerCheck(i) => HandlerAt(f, i, Entered)
    case HandlerSend(i) => HandlerAt(f, i, Checked)
    case HandlerClose(i) => HandlerAt(f, i, Sent)
    case TimeoutCheck => f.timeout.Waiting?
    case TimeoutClose => f.timeout.Ended?
    case TimeoutSend => f.timeout.Closed? && f.ch.None?
    case Receive => f.ch.Some?
  }

  function Set(f: Future, i: nat, pc: HandlerPc): Future
    requires i < |f.handlers|
  {
    f.(handlers := f.handlers[i := pc])
  }

  ghost function After(f: Future, m: Move): Future
    requires Can(f, m)
  {
    match m
    case Call => f.(handlers := f.handlers + [Entered])
    case HandlerCheck(i) =>
      if f.done then Set(f, i, HandlerOver) else Set(f, i, Checked).(trace := f.trace + [Check(Handler(i))])
    case HandlerSend(i) =>
      if f.ch.Some? then Set(f, i, HandlerOver)
      else Set(f, i, Sent).(ch := Some(Handler(i)), put := f.put + [Handler(i)])
    case HandlerClose(i) => Set(f, i, HandlerOver).(done := true, trace := f.trace + [Close(Handler(i))])
    case TimeoutCheck =>
      if f.done then f.(timeout := TimeoutOver) else f.(timeout := Ended, trace := f.trace + [Check(Timeout)])
    case TimeoutClose => f.(timeout := Closed, done := true, trace := f.trace + [Close(Timeout)])
    case TimeoutSend => f.(timeout := TimeoutOver, ch := Some(Timeout), put := f.put + [Timeout])
    case Receive => f.(ch := None)
  }

  ghost predicate Moves(f: Future, ms: seq<Move>, f': Future)
    decreases |ms|
  {
    if ms == [] then f' == f else Can(f, ms[0]) && Moves(After(f, ms[0]), ms[1..], f')
  }

  /** Checks pass only before the first close, and a body closes only after its check. */
  ghost predicate TraceOk(trace: seq<Event>, done: bool) {
    && (done <==> exists j :: 0 <= j < |trace| && trace[j].Close?)
    && (forall i, j :: 0 <= i < j < |trace| && trace[i].Close? ==> !trace[j].Check?)
    && (forall j :: 0 <= j < |trace| && trace[j].Close? ==> Check(trace[j].b) in trace)
    && (forall i, j :: 0 <= i < j < |trace| && trace[i].Close? && trace[j].Close? ==> trace[i].b != trace[j].b)
  }

  /** What the place of a body says about the trace and its value. */
  ghost predicate HandlerOk(f: Future, i: nat)
    requires i < |f.handlers|
  {
    && (f.handlers[i].Checked? || f.handlers[i].Sent? ==> Check(Handler(i)) in f.trace)
    && (Close(Handler(i)) in f.trace ==> f.handlers[i].HandlerOver?)
    && (Handler(i) in f.put <==> f.handlers[i].Sent? || Close(Handler(i)) in f.trace)
  }

  ghost predicate TimeoutOk(f: Future) {
    && (f.timeout.Ended? ==> Check(Timeout) in f.trace)
    && (f.timeout.Closed? || f.timeout.TimeoutOver? ==> f.done)
    && (f.timeout.Closed? ==> Close(Timeout) in f.trace)
    && (Close(Timeout) in f.trace ==> f.timeout.Closed? || f.timeout.TimeoutOver?)
    && (Timeout in f.put <==> f.timeout.TimeoutOver? && Close(Timeout) in f.trace)
  }

  ghost predicate Known(f: Future, b: Body) { b.Handler? ==> b.i < |f.handlers| }

  ghost predicate FInv(f: Future) {
    && TraceOk(f.trace, f.done) && TimeoutOk(f)
    && (forall i :: 0 <= i < |f.handlers| ==> HandlerOk(f, i))
    && (forall e :: e in f.trace ==> Known(f, e.b)) && (forall b :: b in f.put ==> Known(f, b))
    && (forall i, j :: 0 <= i < j < |f.put| ==> f.put[i] != f.put[j])
  }

  lemma TraceCheck(trace: seq<Event>, b: Body)
    requires TraceOk(trace, false)
    ensures TraceOk(trace + [Check(b)], false)
  {
  }

  lemma TraceClose(trace: seq<Event>, done: bool, b: Body)
    requires TraceOk(trace, done) && Check(b) in trace && Close(b) !in trace
    ensures TraceOk(trace + [Close(b)], true)
  {
    var t := trace + [Close(b)];
    assert t[|trace|].Close?;
  }

  lemma CheckKeeps(f: Future, m: Move)
    requires FInv(f) && Can(f, m) && (m.HandlerCheck? || m.TimeoutCheck?)
    ensures FInv(After(f, m))
  {
    var f' := After(f, m);
    forall i | 0 <= i < |f'.handlers| ensures HandlerOk(f', i) { assert HandlerOk(f, i); }
    if !f.done { TraceCheck(f.trace, if m.TimeoutCheck? then Timeout else Handler(m.i)); }
  }

  lemma CloseKeeps(f: Future, m: Move)
    requires FInv(f) && Can(f, m) && (m.HandlerClose? || m.TimeoutClose?)
    ensures FInv(After(f, m))
  {
    var f' := After(f, m);
    assert m.HandlerClose? ==> HandlerOk(f, m.i);
    forall i | 0 <= i < |f'.handlers| ensures HandlerOk(f', i) { assert HandlerOk(f, i); }
    TraceClose(f.trace, f.done, if m.TimeoutClose? then Timeout else Handler(m.i));
  }

  lemma MoveKeeps(f: Future, m: Move)
    requires FInv(f) && Can(f, m)
    ensures FInv(After(f, m))
  {
    if m.HandlerCheck? || m.TimeoutCheck? { CheckKeeps(f, m); }
    else if m.HandlerClose? || m.TimeoutClose? { CloseKeeps(f, m); }
    else { ChannelKeeps(f, m); }
  }

  lemma ChannelKeeps(f: Future, m: Move)
    requires FInv(f) && Can(f, m) && (m.Call? || m.HandlerSend? || m.TimeoutSend? || m.Receive?)
    ensures FInv(After(f, m))
  {
    var f' := After(f, m);
    assert m.HandlerSend? ==> HandlerOk(f, m.i);
    forall i | 0 <= i < |f'.handlers| ensures HandlerOk(f', i) {
      if i < |f.handlers| { assert HandlerOk(f, i); }
    }
  }

  lemma {:induction false} MovesKeep(f: Future, ms: seq<Move>, f': Future)
    requires FInv(f) && Moves(f, ms, f')
    ensures FInv(f')
    decreases |ms|
  {
    if ms != [] {
      MoveKeeps(f, ms[0]);
      MovesKeep(After(f, ms[0]), ms[1..], f');
    }
  }

  /** Two different bodies both pass their check before either closes, and both close. */
  ghost predicate Raced(trace: seq<Event>, a: Body, b: Body) {
    && a != b
    && Precedes(trace, Check(a), Close(a)) && Precedes(trace, Check(a), Close(b))
    && Precedes(trace, Check(b), Close(a)) && Precedes(trace, Check(b), Close(b))
  }

  ghost predicate Precedes(trace: seq<Event>, x: Event, y: Event) {
    exists i, j :: 0 <= i < j < |trace| && trace[i] == x && trace[j] == y
  }

  /** A check comes before every close. */
  lemma CheckedFirst(trace: seq<Event>, done: bool, a: Body, k: nat)
    requires TraceOk(trace, done) && Check(a) in trace && k < |trace| && trace[k].Close?
    ensures Precedes(trace, Check(a), trace[k])
  {
    var i :| 0 <= i < |trace| && trace[i] == Check(a);
    assert i < k;
  }

  lemma ClosesRace(trace: seq<Event>, done: bool, k: nat, l: nat)
    requires TraceOk(trace, done) && k < l < |trace| && trace[k].Close? && trace[l].Close?
    ensures Raced(trace, trace[k].b, trace[l].b)
  {
    var a, b := trace[k].b, trace[l].b;
    CheckedFirst(trace, done, a, k);
    CheckedFirst(trace, done, a, l);
    CheckedFirst(trace, done, b, k);
    CheckedFirst(trace, done, b, l);
    assert trace[k] == Close(a) && trace[l] == Close(b);
  }

  lemma RaceCloses(trace: seq<Event>, a: Body, b: Body) returns (k: nat, l: nat)
    requires Raced(trace, a, b)
    ensures k < l < |trace| && trace[k].Close? && trace[l].Close?
  {
    var i, x :| 0 <= i < x < |trace| && trace[i] == Check(a) && trace[x] == Close(a);
    var j, y :| 0 <= j < y < |trace| && trace[j] == Check(b) && trace[y] == Close(b);
    k, l := if x < y then x else y, if x < y then y else x;
  }

  /** Over every run, done is closed a second time exactly if two bodies passed their checks
      before either closed. */
  lemma SecondCloseExactly(ms: seq<Move>, f: Future)
    requires Moves(START, ms, f)
    ensures Broken(f) <==> exists a, b :: Raced(f.trace, a, b)
  {
    if Broken(f) {
      assert TraceOk(f.trace, f.done) by { MovesKeep(START, ms, f); }
      BrokenRaced(f);
    }
    forall a, b | Raced(f.trace, a, b) ensures Broken(f) {
      var k, l := RaceCloses(f.trace, a, b);
    }
  }

  lemma BrokenRaced(f: Future)
    requires TraceOk(f.trace, f.done) && Broken(f)
    ensures exists a, b :: Raced(f.trace, a, b)
  {
    var k, l :| 0 <= k < l < |f.trace| && f.trace[k].Close? && f.trace[l].Close?;
    ClosesRace(f.trace, f.done, k, l);
  }

  /** No body is between its first and its last line. */
  ghost predicate Settled(f: Future) {
    f.timeout.TimeoutOver? && forall i :: 0 <= i < |f.handlers| ==> !f.handlers[i].Sent?
  }

  /** Otherwise, once the timeout body has ended and no handler is between its send and its
      close, exactly one outcome has been sent: that of the one body that closed done. */
  lemma OneOutcome(ms: seq<Move>, f: Future) returns (b: Body)
    requires Moves(START, ms, f) && !Broken(f) && Settled(f)
    ensures f.put == [b] && Close(b) in f.trace
  {
    MovesKeep(START, ms, f);
    var j :| 0 <= j < |f.trace| && f.trace[j].Close?;
    b := f.trace[j].b;
    assert f.trace[j] == Close(b) && Known(f, b) && (b.Handler? ==> HandlerOk(f, b.i));
    forall x | x in f.put ensures x == b {
      assert Known(f, x) && (x.Handler? ==> HandlerOk(f, x.i));
      var k :| 0 <= k < |f.trace| && f.trace[k] == Close(x);
      assert k == j;
    }
    assert b in f.put;
    assert f.put[0] in f.put && f.put[|f.put| - 1] in f.put;
  }

  /** Each close comes right after the check of its body. */
  ghost predicate Atomic(trace: seq<Event>) {
    forall j :: 0 <= j < |trace| && trace[j].Close? ==> j > 0 && trace[j - 1] == Check(trace[j].b)
  }

  lemma NoSecond(trace: seq<Event>, done: bool, k: nat, l: nat)
    requires TraceOk(trace, done) && Atomic(trace) && k < l < |trace| && trace[k].Close?
    ensures !trace[l].Close?
  {
    assert k == l - 1 || !trace[l - 1].Check?;
  }

  /** So with each body as one step there is never a second close. */
  lemma AtomicBodiesCloseOnce(ms: seq<Move>, f: Future)
    requires Moves(START, ms, f) && Atomic(f.trace)
    ensures !Broken(f)
  {
    MovesKeep(START, ms, f);
    forall k, l | 0 <= k < l < |f.trace| && f.trace[k].Close? ensures !f.trace[l].Close? {
      NoSecond(f.trace, f.done, k, l);
    }
  }

  lemma Then(f: Future, m: Move, ms: seq<Move>, f': Future) returns (all: seq<Move>)
    requires Can(f, m) && Moves(After(f, m), ms, f')
    ensures Moves(f, all, f')
  {
    all := [m] + ms;
    assert all[1..] == ms;
  }

  /** A run in which the handler and the timeout both close. */
  lemma BothClose() returns (ms: seq<Move>, f: Future)
    ensures Moves(START, ms, f) && Broken(f)
  {
    var f1 := After(START, Call);
    var f2 := After(f1, HandlerCheck(0));
    var f3 := After(f2, TimeoutCheck);
    var f4 := After(f3, HandlerSend(0));
    var f5 := After(f4, HandlerClose(0));
    f := After(f5, TimeoutClose);
    assert f.trace == [Check(Handler(0)), Check(Timeout), Close(Handler(0)), Close(Timeout)];
    assert f.trace[2].Close? && f.trace[3].Close?;
    ms := Then(f5, TimeoutClose, [], f);
    ms := Then(f4, HandlerClose(0), ms, f);
    ms := Then(f3, HandlerSend(0), ms, f);
    ms := Then(f2, TimeoutCheck, ms, f);
    ms := Then(f1, HandlerCheck(0), ms, f);
    ms := Then(START, Call, ms, f);
  }
}
