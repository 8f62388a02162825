/**
 * The session protocol of one virtual client (src/virtual_client.cpp).
 *
 * `State` holds the six fields that drive the protocol, the `After...` functions say what one
 * member function or one handler does to it, the class `VirtualClient` updates the fields in
 * place and is proved against those functions, and `Run` plays any sequence of events and
 * keeps the books that the whole-run theorems are about.
 */
module VirtualClients {
  import opened Base

  /** Who passed a callback to Close: client `client` of the player reached by `player`. */
  datatype Callback = Callback(player: Path, client: nat)

  /** One invocation of a close callback. */
  datatype Call = Call(callback: Callback, message: string)

  /** The live signaling object: how often Disconnect was called on it, and what was sent. */
  datatype Signaling = Signaling(disconnects: nat, sent: seq<(string, seq<byte>)>)

  datatype State = State(
    closing: bool,
    needReconnect: bool,
    retryCount: int,
    onClose: Option<Callback>,
    retryArmed: bool,
    signaling: Option<Signaling>)

  /** A call returns, or it throws because an empty std::function was called. */
  datatype Outcome = Returned(state: State, calls: seq<Call>) | Faulted(state: State)

  const INITIAL := State(false, false, 0, None, false, None)
  const ALREADY_CLOSING := "already closing"
  const ALREADY_CLOSED := "already closed"
  const CREATED := "connection.created"

  function Live(s: State): bool {
    s.signaling.Some?
  }

  /** No session, nothing pending and no timer: no event of this client is left to come. */
  predicate Quiescent(s: State) {
    !Live(s) && !s.closing && !s.needReconnect && s.onClose.None? && !s.retryArmed
  }

  // ----- what each member function and handler does -----

  function Disconnecting(s: State): State
    requires Live(s)
  {
    s.(signaling := Some(s.signaling.value.(disconnects := s.signaling.value.disconnects + 1)))
  }

  function AfterConnect(s: State): State {
    if s.closing then
      s.(needReconnect := true)
    else if Live(s) then
      Disconnecting(s.(closing := true, needReconnect := true))
    else
      s.(retryArmed := false, signaling := Some(Signaling(0, [])))
  }

  function AfterClose(s: State, onClose: Option<Callback>): Outcome {
    if s.closing then
      if s.onClose.None? then
        Returned(s.(onClose := onClose), [])
      else if onClose.Some? then
        Returned(s, [Call(onClose.value, ALREADY_CLOSING)])
      else
        Faulted(s)
    else if Live(s) then
      Returned(Disconnecting(s.(closing := true, onClose := onClose)), [])
    else if onClose.Some? then
      Returned(s, [Call(onClose.value, ALREADY_CLOSED)])
    else
      Faulted(s)
  }

  /** OnDisconnect up to the point where the pending callback, if any, is called. */
  function AfterSessionLost(s: State, maxRetry: int): State {
    var gone := s.(signaling := None, retryArmed := false);
    if !s.closing then
      if s.retryCount < maxRetry then
        gone.(retryCount := s.retryCount + 1, retryArmed := true)
      else
        gone
    else if s.needReconnect then
      var open := gone.(closing := false, needReconnect := false);
      if s.onClose.None? then AfterConnect(open) else open
    else
      gone.(closing := false)
  }

  function AfterDisconnect(s: State, maxRetry: int): State {
    AfterSessionLost(s, maxRetry).(onClose := None)
  }

  function DisconnectCalls(s: State, message: string): seq<Call> {
    if s.onClose.Some? then [Call(s.onClose.value, message)] else []
  }

  function AfterRetryTimer(s: State): State {
    var s' := s.(retryArmed := false, needReconnect := false);
    if s.onClose.None? then AfterConnect(s') else s'
  }

  function AfterNotify(s: State, eventType: string): State {
    if eventType == CREATED then s.(retryCount := 0) else s
  }

  /** A message is handed to the signaling object only on a live session that is not closing. */
  predicate Sends(s: State) {
    Live(s) && !s.closing
  }

  function AfterSend(s: State, channel: string, data: seq<byte>): State {
    if Sends(s) then
      s.(signaling := Some(s.signaling.value.(sent := s.signaling.value.sent + [(channel, data)])))
    else
      s
  }

  function ReportedId(s: State, current: seq<byte>): seq<byte> {
    if Live(s) then current else []
  }

  // ----- the object -----

  class VirtualClient {
    const maxRetry: int
    var closing: bool
    var needReconnect: bool
    var retryCount: int
    var onClose: Option<Callback>
    var retryArmed: bool
    var signaling: Option<Signaling>

    function Value(): State
      reads this
    {
      State(closing, needReconnect, retryCount, onClose, retryArmed, signaling)
    }

    constructor (maxRetry: int)
      ensures this.maxRetry == maxRetry && Value() == INITIAL
    {
      this.maxRetry := maxRetry;
      closing, needReconnect, retryCount := false, false, 0;
      onClose, retryArmed, signaling := None, false, None;
    }

    /** SoraSignaling::Disconnect on the current signaling object. */
    method RequestDisconnect()
      requires signaling.Some?
      modifies this`signaling
      ensures Value() == Disconnecting(old(Value()))
    {
      signaling := Some(signaling.value.(disconnects := signaling.value.disconnects + 1));
    }

    method Connect()
      modifies this
      ensures Value() == AfterConnect(old(Value()))
    {
      if closing {
        needReconnect := true;
        return;
      }
      if signaling.Some? {
        closing := true;
        needReconnect := true;
        RequestDisconnect();
        return;
      }
      retryArmed := false;
      signaling := Some(Signaling(0, []));
    }

    method Close(callback: Option<Callback>) returns (calls: seq<Call>, faulted: bool)
      modifies this
      ensures faulted == AfterClose(old(Value()), callback).Faulted?
      ensures Value() == AfterClose(old(Value()), callback).state
      ensures calls == if faulted then [] else AfterClose(old(Value()), callback).calls
    {
      calls, faulted := [], false;
      if closing {
        if onClose == None {
          onClose := callback;
        } else {
          match callback
          case Some(f) => calls := [Call(f, ALREADY_CLOSING)];
          case None => faulted := true;
        }
        return;
      }
      if signaling.Some? {
        closing := true;
        onClose := callback;
        RequestDisconnect();
      } else {
        match callback
        case Some(f) => calls := [Call(f, ALREADY_CLOSED)];
        case None => faulted := true;
      }
    }

    method OnDisconnect(message: string) returns (calls: seq<Call>)
      modifies this
      ensures Value() == AfterDisconnect(old(Value()), maxRetry)
      ensures calls == DisconnectCalls(old(Value()), message)
    {
      signaling := None;
      retryArmed := false;
      if !closing {
        if retryCount < maxRetry {
          retryCount := retryCount + 1;
          retryArmed := true;
        }
      } else {
        closing := false;
        if needReconnect {
          needReconnect := false;
          if onClose == None {
            Connect();
          }
        }
      }
      calls := [];
      if onClose.Some? {
        calls := [Call(onClose.value, message)];
        onClose := None;
      }
    }

    /** The retry timer's handler, run when the wait ends without being cancelled. */
    method OnRetryTimer()
      requires retryArmed
      modifies this
      ensures Value() == AfterRetryTimer(old(Value()))
    {
      retryArmed := false;
      needReconnect := false;
      if onClose == None {
        Connect();
      }
    }

    method OnNotify(eventType: string)
      modifies this`retryCount
      ensures Value() == AfterNotify(old(Value()), eventType)
    {
      if eventType == CREATED {
        retryCount := 0;
      }
    }

    method SendMessage(channel: string, data: seq<byte>)
      modifies this`signaling
      ensures Value() == AfterSend(old(Value()), channel, data)
    {
      if signaling.None? || closing {
        return;
      }
      signaling := Some(signaling.value.(sent := signaling.value.sent + [(channel, data)]));
    }

    /** The connection id in GetStats; `current` is the one the server gave the live session. */
    method ConnectionId(current: seq<byte>) returns (id: seq<byte>)
      ensures id == ReportedId(Value(), current)
    {
      if signaling.None? {
        return [];
      }
      return current;
    }

    /** Called once the event loop has returned: nothing that is left can produce an event. */
    method Clear()
      modifies this`retryArmed, this`signaling
      ensures !Live(Value()) && !retryArmed
    {
      retryArmed := false;
      signaling := None;
    }
  }

  // ----- whole runs -----

  datatype Event =
    | Connect
    | Close(callback: Option<Callback>)
    | OnDisconnect(message: string)
    | OnRetryTimer
    | OnNotify(eventType: string)

  /**
   * A run so far. `passed` and `calls` list the callbacks handed to Close and the invocations;
   * `created` and `lost` count sessions; `armed`, `fired` and `cancelled` count retry waits.
   */
  datatype Run = Run(
    state: State,
    faulted: bool,
    passed: seq<Callback>,
    calls: seq<Call>,
    created: nat,
    lost: nat,
    armed: nat,
    fired: nat,
    cancelled: nat)

  const START := Run(INITIAL, false, [], [], 0, 0, 0, 0, 0)

  /** The signaling object and the timer deliver events only while they exist. */
  predicate Enabled(r: Run, e: Event) {
    && !r.faulted
    && (e.OnDisconnect? ==> Live(r.state))
    && (e.OnRetryTimer? ==> r.state.retryArmed)
  }

  function One(b: bool): nat {
    if b then 1 else 0
  }

  /** An event that is not enabled cannot happen; the run stays as it is. */
  function Step(maxRetry: int, r: Run, e: Event): Run {
    if !Enabled(r, e) then r else
    var s := r.state;
    match e
    case Connect =>
      var opens := !s.closing && !Live(s);
      r.(state := AfterConnect(s), created := r.created + One(opens),
         cancelled := r.cancelled + One(opens && s.retryArmed))
    case Close(callback) =>
      var asked := r.passed + (if callback.Some? then [callback.value] else []);
      (match AfterClose(s, callback)
       case Returned(s', calls) => r.(state := s', passed := asked, calls := r.calls + calls)
       case Faulted(s') => r.(state := s', faulted := true))
    case OnDisconnect(message) =>
      var s' := AfterDisconnect(s, maxRetry);
      r.(state := s', calls := r.calls + DisconnectCalls(s, message), lost := r.lost + 1,
         created := r.created + One(Live(s')), armed := r.armed + One(s'.retryArmed))
    case OnRetryTimer =>
      var s' := AfterRetryTimer(s);
      r.(state := s', fired := r.fired + 1, created := r.created + One(Live(s')))
    case OnNotify(eventType) =>
      r.(state := AfterNotify(s, eventType))
  }

  function Steps(maxRetry: int, r: Run, es: seq<Event>): Run
    decreases |es|
  {
    if es == [] then r else Steps(maxRetry, Step(maxRetry, r, es[0]), es[1..])
  }

  // ----- the invariant -----

  /** How the protocol fields of a client hang together between two events. */
  ghost predicate Coherent(s: State) {
    && (s.onClose.Some? ==> s.closing)
    && (s.needReconnect ==> s.closing)
    && (s.closing ==> Live(s))
    && (s.retryArmed ==> !Live(s))
    && (Live(s) ==> s.signaling.value.disconnects == One(s.closing))
  }

  function Invoked(calls: seq<Call>): multiset<Callback> {
    if calls == [] then multiset{}
    else Invoked(calls[..|calls| - 1]) + multiset{calls[|calls| - 1].callback}
  }

  function Pending(s: State): multiset<Callback> {
    if s.onClose.Some? then multiset{s.onClose.value} else multiset{}
  }

  /** Callbacks are neither lost nor duplicated, and sessions never overlap. */
  ghost predicate Balanced(r: Run) {
    && multiset(r.passed) == Invoked(r.calls) + Pending(r.state)
    && r.created == r.lost + One(Live(r.state))
  }

  ghost predicate WithinBudget(maxRetry: int, s: State) {
    0 <= s.retryCount && (s.retryCount == 0 || s.retryCount <= maxRetry)
  }

  lemma InvokedAppend(calls: seq<Call>, c: Call)
    ensures Invoked(calls + [c]) == Invoked(calls) + multiset{c.callback}
  {
    assert (calls + [c])[..|calls|] == calls;
  }

  lemma StepCoheres(maxRetry: int, r: Run, e: Event)
    requires Coherent(r.state)
    ensures Coherent(Step(maxRetry, r, e).state)
  {
  }

  lemma StepWithinBudget(maxRetry: int, r: Run, e: Event)
    requires WithinBudget(maxRetry, r.state)
    ensures WithinBudget(maxRetry, Step(maxRetry, r, e).state)
  {
  }

  lemma StepCountsSessions(maxRetry: int, r: Run, e: Event)
    requires Coherent(r.state) && r.created == r.lost + One(Live(r.state))
    ensures var r' := Step(maxRetry, r, e);
            r'.created == r'.lost + One(Live(r'.state))
  {
  }

  lemma InvokedAppendAll(calls: seq<Call>, more: seq<Call>)
    requires |more| <= 1
    ensures Invoked(calls + more)
         == Invoked(calls) + (if more == [] then multiset{} else multiset{more[0].callback})
  {
    if more == [] {
      assert calls + more == calls;
    } else {
      assert more == [more[0]];
      InvokedAppend(calls, more[0]);
    }
  }

  lemma CloseCountsCallbacks(r: Run, callback: Option<Callback>)
    requires Coherent(r.state) && multiset(r.passed) == Invoked(r.calls) + Pending(r.state)
    ensures var asked := if callback.Some? then [callback.value] else [];
            var outcome := AfterClose(r.state, callback);
            outcome.Returned? ==>
              multiset(r.passed + asked) == Invoked(r.calls + outcome.calls) + Pending(outcome.state)
  {
    match AfterClose(r.state, callback)
    case Returned(s', calls) => InvokedAppendAll(r.calls, calls);
    case Faulted(_) =>
  }

  lemma StepCountsCallbacks(maxRetry: int, r: Run, e: Event)
    requires Coherent(r.state) && multiset(r.passed) == Invoked(r.calls) + Pending(r.state)
    ensures var r' := Step(maxRetry, r, e);
            multiset(r'.passed) == Invoked(r'.calls) + Pending(r'.state)
  {
    if Enabled(r, e) {
      match e {
        case Close(callback) => CloseCountsCallbacks(r, callback);
        case OnDisconnect(message) => LossCountsCallbacks(maxRetry, r, message);
        case _ => OthersKeepCallbacks(maxRetry, r, e);
      }
    }
  }

  lemma LossCountsCallbacks(maxRetry: int, r: Run, message: string)
    requires multiset(r.passed) == Invoked(r.calls) + Pending(r.state)
    ensures multiset(r.passed) == Invoked(r.calls + DisconnectCalls(r.state, message))
    ensures Pending(AfterDisconnect(r.state, maxRetry)) == multiset{}
  {
    InvokedAppendAll(r.calls, DisconnectCalls(r.state, message));
  }

  lemma OthersKeepCallbacks(maxRetry: int, r: Run, e: Event)
    requires !e.Close? && !e.OnDisconnect?
    ensures var r' := Step(maxRetry, r, e);
            r'.passed == r.passed && r'.calls == r.calls && r'.state.onClose == r.state.onClose
  {
  }

  lemma StepKeepsInvariant(maxRetry: int, r: Run, e: Event)
    requires Coherent(r.state) && Balanced(r) && WithinBudget(maxRetry, r.state)
    ensures var r' := Step(maxRetry, r, e);
            Coherent(r'.state) && Balanced(r') && WithinBudget(maxRetry, r'.state)
  {
    var r' := Step(maxRetry, r, e);
    assert Coherent(r'.state) by { StepCoheres(maxRetry, r, e); }
    assert WithinBudget(maxRetry, r'.state) by { StepWithinBudget(maxRetry, r, e); }
    assert r'.created == r'.lost + One(Live(r'.state)) by { StepCountsSessions(maxRetry, r, e); }
    StepCountsCallbacks(maxRetry, r, e);
  }

  /**
   * In every state that any run reaches: the fields cohere, every callback passed to Close was
   * invoked exactly once or is the one pending, sessions created are sessions lost plus the
   * live one, and the retry count stays within the budget.
   */
  lemma {:induction false} RunInvariant(maxRetry: int, r: Run, es: seq<Event>)
    requires Coherent(r.state) && Balanced(r) && WithinBudget(maxRetry, r.state)
    ensures var r' := Steps(maxRetry, r, es);
            Coherent(r'.state) && Balanced(r') && WithinBudget(maxRetry, r'.state)
    decreases |es|
  {
    if es != [] {
      StepKeepsInvariant(maxRetry, r, es[0]);
      RunInvariant(maxRetry, Step(maxRetry, r, es[0]), es[1..]);
    }
  }

  lemma FromStart(maxRetry: int, es: seq<Event>)
    ensures var r := Steps(maxRetry, START, es);
            Coherent(r.state) && Balanced(r) && WithinBudget(maxRetry, r.state)
  {
    RunInvariant(maxRetry, START, es);
  }

  // ----- faults -----

  /** A run faults exactly when Close without a callback meets no session or a pending callback. */
  lemma FaultsExactlyOnUnanswerableClose(maxRetry: int, es: seq<Event>, e: Event)
    ensures var r := Steps(maxRetry, START, es);
            !r.faulted ==>
              (Step(maxRetry, r, e).faulted
               <==> e == Close(None) && (!Live(r.state) || r.state.onClose.Some?))
  {
    FromStart(maxRetry, es);
  }

  // ----- the retry budget -----

  /** The event after which the retry count starts again from zero. */
  predicate ResetsRetries(e: Event) {
    e.OnNotify? && e.eventType == CREATED
  }

  lemma RetryStep(maxRetry: int, r: Run, e: Event)
    requires Coherent(r.state) && !ResetsRetries(e)
    ensures var r' := Step(maxRetry, r, e);
            && (r'.fired - r.fired) + (r'.cancelled - r.cancelled) + One(r'.state.retryArmed)
               == One(r.state.retryArmed) + (r'.state.retryCount - r.state.retryCount)
            && r.cancelled <= r'.cancelled
  {
  }

  /**
   * Over any stretch of a run without connection.created, retry waits are conserved: those that
   * ended, by firing or by being cancelled, plus the one still armed, are those that were armed
   * at the start plus the growth of the retry count.
   */
  lemma {:induction false} RetriesConserved(maxRetry: int, r: Run, es: seq<Event>)
    requires Coherent(r.state)
    requires forall e :: e in es ==> !ResetsRetries(e)
    ensures var r' := Steps(maxRetry, r, es);
            (r'.fired - r.fired) + (r'.cancelled - r.cancelled) + One(r'.state.retryArmed)
            == One(r.state.retryArmed) + (r'.state.retryCount - r.state.retryCount)
    decreases |es|
  {
    if es != [] {
      assert !ResetsRetries(es[0]);
      RetryStep(maxRetry, r, es[0]);
      StepCoheres(maxRetry, r, es[0]);
      RetriesConserved(maxRetry, Step(maxRetry, r, es[0]), es[1..]);
    }
  }

  /**
   * Without connection.created, the retry waits that fire number at most what is left of the
   * budget, plus one when a wait was already armed.
   */
  lemma RetryBudget(maxRetry: int, r: Run, es: seq<Event>)
    requires 0 <= maxRetry
    requires Coherent(r.state) && Balanced(r) && WithinBudget(maxRetry, r.state)
    requires forall e :: e in es ==> !ResetsRetries(e)
    ensures Steps(maxRetry, r, es).fired - r.fired
            <= maxRetry - r.state.retryCount + One(r.state.retryArmed)
  {
    RetriesConserved(maxRetry, r, es);
    RunInvariant(maxRetry, r, es);
    CancelledGrows(maxRetry, r, es);
  }

  lemma StepsOne(maxRetry: int, r: Run, e: Event, es: seq<Event>)
    ensures Steps(maxRetry, r, [e] + es) == Steps(maxRetry, Step(maxRetry, r, e), es)
  {
    assert ([e] + es)[1..] == es;
  }

  lemma {:induction false} CancelledGrows(maxRetry: int, r: Run, es: seq<Event>)
    ensures r.cancelled <= Steps(maxRetry, r, es).cancelled
    decreases |es|
  {
    if es != [] {
      CancelledGrows(maxRetry, Step(maxRetry, r, es[0]), es[1..]);
    }
  }

  /** From a state with a wait armed, fire and lose the session until the budget is spent. */
  lemma {:induction false} SpendBudget(maxRetry: int, r: Run) returns (es: seq<Event>)
    requires Coherent(r.state) && r.state.retryArmed && !r.faulted
    requires r.state.retryCount <= maxRetry
    ensures forall e :: e in es ==> !ResetsRetries(e) && !e.Connect?
    ensures Steps(maxRetry, r, es).fired - r.fired == maxRetry - r.state.retryCount + 1
    decreases maxRetry - r.state.retryCount
  {
    var lost := OnDisconnect("lost");
    var r1 := Step(maxRetry, r, OnRetryTimer);
    if r.state.retryCount == maxRetry {
      es := [OnRetryTimer];
      StepsOne(maxRetry, r, OnRetryTimer, []);
    } else {
      var rest := SpendBudget(maxRetry, Step(maxRetry, r1, lost));
      es := [OnRetryTimer] + ([lost] + rest);
      StepsOne(maxRetry, r, OnRetryTimer, [lost] + rest);
      StepsOne(maxRetry, r1, lost, rest);
    }
  }

  /** So the budget bounds the waits of every such run iff no wait is armed at its start. */
  lemma BudgetHoldsIffNotArmed(maxRetry: int, r: Run)
    requires 0 <= maxRetry && !r.faulted
    requires Coherent(r.state) && Balanced(r) && WithinBudget(maxRetry, r.state)
    ensures (forall es :: (forall e :: e in es ==> !ResetsRetries(e)) ==>
               Steps(maxRetry, r, es).fired - r.fired <= maxRetry - r.state.retryCount)
            <==> !r.state.retryArmed
  {
    if r.state.retryArmed {
      var es := SpendBudget(maxRetry, r);
      assert Steps(maxRetry, r, es).fired - r.fired > maxRetry - r.state.retryCount;
    } else {
      forall es | forall e :: e in es ==> !ResetsRetries(e)
        ensures Steps(maxRetry, r, es).fired - r.fired <= maxRetry - r.state.retryCount
      {
        RetryBudget(maxRetry, r, es);
      }
    }
  }

  /** The extra one is real: with a wait armed, a spent budget still lets it fire. */
  lemma ArmedWaitIsExtra()
    ensures var es := [Connect, OnDisconnect("lost")];
            var r := Steps(1, START, es);
            r.state.retryCount == 1 && Step(1, r, OnRetryTimer).fired == r.fired + 1
  {
    var lost := OnDisconnect("lost");
    var r1 := Step(1, START, Connect);
    var r2 := Step(1, r1, lost);
    assert r2.state == INITIAL.(retryCount := 1, retryArmed := true);
    assert Steps(1, START, [Connect, lost]) == r2 by {
      StepsOne(1, START, Connect, [lost]);
      StepsOne(1, r1, lost, []);
    }
  }

  // ----- an explicit close, from request to completion -----

  /**
   * A close that was requested stays pending under any requests that do not fault: whether a
   * reconnect is wanted and which callback waits depend only on what was asked.
   */
  lemma {:induction false} RequestsWhileClosing(maxRetry: int, r: Run, es: seq<Event>)
    requires Coherent(r.state) && r.state.closing && !r.faulted
    requires forall e :: e in es ==> !e.OnDisconnect?
    ensures var r' := Steps(maxRetry, r, es);
            !r'.faulted ==>
              && Coherent(r'.state) && r'.state.closing
              && (r'.state.needReconnect <==> r.state.needReconnect || Connect in es)
              && (r'.state.onClose.None? <==>
                  r.state.onClose.None? && forall e :: e in es && e.Close? ==> e.callback.None?)
              && (r.state.onClose.Some? ==> r'.state.onClose == r.state.onClose)
    decreases |es|
  {
    if es != [] {
      var r1 := Step(maxRetry, r, es[0]);
      assert !es[0].OnDisconnect?;
      if r1.faulted {
        FaultIsFinal(maxRetry, r1, es[1..]);
      } else {
        RequestsWhileClosing(maxRetry, r1, es[1..]);
        assert es == [es[0]] + es[1..];
      }
    }
  }

  lemma {:induction false} FaultIsFinal(maxRetry: int, r: Run, es: seq<Event>)
    requires r.faulted
    ensures Steps(maxRetry, r, es) == r
    decreases |es|
  {
    if es != [] {
      FaultIsFinal(maxRetry, r, es[1..]);
    }
  }

  /**
   * When an explicitly requested close completes, a new session starts iff Connect was asked for
   * during that close and no callback was; the retry timer is never armed, and a callback asked
   * for is invoked, once, with the disconnect message.
   */
  lemma CloseCompletes(maxRetry: int, r: Run, request: Event, es: seq<Event>, message: string)
    requires Coherent(r.state) && Sends(r.state) && !r.faulted
    requires request.Connect? || request.Close?
    requires forall e :: e in es ==> !e.OnDisconnect?
    ensures var asked := [request] + es;
            var r' := Steps(maxRetry, Step(maxRetry, r, request), es);
            var done := Step(maxRetry, r', OnDisconnect(message));
            !r'.faulted ==>
              && (Live(done.state) <==>
                  Connect in asked && forall e :: e in asked && e.Close? ==> e.callback.None?)
              && !done.state.retryArmed && !done.state.closing && !done.state.needReconnect
              && done.calls == r'.calls + DisconnectCalls(r'.state, message)
              && done.state.onClose.None?
  {
    var r1 := Step(maxRetry, r, request);
    RequestsWhileClosing(maxRetry, r1, es);
    var asked := [request] + es;
    assert forall e :: e in asked <==> e == request || e in es;
  }
}
