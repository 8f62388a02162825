/**
 * Where the sessions of a client come from (src/virtual_client.cpp): what connects, how often it
 * reconnects by itself, and how every close is answered.
 */
module Reconnects {
  import opened Base
  import opened VirtualClients

  /** A Connect that finds neither a session nor a close. */
  predicate Opens(r: Run, e: Event) {
    Enabled(r, e) && e.Connect? && r.state.signaling.None? && !r.state.closing
  }

  /** The end of a session that was asked to reconnect, with nobody waiting for the close. */
  predicate Reopens(r: Run, e: Event) {
    Enabled(r, e) && e.OnDisconnect? && r.state.closing && Wants(r.state)
  }

  predicate Wants(s: State) {
    s.needReconnect && s.onClose.None?
  }

  function Opened(maxRetry: int, r: Run, es: seq<Event>): nat
    decreases |es|
  {
    if es == [] then 0 else One(Opens(r, es[0])) + Opened(maxRetry, Step(maxRetry, r, es[0]), es[1..])
  }

  function Reopened(maxRetry: int, r: Run, es: seq<Event>): nat
    decreases |es|
  {
    if es == [] then 0
    else One(Reopens(r, es[0])) + Reopened(maxRetry, Step(maxRetry, r, es[0]), es[1..])
  }

  /** In every state that is reached, a retry wait that ends opens a new session. */
  lemma RetryReconnects(maxRetry: int, es: seq<Event>)
    ensures var r := Steps(maxRetry, START, es);
            var r' := Step(maxRetry, r, OnRetryTimer);
            r.state.retryArmed && !r.faulted ==>
              && r'.created == r.created + 1
              && r'.state == r.state.(retryArmed := false, signaling := Some(Signaling(0, [])))
  {
    FromStart(maxRetry, es);
  }

  /**
   * In every run, the sessions created are the retry waits that fired, the Connects that opened
   * one at once, and the closes that completed with a reconnect wanted and no callback.
   */
  lemma {:induction false} SessionsComeFrom(maxRetry: int, r: Run, es: seq<Event>)
    requires Coherent(r.state)
    ensures var r' := Steps(maxRetry, r, es);
            r'.created - r.created
            == (r'.fired - r.fired) + Opened(maxRetry, r, es) + Reopened(maxRetry, r, es)
    decreases |es|
  {
    if es != [] {
      StepCoheres(maxRetry, r, es[0]);
      SessionsComeFrom(maxRetry, Step(maxRetry, r, es[0]), es[1..]);
    }
  }

  // ----- the budget -----

  /** Nobody connects, and the server reports no connection. */
  predicate Unattended(es: seq<Event>) {
    forall e :: e in es ==> !ResetsRetries(e) && !e.Connect?
  }

  /** Then no Connect opens a session, and a reconnect that was wanted happens at most once. */
  lemma {:induction false} UnattendedOpensNone(maxRetry: int, r: Run, es: seq<Event>)
    requires Unattended(es) && Coherent(r.state)
    ensures Opened(maxRetry, r, es) == 0
    ensures Reopened(maxRetry, r, es) <= One(Wants(r.state))
    decreases |es|
  {
    if es != [] {
      assert !es[0].Connect?;
      StepCoheres(maxRetry, r, es[0]);
      UnattendedOpensNone(maxRetry, Step(maxRetry, r, es[0]), es[1..]);
    }
  }

  /**
   * A client that is left alone opens at most as many sessions as its budget has left, one more
   * if a retry wait is armed, and one more if it is closing in order to reconnect.
   */
  lemma ReconnectBudget(maxRetry: int, r: Run, es: seq<Event>)
    requires 0 <= maxRetry && Unattended(es)
    requires Coherent(r.state) && Balanced(r) && WithinBudget(maxRetry, r.state)
    ensures Steps(maxRetry, r, es).created - r.created
            <= maxRetry - r.state.retryCount + One(r.state.retryArmed) + One(Wants(r.state))
  {
    SessionsComeFrom(maxRetry, r, es);
    UnattendedOpensNone(maxRetry, r, es);
    RetryBudget(maxRetry, r, es);
  }

  /** Lose the session again and again until the budget is spent, one session too late. */
  lemma Overspend(maxRetry: int, r: Run) returns (es: seq<Event>)
    requires 0 <= maxRetry && !r.faulted && r.state.retryCount <= maxRetry && Coherent(r.state)
    requires r.state.retryArmed || Wants(r.state)
    ensures Unattended(es)
    ensures Steps(maxRetry, r, es).created - r.created > maxRetry - r.state.retryCount
  {
    if r.state.retryArmed {
      es := SpendBudget(maxRetry, r);
      SessionsComeFrom(maxRetry, r, es);
    } else {
      var lost := OnDisconnect("lost");
      var r1 := Step(maxRetry, r, lost);
      if r.state.retryCount == maxRetry {
        es := [lost];
        StepsOne(maxRetry, r, lost, []);
      } else {
        var r2 := Step(maxRetry, r1, lost);
        var rest := SpendBudget(maxRetry, r2);
        SessionsComeFrom(maxRetry, r2, rest);
        es := [lost] + ([lost] + rest);
        StepsOne(maxRetry, r, lost, [lost] + rest);
        StepsOne(maxRetry, r1, lost, rest);
      }
    }
  }

  /**
   * What is left of the budget bounds the sessions that a client left alone opens, whatever
   * happens to it, if and only if no retry wait is armed and it is not closing to reconnect.
   */
  lemma ReconnectBudgetExactly(maxRetry: int, r: Run)
    requires 0 <= maxRetry && !r.faulted
    requires Coherent(r.state) && Balanced(r) && WithinBudget(maxRetry, r.state)
    ensures (forall es :: Unattended(es) ==>
               Steps(maxRetry, r, es).created - r.created <= maxRetry - r.state.retryCount)
            <==> !r.state.retryArmed && !Wants(r.state)
  {
    if r.state.retryArmed || Wants(r.state) {
      var es := Overspend(maxRetry, r);
      assert Unattended(es);
    } else {
      forall es | Unattended(es)
        ensures Steps(maxRetry, r, es).created - r.created <= maxRetry - r.state.retryCount
      {
        ReconnectBudget(maxRetry, r, es);
      }
    }
  }

  // ----- what restores it -----

  /** n times, the session is lost and the wait ends. */
  function Losses(n: nat): seq<Event> {
    if n == 0 then [] else [OnDisconnect("lost"), OnRetryTimer] + Losses(n - 1)
  }

  lemma {:induction false} SurvivesLosses(maxRetry: int, r: Run, n: nat)
    requires Coherent(r.state) && Sends(r.state) && !r.faulted && r.state.retryCount + n <= maxRetry
    ensures var r' := Steps(maxRetry, r, Losses(n));
            && Coherent(r'.state) && Sends(r'.state) && !r'.faulted
            && r'.state.retryCount == r.state.retryCount + n && r'.created == r.created + n
    decreases n
  {
    if n > 0 {
      var lost := OnDisconnect("lost");
      var r1 := Step(maxRetry, r, lost);
      assert Losses(n) == [lost] + ([OnRetryTimer] + Losses(n - 1));
      StepsOne(maxRetry, r, lost, [OnRetryTimer] + Losses(n - 1));
      StepsOne(maxRetry, r1, OnRetryTimer, Losses(n - 1));
      SurvivesLosses(maxRetry, Step(maxRetry, r1, OnRetryTimer), n - 1);
    }
  }

  /**
   * When the server reports a connection, a client can lose max_retry sessions in a row and is
   * connected again after each; any other notification leaves it what it had. After one loss more
   * it has neither a session nor a wait.
   */
  lemma CreatedRestoresBudget(maxRetry: int, r: Run, eventType: string)
    requires Coherent(r.state) && Sends(r.state) && !r.faulted && r.state.retryCount <= maxRetry
    ensures var left := if eventType == "connection.created" then maxRetry
                        else maxRetry - r.state.retryCount;
            left >= 0 ==>
              var r1 := Step(maxRetry, r, OnNotify(eventType));
              var r2 := Steps(maxRetry, r1, Losses(left));
              var r3 := Step(maxRetry, r2, OnDisconnect("lost"));
              && Sends(r2.state) && r2.created == r.created + left
              && r3.state == INITIAL.(retryCount := maxRetry) && r3.created == r2.created
  {
    var left := if eventType == "connection.created" then maxRetry else maxRetry - r.state.retryCount;
    if left >= 0 {
      SurvivesLosses(maxRetry, Step(maxRetry, r, OnNotify(eventType)), left);
    }
  }

  // ----- answers -----

  /**
   * In every run a Close with a callback is answered: at once, with the reason, if there is no
   * session or somebody is waiting already, and otherwise when the session ends, with the message
   * of that end, whatever is asked for in between.
   */
  lemma CloseIsAnswered(maxRetry: int, es: seq<Event>, f: Callback, during: seq<Event>,
                        message: string)
    requires forall e :: e in during ==> !e.OnDisconnect?
    ensures var r := Steps(maxRetry, START, es);
            var r1 := Step(maxRetry, r, Close(Some(f)));
            var r2 := Steps(maxRetry, r1, during);
            !r.faulted ==>
              if r.state.signaling.None? then r1.calls == r.calls + [Call(f, "already closed")]
              else if r.state.onClose.Some? then r1.calls == r.calls + [Call(f, "already closing")]
              else
                && r1.calls == r.calls
                && (!r2.faulted ==>
                      Step(maxRetry, r2, OnDisconnect(message)).calls == r2.calls + [Call(f, message)])
  {
    FromStart(maxRetry, es);
    var r := Steps(maxRetry, START, es);
    var r1 := Step(maxRetry, r, Close(Some(f)));
    if !r.faulted && r.state.signaling.Some? && r.state.onClose.None? {
      StepCoheres(maxRetry, r, Close(Some(f)));
      assert r1.state.closing && r1.state.onClose == Some(f);
      LateAnswer(maxRetry, r1, f, during, message);
    }
  }

  lemma LateAnswer(maxRetry: int, r: Run, f: Callback, during: seq<Event>, message: string)
    requires Coherent(r.state) && r.state.closing && r.state.onClose == Some(f) && !r.faulted
    requires forall e :: e in during ==> !e.OnDisconnect?
    ensures var r' := Steps(maxRetry, r, during);
            !r'.faulted ==>
              Step(maxRetry, r', OnDisconnect(message)).calls == r'.calls + [Call(f, message)]
  {
    RequestsWhileClosing(maxRetry, r, during);
  }
}
