/**
 * Runs of the configurations whose scenario never exits: reconnects are honoured, and the only
 * fault is to close a client that has no session (src/zakuro.cpp, src/virtual_client.cpp).
 */
module Repeating {
  import opened Base
  import opened DataChannels
  import opened Faults
  import opened LoadEngine
  import opened Messages
  import opened ScenarioBuilder
  import opened ScenarioPlayers
  import opened Shutdown
  import S = Scenarios
  import VC = VirtualClients

  /** A scenario that reconnects again and again, or never disconnects. */
  predicate NeverExits(c: Config) {
    && Defined(c) && c.hatchRate > 0.0
    && (c.duration == 0.0 || c.repeatInterval != 0.0 || (c.keyTrigger && c.scenario == "reconnect"))
  }

  ghost predicate Endless(ops: seq<S.Op>) {
    forall k :: 0 <= k < |ops| ==>
      !ops[k].Exit? && (ops[k].PlaySubScenario? ==> Harmless(ops[k].ops))
  }

  /** No Exit is ever run, so no callback is ever pending and the loop does not stop. */
  ghost predicate Endlessly(z: System) {
    && Shaped(z) && !z.stopped
    && (forall i :: 0 <= i < |z.clients| ==> Endless(z.players[MAIN].infos[i].ops))
    && (forall i :: 0 <= i < |z.clients| ==> Open(z.clients[i]))
  }

  ghost predicate Open(s: VC.State) {
    VC.Coherent(s) && s.onClose.None?
  }

  // ----- one step -----

  lemma {:induction false} VoiceTurnsEndless(n: nat)
    ensures Endless(VoiceTurns(n))
  {
    if n > 0 {
      VoiceTurnsEndless(n - 1);
    }
  }

  lemma BootsEndlessly(c: Config, channels: seq<Channel>, i: nat)
    requires NeverExits(c)
    ensures var ops, li := ClientOps(c, channels, i), ClientLoop(c, channels);
            Endless(ops) && S.Playable(ops, li)
  {
    VoiceTurnsEndless(8);
    assert Endless(Repeated(c));
    var head := Prelude(c, channels);
    forall k | 0 <= k < |head|
      ensures !head[k].Exit? && (head[k].PlaySubScenario? ==> Harmless(head[k].ops))
    {
      if 1 <= k <= |channels| {
        assert head[k] == ChannelSub(channels[k - 1]);
      }
    }
  }

  lemma MainTurn(z: System, e: Event)
    requires Endlessly(z) && Enabled(z, e) && e.OnNext? && e.path == MAIN
    ensures Endlessly(Step(z, e)) && OnlyAt(z, Step(z, e), e.i)
    ensures var s, s' := z.clients[e.i], Step(z, e).clients[e.i];
            match S.CurrentOp(z.players[MAIN].infos[e.i])
            case Reconnect => s' == VC.AfterConnect(s)
            case Disconnect => s' == VC.AfterClose(s, None).state
            case _ => s'.closing == s.closing && s'.needReconnect == s.needReconnect
  {
    var main, i := z.players[MAIN], e.i;
    var op := S.CurrentOp(main.infos[i]);
    assert Endless(main.infos[i].ops) && Open(z.clients[i]);
    RunOpIsOnNext(main, z.clients[i], MAIN, i, z.pool, e.choice);
    var z1 := AfterTurn(z, MAIN, i, RunOp(main, z.clients[i], MAIN, i, z.pool, e.choice));
    if op.PlaySubScenario? {
      StartKeepsShape(z1, MAIN, i, op);
    }
  }

  lemma BackgroundTurn(z: System, e: Event)
    requires Endlessly(z) && Enabled(z, e) && e.OnNext? && e.path != MAIN
    ensures Endlessly(Step(z, e)) && OnlyAt(z, Step(z, e), e.i)
    ensures Step(z, e).clients[e.i].needReconnect == z.clients[e.i].needReconnect
    ensures Step(z, e).clients[e.i].closing == z.clients[e.i].closing
  {
    assert Open(z.clients[e.i]);
    var _, _ := BackgroundStep(z, e);
  }

  lemma StepStaysEndless(z: System, e: Event)
    requires Endlessly(z)
    ensures Endlessly(Step(z, e)) && |Step(z, e).clients| == |z.clients|
  {
    if Enabled(z, e) {
      match e {
        case OnNext(p, _, _) => if p == MAIN { MainTurn(z, e); } else { BackgroundTurn(z, e); }
        case OnTimer(_, _) =>
        case PauseAll =>
        case ResumeAll =>
        case _ => ClientStaysOpen(z, e);
      }
    }
  }

  lemma ClientStaysOpen(z: System, e: Event)
    requires Endlessly(z) && Enabled(z, e)
    requires e.OnDisconnect? || e.OnRetryTimer? || e.OnNotify? || e.ManualConnect? || e.ManualClose?
    ensures Endlessly(Step(z, e)) && |Step(z, e).clients| == |z.clients|
  {
    assert Open(z.clients[e.i]);
  }

  // ----- whole runs -----

  lemma {:induction false} RunStaysEndless(z: System, es: seq<Event>)
    requires Endlessly(z)
    ensures Endlessly(Steps(z, es)) && |Steps(z, es).clients| == |z.clients|
    decreases |es|
  {
    if es != [] {
      StepStaysEndless(z, es[0]);
      RunStaysEndless(Step(z, es[0]), es[1..]);
    }
  }

  lemma BootEndless(c: Config, channels: seq<Channel>, maxRetry: int, pool: Pool, n: nat)
    requires NeverExits(c)
    ensures var z := Boot(c, channels, maxRetry, pool, n); Endlessly(z) && |z.clients| == n
  {
    forall i | 0 <= i < n
      ensures Endless(Boot(c, channels, maxRetry, pool, n).players[MAIN].infos[i].ops)
    {
      BootsEndlessly(c, channels, i);
    }
  }

  /**
   * In every run of a scenario that never exits, whatever keys are pressed: the loop does not
   * stop, fields cohere and no callback is pending; and the run has thrown if and only if one of
   * its handlers, a Disconnect or a manual close, closed a client that had no session.
   */
  lemma FaultsIffSomethingUnanswered(
    c: Config, channels: seq<Channel>, maxRetry: int, pool: Pool, n: nat, es: seq<Event>)
    requires NeverExits(c)
    ensures var z0 := Boot(c, channels, maxRetry, pool, n);
            var z := Steps(z0, es);
            && !z.stopped && |z.clients| == n
            && (forall i :: 0 <= i < n ==> Open(z.clients[i]))
            && (z.faulted <==> !AllAnswered(z0, es))
  {
    BootEndless(c, channels, maxRetry, pool, n);
    RunStaysEndless(Boot(c, channels, maxRetry, pool, n), es);
    RunsThrowExactly(c, channels, maxRetry, pool, n, es);
  }

  // ----- reconnecting -----

  /** A session that was just opened. */
  predicate JustOpened(s: VC.State) {
    s.signaling == Some(VC.Signaling(0, [])) && !s.closing && !s.needReconnect && !s.retryArmed
  }

  predicate Waiting(s: VC.State) {
    s.closing && s.needReconnect
  }

  lemma StepKeepsWaiting(z: System, e: Event, i: nat)
    requires Endlessly(z) && i < |z.clients| && Waiting(z.clients[i])
    requires !(e.OnDisconnect? && e.i == i)
    ensures i < |Step(z, e).clients| && Waiting(Step(z, e).clients[i])
  {
    StepStaysEndless(z, e);
    assert Open(z.clients[i]);
    if Enabled(z, e) && e.OnNext? {
      if e.path == MAIN {
        MainTurn(z, e);
      } else {
        BackgroundTurn(z, e);
      }
    }
  }

  lemma {:induction false} RunKeepsWaiting(z: System, es: seq<Event>, i: nat)
    requires Endlessly(z) && i < |z.clients| && Waiting(z.clients[i])
    requires forall k :: 0 <= k < |es| ==> !(es[k].OnDisconnect? && es[k].i == i)
    ensures Endlessly(Steps(z, es)) && i < |Steps(z, es).clients|
    ensures Waiting(Steps(z, es).clients[i])
    decreases |es|
  {
    if es != [] {
      StepStaysEndless(z, es[0]);
      StepKeepsWaiting(z, es[0], i);
      RunKeepsWaiting(Step(z, es[0]), es[1..], i);
    }
  }

  /**
   * In every run of a scenario that never exits: a Reconnect either opens a session at once, or
   * is remembered, and whatever happens until the session that is in the way has ended, its end
   * opens a new one.
   */
  lemma ReconnectIsHonoured(
    c: Config, channels: seq<Channel>, maxRetry: int, pool: Pool, n: nat, before: seq<Event>,
    e: Event, during: seq<Event>, message: string)
    requires NeverExits(c) && e.OnNext? && e.path == MAIN
    requires var z := Steps(Boot(c, channels, maxRetry, pool, n), before);
             Enabled(z, e) && S.CurrentOp(z.players[MAIN].infos[e.i]).Reconnect?
    requires forall k :: 0 <= k < |during| ==> !(during[k].OnDisconnect? && during[k].i == e.i)
    ensures var z := Steps(Boot(c, channels, maxRetry, pool, n), before);
            var z1 := Step(z, e);
            var z2 := Steps(z1, during);
            && |z1.clients| == |z2.clients| == n && e.i < n
            && (!VC.Live(z.clients[e.i]) ==> JustOpened(z1.clients[e.i]))
            && (VC.Live(z.clients[e.i]) ==>
                  && Waiting(z1.clients[e.i]) && Waiting(z2.clients[e.i])
                  && (!z2.faulted ==>
                        var z3 := Step(z2, OnDisconnect(e.i, message));
                        e.i < |z3.clients| && JustOpened(z3.clients[e.i])))
  {
    var z := Steps(Boot(c, channels, maxRetry, pool, n), before);
    FaultsIffSomethingUnanswered(c, channels, maxRetry, pool, n, before);
    BootEndless(c, channels, maxRetry, pool, n);
    RunStaysEndless(Boot(c, channels, maxRetry, pool, n), before);
    MainTurn(z, e);
    var z1 := Step(z, e);
    var z2 := Steps(z1, during);
    assert Open(z.clients[e.i]);
    RunStaysEndless(z1, during);
    if VC.Live(z.clients[e.i]) {
      RunKeepsWaiting(z1, during, e.i);
      assert Open(z2.clients[e.i]);
    }
  }
}
