/**
 * When a run has thrown: exactly when one of its handlers called Close without a callback on a
 * client that could not take it (src/virtual_client.cpp).
 */
module Faults {
  import opened Base
  import opened DataChannels
  import opened LoadEngine
  import opened Messages
  import opened ScenarioBuilder
  import opened ScenarioPlayers
  import S = Scenarios
  import VC = VirtualClients

  /** Without a callback, Close needs a session, and no callback that is pending already. */
  predicate Unanswerable(s: VC.State) {
    !VC.Live(s) || s.onClose.Some?
  }

  /** A handler that closes such a client: a Disconnect of a scenario, or a key. */
  predicate ClosesUnanswered(z: System, e: Event) {
    && Enabled(z, e)
    && match e
       case OnNext(p, i, _) =>
         S.CurrentOp(z.players[p].infos[i]).Disconnect? && Unanswerable(z.clients[i])
       case ManualClose(i) => Unanswerable(z.clients[i])
       case _ => false
  }

  /** No handler of the run does. */
  predicate AllAnswered(z: System, es: seq<Event>)
    decreases |es|
  {
    es != [] ==> !ClosesUnanswered(z, es[0]) && AllAnswered(Step(z, es[0]), es[1..])
  }

  ghost predicate AllCoherent(z: System) {
    forall i :: 0 <= i < |z.clients| ==> VC.Coherent(z.clients[i])
  }

  lemma CloseIsAnswered(s: VC.State)
    requires VC.Coherent(s)
    ensures VC.AfterClose(s, None).Faulted? <==> Unanswerable(s)
  {
  }

  lemma TurnFaults(z: System, e: Event)
    requires AllCoherent(z) && Enabled(z, e) && e.OnNext?
    ensures AllCoherent(Step(z, e)) && (Step(z, e).faulted <==> ClosesUnanswered(z, e))
  {
    var player, s := z.players[e.path], z.clients[e.i];
    assert VC.Coherent(s);
    CloseIsAnswered(s);
    var turn := RunOp(player, s, e.path, e.i, z.pool, e.choice);
    assert VC.Coherent(turn.client);
  }

  lemma StepFaults(z: System, e: Event)
    requires AllCoherent(z) && !z.faulted
    ensures AllCoherent(Step(z, e)) && (Step(z, e).faulted <==> ClosesUnanswered(z, e))
  {
    if Enabled(z, e) {
      match e {
        case OnNext(_, _, _) => TurnFaults(z, e);
        case ManualClose(i) => CloseIsAnswered(z.clients[i]);
        case _ =>
      }
    }
  }

  lemma {:induction false} RunFaults(z: System, es: seq<Event>)
    requires AllCoherent(z) && !z.faulted
    ensures Steps(z, es).faulted <==> !AllAnswered(z, es)
    decreases |es|
  {
    if es != [] {
      StepFaults(z, es[0]);
      if Step(z, es[0]).faulted {
        FaultIsFinal(Step(z, es[0]), es[1..]);
      } else {
        RunFaults(Step(z, es[0]), es[1..]);
      }
    }
  }

  lemma {:induction false} FaultIsFinal(z: System, es: seq<Event>)
    requires z.faulted
    ensures Steps(z, es) == z
    decreases |es|
  {
    if es != [] {
      FaultIsFinal(z, es[1..]);
    }
  }

  /**
   * For every configuration and every run, with any keys: the run has thrown if and only if one of
   * its handlers, a Disconnect or a manual close, met a client without a session or with a
   * callback pending.
   */
  lemma RunsThrowExactly(
    c: Config, channels: seq<Channel>, maxRetry: int, pool: Pool, n: nat, es: seq<Event>)
    requires c.hatchRate > 0.0
    ensures var z := Boot(c, channels, maxRetry, pool, n);
            Steps(z, es).faulted <==> !AllAnswered(z, es)
  {
    RunFaults(Boot(c, channels, maxRetry, pool, n), es);
  }
}
