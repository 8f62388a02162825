/**
 * What becomes of the DataChannel messages: which send built each of them, and which sessions they
 * were handed to (src/scenario_player.h, src/virtual_client.cpp).
 */
module Deliveries {
  import opened Base
  import opened Counters
  import opened DataChannels
  import opened LoadEngine
  import opened Messages
  import opened ScenarioBuilder
  import opened ScenarioPlayers
  import S = Scenarios
  import VC = VirtualClients

  /** The sends of a run, and the states in which they happen. */
  function SendsOf(z: System, es: seq<Event>): seq<(System, Event)>
    decreases |es|
  {
    if es == [] then []
    else (if IsSend(z, es[0]) then [(z, es[0])] else []) + SendsOf(Step(z, es[0]), es[1..])
  }

  /** The message that a send builds: for its client, with the id of the session if there is one. */
  ghost predicate BuiltBy(m: Built, z: System, e: Event) {
    && IsSend(z, e) && m.channel == SentOn(z, e)
    && e.i < |z.clients| && m.client == e.i && m.choice == e.choice
    && (m.live <==> z.clients[e.i].signaling.Some?)
    && m.id == (if z.clients[e.i].signaling.Some? then e.choice.connectionId else [])
  }

  lemma StepBuilds(z: System, e: Event)
    ensures if IsSend(z, e) then
              && |Step(z, e).built| == |z.built| + 1 && Step(z, e).built[..|z.built|] == z.built
              && BuiltBy(Step(z, e).built[|z.built|], z, e)
            else Step(z, e).built == z.built
  {
  }

  /** Each message is built by one send, in order. */
  ghost predicate BuiltInOrder(built: seq<Built>, sends: seq<(System, Event)>) {
    |built| == |sends| && forall k :: 0 <= k < |built| ==> BuiltBy(built[k], sends[k].0, sends[k].1)
  }

  /** In every run the messages that are added are those that its sends build. */
  lemma {:induction false} MessagesAreBuilt(z: System, es: seq<Event>)
    ensures var built := Steps(z, es).built;
            && |z.built| <= |built| && built[..|z.built|] == z.built
            && BuiltInOrder(built[|z.built|..], SendsOf(z, es))
    decreases |es|
  {
    if es != [] {
      var z' := Step(z, es[0]);
      StepBuilds(z, es[0]);
      MessagesAreBuilt(z', es[1..]);
      if IsSend(z, es[0]) {
        OneMoreIsBuilt(z, es[0], z', Steps(z, es).built, SendsOf(z', es[1..]));
      } else {
        assert [] + SendsOf(z', es[1..]) == SendsOf(z', es[1..]);
      }
    }
  }

  lemma OneMoreIsBuilt(z: System, e: Event, z': System, built: seq<Built>,
                       later: seq<(System, Event)>)
    requires |z'.built| == |z.built| + 1 && z'.built[..|z.built|] == z.built
    requires BuiltBy(z'.built[|z.built|], z, e)
    requires |z'.built| <= |built| && built[..|z'.built|] == z'.built
    requires BuiltInOrder(built[|z'.built|..], later)
    ensures built[..|z.built|] == z.built && BuiltInOrder(built[|z.built|..], [(z, e)] + later)
  {
    var n := |z.built|;
    assert built[n] == built[..n + 1][n];
    assert built[..n] == built[..n + 1][..n];
    assert built[n..] == [built[n]] + built[n + 1..];
  }

  // ----- what a session is handed -----

  /** A message as it is handed to a session. */
  function AsSent(m: Built): (string, seq<byte>) {
    (m.channel, m.data)
  }

  /**
   * The messages built for client i during its current session, while that was not closing,
   * continuing from `before`.
   */
  function Handed(z: System, es: seq<Event>, i: nat, before: seq<(string, seq<byte>)>):
    seq<(string, seq<byte>)>
    decreases |es|
  {
    if es == [] then before
    else Handed(Step(z, es[0]), es[1..], i, HandedBy(z, es[0], i, before))
  }

  function HandedBy(z: System, e: Event, i: nat, before: seq<(string, seq<byte>)>):
    seq<(string, seq<byte>)>
  {
    if i >= |z.clients| || !Enabled(z, e) then before
    else if z.clients[i].signaling.None? || (e.OnDisconnect? && e.i == i) then []
    else
      var built := Step(z, e).built;
      if |built| > |z.built| && IsSend(z, e) && e.i == i && !z.clients[i].closing then
        before + [AsSent(built[|built| - 1])]
      else before
  }

  ghost predicate HasSent(z: System, i: nat, sent: seq<(string, seq<byte>)>) {
    i < |z.clients| && (z.clients[i].signaling.Some? ==> z.clients[i].signaling.value.sent == sent)
  }

  lemma StepHands(z: System, e: Event, i: nat, sent: seq<(string, seq<byte>)>)
    requires HasSent(z, i, sent)
    ensures HasSent(Step(z, e), i, HandedBy(z, e, i, sent))
  {
    if Enabled(z, e) && e.OnNext? {
      TurnHands(z, e, i, sent);
    }
  }

  lemma TurnHands(z: System, e: Event, i: nat, sent: seq<(string, seq<byte>)>)
    requires HasSent(z, i, sent) && Enabled(z, e) && e.OnNext?
    ensures HasSent(Step(z, e), i, HandedBy(z, e, i, sent))
  {
    var turn := RunOp(z.players[e.path], z.clients[e.i], e.path, e.i, z.pool, e.choice);
    assert Step(z, e).clients == z.clients[e.i := turn.client];
    if IsSend(z, e) {
      StepBuilds(z, e);
      SendHands(z, e);
    } else {
      QuietTurn(z, e);
    }
  }

  /** A turn that is no send hands nothing on. */
  lemma QuietTurn(z: System, e: Event)
    requires Enabled(z, e) && e.OnNext? && !IsSend(z, e)
    ensures var s, s' := z.clients[e.i], Step(z, e).clients[e.i];
            if s.signaling.None? then s'.signaling.Some? ==> s'.signaling.value.sent == []
            else s'.signaling.Some? && s'.signaling.value.sent == s.signaling.value.sent
  {
    var turn := RunOp(z.players[e.path], z.clients[e.i], e.path, e.i, z.pool, e.choice);
    assert Step(z, e).clients[e.i] == turn.client;
  }

  lemma SendHands(z: System, e: Event)
    requires IsSend(z, e)
    ensures var s, s' := z.clients[e.i], Step(z, e).clients[e.i];
            var built := Step(z, e).built;
            && |built| > 0
            && s' == (if s.signaling.Some? && !s.closing then
                        s.(signaling := Some(s.signaling.value.(
                          sent := s.signaling.value.sent + [AsSent(built[|built| - 1])])))
                      else s)
  {
  }

  /**
   * In every run, what the live session of a client has been handed is exactly the messages that
   * were built for the client since the session was opened and before it was asked to close, in
   * the order in which they were built.
   */
  lemma {:induction false} SessionsGetTheirMessages(z: System, es: seq<Event>, i: nat,
                                                    sent: seq<(string, seq<byte>)>)
    requires HasSent(z, i, sent)
    ensures HasSent(Steps(z, es), i, Handed(z, es, i, sent))
    decreases |es|
  {
    if es != [] {
      StepHands(z, es[0], i, sent);
      SessionsGetTheirMessages(Step(z, es[0]), es[1..], i, HandedBy(z, es[0], i, sent));
    }
  }

  /** The same from the start of any configuration. */
  lemma EverySessionGetsItsMessages(c: Config, channels: seq<Channel>, maxRetry: int, pool: Pool,
                                    n: nat, es: seq<Event>, i: nat)
    requires c.hatchRate > 0.0 && i < n
    ensures var z0 := Boot(c, channels, maxRetry, pool, n);
            var z := Steps(z0, es);
            && i < |z.clients|
            && (z.clients[i].signaling.Some? ==>
                  z.clients[i].signaling.value.sent == Handed(z0, es, i, []))
            && BuiltInOrder(z.built, SendsOf(z0, es))
  {
    var z0 := Boot(c, channels, maxRetry, pool, n);
    BootsWithoutSessions(c, channels, maxRetry, pool, n, i);
    SessionsGetTheirMessages(z0, es, i, []);
    MessagesAreBuilt(z0, es);
    assert Steps(z0, es).built[0..] == Steps(z0, es).built;
  }

  lemma BootsWithoutSessions(c: Config, channels: seq<Channel>, maxRetry: int, pool: Pool, n: nat,
                             i: nat)
    requires c.hatchRate > 0.0 && i < n
    ensures var z0 := Boot(c, channels, maxRetry, pool, n); HasSent(z0, i, []) && z0.built == []
  {
  }
}
