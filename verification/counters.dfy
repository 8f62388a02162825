/**
 * The counters that number the DataChannel messages of a channel, across all clients
 * (src/scenario_player.h, src/zakuro.cpp).
 */
module Counters {
  import opened Arithmetic
  import opened Base
  import opened BinaryPools
  import opened DataChannels
  import opened LoadEngine
  import opened Messages
  import opened ScenarioBuilder
  import opened ScenarioPlayers
  import S = Scenarios
  import VC = VirtualClients

  /** The nested player that sends the messages of a channel. */
  function SenderPath(channel: string): Path {
    [DCS_PREFIX + channel]
  }

  /** The Send operations that the channels ask for. */
  function Offers(channels: seq<Channel>): set<S.Op> {
    set k | 0 <= k < |channels| ::
      S.SendDataChannelMessage(channels[k].name, channels[k].sizeMin, channels[k].sizeMax)
  }

  ghost predicate AllServable(offers: set<S.Op>) {
    forall op :: op in offers ==>
      op.SendDataChannelMessage?
      && MESSAGE_SIZE_MIN <= op.minSize <= op.maxSize <= MESSAGE_SIZE_MAX
  }

  /** A Send in a scenario of this name is one that its channel asks for. */
  ghost predicate SendsFor(op: S.Op, name: string, offers: set<S.Op>) {
    && !op.PlaySubScenario?
    && (op.SendDataChannelMessage? ==> op in offers && name == DCS_PREFIX + op.channel)
  }

  /** Only the main player starts sub-scenarios, and only those it starts send messages. */
  ghost predicate InPlace(op: S.Op, p: Path, offers: set<S.Op>) {
    if p == MAIN then
      && !op.SendDataChannelMessage?
      && (op.PlaySubScenario? ==>
            forall k :: 0 <= k < |op.ops| ==> SendsFor(op.ops[k], op.name, offers))
    else
      |p| == 1 && SendsFor(op, p[0], offers)
  }

  ghost predicate AllInPlace(ops: seq<S.Op>, p: Path, offers: set<S.Op>) {
    forall k :: 0 <= k < |ops| ==> InPlace(ops[k], p, offers)
  }

  ghost predicate PlayerInPlace(player: Player, p: Path, offers: set<S.Op>) {
    forall i :: 0 <= i < |player.infos| ==> AllInPlace(player.infos[i].ops, p, offers)
  }

  ghost predicate Placed(z: System, offers: set<S.Op>) {
    MAIN in z.players && forall p :: p in z.players ==> PlayerInPlace(z.players[p], p, offers)
  }

  /** The counter that a receiver reads from a message. */
  function Decoded(m: Built): nat {
    if |m.data| < HEADER_SIZE then 0 else FromBigEndian(m.data[14..22])
  }

  /** The counters read from the messages of one channel, in the order they were built. */
  function Numbers(built: seq<Built>, channel: string): seq<nat> {
    if built == [] then [] else
    var last := built[|built| - 1];
    Numbers(built[..|built| - 1], channel)
    + (if last.channel == channel then [Decoded(last)] else [])
  }

  function NextCounter(z: System, channel: string): nat {
    if SenderPath(channel) in z.players
    then CounterOf(z.players[SenderPath(channel)], channel) else 0
  }

  ghost predicate Numbered(z: System, channel: string) {
    var ns := Numbers(z.built, channel);
    && Consecutive(ns)
    && NextCounter(z, channel) == |ns| % TWO_64
  }

  /**
   * A message has a length that its channel allows, decodes to what it was built from, and
   * continues with bytes around the pool.
   */
  ghost predicate WellMade(m: Built, offers: set<S.Op>, pool: Pool) {
    && S.SendDataChannelMessage(m.channel, m.minSize, m.maxSize) in offers
    && m.minSize <= |m.data| <= m.maxSize && |m.data| >= HEADER_SIZE
    && m.id == (if m.live then m.choice.connectionId else [])
    && DecodesTo(m.data[..HEADER_SIZE], m.choice.time % TWO_64, m.counter, m.id)
    && m.data[HEADER_SIZE..]
       == RingSlice(pool, m.choice.posDraw % |pool|, |m.data| - HEADER_SIZE)
  }

  ghost predicate AllWellMade(z: System, offers: set<S.Op>) {
    forall k :: 0 <= k < |z.built| ==> WellMade(z.built[k], offers, z.pool)
  }

  // ----- one step -----

  lemma TurnKeepsPlaced(z: System, e: Event, offers: set<S.Op>)
    requires Placed(z, offers) && Enabled(z, e) && e.OnNext?
    ensures Placed(Step(z, e), offers)
  {
    var p, i := e.path, e.i;
    var player := z.players[p];
    var op := S.CurrentOp(player.infos[i]);
    assert InPlace(op, p, offers);
    RunOpIsOnNext(player, z.clients[i], p, i, z.pool, e.choice);
    var z1 := AfterTurn(z, p, i, RunOp(player, z.clients[i], p, i, z.pool, e.choice));
    assert PlayerInPlace(z1.players[p], p, offers);
    if op.PlaySubScenario? {
      var q := p + [op.name];
      assert q == [op.name] && AllInPlace(op.ops, q, offers);
      assert Step(z, e) == StartSub(z1, p, i, op);
    }
  }

  lemma StepKeepsPlaced(z: System, e: Event, offers: set<S.Op>)
    requires Placed(z, offers)
    ensures Placed(Step(z, e), offers)
  {
    if Enabled(z, e) && e.OnNext? {
      TurnKeepsPlaced(z, e, offers);
    }
  }

  /** What a step that is no Send leaves: the messages and every channel's next counter. */
  lemma QuietStep(z: System, e: Event, offers: set<S.Op>, channel: string)
    requires Placed(z, offers)
    requires !IsSend(z, e)
    ensures Step(z, e).built == z.built
    ensures NextCounter(Step(z, e), channel) == NextCounter(z, channel)
  {
  }

  predicate IsSend(z: System, e: Event) {
    && Enabled(z, e) && e.OnNext?
    && S.CurrentOp(z.players[e.path].infos[e.i]).SendDataChannelMessage?
  }

  function SentOn(z: System, e: Event): string
    requires IsSend(z, e)
  {
    S.CurrentOp(z.players[e.path].infos[e.i]).channel
  }

  /** A Send appends one message that carries its channel's counter, and moves that counter on. */
  lemma SendBuilds(z: System, e: Event, offers: set<S.Op>) returns (m: Built)
    requires Placed(z, offers) && AllServable(offers) && IsSend(z, e)
    requires NextCounter(z, SentOn(z, e)) < TWO_64
    ensures Step(z, e).built == z.built + [m]
    ensures m.channel == SentOn(z, e) && Decoded(m) == m.counter == NextCounter(z, SentOn(z, e))
    ensures m.client == e.i && m.choice == e.choice
    ensures m.live <==> z.clients[e.i].signaling.Some?
    ensures WellMade(m, offers, z.pool)
  {
    var p, i := e.path, e.i;
    var player := z.players[p];
    var op := S.CurrentOp(player.infos[i]);
    assert InPlace(op, p, offers);
    assert p == SenderPath(op.channel);
    var counter := CounterOf(player, op.channel);
    var id := VC.ReportedId(z.clients[i], e.choice.connectionId);
    var data := Message(z.pool, op.minSize, op.maxSize, e.choice, counter, id);
    m := Built(op.channel, op.minSize, op.maxSize, counter, i, e.choice,
               VC.Live(z.clients[i]), id, data);
    MessageDecodes(z.pool, op.minSize, op.maxSize, e.choice, counter, id);
    assert data[14..22] == data[..HEADER_SIZE][14..22];
  }

  lemma SendCounts(z: System, e: Event, offers: set<S.Op>, channel: string)
    requires Placed(z, offers) && IsSend(z, e)
    ensures NextCounter(Step(z, e), channel)
         == if channel == SentOn(z, e) then (NextCounter(z, channel) + 1) % TWO_64
            else NextCounter(z, channel)
  {
    var p := e.path;
    var op := S.CurrentOp(z.players[p].infos[e.i]);
    assert InPlace(op, p, offers);
    assert p == SenderPath(op.channel);
    assert SenderPath(channel)[0][|DCS_PREFIX|..] == channel;
    assert SenderPath(op.channel)[0][|DCS_PREFIX|..] == op.channel;
  }

  lemma NumbersGrow(built: seq<Built>, m: Built, channel: string)
    ensures Numbers(built + [m], channel)
         == Numbers(built, channel) + (if m.channel == channel then [Decoded(m)] else [])
  {
    assert (built + [m])[..|built|] == built;
  }

  lemma SendStep(z: System, e: Event, offers: set<S.Op>, channel: string)
    requires Placed(z, offers) && AllServable(offers) && IsSend(z, e)
    requires Numbered(z, channel) && NextCounter(z, SentOn(z, e)) < TWO_64
    ensures Numbered(Step(z, e), channel)
  {
    var m := SendBuilds(z, e, offers);
    var ns := Numbers(z.built, channel);
    NumbersGrow(z.built, m, channel);
    SendCounts(z, e, offers, channel);
    CounterMoves(|ns|);
    ConsecutiveGrows(ns);
  }

  ghost predicate Consecutive(ns: seq<nat>) {
    forall k :: 0 <= k < |ns| ==> ns[k] == k % TWO_64
  }

  lemma ConsecutiveGrows(ns: seq<nat>)
    requires Consecutive(ns)
    ensures Consecutive(ns + [|ns| % TWO_64])
  {
  }

  lemma CounterMoves(n: nat)
    ensures (n % TWO_64 + 1) % TWO_64 == (n + 1) % TWO_64
  {
    ModStep(n, TWO_64);
  }

  ghost predicate AllNumbered(z: System) {
    forall channel :: Numbered(z, channel)
  }

  lemma StepKeepsNumbers(z: System, e: Event, offers: set<S.Op>)
    requires Placed(z, offers) && AllServable(offers) && AllNumbered(z) && AllWellMade(z, offers)
    ensures AllNumbered(Step(z, e)) && AllWellMade(Step(z, e), offers)
  {
    forall channel
      ensures Numbered(Step(z, e), channel)
    {
      assert Numbered(z, channel);
      if IsSend(z, e) {
        assert Numbered(z, SentOn(z, e));
        SendStep(z, e, offers, channel);
      } else {
        QuietStep(z, e, offers, channel);
      }
    }
    StepKeepsMade(z, e, offers);
  }

  lemma StepKeepsMade(z: System, e: Event, offers: set<S.Op>)
    requires Placed(z, offers) && AllServable(offers) && AllNumbered(z) && AllWellMade(z, offers)
    ensures AllWellMade(Step(z, e), offers)
  {
    if IsSend(z, e) {
      assert Numbered(z, SentOn(z, e));
      var m := SendBuilds(z, e, offers);
    } else {
      QuietStep(z, e, offers, "");
    }
  }

  // ----- whole runs -----

  lemma {:induction false} RunKeepsNumbers(z: System, es: seq<Event>, offers: set<S.Op>)
    requires Placed(z, offers) && AllServable(offers) && AllNumbered(z) && AllWellMade(z, offers)
    ensures AllNumbered(Steps(z, es)) && AllWellMade(Steps(z, es), offers)
    ensures Steps(z, es).pool == z.pool
    decreases |es|
  {
    if es != [] {
      StepKeepsPlaced(z, es[0], offers);
      StepKeepsNumbers(z, es[0], offers);
      RunKeepsNumbers(Step(z, es[0]), es[1..], offers);
    }
  }

  lemma OffersAreServable(channels: seq<Channel>)
    requires forall ch :: ch in channels ==> Servable(ch)
    ensures AllServable(Offers(channels))
  {
    forall op | op in Offers(channels)
      ensures op.SendDataChannelMessage?
              && MESSAGE_SIZE_MIN <= op.minSize <= op.maxSize <= MESSAGE_SIZE_MAX
    {
      var k :| 0 <= k < |channels| && op
        == S.SendDataChannelMessage(channels[k].name, channels[k].sizeMin, channels[k].sizeMax);
      assert Servable(channels[k]);
    }
  }

  lemma ClientOpsInPlace(c: Config, channels: seq<Channel>, i: nat)
    requires c.hatchRate > 0.0
    ensures AllInPlace(ClientOps(c, channels, i), MAIN, Offers(channels))
  {
    VoiceTurnsInPlace(8, Offers(channels));
    var head := Prelude(c, channels);
    forall k | 0 <= k < |head|
      ensures InPlace(head[k], MAIN, Offers(channels))
    {
      if 1 <= k <= |channels| && (!c.keyTrigger || c.scenario == "") {
        assert head[k] == ChannelSub(channels[k - 1]);
      }
    }
  }

  lemma {:induction false} VoiceTurnsInPlace(n: nat, offers: set<S.Op>)
    ensures AllInPlace(VoiceTurns(n), MAIN, offers)
  {
    if n > 0 {
      VoiceTurnsInPlace(n - 1, offers);
    }
  }

  /**
   * For every accepted channel configuration and every run over any number of clients: the
   * counters that receivers decode from the messages of one channel are 0, 1, 2, ... modulo 2^64,
   * in build order, without gap or repeat; and every message has a length that its channel
   * allows, between 48 and 256000 bytes, decodes to the time, the counter and the connection id of
   * the client's session, if it had one, and continues with bytes around the pool.
   */
  lemma CountersAreConsecutive(c: Config, items: seq<Json>, maxRetry: int, pool: Pool, n: nat,
                               es: seq<Event>, channel: string)
    requires c.hatchRate > 0.0
    requires AllAcceptable(items)
    ensures var channels := SentChannels(items);
            var z := Steps(Boot(c, channels, maxRetry, pool, n), es);
            && Consecutive(Numbers(z.built, channel))
            && forall k :: 0 <= k < |z.built| ==>
                 && WellMade(z.built[k], Offers(channels), pool)
                 && 48 <= |z.built[k].data| <= 256000
  {
    var channels := SentChannels(items);
    var offers := Offers(channels);
    AcceptedChannelsAreServable(items);
    OffersAreServable(channels);
    var z := Boot(c, channels, maxRetry, pool, n);
    forall i | 0 <= i < n
      ensures AllInPlace(z.players[MAIN].infos[i].ops, MAIN, offers)
    {
      ClientOpsInPlace(c, channels, i);
    }
    forall name
      ensures Numbered(z, name)
    {
      assert SenderPath(name) != MAIN;
    }
    RunKeepsNumbers(z, es, offers);
    var z' := Steps(z, es);
    assert Numbered(z', channel);
    forall k | 0 <= k < |z'.built|
      ensures WellMade(z'.built[k], offers, pool)
      ensures 48 <= |z'.built[k].data| <= 256000
    {
      assert WellMade(z'.built[k], offers, z'.pool);
    }
  }
}
