/**
 * The event loop of Zakuro::Run (src/zakuro.cpp): the main player, its nested players and all
 * virtual clients, advanced one handler at a time by the single-threaded io_context.
 */
module LoadEngine {
  import opened Base
  import opened DataChannels
  import opened Messages
  import opened ScenarioBuilder
  import opened ScenarioPlayers
  import S = Scenarios
  import VC = VirtualClients

  const MAIN: Path := []

  /**
   * `players` is keyed by path; `built` lists the DataChannel messages in build order. Only with
   * `keyTrigger` is there an object that reads keys and posts what they ask for.
   */
  datatype System = System(
    keyTrigger: bool,
    maxRetry: int,
    pool: Pool,
    players: map<Path, Player>,
    clients: seq<VC.State>,
    built: seq<Built>,
    stopped: bool,
    faulted: bool)

  /** One handler: a continuation or a timer of a player, a key, or an event of a client. */
  datatype Event =
    | OnNext(path: Path, i: nat, choice: Choice)
    | OnTimer(path: Path, i: nat)
    | PauseAll
    | ResumeAll
    | OnDisconnect(i: nat, message: string)
    | OnRetryTimer(i: nat)
    | OnNotify(i: nat, eventType: string)
    | ManualConnect(i: nat)
    | ManualClose(i: nat)

  function Boot(c: Config, channels: seq<Channel>, maxRetry: int, pool: Pool, n: nat): System
    requires c.hatchRate > 0.0
  {
    var infos := seq(n, i requires i >= 0 =>
      S.AfterPlay(S.UNPLAYED, ClientOps(c, channels, i), ClientLoop(c, channels)));
    System(c.keyTrigger, maxRetry, pool, map[MAIN := Player(infos, map[])], seq(n, _ => VC.INITIAL), [],
           false, false)
  }

  /** Once the loop has stopped or a handler has thrown, no handler runs any more. */
  predicate Enabled(z: System, e: Event) {
    && !z.stopped && !z.faulted
    && MAIN in z.players
    && match e
       case OnNext(p, i, _) => i < |z.clients| && p in z.players && CanRun(z.players[p], i)
       case OnTimer(p, i) =>
         p in z.players && i < |z.players[p].infos| && z.players[p].infos[i].timerArmed
       case PauseAll => z.keyTrigger
       case ResumeAll => z.keyTrigger
       case OnDisconnect(i, _) => i < |z.clients| && VC.Live(z.clients[i])
       case OnRetryTimer(i) => i < |z.clients| && z.clients[i].retryArmed
       case OnNotify(i, _) => i < |z.clients|
       case ManualConnect(i) => z.keyTrigger && i < |z.clients|
       case ManualClose(i) => z.keyTrigger && i < |z.clients|
  }

  function WithPlayer(z: System, p: Path, player: Player): System {
    z.(players := z.players[p := player])
  }

  function WithClient(z: System, i: nat, s: VC.State): System
    requires i < |z.clients|
  {
    z.(clients := z.clients[i := s])
  }

  function StartSub(z: System, p: Path, i: nat, op: S.Op): System
    requires op.PlaySubScenario?
  {
    var q := p + [op.name];
    var sub := if q in z.players then z.players[q] else NewPlayer(|z.clients|);
    WithPlayer(z, q, PlayerAfterPlay(sub, i, op.ops, op.loopOpIndex))
  }

  /** Runs the callback that an Exit operation left with a client. */
  function RunCallback(z: System, f: VC.Callback): System {
    if f.player in z.players && f.client < |z.players[f.player].infos| then
      var player := PlayerAfterExit(z.players[f.player], f.client);
      WithPlayer(z, f.player, player).(stopped := AllExited(player))
    else
      z
  }

  function AfterTurn(z: System, p: Path, i: nat, turn: Turn): System
    requires i < |z.clients|
  {
    z.(players := z.players[p := turn.player],
       clients := z.clients[i := turn.client],
       built := z.built + (if turn.built.Some? then [turn.built.value] else []),
       stopped := turn.stops,
       faulted := turn.faulted)
  }

  function Each(player: Player, f: S.ClientInfo -> S.ClientInfo): (r: Player)
    ensures |r.infos| == |player.infos|
    ensures forall k :: 0 <= k < |r.infos| ==> r.infos[k] == f(player.infos[k])
  {
    player.(infos := seq(|player.infos|, k requires 0 <= k < |player.infos| => f(player.infos[k])))
  }

  function Step(z: System, e: Event): System {
    if !Enabled(z, e) then z else
    match e
    case OnNext(p, i, c) =>
      var op := S.CurrentOp(z.players[p].infos[i]);
      var z' := AfterTurn(z, p, i, RunOp(z.players[p], z.clients[i], p, i, z.pool, c));
      if op.PlaySubScenario? then StartSub(z', p, i, op) else z'
    case OnTimer(p, i) =>
      var player := z.players[p];
      WithPlayer(z, p, WithInfo(player, i, S.AfterTimer(player.infos[i])))
    case PauseAll =>
      WithPlayer(z, MAIN, Each(z.players[MAIN], S.AfterPause))
    case ResumeAll =>
      WithPlayer(z, MAIN, Each(z.players[MAIN], S.AfterResume))
    case OnDisconnect(i, message) =>
      var s := z.clients[i];
      var z' := WithClient(z, i, VC.AfterDisconnect(s, z.maxRetry));
      if s.onClose.Some? then RunCallback(z', s.onClose.value) else z'
    case OnRetryTimer(i) =>
      WithClient(z, i, VC.AfterRetryTimer(z.clients[i]))
    case OnNotify(i, eventType) =>
      WithClient(z, i, VC.AfterNotify(z.clients[i], eventType))
    case ManualConnect(i) =>
      WithClient(z, i, VC.AfterConnect(z.clients[i]))
    case ManualClose(i) =>
      var close := VC.AfterClose(z.clients[i], None);
      WithClient(z, i, close.state).(faulted := close.Faulted?)
  }

  function Steps(z: System, es: seq<Event>): System
    decreases |es|
  {
    if es == [] then z else Steps(Step(z, es[0]), es[1..])
  }

  /** What a key asks for. */
  predicate IsKey(e: Event) {
    e.PauseAll? || e.ResumeAll? || e.ManualConnect? || e.ManualClose?
  }

  predicate KeyFree(es: seq<Event>) {
    forall k :: 0 <= k < |es| ==> !IsKey(es[k])
  }

  function Resumes(es: seq<Event>): nat {
    if es == [] then 0 else (if es[0].ResumeAll? then 1 else 0) + Resumes(es[1..])
  }

  function Connects(es: seq<Event>): nat {
    if es == [] then 0 else (if es[0].ManualConnect? then 1 else 0) + Connects(es[1..])
  }

  function WithoutKeys(es: seq<Event>): (r: seq<Event>)
    ensures KeyFree(r)
  {
    if es == [] then [] else (if IsKey(es[0]) then [] else [es[0]]) + WithoutKeys(es[1..])
  }

  /** Without a key trigger, keys make no difference. */
  lemma {:induction false} KeysAreDead(z: System, es: seq<Event>)
    requires !z.keyTrigger
    ensures Steps(z, es) == Steps(z, WithoutKeys(es))
    decreases |es|
  {
    if es != [] {
      var rest := WithoutKeys(es[1..]);
      if IsKey(es[0]) {
        KeyIsDead(z, es[0]);
        KeysAreDead(z, es[1..]);
        assert WithoutKeys(es) == [] + rest == rest;
      } else {
        KeysAreDead(Step(z, es[0]), es[1..]);
        assert WithoutKeys(es) == [es[0]] + rest && ([es[0]] + rest)[1..] == rest;
      }
    }
  }

  lemma KeyIsDead(z: System, e: Event)
    requires !z.keyTrigger && IsKey(e)
    ensures Step(z, e) == z
  {
  }

  lemma {:induction false} StepsConcat(z: System, a: seq<Event>, b: seq<Event>)
    ensures Steps(z, a + b) == Steps(Steps(z, a), b)
    decreases |a|
  {
    if a == [] {
      assert a + b == b;
    } else {
      assert (a + b)[1..] == a[1..] + b;
      StepsConcat(Step(z, a[0]), a[1..], b);
    }
  }

  lemma {:induction false} KeyFreeCounts(a: seq<Event>, b: seq<Event>)
    requires KeyFree(a)
    ensures Resumes(a + b) == Resumes(b) && Connects(a + b) == Connects(b)
    decreases |a|
  {
    if a == [] {
      assert a + b == b;
    } else {
      assert (a + b)[1..] == a[1..] + b;
      KeyFreeCounts(a[1..], b);
    }
  }

  lemma {:induction false} SettingsStay(z: System, es: seq<Event>)
    ensures Steps(z, es).keyTrigger == z.keyTrigger && Steps(z, es).maxRetry == z.maxRetry
    decreases |es|
  {
    if es != [] {
      SettingsStay(Step(z, es[0]), es[1..]);
    }
  }
}
