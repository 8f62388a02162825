/**
 * Shutdown of a run with a duration and no repeat interval: each client disconnects, exits, and
 * the last Exit callback stops the event loop (src/scenario_player.h, src/virtual_client.cpp).
 */
module Shutdown {
  import opened Base
  import opened DataChannels
  import opened LoadEngine
  import opened Messages
  import opened ScenarioBuilder
  import opened ScenarioPlayers
  import S = Scenarios
  import VC = VirtualClients

  /** A configuration whose scenario ends in Sleep, Disconnect, Exit. */
  predicate Shuts(c: Config) {
    && c.hatchRate > 0.0
    && (!c.keyTrigger || c.scenario == "")
    && c.duration != 0.0 && c.repeatInterval == 0.0
  }

  predicate Background(op: S.Op) {
    op.Sleep? || op.PlayVoiceNumberClient? || op.SendDataChannelMessage?
  }

  ghost predicate Harmless(ops: seq<S.Op>) {
    forall k :: 0 <= k < |ops| ==> Background(ops[k])
  }

  /** The shape of the scenario, with its loop at Sleep, Disconnect, Exit. */
  ghost predicate ShutdownScenario(ops: seq<S.Op>, li: int) {
    && 2 <= li && |ops| == li + 3
    && ops[0].Sleep? && ops[1].Reconnect?
    && (forall k :: 2 <= k < li ==> ops[k].PlaySubScenario? && Harmless(ops[k].ops))
    && ops[li].Sleep? && ops[li + 1].Disconnect? && ops[li + 2].Exit?
  }

  lemma PreludeIsHarmless(c: Config, channels: seq<Channel>, k: nat)
    requires Shuts(c) && 1 <= k < |Prelude(c, channels)|
    ensures Prelude(c, channels)[k].PlaySubScenario? && Harmless(Prelude(c, channels)[k].ops)
  {
    var op := Prelude(c, channels)[k];
    assert op == if k - 1 < |channels| then ChannelSub(channels[k - 1]) else VOICE_SUB;
  }

  lemma BootsToShutdown(c: Config, channels: seq<Channel>, i: nat)
    requires Shuts(c)
    ensures ShutdownScenario(ClientOps(c, channels, i), ClientLoop(c, channels))
  {
    var ops, li := ClientOps(c, channels, i), ClientLoop(c, channels);
    var head := Prelude(c, channels);
    forall k | 2 <= k < li
      ensures ops[k].PlaySubScenario? && Harmless(ops[k].ops)
    {
      assert ops[k] == head[k - 1];
      PreludeIsHarmless(c, channels, k - 1);
    }
    assert ops[1] == head[0];
    assert ops[li..] == ReconnectTail(c);
    assert ops[li] == ops[li..][0] && ops[li + 1] == ops[li..][1] && ops[li + 2] == ops[li..][2];
  }

  // ----- one client -----

  /** Exit finds no callback pending and no retry timer armed. */
  predicate CleanExit(s: VC.State) {
    s.onClose.None? && !s.retryArmed
  }

  /** A client that was asked to exit is in the loop; one whose callback has run is quiescent. */
  ghost predicate Local(info: S.ClientInfo, s: VC.State, i: nat) {
    && S.Played(info) && ShutdownScenario(info.ops, info.loopOpIndex)
    && VC.Coherent(s)
    && (info.timerArmed ==> S.CurrentOp(info).Sleep?)
    && (s.onClose.Some? ==>
          s.onClose.value == VC.Callback(MAIN, i) && info.opIndex >= info.loopOpIndex)
    && (info.exited ==> info.opIndex >= info.loopOpIndex && VC.Quiescent(s))
  }

  /**
   * Without ResumeAll an operation runs once per visit, so the client is untouched up to its
   * Reconnect, is going down when Exit is next, and never meets a second Exit.
   */
  ghost predicate Once(info: S.ClientInfo, s: VC.State) {
    var asked := s.onClose.Some? || info.exited;
    var exitNext := info.opIndex == info.loopOpIndex + 2 && info.posted > 0;
    && S.LiveContinuations(info) <= 1
    && !s.needReconnect
    && (!asked && (info.opIndex == 0 || (info.opIndex == 1 && info.posted > 0)) ==>
          VC.Quiescent(s))
    && (!asked && exitNext ==> s.closing || (!VC.Live(s) && !s.retryArmed))
    && (asked ==> !exitNext && info.opIndex >= info.loopOpIndex)
  }

  /** What one turn of the main player does to its client: record and session state. */
  function After(info: S.ClientInfo, s: VC.State, i: nat): (S.ClientInfo, VC.State)
    requires S.Played(info) && info.posted > 0
  {
    match S.CurrentOp(info)
    case Disconnect =>
      var close := VC.AfterClose(s, None);
      (if close.Faulted? then S.Taken(info) else S.AfterOnNext(info), close.state)
    case Reconnect =>
      (S.AfterOnNext(info), VC.AfterConnect(s))
    case Exit =>
      var close := VC.AfterClose(s, Some(VC.Callback(MAIN, i)));
      (S.AfterOnNext(info.(exited := info.exited || close.calls != [])), close.state)
    case _ =>
      (S.AfterOnNext(info), s)
  }

  lemma TurnIsAfter(player: Player, s: VC.State, i: nat, pool: Pool, c: Choice)
    requires CanRun(player, i) && !S.CurrentOp(player.infos[i]).SendDataChannelMessage?
    ensures var turn := RunOp(player, s, MAIN, i, pool, c);
            && |turn.player.infos| == |player.infos|
            && (forall k :: 0 <= k < |player.infos| && k != i ==>
                  turn.player.infos[k] == player.infos[k])
            && (turn.player.infos[i], turn.client) == After(player.infos[i], s, i)
  {
    RunOpIsOnNext(player, s, MAIN, i, pool, c);
  }

  lemma AfterKeepsLocal(info: S.ClientInfo, s: VC.State, i: nat)
    requires Local(info, s, i) && info.posted > 0
    requires S.CurrentOp(info).Exit? ==> CleanExit(s)
    ensures var (info', s') := After(info, s, i); Local(info', s', i)
  {
    RecordKeepsShape(info);
    if S.CurrentOp(info).Exit? {
      ExitKeepsLocal(info, s, i);
    }
  }

  /** The record of a turn, apart from the mark of an Exit callback. */
  lemma RecordKeepsShape(info: S.ClientInfo)
    requires S.Played(info) && ShutdownScenario(info.ops, info.loopOpIndex) && info.posted > 0
    requires info.timerArmed ==> S.CurrentOp(info).Sleep?
    ensures var next := S.AfterOnNext(info);
            && S.Played(next) && ShutdownScenario(next.ops, next.loopOpIndex)
            && (next.timerArmed ==> S.CurrentOp(next).Sleep?)
            && (info.opIndex >= info.loopOpIndex ==> next.opIndex >= next.loopOpIndex)
  {
  }

  lemma ExitKeepsLocal(info: S.ClientInfo, s: VC.State, i: nat)
    requires Local(info, s, i) && info.posted > 0
    requires S.CurrentOp(info).Exit? && CleanExit(s)
    ensures var (info', s') := After(info, s, i); Local(info', s', i)
  {
    RecordKeepsShape(info);
    assert info.opIndex == info.loopOpIndex + 2;
  }

  lemma AfterKeepsOnce(info: S.ClientInfo, s: VC.State, i: nat)
    requires Local(info, s, i) && Once(info, s) && info.posted > 0
    ensures S.CurrentOp(info).Exit? ==> CleanExit(s)
    ensures var (info', s') := After(info, s, i); Once(info', s')
  {
  }

  /** An Exit that is not clean leaves its client exited and not quiescent. */
  lemma UncleanExitUnsettles(info: S.ClientInfo, s: VC.State, i: nat)
    requires Local(info, s, i) && info.posted > 0
    requires S.CurrentOp(info).Exit? && !CleanExit(s)
    ensures var (info', s') := After(info, s, i); info'.exited && !VC.Quiescent(s')
  {
  }

  /** The end of a session: a pending Exit callback marks the record. */
  function AfterLoss(info: S.ClientInfo, s: VC.State): S.ClientInfo {
    info.(exited := info.exited || s.onClose.Some?)
  }

  lemma LossKeeps(info: S.ClientInfo, s: VC.State, i: nat, maxRetry: int)
    requires Local(info, s, i) && VC.Live(s)
    ensures Local(AfterLoss(info, s), VC.AfterDisconnect(s, maxRetry), i)
    ensures Once(info, s) ==> Once(AfterLoss(info, s), VC.AfterDisconnect(s, maxRetry))
  {
  }

  lemma PlayerEventsKeep(info: S.ClientInfo, s: VC.State, i: nat)
    requires Local(info, s, i)
    ensures info.timerArmed ==> Local(S.AfterTimer(info), s, i)
    ensures info.timerArmed && Once(info, s) ==> Once(S.AfterTimer(info), s)
    ensures Local(S.AfterPause(info), s, i) && Local(S.AfterResume(info), s, i)
    ensures Once(info, s) ==> Once(S.AfterPause(info), s)
  {
  }

  lemma ClientEventsKeep(info: S.ClientInfo, s: VC.State, i: nat, eventType: string)
    requires Local(info, s, i)
    ensures s.retryArmed ==> Local(info, VC.AfterRetryTimer(s), i)
    ensures s.retryArmed && Once(info, s) ==> Once(info, VC.AfterRetryTimer(s))
    ensures Local(info, VC.AfterNotify(s, eventType), i)
    ensures Once(info, s) ==> Once(info, VC.AfterNotify(s, eventType))
    ensures Local(info, VC.AfterClose(s, None).state, i)
    ensures Once(info, s) ==> Once(info, VC.AfterClose(s, None).state)
  {
  }

  lemma SendKeeps(info: S.ClientInfo, s: VC.State, i: nat, channel: string, data: seq<byte>)
    requires Local(info, s, i)
    ensures Local(info, VC.AfterSend(s, channel, data), i)
    ensures Once(info, s) ==> Once(info, VC.AfterSend(s, channel, data))
  {
  }

  // ----- all clients -----

  ghost predicate BackgroundPlayer(player: Player) {
    forall k :: 0 <= k < |player.infos| ==> Harmless(player.infos[k].ops)
  }

  ghost predicate Shaped(z: System) {
    && MAIN in z.players && |z.players[MAIN].infos| == |z.clients|
    && forall p :: p in z.players && p != MAIN ==> BackgroundPlayer(z.players[p])
  }

  ghost predicate Inv(z: System) {
    && Shaped(z)
    && forall i :: 0 <= i < |z.clients| ==> Local(z.players[MAIN].infos[i], z.clients[i], i)
  }

  ghost predicate AllOnce(z: System)
    requires Shaped(z)
  {
    forall i :: 0 <= i < |z.clients| ==> Once(z.players[MAIN].infos[i], z.clients[i])
  }

  /** Every client whose Exit callback has run has no session, no timer and nothing pending. */
  ghost predicate Settled(z: System)
    requires Shaped(z)
  {
    forall i :: 0 <= i < |z.clients| && z.players[MAIN].infos[i].exited ==>
      VC.Quiescent(z.clients[i])
  }

  predicate RunsExit(z: System, e: Event) {
    && Enabled(z, e) && e.OnNext? && e.path == MAIN
    && S.CurrentOp(z.players[MAIN].infos[e.i]).Exit?
  }

  predicate CleanStep(z: System, e: Event) {
    RunsExit(z, e) ==> CleanExit(z.clients[e.i])
  }

  /** A step of client i in the main player, or of the client itself, leaves the others alone. */
  ghost predicate OnlyAt(z: System, z': System, i: nat)
    requires Shaped(z)
  {
    && Shaped(z') && |z'.clients| == |z.clients| && i < |z.clients|
    && forall k :: 0 <= k < |z.clients| && k != i ==>
         z'.clients[k] == z.clients[k] && z'.players[MAIN].infos[k] == z.players[MAIN].infos[k]
  }

  lemma StartKeepsShape(z: System, p: Path, i: nat, op: S.Op)
    requires Shaped(z) && op.PlaySubScenario? && Harmless(op.ops)
    ensures Shaped(StartSub(z, p, i, op))
    ensures StartSub(z, p, i, op).players[MAIN] == z.players[MAIN]
  {
    assert p + [op.name] != MAIN;
  }

  lemma MainStep(z: System, e: Event)
    requires Inv(z) && Enabled(z, e) && e.OnNext? && e.path == MAIN
    ensures var z' := Step(z, e);
            OnlyAt(z, z', e.i)
            && (z'.players[MAIN].infos[e.i], z'.clients[e.i])
               == After(z.players[MAIN].infos[e.i], z.clients[e.i], e.i)
            && z'.faulted == (S.CurrentOp(z.players[MAIN].infos[e.i]).Disconnect?
                              && VC.AfterClose(z.clients[e.i], None).Faulted?)
            && (!S.CurrentOp(z.players[MAIN].infos[e.i]).Exit? ==> !z'.stopped)
  {
    var main, i := z.players[MAIN], e.i;
    var op := S.CurrentOp(main.infos[i]);
    assert Local(main.infos[i], z.clients[i], i);
    TurnIsAfter(main, z.clients[i], i, z.pool, e.choice);
    var z1 := AfterTurn(z, MAIN, i, RunOp(main, z.clients[i], MAIN, i, z.pool, e.choice));
    if op.PlaySubScenario? {
      StartKeepsShape(z1, MAIN, i, op);
    }
  }

  lemma BackgroundStep(z: System, e: Event) returns (channel: string, data: seq<byte>)
    requires Shaped(z) && Enabled(z, e) && e.OnNext? && e.path != MAIN
    ensures var z' := Step(z, e);
            && OnlyAt(z, z', e.i) && z'.players[MAIN] == z.players[MAIN]
            && (z'.clients[e.i] == z.clients[e.i]
                || z'.clients[e.i] == VC.AfterSend(z.clients[e.i], channel, data))
            && !z'.stopped && !z'.faulted
  {
    var player, i := z.players[e.path], e.i;
    assert Harmless(player.infos[i].ops);
    assert Background(S.CurrentOp(player.infos[i]));
    RunOpIsOnNext(player, z.clients[i], e.path, i, z.pool, e.choice);
    var built := RunOp(player, z.clients[i], e.path, i, z.pool, e.choice).built;
    channel, data := if built.Some? then built.value.channel else "",
                     if built.Some? then built.value.data else [];
  }

  lemma DisconnectStep(z: System, e: Event)
    requires Inv(z) && Enabled(z, e) && e.OnDisconnect?
    ensures var z' := Step(z, e);
            OnlyAt(z, z', e.i)
            && z'.players[MAIN].infos[e.i] == AfterLoss(z.players[MAIN].infos[e.i], z.clients[e.i])
            && z'.clients[e.i] == VC.AfterDisconnect(z.clients[e.i], z.maxRetry)
  {
    assert Local(z.players[MAIN].infos[e.i], z.clients[e.i], e.i);
  }

  lemma StepKeepsShape(z: System, e: Event)
    requires Inv(z)
    ensures Shaped(Step(z, e))
  {
    if Enabled(z, e) {
      match e {
        case OnNext(p, _, _) => if p == MAIN { MainStep(z, e); } else { var _, _ := BackgroundStep(z, e); }
        case OnDisconnect(_, _) => DisconnectStep(z, e);
        case _ =>
      }
    }
  }

  lemma StepKeepsInv(z: System, e: Event)
    requires Inv(z) && !e.ManualConnect? && CleanStep(z, e)
    ensures Inv(Step(z, e))
  {
    StepKeepsShape(z, e);
    var z' := Step(z, e);
    if Enabled(z, e) {
      forall i | 0 <= i < |z.clients|
        ensures Local(z'.players[MAIN].infos[i], z'.clients[i], i)
      {
        ClientKeepsLocal(z, e, i);
      }
    }
  }

  lemma ClientKeepsLocal(z: System, e: Event, i: nat)
    requires Inv(z) && !e.ManualConnect? && CleanStep(z, e) && Enabled(z, e)
    requires i < |z.clients| && Shaped(Step(z, e))
    ensures |Step(z, e).clients| == |z.clients|
    ensures Local(Step(z, e).players[MAIN].infos[i], Step(z, e).clients[i], i)
  {
    var info, s := z.players[MAIN].infos[i], z.clients[i];
    assert Local(info, s, i);
    if e.OnNext? {
      TurnKeepsClient(z, e, i);
    } else if e.OnDisconnect? {
      DisconnectStep(z, e);
      if e.i == i { LossKeeps(info, s, i, z.maxRetry); }
    } else {
      PlayerEventsKeep(info, s, i);
      ClientEventsKeep(info, s, i, if e.OnNotify? then e.eventType else "");
    }
  }

  lemma TurnKeepsClient(z: System, e: Event, i: nat)
    requires Inv(z) && Enabled(z, e) && e.OnNext? && i < |z.clients|
    ensures Shaped(Step(z, e)) && |Step(z, e).clients| == |z.clients|
    ensures CleanStep(z, e) ==> Local(Step(z, e).players[MAIN].infos[i], Step(z, e).clients[i], i)
    ensures Once(z.players[MAIN].infos[i], z.clients[i]) ==>
              Once(Step(z, e).players[MAIN].infos[i], Step(z, e).clients[i])
  {
    var info, s := z.players[MAIN].infos[i], z.clients[i];
    assert Local(info, s, i);
    if e.path != MAIN {
      var channel, data := BackgroundStep(z, e);
      SendKeeps(info, s, i, channel, data);
    } else {
      MainStep(z, e);
      if e.i == i {
        if CleanStep(z, e) { AfterKeepsLocal(info, s, i); }
        if Once(info, s) { AfterKeepsOnce(info, s, i); }
      }
    }
  }

  lemma ClientKeepsOnce(z: System, e: Event, i: nat)
    requires Inv(z) && AllOnce(z) && !e.ManualConnect? && !e.ResumeAll? && Enabled(z, e)
    requires i < |z.clients| && Shaped(Step(z, e))
    ensures |Step(z, e).clients| == |z.clients|
    ensures Once(Step(z, e).players[MAIN].infos[i], Step(z, e).clients[i])
  {
    var info, s := z.players[MAIN].infos[i], z.clients[i];
    assert Local(info, s, i) && Once(info, s);
    if e.OnNext? {
      TurnKeepsClient(z, e, i);
    } else if e.OnDisconnect? {
      DisconnectStep(z, e);
      if e.i == i { LossKeeps(info, s, i, z.maxRetry); }
    } else {
      PlayerEventsKeep(info, s, i);
      ClientEventsKeep(info, s, i, if e.OnNotify? then e.eventType else "");
    }
  }

  lemma StepKeepsOnce(z: System, e: Event)
    requires Inv(z) && AllOnce(z) && !e.ManualConnect? && !e.ResumeAll?
    ensures CleanStep(z, e)
    ensures Shaped(Step(z, e)) && AllOnce(Step(z, e))
  {
    StepKeepsShape(z, e);
    var z' := Step(z, e);
    if Enabled(z, e) {
      if RunsExit(z, e) {
        assert Local(z.players[MAIN].infos[e.i], z.clients[e.i], e.i);
        AfterKeepsOnce(z.players[MAIN].infos[e.i], z.clients[e.i], e.i);
      }
      forall i | 0 <= i < |z.clients|
        ensures |z'.clients| == |z.clients|
        ensures Once(z'.players[MAIN].infos[i], z'.clients[i])
      {
        ClientKeepsOnce(z, e, i);
      }
    }
  }

  // ----- whole runs -----

  /** Every Exit of the run finds no callback pending and no retry timer armed. */
  predicate AllClean(z: System, es: seq<Event>)
    decreases |es|
  {
    es != [] ==> CleanStep(z, es[0]) && AllClean(Step(z, es[0]), es[1..])
  }

  /** In every state of the run, an exited client is quiescent. */
  ghost predicate AlwaysSettled(z: System, es: seq<Event>)
    decreases |es|
  {
    && Shaped(z) && Settled(z)
    && (es != [] ==> AlwaysSettled(Step(z, es[0]), es[1..]))
  }

  predicate NoManualConnect(es: seq<Event>) {
    forall e :: e in es ==> !e.ManualConnect?
  }

  lemma {:induction false} SettledIffClean(z: System, es: seq<Event>)
    requires Inv(z) && NoManualConnect(es)
    ensures AlwaysSettled(z, es) <==> AllClean(z, es)
    decreases |es|
  {
    if es != [] {
      var z' := Step(z, es[0]);
      assert !es[0].ManualConnect?;
      if CleanStep(z, es[0]) {
        StepKeepsInv(z, es[0]);
        SettledIffClean(z', es[1..]);
      } else {
        var i := es[0].i;
        MainStep(z, es[0]);
        assert Local(z.players[MAIN].infos[i], z.clients[i], i);
        UncleanExitUnsettles(z.players[MAIN].infos[i], z.clients[i], i);
        assert !Settled(z');
        assert !AlwaysSettled(z', es[1..]);
      }
    }
  }

  lemma BootInv(c: Config, channels: seq<Channel>, maxRetry: int, pool: Pool, n: nat)
    requires Shuts(c)
    ensures var z := Boot(c, channels, maxRetry, pool, n); Inv(z) && AllOnce(z)
  {
    var z := Boot(c, channels, maxRetry, pool, n);
    forall i | 0 <= i < n
      ensures Local(z.players[MAIN].infos[i], z.clients[i], i)
      ensures Once(z.players[MAIN].infos[i], z.clients[i])
    {
      BootsToShutdown(c, channels, i);
    }
  }

  /**
   * For every run of a shutdown configuration in which nobody reconnects a client by hand:
   * exited clients are quiescent in all its states if and only if every Exit operation found no
   * callback pending and no retry timer armed.
   */
  lemma ExitedClientsAreQuiescentIffExitsAreClean(
    c: Config, channels: seq<Channel>, maxRetry: int, pool: Pool, n: nat, es: seq<Event>)
    requires Shuts(c) && NoManualConnect(es)
    ensures var z := Boot(c, channels, maxRetry, pool, n);
            AlwaysSettled(z, es) <==> AllClean(z, es)
  {
    BootInv(c, channels, maxRetry, pool, n);
    SettledIffClean(Boot(c, channels, maxRetry, pool, n), es);
  }

  lemma {:induction false} NoResumeIsClean(z: System, es: seq<Event>)
    requires Inv(z) && AllOnce(z) && NoManualConnect(es) && ResumeAll !in es
    ensures AllClean(z, es)
    decreases |es|
  {
    if es != [] {
      assert es[0] in es;
      StepKeepsOnce(z, es[0]);
      StepKeepsInv(z, es[0]);
      NoResumeIsClean(Step(z, es[0]), es[1..]);
    }
  }

  // ----- stopping -----

  ghost predicate StoppedWhenAllExited(z: System)
    requires MAIN in z.players
  {
    z.stopped <==> AllExited(z.players[MAIN])
  }

  /** A turn of the main player stops the loop exactly when it marks the last client. */
  lemma TurnStops(player: Player, s: VC.State, i: nat, pool: Pool, c: Choice)
    requires CanRun(player, i) && !AllExited(player)
    ensures var turn := RunOp(player, s, MAIN, i, pool, c); turn.stops <==> AllExited(turn.player)
  {
    var info := player.infos[i];
    var taken := WithInfo(player, i, S.Taken(info));
    var turn := RunOp(player, s, MAIN, i, pool, c);
    var k :| 0 <= k < |player.infos| && !player.infos[k].exited;
    if S.CurrentOp(info).Exit? && VC.AfterClose(s, Some(VC.Callback(MAIN, i))).calls != [] {
      ExitedAlike(PlayerAfterExit(taken, i), turn.player);
    } else {
      assert !turn.player.infos[k].exited;
    }
  }

  lemma ExitedAlike(a: Player, b: Player)
    requires |a.infos| == |b.infos|
    requires forall k :: 0 <= k < |a.infos| ==> a.infos[k].exited == b.infos[k].exited
    ensures AllExited(a) == AllExited(b)
  {
  }

  lemma MainStops(z: System, e: Event)
    requires Inv(z) && Enabled(z, e) && e.OnNext? && e.path == MAIN
    requires !AllExited(z.players[MAIN])
    ensures MAIN in Step(z, e).players && StoppedWhenAllExited(Step(z, e))
  {
    var main, i := z.players[MAIN], e.i;
    TurnStops(main, z.clients[i], i, z.pool, e.choice);
    var op := S.CurrentOp(main.infos[i]);
    assert op.PlaySubScenario? ==> MAIN + [op.name] != MAIN;
  }

  lemma LossStops(z: System, e: Event)
    requires Inv(z) && Enabled(z, e) && e.OnDisconnect? && !AllExited(z.players[MAIN])
    ensures MAIN in Step(z, e).players && StoppedWhenAllExited(Step(z, e))
  {
    var main, i := z.players[MAIN], e.i;
    assert Local(main.infos[i], z.clients[i], i);
    if z.clients[i].onClose.None? {
      assert Step(z, e).players[MAIN] == main;
    }
  }

  lemma StepStops(z: System, e: Event)
    requires Inv(z) && StoppedWhenAllExited(z) && |z.clients| > 0
    ensures Shaped(Step(z, e)) && StoppedWhenAllExited(Step(z, e))
    ensures |Step(z, e).clients| == |z.clients|
  {
    StepKeepsShape(z, e);
    if Enabled(z, e) {
      match e {
        case OnNext(p, _, _) =>
          if p == MAIN {
            MainStep(z, e);
            MainStops(z, e);
          } else {
            var _, _ := BackgroundStep(z, e);
          }
        case OnDisconnect(_, _) => LossStops(z, e);
        case OnTimer(_, _) => ExitedAlike(z.players[MAIN], Step(z, e).players[MAIN]);
        case PauseAll => ExitedAlike(z.players[MAIN], Step(z, e).players[MAIN]);
        case ResumeAll => ExitedAlike(z.players[MAIN], Step(z, e).players[MAIN]);
        case _ =>
      }
    }
  }

  lemma {:induction false} StopIsSettled(z: System, es: seq<Event>)
    requires Inv(z) && StoppedWhenAllExited(z) && |z.clients| > 0
    requires NoManualConnect(es) && AllClean(z, es)
    ensures var z' := Steps(z, es);
            && Shaped(z') && |z'.clients| == |z.clients| && StoppedWhenAllExited(z')
            && (z'.stopped ==> forall i :: 0 <= i < |z'.clients| ==>
                  z'.players[MAIN].infos[i].exited && VC.Quiescent(z'.clients[i]))
    decreases |es|
  {
    if es == [] {
      assert forall i :: 0 <= i < |z.clients| ==> Local(z.players[MAIN].infos[i], z.clients[i], i);
    } else {
      assert !es[0].ManualConnect?;
      StepKeepsInv(z, es[0]);
      StepStops(z, es[0]);
      StopIsSettled(Step(z, es[0]), es[1..]);
    }
  }

  ghost predicate AllQuiescent(z: System) {
    forall i :: 0 <= i < |z.clients| ==> VC.Quiescent(z.clients[i])
  }

  /**
   * In every run of a shutdown configuration in which every Exit was clean and nobody reconnects
   * a client by hand, the event loop stops exactly when every Exit callback has run, and then all
   * clients are quiescent.
   */
  lemma CleanExitsStopQuiescent(
    c: Config, channels: seq<Channel>, maxRetry: int, pool: Pool, n: nat, es: seq<Event>)
    requires Shuts(c) && n > 0 && NoManualConnect(es)
    requires AllClean(Boot(c, channels, maxRetry, pool, n), es)
    ensures var z := Steps(Boot(c, channels, maxRetry, pool, n), es);
            && Shaped(z) && |z.clients| == n
            && (z.stopped <==> AllExited(z.players[MAIN]))
            && (z.stopped ==> AllQuiescent(z))
  {
    var z := Boot(c, channels, maxRetry, pool, n);
    BootInv(c, channels, maxRetry, pool, n);
    assert !z.players[MAIN].infos[0].exited;
    StopIsSettled(z, es);
  }

  /**
   * Composed shutdown: in every run without a manual reconnect and without ResumeAll, the event
   * loop is stopped exactly when every client's Exit callback has run, and then every client has
   * no session, no close in progress, no callback pending and no retry timer armed.
   */
  lemma StopsOnlyWhenAllQuiescent(
    c: Config, channels: seq<Channel>, maxRetry: int, pool: Pool, n: nat, es: seq<Event>)
    requires Shuts(c) && n > 0 && NoManualConnect(es) && ResumeAll !in es
    ensures var z := Steps(Boot(c, channels, maxRetry, pool, n), es);
            && Shaped(z) && |z.clients| == n
            && (z.stopped <==> AllExited(z.players[MAIN]))
            && (z.stopped ==> AllQuiescent(z))
  {
    BootInv(c, channels, maxRetry, pool, n);
    NoResumeIsClean(Boot(c, channels, maxRetry, pool, n), es);
    CleanExitsStopQuiescent(c, channels, maxRetry, pool, n, es);
  }

  /** Without a key trigger, which alone can resume or reconnect, that holds of every run. */
  lemma StopsQuiescentWithoutTrigger(
    c: Config, channels: seq<Channel>, maxRetry: int, pool: Pool, n: nat, es: seq<Event>)
    requires Shuts(c) && n > 0 && !c.keyTrigger
    ensures var z := Steps(Boot(c, channels, maxRetry, pool, n), es);
            && Shaped(z) && |z.clients| == n
            && (z.stopped <==> AllExited(z.players[MAIN]))
            && (z.stopped ==> AllQuiescent(z))
  {
    KeysAreDead(Boot(c, channels, maxRetry, pool, n), es);
    StopsOnlyWhenAllQuiescent(c, channels, maxRetry, pool, n, WithoutKeys(es));
  }

  /**
   * A client that has exited loops back to its Sleep; if the loop is still running when that
   * ends, its Disconnect calls Close with neither a session nor a callback, and throws.
   */
  lemma DisconnectAfterExitThrows(z: System, e: Event)
    requires Inv(z) && Enabled(z, e) && e.OnNext? && e.path == MAIN
    requires S.CurrentOp(z.players[MAIN].infos[e.i]).Disconnect?
    ensures Step(z, e).faulted <==> !VC.Live(z.clients[e.i]) || z.clients[e.i].onClose.Some?
    ensures z.players[MAIN].infos[e.i].exited ==> Step(z, e).faulted
  {
    assert Local(z.players[MAIN].infos[e.i], z.clients[e.i], e.i);
  }
}
