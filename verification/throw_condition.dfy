/**
 * Which of the scenarios that never exit can throw at all.
 */
module ThrowCondition {
  import opened DataChannels
  import opened Faults
  import opened LoadEngine
  import opened PromptRuns
  import opened ClientRuns
  import opened Repeating
  import opened ScenarioBuilder
  import opened ScenarioPlayers
  import opened Schedules
  import opened Setups
  import opened ShutdownRace
  import S = Scenarios
  import VC = VirtualClients

  /** Some schedule, or some prompt one, ends in a throw. */
  ghost predicate CanThrow(u: Setup, prompt: bool)
    requires u.c.hatchRate > 0.0
  {
    exists acts :: (prompt ==> Prompt(Begin(u), acts)) && Acts(Begin(u), acts).z.faulted
  }

  // ----- no key and no duration: nobody closes anything -----

  predicate NeverCloses(ops: seq<S.Op>) {
    forall k :: 0 <= k < |ops| ==>
      !ops[k].Disconnect?
      && (ops[k].PlaySubScenario? ==>
            forall j :: 0 <= j < |ops[k].ops| ==> ChannelOp(ops[k].ops[j]))
  }

  predicate ChannelOp(op: S.Op) {
    op.Sleep? || op.SendDataChannelMessage?
  }

  ghost predicate PeacefulPlayer(player: Player) {
    forall i :: 0 <= i < |player.infos| ==> NeverCloses(player.infos[i].ops)
  }

  ghost predicate Peaceful(z: System) {
    && !z.keyTrigger
    && forall p :: p in z.players ==> PeacefulPlayer(z.players[p])
  }

  lemma PeaceLasts(z: System, e: Event)
    requires Peaceful(z)
    ensures Peaceful(Step(z, e)) && !ClosesUnanswered(z, e)
  {
    if Enabled(z, e) && e.OnNext? {
      PeacefulTurn(z, e);
    }
  }

  lemma PeacefulTurn(z: System, e: Event)
    requires Peaceful(z) && Enabled(z, e) && e.OnNext?
    ensures Peaceful(Step(z, e)) && !ClosesUnanswered(z, e)
  {
    var player, i := z.players[e.path], e.i;
    var op := S.CurrentOp(player.infos[i]);
    assert PeacefulPlayer(player) && NeverCloses(player.infos[i].ops);
    RunOpIsOnNext(player, z.clients[i], e.path, i, z.pool, e.choice);
    var z1 := AfterTurn(z, e.path, i, RunOp(player, z.clients[i], e.path, i, z.pool, e.choice));
    assert PeacefulPlayer(z1.players[e.path]);
    if op.PlaySubScenario? {
      var q := e.path + [op.name];
      assert NeverCloses(op.ops);
      assert q in z1.players ==> PeacefulPlayer(z1.players[q]);
      assert PeacefulPlayer(StartSub(z1, e.path, i, op).players[q]);
    }
  }

  lemma {:induction false} PeaceAnswers(z: System, es: seq<Event>)
    requires Peaceful(z)
    ensures AllAnswered(z, es)
    decreases |es|
  {
    if es != [] {
      PeaceLasts(z, es[0]);
      PeaceAnswers(Step(z, es[0]), es[1..]);
    }
  }

  lemma BootsPeacefully(u: Setup)
    requires u.c.hatchRate > 0.0 && !u.c.keyTrigger && u.c.duration == 0.0
    ensures Peaceful(Begin(u).z)
  {
    var head := Prelude(u.c, u.channels);
    forall i | 0 <= i < u.n
      ensures NeverCloses(ClientOps(u.c, u.channels, i))
    {
      var ops := ClientOps(u.c, u.channels, i);
      forall k | 0 <= k < |ops|
        ensures !ops[k].Disconnect?
        ensures ops[k].PlaySubScenario? ==>
                  forall j :: 0 <= j < |ops[k].ops| ==> ChannelOp(ops[k].ops[j])
      {
        if 1 <= k - 1 < |head| {
          assert ops[k] == head[k - 1] == ChannelSub(u.channels[k - 2]);
        }
      }
    }
  }

  lemma {:induction false} NobodyCloses(z: System, es: seq<Event>)
    requires z.clients == []
    ensures AllAnswered(z, es)
    decreases |es|
  {
    if es != [] {
      NobodyCloses(Step(z, es[0]), es[1..]);
    }
  }

  // ----- a key: a client is closed before it has connected -----

  /** The first k of n clients have had their first turn, and a manual close waits behind the others. */
  ghost predicate ClosePosted(l0: Loop, n: nat, l: Loop, k: nat) {
    && 0 < n && k <= n && Standing(l.z) && |l.z.clients| == n && l.z.keyTrigger
    && Reach(l0, l, [ManualClose(0)])
    && l.queue == Continues(n)[k..] + [Posted(ManualClose(0))]
    && l.z.clients[0] == VC.INITIAL
    && forall i :: k <= i < n ==>
         CanRun(l.z.players[MAIN], i) && S.CurrentOp(l.z.players[MAIN].infos[i]).Sleep?
  }

  lemma CloseComes(u: Setup) returns (l: Loop)
    requires Repeating.NeverExits(u.c) && u.c.keyTrigger && u.n > 0
    ensures ClosePosted(Begin(u), u.n, l, 0)
  {
    var l0 := Begin(u);
    ReachItself(l0);
    forall i | 0 <= i < u.n
      ensures CanRun(l0.z.players[MAIN], i) && S.CurrentOp(l0.z.players[MAIN].infos[i]).Sleep?
    {
      BootsEndlessly(u.c, u.channels, i);
    }
    l := Pressed(l0, l0, [], ManualClose(0));
    assert [] + [ManualClose(0)] == [ManualClose(0)] && Continues(u.n)[0..] == Continues(u.n);
  }

  lemma SleepTurn(z: System, k: nat)
    requires Standing(z) && k < |z.clients| && CanRun(z.players[MAIN], k)
    requires S.CurrentOp(z.players[MAIN].infos[k]).Sleep?
    ensures var e := OnNext(MAIN, k, ANY);
            && Enabled(z, e) && Posts(z, e) == [] && Step(z, e).clients == z.clients
            && Step(z, e) == With(z, k, S.AfterOnNext(z.players[MAIN].infos[k]), z.clients[k])
  {
    PlainTurn(z, k);
  }

  lemma OneTurn(l0: Loop, n: nat, l: Loop, k: nat) returns (l': Loop)
    requires ClosePosted(l0, n, l, k) && k < n
    ensures ClosePosted(l0, n, l', k + 1)
  {
    var rest := Continues(n)[k + 1..] + [Posted(ManualClose(0))];
    assert l.queue == [Continue(MAIN, k)] + rest && rest + [] == rest;
    SleepTurn(l.z, k);
    l' := RunHead(l0, l, [ManualClose(0)], Continue(MAIN, k), rest);
  }

  lemma TurnsComeFirst(l0: Loop, n: nat, l: Loop, k: nat) returns (l': Loop)
    requires ClosePosted(l0, n, l, k)
    ensures ClosePosted(l0, n, l', n)
    decreases n - k
  {
    if k == n {
      l' := l;
    } else {
      var l1 := OneTurn(l0, n, l, k);
      l' := TurnsComeFirst(l0, n, l1, k + 1);
    }
  }

  lemma KeyThrows(u: Setup) returns (acts: seq<Action>)
    requires Repeating.NeverExits(u.c) && u.c.keyTrigger && u.n > 0
    ensures Prompt(Begin(u), acts) && Acts(Begin(u), acts).z.faulted
  {
    var l1 := CloseComes(u);
    var l2 := TurnsComeFirst(Begin(u), u.n, l1, 0);
    assert l2.queue == [Posted(ManualClose(0))] + [];
    var l := RunHead(Begin(u), l2, [ManualClose(0)], Posted(ManualClose(0)), []);
    assert l.z.faulted;
    acts :| Prompt(Begin(u), acts) && Keys(acts) == [ManualClose(0)] && Acts(Begin(u), acts) == l;
  }

  // ----- the exact condition -----

  /**
   * A scenario that never exits can throw, with nothing late or in any schedule, if and only if
   * there is a client, and a key trigger or a duration.
   */
  lemma CanThrowExactly(u: Setup, prompt: bool)
    requires Repeating.NeverExits(u.c) && forall ch :: ch in u.channels ==> Servable(ch)
    ensures CanThrow(u, prompt) <==> u.n > 0 && (u.c.keyTrigger || u.c.duration != 0.0)
  {
    if u.n > 0 && u.c.keyTrigger {
      var acts := KeyThrows(u);
    } else if u.n > 0 && u.c.duration != 0.0 {
      LossThrows(u);
    } else {
      forall acts
        ensures !Acts(Begin(u), acts).z.faulted
      {
        var es := Trace(Begin(u), acts);
        SchedulesAreRuns(Begin(u), acts);
        RunsThrowExactly(u.c, u.channels, u.maxRetry, u.pool, u.n, es);
        if u.n == 0 {
          NobodyCloses(Begin(u).z, es);
        } else {
          BootsPeacefully(u);
          PeaceAnswers(Begin(u).z, es);
        }
      }
    }
  }

  lemma LossThrows(u: Setup)
    requires Ends(u) && u.n > 0
    ensures CanThrow(u, true) && CanThrow(u, false)
  {
    var acts := DisconnectAfterLossCanThrow(u, 0);
    var l := Acts(Begin(u), acts);
    AppendAction(Begin(u), acts, NEXT);
    assert Prompt(Begin(u), acts + [NEXT]) && Acts(Begin(u), acts + [NEXT]) == Act(l, NEXT);
  }
}
