/**
 * The schedules of a configuration, from the first handler on.
 */
module Setups {
  import opened ClientRuns
  import opened DataChannels
  import opened LoadEngine
  import opened Messages
  import opened PromptRuns
  import opened ScenarioBuilder
  import opened Schedules
  import opened Shutdown
  import opened Slices
  import opened Timelines
  import S = Scenarios

  /** What a run is started with. */
  datatype Setup = Setup(
    c: Config,
    channels: seq<Channel>,
    maxRetry: int,
    pool: Pool,
    n: nat,
    retryMs: int)

  function Begin(u: Setup): Loop
    requires u.c.hatchRate > 0.0
  {
    Start(u.c, u.channels, u.maxRetry, u.pool, u.n, u.retryMs)
  }

  /** Clients disconnect after a while, and channels are as ParseDataChannels accepts them. */
  ghost predicate Ends(u: Setup) {
    && u.c.hatchRate > 0.0 && (!u.c.keyTrigger || u.c.scenario == "") && u.c.duration != 0.0
    && forall ch :: ch in u.channels ==> Servable(ch)
  }

  function PlanOf(u: Setup): Plan
    requires u.c.hatchRate > 0.0
  {
    Plan(seq(u.n, i requires 0 <= i => ClientOps(u.c, u.channels, i)),
         ClientLoop(u.c, u.channels), Millis(u.c.duration),
         seq(u.n, i requires 0 <= i => HatchDelay(u.c, i)))
  }

  lemma OpsAreScript(u: Setup, i: nat)
    requires Ends(u)
    ensures var ops, li := ClientOps(u.c, u.channels, i), ClientLoop(u.c, u.channels);
            && Script(ops, li, Millis(u.c.duration))
            && ops[0] == S.Sleep(HatchDelay(u.c, i), HatchDelay(u.c, i))
            && (Shuts(u.c) ==> |ops| == li + 3 && ops[li + 2].Exit?)
  {
    var ops, li := ClientOps(u.c, u.channels, i), ClientLoop(u.c, u.channels);
    var head := Prelude(u.c, u.channels);
    forall k | 2 <= k < li
      ensures ops[k].PlaySubScenario? && BackOps(ops[k].ops, ops[k].loopOpIndex)
    {
      assert ops[k] == head[k - 1];
      SubsAreBack(u, k - 1);
    }
    assert ops[1] == head[0];
    assert ops[li..] == ReconnectTail(u.c);
    assert ops[li] == ops[li..][0] && ops[li + 1] == ops[li..][1];
    assert Shuts(u.c) ==> ops[li + 2] == ops[li..][2];
  }

  lemma SubsAreBack(u: Setup, k: nat)
    requires Ends(u) && 1 <= k < |Prelude(u.c, u.channels)|
    ensures var op := Prelude(u.c, u.channels)[k];
            op.PlaySubScenario? && BackOps(op.ops, op.loopOpIndex)
  {
    var subs, voice := ChannelSubs(u.channels), if u.c.keyTrigger then [VOICE_SUB] else [];
    assert Prelude(u.c, u.channels) == [S.Reconnect] + subs + voice;
    Middle(S.Reconnect, subs, voice, k);
    if k - 1 < |subs| {
      ChannelIsBack(u.channels[k - 1]);
    } else {
      VoiceIsBack();
    }
  }

  lemma ChannelIsBack(ch: Channel)
    requires Servable(ch)
    ensures ChannelSub(ch).PlaySubScenario?
    ensures BackOps(ChannelSub(ch).ops, ChannelSub(ch).loopOpIndex)
  {
  }

  lemma VoiceIsBack()
    ensures VOICE_SUB.PlaySubScenario? && BackOps(VOICE_SUB.ops, VOICE_SUB.loopOpIndex)
  {
  }

  lemma DelayGrows(c: Config, i: nat, j: nat)
    requires c.hatchRate > 0.0 && i <= j
    ensures 0 <= HatchDelay(c, i) <= HatchDelay(c, j) && HatchDelay(c, 0) == 0
  {
    var a, b := (1000 * i) as real, (1000 * j) as real;
    assert a <= b;
    assert a / c.hatchRate <= b / c.hatchRate;
  }

  lemma PlanIsValid(u: Setup)
    requires Ends(u)
    ensures Valid(PlanOf(u)) && (Shuts(u.c) ==> Exits(PlanOf(u)))
  {
    var p := PlanOf(u);
    forall i | 0 <= i < u.n
      ensures ClientValid(p, i)
      ensures Shuts(u.c) ==> |p.ops[i]| == p.li + 3 && p.ops[i][p.li + 2].Exit?
    {
      OpsAreScript(u, i);
      DelayGrows(u.c, 0, i);
    }
    forall i, j | 0 <= i < j < u.n
      ensures p.delays[i] <= p.delays[j]
    {
      DelayGrows(u.c, i, j);
    }
    DelayGrows(u.c, 0, 0);
  }

  lemma Begins(u: Setup)
    requires Ends(u)
    ensures Valid(PlanOf(u)) && Opening(PlanOf(u), Begin(u), Begin(u), 0)
  {
    var p, l := PlanOf(u), Begin(u);
    PlanIsValid(u);
    ReachItself(l);
    forall i | 0 <= i < u.n
      ensures l.z.players[MAIN].infos[i] == Ready(p.ops[i], p.li, 0, false)
    {
      OpsAreScript(u, i);
    }
    assert Continues(u.n)[0..] == Continues(u.n);
    assert SubsRest(l.z) && ClocksAgree(l);
  }

  /** A prompt schedule without keys brings all clients to their first wait. */
  lemma Settles(u: Setup) returns (l: Loop, phs: seq<Phase>)
    requires Ends(u)
    ensures Valid(PlanOf(u)) && (Shuts(u.c) ==> Exits(PlanOf(u)))
    ensures phs == seq(u.n, _ => Hatching) && Staged(PlanOf(u), Begin(u), l, phs)
    ensures SameSettings(Begin(u), l) && l.now == 0
  {
    var p := PlanOf(u);
    PlanIsValid(u);
    Begins(u);
    l := AllOpen(p, Begin(u), Begin(u), 0);
    phs := Opened(p, Begin(u), l);
  }
}
