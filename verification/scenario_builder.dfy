/**
 * How Zakuro::Run builds the scenario of each client (src/zakuro.cpp).
 */
module ScenarioBuilder {
  import opened Base
  import opened Scenarios
  import opened DataChannels

  /** The options that shape a scenario; `keyTrigger` says that no fake audio file was given. */
  datatype Config = Config(
    keyTrigger: bool,
    scenario: string,
    duration: real,
    repeatInterval: real,
    hatchRate: real)

  const VOICE_NAME := "scenario-voice-number-client"
  const DCS_PREFIX := "scenario-dcs-"

  /** A conversion to int truncates toward zero. */
  function Truncate(x: real): int {
    if x >= 0.0 then x.Floor else -(-x).Floor
  }

  function Millis(seconds: real): int {
    Truncate(seconds * 1000.0)
  }

  /** The op vector that the source grows by push_back. */
  class ScenarioData {
    var ops: seq<Op>

    constructor ()
      ensures ops == []
    {
      ops := [];
    }

    method Push(op: Op)
      modifies this
      ensures ops == old(ops) + [op]
    {
      ops := ops + [op];
    }
  }

  // ----- the op vectors -----

  function ChannelOps(ch: Channel): seq<Op> {
    [Sleep(ch.interval, ch.interval), SendDataChannelMessage(ch.name, ch.sizeMin, ch.sizeMax)]
  }

  function ChannelSub(ch: Channel): Op {
    PlaySubScenario(DCS_PREFIX + ch.name, ChannelOps(ch), 0)
  }

  function ChannelSubs(channels: seq<Channel>): (ops: seq<Op>)
    ensures |ops| == |channels|
    ensures forall k :: 0 <= k < |ops| ==> ops[k] == ChannelSub(channels[k])
  {
    seq(|channels|, k requires 0 <= k < |channels| => ChannelSub(channels[k]))
  }

  const VOICE_SUB := PlaySubScenario(VOICE_NAME, [Sleep(1000, 5000), PlayVoiceNumberClient], 0)

  /** What add_reconnect_scenario appends. */
  function ReconnectTail(c: Config): seq<Op> {
    if c.duration == 0.0 then [Sleep(10000, 10000)]
    else [Sleep(Millis(c.duration), Millis(c.duration)), Disconnect]
         + (if c.repeatInterval == 0.0 then [Exit]
            else [Sleep(Millis(c.repeatInterval), Millis(c.repeatInterval)), Reconnect])
  }

  function VoiceTurns(n: nat): seq<Op> {
    if n == 0 then [] else VoiceTurns(n - 1) + [Sleep(1000, 5000), PlayVoiceNumberClient]
  }

  /** Everything before the operations that repeat. */
  function Prelude(c: Config, channels: seq<Channel>): seq<Op> {
    if !c.keyTrigger then [Reconnect] + ChannelSubs(channels)
    else if c.scenario == "" then [Reconnect] + ChannelSubs(channels) + [VOICE_SUB]
    else []
  }

  function Repeated(c: Config): seq<Op> {
    if !c.keyTrigger || c.scenario == "" then ReconnectTail(c)
    else [Reconnect] + VoiceTurns(8) + [Sleep(1000, 5000)]
  }

  /** With any other scenario name the loop index is never assigned. */
  predicate Defined(c: Config) {
    !c.keyTrigger || c.scenario == "" || c.scenario == "reconnect"
  }

  /** The scenario of client i: a wait for its turn, then the scenario all clients share. */
  function ClientOps(c: Config, channels: seq<Channel>, i: nat): seq<Op>
    requires c.hatchRate > 0.0
  {
    [Sleep(HatchDelay(c, i), HatchDelay(c, i))] + Prelude(c, channels) + Repeated(c)
  }

  function HatchDelay(c: Config, i: nat): int
    requires c.hatchRate > 0.0
  {
    Truncate((1000 * i) as real / c.hatchRate)
  }

  function ClientLoop(c: Config, channels: seq<Channel>): nat {
    1 + |Prelude(c, channels)|
  }

  // ----- the code -----

  method AddReconnectScenario(c: Config, data: ScenarioData)
    modifies data
    ensures data.ops == old(data.ops) + ReconnectTail(c)
  {
    if c.duration == 0.0 {
      data.Push(Sleep(10000, 10000));
    } else {
      data.Push(Sleep(Millis(c.duration), Millis(c.duration)));
      data.Push(Disconnect);
      if c.repeatInterval == 0.0 {
        data.Push(Exit);
      } else {
        data.Push(Sleep(Millis(c.repeatInterval), Millis(c.repeatInterval)));
        data.Push(Reconnect);
      }
    }
  }

  method PushChannels(channels: seq<Channel>, data: ScenarioData)
    modifies data
    ensures data.ops == old(data.ops) + ChannelSubs(channels)
  {
    for k := 0 to |channels|
      invariant data.ops == old(data.ops) + ChannelSubs(channels)[..k]
    {
      var ch := channels[k];
      var sd := new ScenarioData();
      sd.Push(Sleep(ch.interval, ch.interval));
      sd.Push(SendDataChannelMessage(ch.name, ch.sizeMin, ch.sizeMax));
      assert sd.ops == ChannelOps(ch);
      data.Push(PlaySubScenario(DCS_PREFIX + ch.name, sd.ops, 0));
      assert ChannelSubs(channels)[..k + 1] == ChannelSubs(channels)[..k] + [ChannelSub(ch)];
    }
    assert ChannelSubs(channels)[..|channels|] == ChannelSubs(channels);
  }

  /** The scenario before the per-client wait; no loop index if none was assigned. */
  method BuildScenario(c: Config, channels: seq<Channel>)
    returns (data: ScenarioData, loopIndex: Option<int>)
    ensures fresh(data)
    ensures loopIndex.Some? <==> Defined(c)
    ensures Defined(c) ==>
              data.ops == Prelude(c, channels) + Repeated(c)
              && loopIndex == Some(|Prelude(c, channels)|)
  {
    data := new ScenarioData();
    loopIndex := None;
    if !c.keyTrigger {
      data.Push(Reconnect);
      PushChannels(channels, data);
      AddReconnectScenario(c, data);
      loopIndex := Some(1 + |channels|);
    } else if c.scenario == "" {
      data.Push(Reconnect);
      PushChannels(channels, data);
      var sd := new ScenarioData();
      sd.Push(Sleep(1000, 5000));
      sd.Push(PlayVoiceNumberClient);
      assert sd.ops == VOICE_SUB.ops;
      data.Push(PlaySubScenario(VOICE_NAME, sd.ops, 0));
      AddReconnectScenario(c, data);
      loopIndex := Some(1 + |channels| + 1);
    } else if c.scenario == "reconnect" {
      data.Push(Reconnect);
      for k := 0 to 8
        invariant data.ops == [Reconnect] + VoiceTurns(k)
      {
        data.Push(Sleep(1000, 5000));
        data.Push(PlayVoiceNumberClient);
      }
      data.Push(Sleep(1000, 5000));
      loopIndex := Some(0);
    }
  }

  // ----- soundness -----

  ghost predicate HasSleep(ops: seq<Op>) {
    exists k :: 0 <= k < |ops| && ops[k].Sleep?
  }

  /** Each channel's sub-scenario is started before the loop. */
  lemma ChannelsArePlayed(c: Config, channels: seq<Channel>, i: nat, m: nat)
    requires (!c.keyTrigger || c.scenario == "") && c.hatchRate > 0.0 && m < |channels|
    ensures 2 + m < ClientLoop(c, channels)
    ensures ClientOps(c, channels, i)[2 + m] == ChannelSub(channels[m])
  {
    assert Prelude(c, channels)[1 + m] == ChannelSubs(channels)[m];
  }

  lemma RepeatedIsSound(c: Config)
    requires Defined(c)
    ensures HasSleep(Repeated(c))
    ensures forall k :: 0 <= k < |Repeated(c)| ==> !Repeated(c)[k].PlaySubScenario?
  {
    var tail := Repeated(c);
    if c.keyTrigger && c.scenario == "reconnect" {
      assert tail[|tail| - 1].Sleep?;
      VoiceTurnsPlayNoSub(8);
    } else {
      assert tail[0].Sleep?;
    }
  }

  /**
   * Every scenario that is built passes Play's guard; the part that repeats contains a Sleep and
   * plays no sub-scenario, so each sub-scenario stands before the loop.
   */
  lemma BuiltScenarioIsSound(c: Config, channels: seq<Channel>, i: nat)
    requires Defined(c) && c.hatchRate > 0.0
    ensures var ops, li := ClientOps(c, channels, i), ClientLoop(c, channels);
            && Playable(ops, li)
            && ops[li..] == Repeated(c) && HasSleep(ops[li..])
            && (forall k :: li <= k < |ops| ==> !ops[k].PlaySubScenario?)
            && (forall m :: 0 <= m < |channels| && (!c.keyTrigger || c.scenario == "") ==>
                  2 + m < li && ops[2 + m] == ChannelSub(channels[m]))
  {
    var ops, li := ClientOps(c, channels, i), ClientLoop(c, channels);
    RepeatedIsSound(c);
    assert ops[li..] == Repeated(c);
    forall k | li <= k < |ops|
      ensures !ops[k].PlaySubScenario?
    {
      assert ops[k] == ops[li..][k - li];
    }
    forall m | 0 <= m < |channels| && (!c.keyTrigger || c.scenario == "")
      ensures 2 + m < li && ops[2 + m] == ChannelSub(channels[m])
    {
      ChannelsArePlayed(c, channels, i, m);
    }
  }

  lemma {:induction false} VoiceTurnsPlayNoSub(n: nat)
    ensures forall k :: 0 <= k < |VoiceTurns(n)| ==> !VoiceTurns(n)[k].PlaySubScenario?
  {
    if n > 0 {
      VoiceTurnsPlayNoSub(n - 1);
    }
  }

  /** Among any |ops| consecutive visits of a loop that contains a Sleep, one is at a Sleep. */
  lemma SleepInEveryWindow(ops: seq<Op>, li: int, from: nat) returns (visit: nat)
    requires Playable(ops, li) && HasSleep(ops[li..])
    ensures from <= visit < from + |ops|
    ensures ops[Position(|ops|, li, visit)].Sleep?
  {
    var k :| 0 <= k < |ops[li..]| && ops[li..][k].Sleep?;
    var n, at := |ops|, li + k;
    assert ops[at].Sleep?;
    PositionMoves(n, li, from);
    var p := Position(n, li, from);
    if p <= at {
      visit := from + (at - p);
      PositionAdvances(n, li, from, at - p);
    } else {
      // on to the end, once around, and up to the Sleep
      var last := from + (n - 1 - p);
      PositionAdvances(n, li, from, n - 1 - p);
      PositionMoves(n, li, last);
      visit := last + 1 + k;
      PositionAdvances(n, li, last + 1, k);
    }
  }

  /**
   * Without ResumeAll, an operation before the loop runs at most once over the whole run, and it
   * has run by the time anything later has: so each sub-scenario is played exactly once.
   */
  lemma SubScenarioPlayedOnce(c: Config, channels: seq<Channel>, i: nat, es: seq<Event>, j: nat)
    requires Defined(c) && c.hatchRate > 0.0
    requires ResumeAll !in es && j < ClientLoop(c, channels)
    ensures var ops, li := ClientOps(c, channels, i), ClientLoop(c, channels);
            Playable(ops, li) &&
            var log := ObserveAll(Begin(ops, li), es).log;
            forall k :: 0 <= k < |log| ==> (Position(|ops|, li, log[k]) == j <==> k == j)
  {
    var ops, li := ClientOps(c, channels, i), ClientLoop(c, channels);
    BuiltScenarioIsSound(c, channels, i);
    RepeatsArePaidFor(ops, li, es);
    NoResumeCount(es);
  }

  /**
   * So without ResumeAll, of any |ops| operations that a client runs in a row one is a Sleep:
   * between two timer waits fewer than |ops| continuations run.
   */
  lemma SleepRunsInEveryWindow(c: Config, channels: seq<Channel>, i: nat, es: seq<Event>, from: nat)
    requires Defined(c) && c.hatchRate > 0.0 && ResumeAll !in es
    ensures var ops, li := ClientOps(c, channels, i), ClientLoop(c, channels);
            Playable(ops, li) &&
            var log := ObserveAll(Begin(ops, li), es).log;
            from + |ops| <= |log| ==>
              exists k :: from <= k < from + |ops| && ops[Position(|ops|, li, log[k])].Sleep?
  {
    var ops, li := ClientOps(c, channels, i), ClientLoop(c, channels);
    BuiltScenarioIsSound(c, channels, i);
    RepeatsArePaidFor(ops, li, es);
    NoResumeCount(es);
    var visit := SleepInEveryWindow(ops, li, from);
    var log := ObserveAll(Begin(ops, li), es).log;
    assert from + |ops| <= |log| ==> log[visit] == visit;
  }

  lemma {:induction false} NoResumeCount(es: seq<Event>)
    requires ResumeAll !in es
    ensures Count(es, ResumeAll) == 0
  {
    if es != [] {
      assert es[0] in es;
      NoResumeCount(es[1..]);
    }
  }
}
