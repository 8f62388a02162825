/**
 * When clients speak: in every schedule in which nothing is late, in the intervals that the
 * scenarios say (src/zakuro.cpp, src/scenario_player.h).
 */
module Voices {
  import opened Arithmetic
  import opened Base
  import opened DataChannels
  import opened LoadEngine
  import opened Punctual
  import opened ScenarioBuilder
  import opened Schedules
  import opened Setups
  import opened Timetables
  import S = Scenarios

  // ----- in the background -----

  lemma VoicePlace(u: Setup, i: nat)
    requires ConnectsFirst(u.c) && u.c.keyTrigger
    ensures var ops, li := ClientOps(u.c, u.channels, i), ClientLoop(u.c, u.channels);
            li == 3 + |u.channels| < |ops| && ops[2 + |u.channels|] == VOICE_SUB
  {
    var ops, j := ClientOps(u.c, u.channels, i), 2 + |u.channels|;
    assert |Repeated(u.c)| > 0;
    assert ops[j] == Prelude(u.c, u.channels)[j - 1];
  }

  lemma OthersAreChannels(u: Setup, i: nat, k: nat)
    requires ConnectsFirst(u.c) && u.c.keyTrigger && k < 2 + |u.channels|
    requires k < |ClientOps(u.c, u.channels, i)|
    ensures var op := ClientOps(u.c, u.channels, i)[k]; op.PlaySubScenario? ==> op.name != VOICE_NAME
  {
    if k > 1 {
      ChannelsArePlayed(u.c, u.channels, i, k - 2);
      VoiceIsNoChannel(u.channels[k - 2].name);
    } else {
      assert k == 1 ==> Prelude(u.c, u.channels)[0] == S.Reconnect;
    }
  }

  lemma VoiceIsSound()
    ensures VOICE_SUB.PlaySubScenario? && VOICE_SUB.name == VOICE_NAME
    ensures Sound(VOICE_SUB.ops, VOICE_SUB.loopOpIndex)
  {
  }

  lemma VoiceStartsOnce(u: Setup, i: nat)
    requires ConnectsFirst(u.c) && u.c.keyTrigger
    ensures var ops, li := ClientOps(u.c, u.channels, i), ClientLoop(u.c, u.channels);
            StartsOnce(ops, li, 2 + |u.channels|) && ops[2 + |u.channels|] == VOICE_SUB
  {
    var ops, li, j := ClientOps(u.c, u.channels, i), ClientLoop(u.c, u.channels), 2 + |u.channels|;
    VoicePlace(u, i);
    VoiceIsSound();
    forall k | 0 <= k < |ops| && ops[k].PlaySubScenario? && k != j
      ensures ops[k].name != VOICE_NAME
    {
      LoopStartsNone(u, i, k);
      OthersAreChannels(u, i, k);
    }
  }

  /** Entry k of a client that waits and speaks in turn. */
  predicate Spoken(log: seq<Stamp>, start: int, k: nat)
    requires k < |log|
  {
    if k % 2 == 0 then log[k].op.Sleep?
    else
      && log[k].op.PlayVoiceNumberClient?
      && var last := if k == 1 then start else log[k - 2].at;
         last + 1000 <= log[k].at <= last + 5000
  }

  /**
   * With a key trigger and no scenario name, each client says its number again and again: the
   * first time 1 to 5 seconds after it has connected, and then 1 to 5 seconds after the last time.
   */
  lemma VoiceTimetable(u: Setup, acts: seq<Action>, i: nat, hatch: nat)
    requires ConnectsFirst(u.c) && u.c.keyTrigger && i < u.n && Prompt(Begin(u), acts) && Unpaused(acts)
    requires IsMillis(hatch, i as real / u.c.hatchRate)
    ensures var l := Acts(Begin(u), acts);
            var log := Stamps(Begin(u), acts, OpTimer(["scenario-voice-number-client"], i));
            && (forall k :: 0 <= k < |log| ==> Spoken(log, hatch, k))
            && (Alive(l.z) ==> l.now <= (if log == [] then hatch else log[|log| - 1].at) + 5000)
  {
    VoicesFollow(u, acts, i, hatch);
    VoiceTimes(Stamps(Begin(u), acts, OpTimer(["scenario-voice-number-client"], i)), hatch);
  }

  lemma VoicesFollow(u: Setup, acts: seq<Action>, i: nat, hatch: nat)
    requires ConnectsFirst(u.c) && u.c.keyTrigger && i < u.n && Prompt(Begin(u), acts)
    requires Unpaused(acts) && IsMillis(hatch, i as real / u.c.hatchRate)
    ensures var l := Acts(Begin(u), acts);
            var log := Stamps(Begin(u), acts, OpTimer(["scenario-voice-number-client"], i));
            Follows(VOICE_SUB.ops, 0, hatch, log) && (Alive(l.z) ==> l.now <= Deadline(hatch, log))
  {
    VoiceStartsOnce(u, i);
    VoiceIsSound();
    NestedKeepTime(u, acts, i, 2 + |u.channels|, hatch);
    assert SubClock(ClientOps(u.c, u.channels, i), 2 + |u.channels|, i)
        == OpTimer(["scenario-voice-number-client"], i);
  }

  lemma VoiceTimes(log: seq<Stamp>, start: int)
    requires Follows(VOICE_SUB.ops, 0, start, log)
    ensures forall k :: 0 <= k < |log| ==> Spoken(log, start, k)
    ensures Deadline(start, log) <= (if log == [] then start else log[|log| - 1].at) + 5000
  {
    forall k | 0 <= k < |log|
      ensures Spoken(log, start, k) && log[k].op == VOICE_SUB.ops[k % 2]
    {
      assert InOrder(VOICE_SUB.ops, 0, log, k);
      if k % 2 == 1 {
        assert InTurn(log, k) && InOrder(VOICE_SUB.ops, 0, log, k - 1);
        if k > 1 {
          assert InTurn(log, k - 1) && InOrder(VOICE_SUB.ops, 0, log, k - 2);
        }
      }
    }
  }

  // ----- the reconnect scenario -----

  predicate Reconnects(c: Config) {
    c.hatchRate > 0.0 && c.keyTrigger && c.scenario == "reconnect"
  }

  /** The operation at place m of a round: connect, and eight times wait and speak, and wait. */
  predicate IsRoundOp(op: S.Op, m: int) {
    if m == 0 then op.Reconnect?
    else if m % 2 == 1 then op == S.Sleep(1000, 5000)
    else op.PlayVoiceNumberClient?
  }

  lemma {:induction false} TurnsOfVoice(n: nat, k: nat)
    requires k < 2 * n
    ensures |VoiceTurns(n)| == 2 * n
    ensures VoiceTurns(n)[k] == if k % 2 == 0 then S.Sleep(1000, 5000) else S.PlayVoiceNumberClient
  {
    if n > 1 {
      TurnsOfVoice(n - 1, if k < 2 * (n - 1) then k else 0);
    } else {
      assert VoiceTurns(1) == VoiceTurns(0) + [S.Sleep(1000, 5000), S.PlayVoiceNumberClient];
    }
  }

  lemma RoundOps(c: Config, m: nat)
    requires Reconnects(c) && m < 18
    ensures |Repeated(c)| == 18 && IsRoundOp(Repeated(c)[m], m)
  {
    var turns := VoiceTurns(8);
    TurnsOfVoice(8, if 1 <= m < 17 then m - 1 else 0);
    assert Repeated(c) == [S.Reconnect] + turns + [S.Sleep(1000, 5000)];
    assert 1 <= m < 17 ==> Repeated(c)[m] == turns[m - 1];
  }

  lemma OpsOfRounds(u: Setup, i: nat, m: nat)
    requires Reconnects(u.c) && m < 18
    ensures var ops := ClientOps(u.c, u.channels, i);
            |ops| == 19 && ClientLoop(u.c, u.channels) == 1 && IsRoundOp(ops[1 + m], m)
  {
    RoundOps(u.c, m);
    assert Prelude(u.c, u.channels) == [];
    assert ClientOps(u.c, u.channels, i)[1 + m] == Repeated(u.c)[m];
  }

  /** Entry k of a log of rounds. */
  predicate InRound(log: seq<Stamp>, k: int)
    requires 1 <= k < |log|
  {
    IsRoundOp(log[k].op, (k - 1) % 18)
  }

  lemma PositionInRound(k: nat)
    requires k >= 1
    ensures S.Position(19, 1, k) == 1 + (k - 1) % 18
  {
    if k < 19 {
      ModUnique(k - 1, 18, 0, k - 1);
    }
  }

  lemma LogIsRounds(u: Setup, i: nat, log: seq<Stamp>, k: nat)
    requires Reconnects(u.c) && 1 <= k < |log|
    requires Follows(ClientOps(u.c, u.channels, i), ClientLoop(u.c, u.channels), 0, log)
    ensures InRound(log, k)
  {
    PositionInRound(k);
    OpsOfRounds(u, i, (k - 1) % 18);
    assert InOrder(ClientOps(u.c, u.channels, i), ClientLoop(u.c, u.channels), log, k);
  }

  /** From a connect on, each second entry is a wait of 1 to 5 seconds. */
  lemma {:induction false} GapAfter(log: seq<Stamp>, k: nat, t: nat)
    requires forall j :: 1 <= j < |log| ==> InRound(log, j) && InTurn(log, j)
    requires 1 <= k && (k - 1) % 18 == 0 && k + t < |log| && t <= 18
    ensures 1000 * (t / 2) <= log[k + t].at - log[k].at <= 5000 * (t / 2)
    decreases t
  {
    if t > 0 {
      GapAfter(log, k, t - 1);
      ModWithin(k - 1, t - 1, 18);
      assert InRound(log, k + t - 1) && InTurn(log, k + t);
      assert log[k + t - 1].op.Sleep? <==> (t - 1) % 2 == 1;
    }
  }

  /**
   * The reconnect scenario: each client connects as it hatches, and from then on, again and again,
   * says its number eight times, with 1 to 5 seconds before each and after the last, and connects
   * anew: 9 to 45 seconds after the last time.
   */
  lemma ReconnectTimetable(u: Setup, acts: seq<Action>, i: nat, hatch: nat)
    requires Reconnects(u.c) && i < u.n && Prompt(Begin(u), acts) && Unpaused(acts)
    requires IsMillis(hatch, i as real / u.c.hatchRate)
    ensures var log := Stamps(Begin(u), acts, OpTimer(MAIN, i));
            && (|log| > 1 ==> log[1].at == hatch)
            && (forall k :: 1 <= k < |log| ==> InRound(log, k))
            && (forall k :: 1 <= k < |log| - 18 && log[k].op.Reconnect? ==>
                  && log[k + 18].op.Reconnect?
                  && log[k].at + 9000 <= log[k + 18].at <= log[k].at + 45000)
  {
    var log := Stamps(Begin(u), acts, OpTimer(MAIN, i));
    ClientsKeepTime(u, acts, i);
    forall k | 1 <= k < |log|
      ensures InRound(log, k) && InTurn(log, k)
    {
      LogIsRounds(u, i, log, k);
    }
    RoundsApart(log);
    if |log| > 1 {
      FirstWait(u, i, hatch, log);
    }
  }

  lemma RoundsApart(log: seq<Stamp>)
    requires forall k :: 1 <= k < |log| ==> InRound(log, k) && InTurn(log, k)
    ensures forall k :: 1 <= k < |log| - 18 && log[k].op.Reconnect? ==>
              && log[k + 18].op.Reconnect?
              && log[k].at + 9000 <= log[k + 18].at <= log[k].at + 45000
  {
    forall k | 1 <= k < |log| - 18 && log[k].op.Reconnect?
      ensures log[k + 18].op.Reconnect?
      ensures log[k].at + 9000 <= log[k + 18].at <= log[k].at + 45000
    {
      assert InRound(log, k) && InRound(log, k + 18);
      ModUnique(k + 17, 18, (k - 1) / 18 + 1, 0);
      GapAfter(log, k, 18);
    }
  }

  lemma FirstWait(u: Setup, i: nat, hatch: nat, log: seq<Stamp>)
    requires u.c.hatchRate > 0.0 && IsMillis(hatch, i as real / u.c.hatchRate)
    requires Follows(ClientOps(u.c, u.channels, i), ClientLoop(u.c, u.channels), 0, log)
    requires |log| > 1
    ensures log[1].at == hatch
  {
    var ops := ClientOps(u.c, u.channels, i);
    HatchIsMillis(u.c, i, hatch);
    assert InTurn(log, 1) && InOrder(ops, ClientLoop(u.c, u.channels), log, 0);
    assert ops[0] == S.Sleep(hatch, hatch);
  }
}
