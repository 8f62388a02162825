/**
 * When clients connect, disconnect, exit and send: in every schedule in which nothing is late, at
 * the times that the options say (src/zakuro.cpp, src/scenario_player.h).
 */
module Timetables {
  import opened Arithmetic
  import opened Base
  import opened DataChannels
  import opened LoadEngine
  import opened Punctual
  import opened ScenarioBuilder
  import opened Schedules
  import opened Setups
  import S = Scenarios

  /** A time in seconds, in whole milliseconds; negative times are none at all. */
  predicate IsMillis(ms: nat, seconds: real) {
    if seconds < 0.0 then ms == 0 else ms as real <= 1000.0 * seconds < (ms + 1) as real
  }

  predicate IsMove(op: S.Op) {
    op.Reconnect? || op.Disconnect? || op.Exit?
  }

  /** What a client does to its session, of what it does. */
  function Moves(log: seq<Stamp>): seq<Stamp> {
    if log == [] then []
    else Moves(log[..|log| - 1]) + (if IsMove(log[|log| - 1].op) then [log[|log| - 1]] else [])
  }

  // ----- the start -----

  lemma {:induction false} MineContinues(n: nat, k: nat, c: Clock)
    requires c.OpTimer? && k <= n
    ensures Mine(Continues(n)[k..], c)
         == if c.path == MAIN && k <= c.i < n then [Continue(MAIN, c.i)] else []
    decreases n - k
  {
    if k < n {
      var queue := Continues(n)[k..];
      assert queue[0] == Continue(MAIN, k) && queue[1..] == Continues(n)[k + 1..];
      MineContinues(n, k + 1, c);
    }
  }

  lemma {:induction false} VoiceTurnsSound(n: nat)
    ensures forall k :: 0 <= k < |VoiceTurns(n)| && VoiceTurns(n)[k].Sleep? ==>
              VoiceTurns(n)[k].minTimeMs <= VoiceTurns(n)[k].maxTimeMs
  {
    if n > 0 {
      VoiceTurnsSound(n - 1);
    }
  }

  lemma ClientOpsSound(c: Config, channels: seq<Channel>, i: nat)
    requires Defined(c) && c.hatchRate > 0.0
    ensures Sound(ClientOps(c, channels, i), ClientLoop(c, channels))
  {
    VoiceTurnsSound(8);
    var ops, li := ClientOps(c, channels, i), ClientLoop(c, channels);
    var head, tail := Prelude(c, channels), Repeated(c);
    assert |tail| > 0;
    assert forall k :: 0 < k < li ==> ops[k] == head[k - 1];
    forall k | 0 <= k < |ops| && ops[k].Sleep?
      ensures ops[k].minTimeMs <= ops[k].maxTimeMs
    {
      if k >= li {
        assert ops[k] == tail[k - li];
      }
    }
  }

  lemma BeginsOnTrack(u: Setup, i: nat)
    requires Defined(u.c) && u.c.hatchRate > 0.0 && i < u.n
    ensures var ops, li := ClientOps(u.c, u.channels, i), ClientLoop(u.c, u.channels);
            OnTrack(Begin(u), OpTimer(MAIN, i), ops, li, 0, []) && Follows(ops, li, 0, [])
  {
    ClientOpsSound(u.c, u.channels, i);
    MineContinues(u.n, 0, OpTimer(MAIN, i));
    assert Continues(u.n)[0..] == Continues(u.n);
  }

  // ----- no operation is overdue -----

  /** The last moment for the next operation. */
  function Deadline(start: int, log: seq<Stamp>): int {
    if log == [] then start
    else
      var last := log[|log| - 1];
      last.at + (if last.op.Sleep? then Clamp(last.op.maxTimeMs) else 0)
  }

  lemma NoneOverdue(l: Loop, c: Clock, ops: seq<S.Op>, li: int, start: int, log: seq<Stamp>)
    requires OnTrack(l, c, ops, li, start, log)
    ensures l.now <= Deadline(start, log)
  {
  }

  /**
   * In every schedule in which nothing is late and nobody pauses: each client runs the operations
   * of its scenario in order, each exactly when the waits before it are over, and until the loop
   * stops or throws the next one is never overdue.
   */
  lemma ClientsKeepTime(u: Setup, acts: seq<Action>, i: nat)
    requires Defined(u.c) && u.c.hatchRate > 0.0 && i < u.n
    requires Prompt(Begin(u), acts) && Unpaused(acts)
    ensures var log, l := Stamps(Begin(u), acts, OpTimer(MAIN, i)), Acts(Begin(u), acts);
            && Follows(ClientOps(u.c, u.channels, i), ClientLoop(u.c, u.channels), 0, log)
            && (Alive(l.z) ==> l.now <= Deadline(0, log))
  {
    var ops, li := ClientOps(u.c, u.channels, i), ClientLoop(u.c, u.channels);
    var log, l := Stamps(Begin(u), acts, OpTimer(MAIN, i)), Acts(Begin(u), acts);
    BeginsOnTrack(u, i);
    StaysOnTrack(Begin(u), acts, OpTimer(MAIN, i), ops, li, 0, []);
    assert [] + log == log;
    if Alive(l.z) {
      NoneOverdue(l, OpTimer(MAIN, i), ops, li, 0, log);
    }
  }

  // ----- connecting and disconnecting -----

  predicate IsWait(op: S.Op, ms: nat) {
    op.Sleep? && Clamp(op.minTimeMs) == Clamp(op.maxTimeMs) == ms
  }

  /** A scenario of n operations that loops to li: how long it waits, for what. */
  datatype Beat = Beat(hatch: nat, up: nat, down: nat, li: nat, n: nat)

  ghost predicate Shaped(b: Beat, ops: seq<S.Op>) {
    && 2 <= b.li && b.n == |ops|
    && b.n in {b.li + 1, b.li + 3, b.li + 4}
    && IsWait(ops[0], b.hatch) && ops[1].Reconnect?
    && (forall k :: 2 <= k < b.li ==> ops[k].PlaySubScenario?)
    && IsWait(ops[b.li], b.up)
    && (b.n > b.li + 1 ==> ops[b.li + 1].Disconnect?)
    && (b.n == b.li + 3 ==> ops[b.li + 2].Exit?)
    && (b.n == b.li + 4 ==> IsWait(ops[b.li + 2], b.down) && ops[b.li + 3].Reconnect?)
    && (b.n != b.li + 4 ==> b.down == 0)
  }

  /** When the operation at x is run the q-th time round. */
  function TimeOf(b: Beat, x: int, q: nat): int {
    if x == 0 then 0
    else if x <= b.li then b.hatch + q * (b.up + b.down)
    else if x <= b.li + 2 then b.hatch + q * (b.up + b.down) + b.up
    else b.hatch + (q + 1) * (b.up + b.down)
  }

  /** How many moves are made before. */
  function Made(b: Beat, x: int, q: nat): nat {
    if x <= 1 then 0
    else if b.n == b.li + 1 then 1
    else if x <= b.li + 1 then 1 + 2 * q
    else 2 + 2 * q
  }

  /**
   * Move j: connect first; then, again and again, disconnect when the session has lasted, and
   * connect again when the pause is over, or exit at once.
   */
  function MoveAt(repeats: bool, hatch: nat, up: nat, down: nat, j: nat): Stamp {
    var round := j / 2 * (up + down);
    if j % 2 == 1 then Stamp(hatch + round + up, S.Disconnect)
    else Stamp(hatch + round, if j == 0 || repeats then S.Reconnect else S.Exit)
  }

  /** Where the scenario is at visit k, and how often it has come round to its loop before. */
  function Spot(n: int, li: int, k: nat): (x: int)
    requires 0 <= li < n
    ensures 0 <= x < n
  {
    if k == 0 then 0 else S.Succ(n, li, Spot(n, li, k - 1))
  }

  function Laps(n: int, li: int, k: nat): nat
    requires 0 <= li < n
  {
    if k == 0 then 0 else Laps(n, li, k - 1) + (if Spot(n, li, k - 1) == n - 1 then 1 else 0)
  }

  lemma {:induction false} SpotIsPosition(n: int, li: int, k: nat)
    requires 0 <= li < n
    ensures Spot(n, li, k) == S.Position(n, li, k)
  {
    if k > 0 {
      SpotIsPosition(n, li, k - 1);
      S.PositionMoves(n, li, k - 1);
    }
  }

  /** Entry k is the operation at spot k, and runs at its deadline. */
  predicate OnTheDot(ops: seq<S.Op>, li: int, start: int, log: seq<Stamp>, k: int)
    requires S.Playable(ops, li) && 0 <= k < |log|
  {
    log[k] == Stamp(Deadline(start, log[..k]), ops[Spot(|ops|, li, k)])
  }

  /** A log whose waits are all of fixed length. */
  ghost predicate Regular(ops: seq<S.Op>, li: int, start: int, log: seq<Stamp>) {
    S.Playable(ops, li) && forall k :: 0 <= k < |log| ==> OnTheDot(ops, li, start, log, k)
  }

  lemma FollowsRegularly(ops: seq<S.Op>, li: int, start: int, log: seq<Stamp>)
    requires Follows(ops, li, start, log)
    requires forall k :: 0 <= k < |ops| && ops[k].Sleep? ==>
               Clamp(ops[k].minTimeMs) == Clamp(ops[k].maxTimeMs)
    ensures Regular(ops, li, start, log)
  {
    forall k | 0 <= k < |log|
      ensures OnTheDot(ops, li, start, log, k)
    {
      SpotIsPosition(|ops|, li, k);
      assert InOrder(ops, li, log, k);
      if k > 0 {
        assert log[..k][k - 1] == log[k - 1];
        assert InTurn(log, k) && InOrder(ops, li, log, k - 1);
      }
    }
  }

  lemma BeatMoves(b: Beat, ops: seq<S.Op>, x: nat, q: nat)
    requires Shaped(b, ops) && x < b.n && (x < b.li ==> q == 0)
    ensures var x', q' := S.Succ(b.n, b.li, x), q + (if x == b.n - 1 then 1 else 0);
            && (x' < b.li ==> q' == 0)
            && TimeOf(b, x', q')
               == TimeOf(b, x, q) + (if ops[x].Sleep? then Clamp(ops[x].maxTimeMs) else 0)
            && Made(b, x', q') == Made(b, x, q) + (if IsMove(ops[x]) then 1 else 0)
            && (IsMove(ops[x]) ==>
                  MoveAt(b.n == b.li + 4, b.hatch, b.up, b.down, Made(b, x, q))
                  == Stamp(TimeOf(b, x, q), ops[x]))
  {
    var period := b.up + b.down;
    assert (q + 1) * period == q * period + period;
  }

  /** Up to the operation at x, the q-th time round: which moves are made, and when it is due. */
  ghost predicate Tallied(b: Beat, log: seq<Stamp>, x: int, q: nat) {
    && Deadline(0, log) == TimeOf(b, x, q)
    && |Moves(log)| == Made(b, x, q)
    && forall j :: 0 <= j < |Moves(log)| ==>
         Moves(log)[j] == MoveAt(b.n == b.li + 4, b.hatch, b.up, b.down, j)
  }

  lemma TallyGrows(b: Beat, ops: seq<S.Op>, log: seq<Stamp>, stamp: Stamp, x: nat, q: nat)
    requires Shaped(b, ops) && x < b.n && (x < b.li ==> q == 0) && Tallied(b, log, x, q)
    requires stamp == Stamp(Deadline(0, log), ops[x])
    ensures var x', q' := S.Succ(b.n, b.li, x), q + (if x == b.n - 1 then 1 else 0);
            (x' < b.li ==> q' == 0) && Tallied(b, log + [stamp], x', q')
  {
    BeatMoves(b, ops, x, q);
    MovesGrow(log, stamp);
  }

  lemma {:induction false} MovesSoFar(b: Beat, ops: seq<S.Op>, log: seq<Stamp>, k: nat)
    requires Shaped(b, ops) && Regular(ops, b.li, 0, log) && k <= |log|
    ensures var x, q := Spot(b.n, b.li, k), Laps(b.n, b.li, k);
            (x < b.li ==> q == 0) && Tallied(b, log[..k], x, q)
  {
    if k > 0 {
      var x, q := Spot(b.n, b.li, k - 1), Laps(b.n, b.li, k - 1);
      MovesSoFar(b, ops, log, k - 1);
      assert log[..k] == log[..k - 1] + [log[k - 1]];
      assert OnTheDot(ops, b.li, 0, log, k - 1);
      TallyGrows(b, ops, log[..k - 1], log[k - 1], x, q);
    }
  }

  lemma MovesGrow(log: seq<Stamp>, stamp: Stamp)
    ensures Moves(log + [stamp]) == Moves(log) + (if IsMove(stamp.op) then [stamp] else [])
    ensures Deadline(0, log + [stamp])
         == stamp.at + (if stamp.op.Sleep? then Clamp(stamp.op.maxTimeMs) else 0)
  {
    assert (log + [stamp])[..|log|] == log;
  }

  lemma MillisAre(ms: nat, seconds: real)
    requires IsMillis(ms, seconds)
    ensures Clamp(Millis(seconds)) == ms
  {
  }

  lemma HatchIsMillis(c: Config, i: nat, ms: nat)
    requires c.hatchRate > 0.0 && IsMillis(ms, i as real / c.hatchRate)
    ensures HatchDelay(c, i) == ms
  {
    var x := i as real;
    assert (1000 * i) as real == 1000.0 * x;
    assert 1000.0 * x / c.hatchRate == 1000.0 * (x / c.hatchRate);
    assert x / c.hatchRate >= 0.0;
  }

  predicate ConnectsFirst(c: Config) {
    c.hatchRate > 0.0 && (!c.keyTrigger || c.scenario == "")
  }

  lemma BeatOf(u: Setup, i: nat, hatch: nat, up: nat, down: nat) returns (b: Beat)
    requires ConnectsFirst(u.c)
    requires IsMillis(hatch, i as real / u.c.hatchRate)
    requires IsMillis(up, u.c.duration) && IsMillis(down, u.c.repeatInterval)
    ensures Shaped(b, ClientOps(u.c, u.channels, i)) && b.li == ClientLoop(u.c, u.channels)
    ensures b.hatch == hatch && (u.c.duration == 0.0 <==> b.n == b.li + 1)
    ensures u.c.duration != 0.0 ==>
              b.up == up && b.down == down && (b.n == b.li + 4 <==> u.c.repeatInterval != 0.0)
  {
    var ops, li := ClientOps(u.c, u.channels, i), ClientLoop(u.c, u.channels);
    var head := Prelude(u.c, u.channels);
    HatchIsMillis(u.c, i, hatch);
    MillisAre(up, u.c.duration);
    MillisAre(down, u.c.repeatInterval);
    b := if u.c.duration == 0.0 then Beat(hatch, 10000, 0, li, |ops|)
         else Beat(hatch, up, down, li, |ops|);
    assert ops[li..] == ReconnectTail(u.c);
    forall k | 1 <= k < li
      ensures ops[k] == head[k - 1]
    {
    }
    forall k | li <= k < |ops|
      ensures ops[k] == ReconnectTail(u.c)[k - li]
    {
      assert ops[k] == ops[li..][k - li];
    }
  }

  /**
   * The timetable of every client, in every schedule in which nothing is late and nobody pauses.
   * It connects i / rate seconds after the start. With a duration it disconnects that long after
   * each connect, and then connects again after the repeat interval, forever, or, if there is
   * none, exits at once. Until the loop stops or throws no move is overdue.
   */
  lemma Timetable(u: Setup, acts: seq<Action>, i: nat, hatch: nat, up: nat, down: nat)
    requires ConnectsFirst(u.c) && i < u.n && Prompt(Begin(u), acts) && Unpaused(acts)
    requires IsMillis(hatch, i as real / u.c.hatchRate)
    requires IsMillis(up, u.c.duration) && IsMillis(down, u.c.repeatInterval)
    ensures var l, moves := Acts(Begin(u), acts), Moves(Stamps(Begin(u), acts, OpTimer(MAIN, i)));
            && (u.c.duration == 0.0 ==> |moves| <= 1)
            && (forall j :: 0 <= j < |moves| ==>
                  moves[j] == MoveAt(u.c.repeatInterval != 0.0, hatch, up, down, j))
            && (Alive(l.z) && (u.c.duration == 0.0 ==> moves == []) ==>
                  l.now <= MoveAt(u.c.repeatInterval != 0.0, hatch, up, down, |moves|).at)
  {
    var log := Stamps(Begin(u), acts, OpTimer(MAIN, i));
    ClientsKeepTime(u, acts, i);
    var b := BeatOf(u, i, hatch, up, down);
    ShapedRegularly(b, ClientOps(u.c, u.channels, i), log);
    MovesOf(b, ClientOps(u.c, u.channels, i), log);
    FirstMove(hatch, b.up, b.down, up, down);
  }

  lemma ShapedRegularly(b: Beat, ops: seq<S.Op>, log: seq<Stamp>)
    requires Shaped(b, ops) && Follows(ops, b.li, 0, log)
    ensures Regular(ops, b.li, 0, log)
  {
    FollowsRegularly(ops, b.li, 0, log);
  }

  /** The moves of a whole log. */
  lemma MovesOf(b: Beat, ops: seq<S.Op>, log: seq<Stamp>)
    requires Shaped(b, ops) && Regular(ops, b.li, 0, log)
    ensures var moves, repeats := Moves(log), b.n == b.li + 4;
            && (b.n == b.li + 1 ==> |moves| <= 1)
            && (forall j :: 0 <= j < |moves| ==>
                  moves[j] == MoveAt(repeats, b.hatch, b.up, b.down, j))
            && ((b.n == b.li + 1 ==> moves == []) ==>
                  Deadline(0, log) <= MoveAt(repeats, b.hatch, b.up, b.down, |moves|).at)
  {
    MovesSoFar(b, ops, log, |log|);
    assert log[..|log|] == log;
    var x, q := Spot(b.n, b.li, |log|), Laps(b.n, b.li, |log|);
    if b.n == b.li + 1 ==> Moves(log) == [] {
      NextMove(b, x, q);
    }
  }

  lemma FirstMove(hatch: nat, up: nat, down: nat, up': nat, down': nat)
    ensures forall repeats, repeats' ::
              MoveAt(repeats, hatch, up, down, 0) == MoveAt(repeats', hatch, up', down', 0)
  {
  }

  /** Nothing is due after the next move. */
  lemma NextMove(b: Beat, x: nat, q: nat)
    requires 2 <= b.li && x < b.n && b.n in {b.li + 1, b.li + 3, b.li + 4} && (x < b.li ==> q == 0)
    requires b.n == b.li + 1 ==> x <= 1
    ensures TimeOf(b, x, q)
            <= MoveAt(b.n == b.li + 4, b.hatch, b.up, b.down, Made(b, x, q)).at
  {
    var period := b.up + b.down;
    assert (q + 1) * period == q * period + period;
  }

  // ----- sending -----

  lemma BothBegin(u: Setup, i: nat, j: nat)
    requires ConnectsFirst(u.c) && i < u.n
    requires StartsOnce(ClientOps(u.c, u.channels, i), ClientLoop(u.c, u.channels), j)
    ensures Both(Begin(u), i, ClientOps(u.c, u.channels, i), ClientLoop(u.c, u.channels), j, [], [])
  {
    BeginsOnTrack(u, i);
    MineContinues(u.n, 0, SubClock(ClientOps(u.c, u.channels, i), j, i));
    assert Continues(u.n)[0..] == Continues(u.n);
  }

  /** An operation that stands before the loop, after the connect, is run as the client hatches. */
  lemma RunsAsItHatches(b: Beat, ops: seq<S.Op>, log: seq<Stamp>, j: nat)
    requires Shaped(b, ops) && Regular(ops, b.li, 0, log) && 2 <= j < b.li
    ensures if j < |log| then log[j].at == b.hatch else Deadline(0, log) <= b.hatch
  {
    var k := if j < |log| then j else |log|;
    MovesSoFar(b, ops, log, k);
    SpotBeforeLoop(b.n, b.li, k);
    assert log[..|log|] == log;
    assert j < |log| ==> OnTheDot(ops, b.li, 0, log, j);
  }

  lemma {:induction false} SpotBeforeLoop(n: int, li: int, k: nat)
    requires 0 <= li < n && k <= li
    ensures Spot(n, li, k) == k
  {
    if k > 0 {
      SpotBeforeLoop(n, li, k - 1);
    }
  }

  /**
   * A nested player that only one operation before the loop starts: it keeps time from the moment
   * on at which its client hatches.
   */
  lemma NestedKeepTime(u: Setup, acts: seq<Action>, i: nat, j: nat, hatch: nat)
    requires ConnectsFirst(u.c) && i < u.n && Prompt(Begin(u), acts) && Unpaused(acts)
    requires IsMillis(hatch, i as real / u.c.hatchRate)
    requires 2 <= j && StartsOnce(ClientOps(u.c, u.channels, i), ClientLoop(u.c, u.channels), j)
    ensures var ops, l := ClientOps(u.c, u.channels, i), Acts(Begin(u), acts);
            var sub := Stamps(Begin(u), acts, SubClock(ops, j, i));
            && Follows(ops[j].ops, ops[j].loopOpIndex, hatch, sub)
            && (Alive(l.z) ==> l.now <= Deadline(hatch, sub))
  {
    var ops, li := ClientOps(u.c, u.channels, i), ClientLoop(u.c, u.channels);
    var l, log := Acts(Begin(u), acts), Stamps(Begin(u), acts, OpTimer(MAIN, i));
    var sub := Stamps(Begin(u), acts, SubClock(ops, j, i));
    BothAtEnd(u, acts, i, j);
    ClientsKeepTime(u, acts, i);
    var b := SomeBeat(u, i, hatch);
    ShapedRegularly(b, ops, log);
    RunsAsItHatches(b, ops, log, j);
    if Alive(l.z) && j < |log| {
      NoneOverdue(l, SubClock(ops, j, i), ops[j].ops, ops[j].loopOpIndex, hatch, sub);
    }
  }

  lemma BothAtEnd(u: Setup, acts: seq<Action>, i: nat, j: nat)
    requires ConnectsFirst(u.c) && i < u.n && Prompt(Begin(u), acts) && Unpaused(acts)
    requires StartsOnce(ClientOps(u.c, u.channels, i), ClientLoop(u.c, u.channels), j)
    ensures var ops := ClientOps(u.c, u.channels, i);
            Both(Acts(Begin(u), acts), i, ops, ClientLoop(u.c, u.channels), j,
                 Stamps(Begin(u), acts, OpTimer(MAIN, i)),
                 Stamps(Begin(u), acts, SubClock(ops, j, i)))
  {
    var ops, li := ClientOps(u.c, u.channels, i), ClientLoop(u.c, u.channels);
    BothBegin(u, i, j);
    BothStay(Begin(u), acts, i, ops, li, j, [], []);
    FromNothing(Stamps(Begin(u), acts, OpTimer(MAIN, i)));
    FromNothing(Stamps(Begin(u), acts, SubClock(ops, j, i)));
  }

  lemma FromNothing<T>(a: seq<T>)
    ensures [] + a == a
  {
  }

  lemma MillisOf(seconds: real) returns (ms: nat)
    ensures IsMillis(ms, seconds)
  {
    ms := if seconds < 0.0 then 0 else (1000.0 * seconds).Floor;
  }

  lemma SomeBeat(u: Setup, i: nat, hatch: nat) returns (b: Beat)
    requires ConnectsFirst(u.c) && IsMillis(hatch, i as real / u.c.hatchRate)
    ensures Shaped(b, ClientOps(u.c, u.channels, i)) && b.li == ClientLoop(u.c, u.channels)
    ensures b.hatch == hatch
  {
    var up := MillisOf(u.c.duration);
    var down := MillisOf(u.c.repeatInterval);
    b := BeatOf(u, i, hatch, up, down);
  }

  /** Operation k of a scenario that waits, then does something, and again from the start. */
  lemma {:induction false} AlternateTimes(ops: seq<S.Op>, start: int, log: seq<Stamp>, ms: nat,
                                          k: nat)
    requires |ops| == 2 && IsWait(ops[0], ms) && !ops[1].Sleep?
    requires Regular(ops, 0, start, log) && k < |log|
    ensures Spot(2, 0, k) == k % 2 && log[k] == Stamp(start + (k + 1) / 2 * ms, ops[k % 2])
  {
    if k > 0 {
      AlternateTimes(ops, start, log, ms, k - 1);
      assert log[..k][k - 1] == log[k - 1];
      NextMessage(k, ms);
    }
    assert OnTheDot(ops, 0, start, log, k);
  }

  /** The place of a channel's sub-scenario. */
  lemma ChannelStartsOnce(u: Setup, i: nat, m: nat)
    requires ConnectsFirst(u.c) && m < |u.channels|
    requires forall k :: 0 <= k < |u.channels| && k != m ==> u.channels[k].name != u.channels[m].name
    ensures var ops, li := ClientOps(u.c, u.channels, i), ClientLoop(u.c, u.channels);
            StartsOnce(ops, li, 2 + m) && ops[2 + m] == ChannelSub(u.channels[m])
  {
    var ops, li := ClientOps(u.c, u.channels, i), ClientLoop(u.c, u.channels);
    ChannelsArePlayed(u.c, u.channels, i, m);
    ChannelIsSound(u.channels[m]);
    ClientOpsSound(u.c, u.channels, i);
    forall k | 0 <= k < |ops| && ops[k].PlaySubScenario? && k != 2 + m
      ensures ops[k].name != DCS_PREFIX + u.channels[m].name
    {
      LoopStartsNone(u, i, k);
      OtherName(u, i, m, k);
    }
  }

  lemma ChannelIsSound(ch: Channel)
    ensures var sub := ChannelSub(ch);
            sub.PlaySubScenario? && sub.name == DCS_PREFIX + ch.name && sub.ops == ChannelOps(ch)
            && sub.loopOpIndex == 0 && Sound(sub.ops, sub.loopOpIndex)
  {
  }

  lemma LoopStartsNone(u: Setup, i: nat, k: nat)
    requires ConnectsFirst(u.c) && k < |ClientOps(u.c, u.channels, i)|
    requires ClientOps(u.c, u.channels, i)[k].PlaySubScenario?
    ensures k < ClientLoop(u.c, u.channels)
  {
    BuiltScenarioIsSound(u.c, u.channels, i);
  }

  lemma VoiceIsNoChannel(name: string)
    ensures DCS_PREFIX + name != VOICE_NAME
  {
    assert (DCS_PREFIX + name)[9] == DCS_PREFIX[9] == 'd' && VOICE_NAME[9] == 'v';
  }

  lemma OtherName(u: Setup, i: nat, m: nat, k: nat)
    requires ConnectsFirst(u.c) && m < |u.channels| && k < ClientLoop(u.c, u.channels) && k != 2 + m
    requires forall k :: 0 <= k < |u.channels| && k != m ==> u.channels[k].name != u.channels[m].name
    requires ClientOps(u.c, u.channels, i)[k].PlaySubScenario?
    ensures ClientOps(u.c, u.channels, i)[k].name != DCS_PREFIX + u.channels[m].name
  {
    var op, name := ClientOps(u.c, u.channels, i)[k], DCS_PREFIX + u.channels[m].name;
    assert k > 0 && op == Prelude(u.c, u.channels)[k - 1];
    if k - 2 < |u.channels| {
      var other := u.channels[k - 2];
      assert op == ChannelSub(other);
      assert (DCS_PREFIX + other.name)[|DCS_PREFIX|..] == other.name;
      assert name[|DCS_PREFIX|..] == u.channels[m].name;
    } else {
      assert op == VOICE_SUB;
      VoiceIsNoChannel(u.channels[m].name);
    }
  }

  /**
   * The messages of a channel, in every schedule in which nothing is late and nobody pauses: each
   * client sends one every interval, the first an interval after it has connected, with the label
   * and the sizes of the channel. Until the loop stops or throws none is overdue.
   */
  lemma ChannelTimetable(u: Setup, acts: seq<Action>, i: nat, m: nat, hatch: nat)
    requires ConnectsFirst(u.c) && i < u.n && Prompt(Begin(u), acts) && Unpaused(acts)
    requires IsMillis(hatch, i as real / u.c.hatchRate)
    requires m < |u.channels| && Servable(u.channels[m])
    requires forall k :: 0 <= k < |u.channels| && k != m ==> u.channels[k].name != u.channels[m].name
    ensures var ch, l := u.channels[m], Acts(Begin(u), acts);
            var log := Stamps(Begin(u), acts, OpTimer(["scenario-dcs-" + ch.name], i));
            && (forall k :: 0 <= k < |log| && k % 2 == 1 ==>
                  log[k] == Stamp(hatch + (k + 1) / 2 * ch.interval,
                                  S.SendDataChannelMessage(ch.name, ch.sizeMin, ch.sizeMax)))
            && (forall k :: 0 <= k < |log| && k % 2 == 0 ==> log[k].op.Sleep?)
            && (Alive(l.z) ==> l.now <= hatch + (|log| + 1) / 2 * ch.interval)
  {
    var ch := u.channels[m];
    ChannelFollows(u, acts, i, m, hatch);
    MessageTimes(ch, hatch, Stamps(Begin(u), acts, OpTimer(["scenario-dcs-" + ch.name], i)));
  }

  lemma ChannelFollows(u: Setup, acts: seq<Action>, i: nat, m: nat, hatch: nat)
    requires ConnectsFirst(u.c) && i < u.n && Prompt(Begin(u), acts) && Unpaused(acts)
    requires IsMillis(hatch, i as real / u.c.hatchRate) && m < |u.channels|
    requires forall k :: 0 <= k < |u.channels| && k != m ==> u.channels[k].name != u.channels[m].name
    ensures var ch, l := u.channels[m], Acts(Begin(u), acts);
            var log := Stamps(Begin(u), acts, OpTimer(["scenario-dcs-" + ch.name], i));
            Follows(ChannelOps(ch), 0, hatch, log) && (Alive(l.z) ==> l.now <= Deadline(hatch, log))
  {
    var ch, ops := u.channels[m], ClientOps(u.c, u.channels, i);
    ChannelStartsOnce(u, i, m);
    ChannelIsSound(ch);
    NestedKeepTime(u, acts, i, 2 + m, hatch);
    assert SubClock(ops, 2 + m, i) == OpTimer(["scenario-dcs-" + ch.name], i);
  }

  lemma MessageTimes(ch: Channel, hatch: nat, log: seq<Stamp>)
    requires Servable(ch) && Follows(ChannelOps(ch), 0, hatch, log)
    ensures forall k :: 0 <= k < |log| && k % 2 == 1 ==>
              log[k] == Stamp(hatch + (k + 1) / 2 * ch.interval,
                              S.SendDataChannelMessage(ch.name, ch.sizeMin, ch.sizeMax))
    ensures forall k :: 0 <= k < |log| && k % 2 == 0 ==> log[k].op.Sleep?
    ensures Deadline(hatch, log) <= hatch + (|log| + 1) / 2 * ch.interval
  {
    var ops := ChannelOps(ch);
    FollowsRegularly(ops, 0, hatch, log);
    forall k | 0 <= k < |log|
      ensures log[k] == Stamp(hatch + (k + 1) / 2 * ch.interval, ops[k % 2])
    {
      AlternateTimes(ops, hatch, log, ch.interval, k);
    }
    NextMessage(|log|, ch.interval);
  }

  lemma NextMessage(n: nat, interval: nat)
    ensures n > 0 && n % 2 == 1 ==> (n + 1) / 2 * interval == n / 2 * interval + interval
    ensures n > 0 && n % 2 == 0 ==> (n + 1) / 2 * interval == n / 2 * interval
  {
    assert n % 2 == 1 ==> (n + 1) / 2 == n / 2 + 1;
  }
}
