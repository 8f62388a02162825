/**
 * Each client of the event loop follows the interpreter: whatever the other clients, the nested
 * players and the sessions do, what happens to its record is one interleaving of its own events.
 */
module Projection {
  import opened DataChannels
  import opened LoadEngine
  import opened Messages
  import opened ScenarioBuilder
  import opened ScenarioPlayers
  import S = Scenarios

  /** A record without the mark that only the Exit callback reads. */
  function Unmarked(info: S.ClientInfo): S.ClientInfo {
    info.(exited := false)
  }

  /** The events of client i of the main player that a step of the loop consists of. */
  function Own(z: System, e: Event, i: nat): seq<S.Event> {
    if !Enabled(z, e) then [] else
    match e
    case OnNext(p, k, _) => if p == MAIN && k == i then [S.OnNext] else []
    case OnTimer(p, k) => if p == MAIN && k == i then [S.TimerExpired] else []
    case PauseAll => [S.PauseAll]
    case ResumeAll => [S.ResumeAll]
    case _ => []
  }

  function OwnEvents(z: System, es: seq<Event>, i: nat): seq<S.Event>
    decreases |es|
  {
    if es == [] then [] else Own(z, es[0], i) + OwnEvents(Step(z, es[0]), es[1..], i)
  }

  ghost predicate Tracks(z: System, i: nat, o: S.Observed) {
    && MAIN in z.players && i < |z.players[MAIN].infos|
    && S.Played(o.info)
    && Unmarked(z.players[MAIN].infos[i]) == o.info
  }

  lemma TurnTracks(z: System, e: Event, i: nat, o: S.Observed)
    requires Tracks(z, i, o) && Enabled(z, e) && e.OnNext?
    requires !Step(z, e).faulted
    ensures Tracks(Step(z, e), i, S.ObserveAll(o, Own(z, e, i)))
  {
    var player := z.players[e.path];
    var turn := RunOp(player, z.clients[e.i], e.path, e.i, z.pool, e.choice);
    RunOpIsOnNext(player, z.clients[e.i], e.path, e.i, z.pool, e.choice);
    var op := S.CurrentOp(player.infos[e.i]);
    assert op.PlaySubScenario? ==> e.path + [op.name] != MAIN;
    assert Step(z, e).players[MAIN] == if e.path == MAIN then turn.player else z.players[MAIN];
    ObserveOne(o, S.OnNext);
  }

  lemma ObserveOne(o: S.Observed, e: S.Event)
    ensures S.ObserveAll(o, [e]) == S.Observe(o, e)
  {
    assert S.ObserveAll(o, [e]) == S.ObserveAll(S.Observe(o, e), [e][1..]);
  }

  lemma StepTracks(z: System, e: Event, i: nat, o: S.Observed)
    requires Tracks(z, i, o) && !Step(z, e).faulted
    ensures Tracks(Step(z, e), i, S.ObserveAll(o, Own(z, e, i)))
  {
    if Enabled(z, e) {
      match e {
        case OnNext(_, _, _) => TurnTracks(z, e, i, o);
        case OnTimer(_, _) => ObserveOne(o, S.TimerExpired);
        case PauseAll => ObserveOne(o, S.PauseAll);
        case ResumeAll => ObserveOne(o, S.ResumeAll);
        case _ =>
      }
    }
  }

  lemma ObserveConcat(o: S.Observed, a: seq<S.Event>, b: seq<S.Event>)
    ensures S.ObserveAll(o, a + b) == S.ObserveAll(S.ObserveAll(o, a), b)
    decreases |a|
  {
    if a == [] {
      assert a + b == b;
    } else {
      assert (a + b)[1..] == a[1..] + b;
      ObserveConcat(S.Observe(o, a[0]), a[1..], b);
    }
  }

  lemma {:induction false} FaultStays(z: System, es: seq<Event>)
    requires z.faulted
    ensures Steps(z, es).faulted
    decreases |es|
  {
    if es != [] {
      FaultStays(Step(z, es[0]), es[1..]);
    }
  }

  lemma PlayedStays(o: S.Observed, es: seq<S.Event>)
    requires S.Played(o.info)
    ensures S.Played(S.ObserveAll(o, es).info)
    decreases |es|
  {
    if es != [] {
      PlayedStays(S.Observe(o, es[0]), es[1..]);
    }
  }

  lemma {:induction false} RunTracks(z: System, es: seq<Event>, i: nat, o: S.Observed)
    requires Tracks(z, i, o) && !Steps(z, es).faulted
    ensures Tracks(Steps(z, es), i, S.ObserveAll(o, OwnEvents(z, es, i)))
    decreases |es|
  {
    if es != [] {
      var z' := Step(z, es[0]);
      if z'.faulted {
        FaultStays(z', es[1..]);
      }
      StepTracks(z, es[0], i, o);
      RunTracks(z', es[1..], i, S.ObserveAll(o, Own(z, es[0], i)));
      ObserveConcat(o, Own(z, es[0], i), OwnEvents(z', es[1..], i));
    }
  }

  lemma {:induction false} OwnResumes(z: System, es: seq<Event>, i: nat)
    ensures S.Count(OwnEvents(z, es, i), S.ResumeAll) <= Resumes(es)
    decreases |es|
  {
    if es != [] {
      var own, rest := Own(z, es[0], i), OwnEvents(Step(z, es[0]), es[1..], i);
      OwnResumes(Step(z, es[0]), es[1..], i);
      if own != [] {
        assert (own + rest)[1..] == rest;
      } else {
        assert own + rest == rest;
      }
    }
  }

  /**
   * In every run of every configuration that has not thrown, for each client: its record is what
   * the interpreter makes of its own events, so the operations that ran form a walk of its
   * scenario with at most one repetition per ResumeAll, and never more continuations are live
   * than one plus the number of ResumeAll calls.
   */
  lemma ClientsFollowTheirScenario(
    c: Config, channels: seq<Channel>, maxRetry: int, pool: Pool, n: nat, es: seq<Event>, i: nat)
    requires Defined(c) && c.hatchRate > 0.0 && i < n
    requires !Steps(Boot(c, channels, maxRetry, pool, n), es).faulted
    ensures var z0 := Boot(c, channels, maxRetry, pool, n);
            var z := Steps(z0, es);
            var ops, li := ClientOps(c, channels, i), ClientLoop(c, channels);
            && S.Playable(ops, li) && MAIN in z.players && i < |z.players[MAIN].infos|
            && var o := S.ObserveAll(S.Begin(ops, li), OwnEvents(z0, es, i));
               && Unmarked(z.players[MAIN].infos[i]) == o.info
               && S.InControl(o) && S.Conserved(o) && S.Walked(o)
               && o.repeats <= Resumes(es)
               && S.LiveContinuations(z.players[MAIN].infos[i]) <= 1 + Resumes(es)
  {
    var z0 := Boot(c, channels, maxRetry, pool, n);
    var ops, li := ClientOps(c, channels, i), ClientLoop(c, channels);
    BuiltScenarioIsSound(c, channels, i);
    RunTracks(z0, es, i, S.Begin(ops, li));
    OwnResumes(z0, es, i);
    S.PlayedOnce(ops, li, OwnEvents(z0, es, i));
    S.RepeatsArePaidFor(ops, li, OwnEvents(z0, es, i));
  }

  // ----- what each client runs -----

  /** The indices of the operations that client i of the main player runs, in order. */
  function Ran(z: System, es: seq<Event>, i: nat): seq<int>
    decreases |es|
  {
    if es == [] then []
    else (if Own(z, es[0], i) == [S.OnNext] then [z.players[MAIN].infos[i].opIndex] else [])
         + Ran(Step(z, es[0]), es[1..], i)
  }

  /** They are those at the visits in the log. */
  ghost predicate Logged(o: S.Observed, o': S.Observed, ran: seq<int>) {
    && S.Played(o.info) && o'.info.ops == o.info.ops && o'.info.loopOpIndex == o.info.loopOpIndex
    && |o'.log| == |o.log| + |ran| && o'.log[..|o.log|] == o.log
    && forall k :: 0 <= k < |ran| ==>
         ran[k] == S.Position(|o.info.ops|, o.info.loopOpIndex, o'.log[|o.log| + k])
  }

  lemma OneLogged(z: System, e: Event, i: nat, o: S.Observed)
    requires Tracks(z, i, o) && S.InControl(o) && S.Walked(o) && !Step(z, e).faulted
    ensures var o' := S.ObserveAll(o, Own(z, e, i));
            var ran := if Own(z, e, i) == [S.OnNext] then [z.players[MAIN].infos[i].opIndex] else [];
            Logged(o, o', ran) && S.InControl(o') && S.Walked(o')
  {
    var own := Own(z, e, i);
    if own != [] {
      OwnIsOne(z, e, i);
      ObserveOne(o, own[0]);
      ObservedIsLogged(o, own[0]);
    }
  }

  lemma OwnIsOne(z: System, e: Event, i: nat)
    requires Own(z, e, i) != []
    ensures Own(z, e, i) == [Own(z, e, i)[0]]
  {
  }

  lemma ObservedIsLogged(o: S.Observed, e: S.Event)
    requires S.InControl(o) && S.Walked(o)
    requires e.OnNext? ==> S.Enabled(o, e)
    ensures var o' := S.Observe(o, e);
            && Logged(o, o', if e.OnNext? then [o.info.opIndex] else [])
            && S.InControl(o') && S.Walked(o')
  {
    S.ObserveKeepsWalk(o, e);
    S.ObserveKeepsScenario(o, e);
    ControlStays(o, e);
  }

  lemma ControlStays(o: S.Observed, e: S.Event)
    requires S.InControl(o)
    ensures S.InControl(S.Observe(o, e))
  {
  }

  lemma LoggedTwice(o: S.Observed, o': S.Observed, o'': S.Observed, a: seq<int>, b: seq<int>)
    requires Logged(o, o', a) && Logged(o', o'', b)
    ensures Logged(o, o'', a + b)
  {
    assert o''.log[..|o.log|] == o''.log[..|o'.log|][..|o.log|];
    forall k | 0 <= k < |a + b|
      ensures (a + b)[k] == S.Position(|o.info.ops|, o.info.loopOpIndex, o''.log[|o.log| + k])
    {
      if k < |a| {
        assert o''.log[|o.log| + k] == o''.log[..|o'.log|][|o.log| + k];
      } else {
        assert (a + b)[k] == b[k - |a|];
      }
    }
  }

  lemma {:induction false} RunIsLogged(z: System, es: seq<Event>, i: nat, o: S.Observed)
    requires Tracks(z, i, o) && S.InControl(o) && S.Walked(o) && !Steps(z, es).faulted
    ensures Logged(o, S.ObserveAll(o, OwnEvents(z, es, i)), Ran(z, es, i))
    decreases |es|
  {
    if es != [] {
      var z' := Step(z, es[0]);
      if z'.faulted {
        FaultStays(z', es[1..]);
      }
      var own := Own(z, es[0], i);
      var o' := S.ObserveAll(o, own);
      OneLogged(z, es[0], i, o);
      StepTracks(z, es[0], i, o);
      RunIsLogged(z', es[1..], i, o');
      ObserveConcat(o, own, OwnEvents(z', es[1..], i));
      LoggedTwice(o, o', S.ObserveAll(o', OwnEvents(z', es[1..], i)),
                  if own == [S.OnNext] then [z.players[MAIN].infos[i].opIndex] else [],
                  Ran(z', es[1..], i));
    }
  }

  lemma BootTracks(c: Config, channels: seq<Channel>, maxRetry: int, pool: Pool, n: nat, i: nat)
    requires Defined(c) && c.hatchRate > 0.0 && i < n
    ensures var ops, li := ClientOps(c, channels, i), ClientLoop(c, channels);
            var o := S.Begin(ops, li);
            && S.Playable(ops, li) && Tracks(Boot(c, channels, maxRetry, pool, n), i, o)
            && S.InControl(o) && S.Conserved(o) && S.Walked(o)
  {
    BuiltScenarioIsSound(c, channels, i);
  }

  /**
   * In every run without ResumeAll that has not thrown, the k-th operation that a client runs is
   * the one at position k of its scenario: so each operation before the loop, and with it each
   * sub-scenario, runs once, and of any |ops| operations in a row one is a Sleep.
   */
  lemma ClientsRunInOrder(
    c: Config, channels: seq<Channel>, maxRetry: int, pool: Pool, n: nat, es: seq<Event>, i: nat)
    requires Defined(c) && c.hatchRate > 0.0 && i < n && Resumes(es) == 0
    requires !Steps(Boot(c, channels, maxRetry, pool, n), es).faulted
    ensures var ran := Ran(Boot(c, channels, maxRetry, pool, n), es, i);
            var ops, li := ClientOps(c, channels, i), ClientLoop(c, channels);
            && S.Playable(ops, li)
            && (forall k :: 0 <= k < |ran| ==> ran[k] == S.Position(|ops|, li, k))
            && (forall k :: 0 <= k < |ran| ==> if k < li then ran[k] == k else ran[k] >= li)
            && (forall from :: 0 <= from <= |ran| - |ops| ==> SleepsWithin(ops, ran, from))
  {
    var z0 := Boot(c, channels, maxRetry, pool, n);
    var ops, li := ClientOps(c, channels, i), ClientLoop(c, channels);
    BootTracks(c, channels, maxRetry, pool, n, i);
    RanAtPositions(z0, es, i, ops, li);
    BuiltScenarioIsSound(c, channels, i);
    InOrder(ops, li, Ran(z0, es, i));
  }

  lemma RanAtPositions(z: System, es: seq<Event>, i: nat, ops: seq<S.Op>, li: nat)
    requires S.Playable(ops, li) && Tracks(z, i, S.Begin(ops, li))
    requires Resumes(es) == 0 && !Steps(z, es).faulted
    ensures var ran := Ran(z, es, i);
            forall k :: 0 <= k < |ran| ==> ran[k] == S.Position(|ops|, li, k)
  {
    RunIsLogged(z, es, i, S.Begin(ops, li));
    OwnResumes(z, es, i);
    S.RepeatsArePaidFor(ops, li, OwnEvents(z, es, i));
  }

  /** Of the |ops| operations from `from` on, one is a Sleep. */
  ghost predicate SleepsWithin(ops: seq<S.Op>, ran: seq<int>, from: int) {
    exists k :: 0 <= from <= k < from + |ops| && k < |ran| && 0 <= ran[k] < |ops| && ops[ran[k]].Sleep?
  }

  lemma InOrder(ops: seq<S.Op>, li: nat, ran: seq<int>)
    requires S.Playable(ops, li) && HasSleep(ops[li..])
    requires forall k :: 0 <= k < |ran| ==> ran[k] == S.Position(|ops|, li, k)
    ensures forall k :: 0 <= k < |ran| ==> if k < li then ran[k] == k else ran[k] >= li
    ensures forall from :: 0 <= from <= |ran| - |ops| ==> SleepsWithin(ops, ran, from)
  {
    forall from | 0 <= from <= |ran| - |ops|
      ensures SleepsWithin(ops, ran, from)
    {
      var visit := SleepInEveryWindow(ops, li, from);
      S.PositionMoves(|ops|, li, visit);
      assert ran[visit] == S.Position(|ops|, li, visit);
    }
  }

  /**
   * From any state of any run in which a client is paused, up to the next ResumeAll: its index does
   * not move, and it runs exactly as many operations as posted continuations are used up.
   */
  lemma ClientsPauseQuiesces(
    c: Config, channels: seq<Channel>, maxRetry: int, pool: Pool, n: nat, before: seq<Event>,
    es: seq<Event>, i: nat)
    requires Defined(c) && c.hatchRate > 0.0 && i < n && Resumes(es) == 0
    requires var z := Steps(Boot(c, channels, maxRetry, pool, n), before);
             && !z.faulted && MAIN in z.players && i < |z.players[MAIN].infos|
             && z.players[MAIN].infos[i].paused && !Steps(z, es).faulted
    ensures var z := Steps(Boot(c, channels, maxRetry, pool, n), before);
            var z' := Steps(z, es);
            && MAIN in z'.players && i < |z'.players[MAIN].infos|
            && var info, info' := z.players[MAIN].infos[i], z'.players[MAIN].infos[i];
               && info'.paused && info'.opIndex == info.opIndex
               && |Ran(z, es, i)| == info.posted - info'.posted
  {
    var z0 := Boot(c, channels, maxRetry, pool, n);
    var z := Steps(z0, before);
    var ops, li := ClientOps(c, channels, i), ClientLoop(c, channels);
    BootTracks(c, channels, maxRetry, pool, n, i);
    var o := S.ObserveAll(S.Begin(ops, li), OwnEvents(z0, before, i));
    RunTracks(z0, before, i, S.Begin(ops, li));
    S.PlayedOnce(ops, li, OwnEvents(z0, before, i));
    RunTracks(z, es, i, o);
    RunIsLogged(z, es, i, o);
    OwnResumes(z, es, i);
    NoneResumes(OwnEvents(z, es, i));
    S.PauseQuiesces(o, OwnEvents(z, es, i));
  }

  lemma {:induction false} NoneResumes(es: seq<S.Event>)
    requires S.Count(es, S.ResumeAll) == 0
    ensures S.ResumeAll !in es
  {
    if es != [] {
      NoneResumes(es[1..]);
    }
  }

  lemma PauseStops(z: System, i: nat)
    requires MAIN in z.players && i < |z.players[MAIN].infos| && Enabled(z, PauseAll)
    ensures var z' := Step(z, PauseAll);
            && MAIN in z'.players && i < |z'.players[MAIN].infos| && !z'.faulted && !z'.stopped
            && z'.players[MAIN].infos[i] == z.players[MAIN].infos[i].(timerArmed := false, paused := true)
            && z'.clients == z.clients
            && forall p :: p in z.players && p != MAIN ==>
                 p in z'.players && z'.players[p] == z.players[p]
  {
  }

  /**
   * From any state of any run: a pause ends every wait of the main player, and leaves sessions and
   * nested players as they are; after the next resume each client is where it was when the pause
   * came, and goes on from the operation that it was at, with one continuation more than those that
   * the pause has not used up.
   */
  lemma ClientsResumeWhereTheyPaused(
    c: Config, channels: seq<Channel>, maxRetry: int, pool: Pool, n: nat, before: seq<Event>,
    es: seq<Event>, i: nat)
    requires Defined(c) && c.hatchRate > 0.0 && c.keyTrigger && i < n && Resumes(es) == 0
    requires var z := Steps(Boot(c, channels, maxRetry, pool, n), before);
             var z' := Steps(Step(z, PauseAll), es);
             !z.stopped && !z.faulted && !z'.stopped && !z'.faulted
    ensures var z := Steps(Boot(c, channels, maxRetry, pool, n), before);
            var paused := Step(z, PauseAll);
            var resumed := Step(Steps(paused, es), ResumeAll);
            && MAIN in z.players && i < |z.players[MAIN].infos|
            && MAIN in paused.players && i < |paused.players[MAIN].infos|
            && MAIN in resumed.players && i < |resumed.players[MAIN].infos|
            && var info, info1 := z.players[MAIN].infos[i], paused.players[MAIN].infos[i];
               var info2 := resumed.players[MAIN].infos[i];
               && info1 == info.(timerArmed := false, paused := true)
               && paused.clients == z.clients
               && !info2.paused && info2.opIndex == info.opIndex
               && info2.posted == info.posted - |Ran(paused, es, i)| + 1
  {
    var z0 := Boot(c, channels, maxRetry, pool, n);
    var z := Steps(z0, before);
    var paused := Step(z, PauseAll);
    BootTracks(c, channels, maxRetry, pool, n, i);
    RunTracks(z0, before, i, S.Begin(ClientOps(c, channels, i), ClientLoop(c, channels)));
    SettingsStay(z0, before);
    PauseStops(z, i);
    StepsConcat(z0, before, [PauseAll]);
    assert Steps(z, [PauseAll]) == Steps(paused, [PauseAll][1..]) == paused;
    ClientsPauseQuiesces(c, channels, maxRetry, pool, n, before + [PauseAll], es, i);
    SettingsStay(paused, es);
    ResumePosts(Steps(paused, es), i);
  }

  lemma ResumePosts(z: System, i: nat)
    requires MAIN in z.players && i < |z.players[MAIN].infos| && Enabled(z, ResumeAll)
    ensures var z' := Step(z, ResumeAll);
            && MAIN in z'.players && i < |z'.players[MAIN].infos|
            && var info := z.players[MAIN].infos[i];
               z'.players[MAIN].infos[i] == info.(paused := false, posted := info.posted + 1)
  {
  }
}
