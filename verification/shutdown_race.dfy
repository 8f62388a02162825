/**
 * What can go wrong on the way to a shutdown, by prompt schedules from the start: a Disconnect that
 * meets no session, a second Exit paid for by a resume, and a client that is reconnected by hand
 * after its exit.
 */
module ShutdownRace {
  import opened Base
  import opened ClientRuns
  import opened LoadEngine
  import opened PromptRuns
  import opened ScenarioBuilder
  import opened ScenarioPlayers
  import opened Schedules
  import opened Setups
  import opened Shutdown
  import opened Timelines
  import S = Scenarios
  import VC = VirtualClients

  /** Client i waits at its loop, `exited` or not; the wait is over, and it is the first to be. */
  ghost predicate AtLoop(p: Plan, l0: Loop, l: Loop, i: nat, exited: bool) {
    && i < |p.ops| == |l.z.clients| && SameSettings(l0, l) && Script(p.ops[i], p.li, p.lasts)
    && (exists due :: due <= l.now
          && Resting(l0, l, [], i, Waiting(p.ops[i], p.li, p.li, exited), due))
    && (forall c :: c in l.due && c != OpTimer(MAIN, i) ==> l.now <= l.due[c])
  }

  lemma ArrivedAtLoop(p: Plan, l0: Loop, l: Loop, phs: seq<Phase>, i: nat, goal: Phase)
    requires Valid(p) && i < |p.ops| && SameSettings(l0, l)
    requires Arrived(p, l0, l, phs, i, goal) && !goal.Hatching?
    ensures AtLoop(p, l0, l, i, goal.Gone?) && Bare(l.z.clients[i]) == StateAt(i, goal)
  {
    StagedIsOver(p, l0, l, phs, i);
    assert ClientValid(p, i);
    assert Resting(l0, l, [], i, Waiting(p.ops[i], p.li, p.li, goal.Gone?), l.now);
  }

  lemma UpIsReachable(p: Plan, i: nat)
    requires Valid(p) && p.lasts >= 0 && i < |p.ops|
    requires i == 0 || (Exits(p) && p.delays[i] <= p.lasts)
    ensures Reachable(p, i, Up)
  {
    forall j | 0 <= j < |p.ops|
      ensures DueAt(p, i, Up) <= DueAt(p, j, Gone)
    {
      assert ClientValid(p, j);
    }
  }

  /** All clients wait to hatch. */
  ghost predicate Settled(p: Plan, l0: Loop, l: Loop, phs: seq<Phase>) {
    && Valid(p) && Staged(p, l0, l, phs) && phs == seq(|p.ops|, _ => Hatching)
    && SameSettings(l0, l) && l.now == 0
  }

  lemma DriveUp(p: Plan, l0: Loop, l1: Loop, phs: seq<Phase>, i: nat)
    returns (l: Loop, phs': seq<Phase>)
    requires Settled(p, l0, l1, phs) && Reachable(p, i, Up)
    ensures AtLoop(p, l0, l, i, false) && Bare(l.z.clients[i]) == UP
    ensures Arrived(p, l0, l, phs', i, Up) && OnTheWay(phs', i, Up)
  {
    l, phs' := Drive(p, l0, l1, phs, i, Up);
    ArrivedAtLoop(p, l0, l, phs', i, Up);
  }

  /** The first client hatches at once, also when its session is to last no time at all. */
  lemma HatchFirst(p: Plan, l0: Loop, l1: Loop, phs: seq<Phase>) returns (l: Loop)
    requires Settled(p, l0, l1, phs) && p.ops != []
    ensures AtLoop(p, l0, l, 0, false) || p.lasts > 0
    ensures AtLoop(p, l0, l, 0, false) ==> Bare(l.z.clients[0]) == UP
  {
    StagedIsOver(p, l0, l1, phs, 0);
    assert ClientValid(p, 0) && l1.z.clients[0] == VC.INITIAL;
    l := Hatch(l0, l1, [], 0, p.ops[0], p.li, p.lasts);
    assert Resting(l0, l, [], 0, Waiting(p.ops[0], p.li, p.li, false), l1.now + p.lasts);
  }

  /** A prompt schedule without keys up to the end of client i's session. */
  lemma SessionUp(p: Plan, l0: Loop, l1: Loop, phs: seq<Phase>, i: nat) returns (l: Loop)
    requires Settled(p, l0, l1, phs) && i < |p.ops|
    requires i == 0 || (Exits(p) && p.delays[i] <= p.lasts)
    ensures AtLoop(p, l0, l, i, false) && Bare(l.z.clients[i]) == UP
  {
    assert ClientValid(p, i);
    if p.lasts < 0 {
      l := HatchFirst(p, l0, l1, phs);
    } else {
      UpIsReachable(p, i);
      var phs';
      l, phs' := DriveUp(p, l0, l1, phs, i);
    }
  }

  /** Runs the first ready handler when no completed wait is behind it. */
  lemma RunHead(l0: Loop, l: Loop, keys: seq<Event>, entry: Entry, rest: seq<Entry>)
    returns (l': Loop)
    requires Reach(l0, l, keys) && l.queue == [entry] + rest && NoneExpired(rest)
    requires Enabled(l.z, EventOf(entry, ANY))
    ensures Reach(l0, l', keys) && l' == Act(l, NEXT)
    ensures var e := EventOf(entry, ANY);
            l'.z == Step(l.z, e) && l'.queue == rest + Posts(l.z, e)
  {
    l' := Act(l, NEXT);
    ReachQuietly(l0, l, keys, NEXT);
    var e := EventOf(entry, ANY);
    assert l.queue[0] == entry && l.queue[1..] == rest;
    NoneCancelled(rest, Step(l.z, e), Starts(l.z, e, l.retryMs));
  }

  // ----- a Disconnect that meets no session -----

  /** The first ready handler is client i's Disconnect. */
  ghost predicate DisconnectIsNext(l: Loop, i: nat, exited: bool) {
    && l.queue != [] && l.queue[0] == Continue(MAIN, i)
    && Standing(l.z) && i < |l.z.clients| && CanRun(l.z.players[MAIN], i)
    && S.CurrentOp(l.z.players[MAIN].infos[i]).Disconnect?
    && l.z.players[MAIN].infos[i].exited == exited
    && !VC.Live(l.z.clients[i]) && !l.z.clients[i].closing
  }

  lemma DisconnectThrows(l: Loop, i: nat, exited: bool)
    requires DisconnectIsNext(l, i, exited)
    ensures !l.z.faulted && Act(l, NEXT).z.faulted
  {
    PlainTurn(l.z, i);
  }

  lemma ThrowsAfterExit(p: Plan, l0: Loop, l: Loop, i: nat) returns (l': Loop)
    requires AtLoop(p, l0, l, i, true) && l.z.clients[i] == VC.INITIAL
    ensures Reach(l0, l', []) && DisconnectIsNext(l', i, true)
  {
    var due :| due <= l.now && Resting(l0, l, [], i, Waiting(p.ops[i], p.li, p.li, true), due);
    l' := Wake(l0, l, [], i, p.ops[i], p.li, p.li, true, due);
  }

  /** The session is lost and the wait ends, both before either is handled. */
  lemma LossIsReady(l0: Loop, l: Loop, i: nat, info: S.ClientInfo, due: int) returns (l1: Loop)
    requires Resting(l0, l, [], i, info, due) && due <= l.now && VC.Live(l.z.clients[i])
    requires forall c :: c in l.due && c != OpTimer(MAIN, i) ==> l.now <= l.due[c]
    ensures Reach(l0, l1, []) && l1.z == l.z && l1.retryMs == l.retryMs
    ensures l1.queue == [Posted(OnDisconnect(i, "lost")), Expired(OpTimer(MAIN, i))]
  {
    var e, c := OnDisconnect(i, "lost"), OpTimer(MAIN, i);
    var l2 := Act(l, Arrive(e));
    ReachQuietly(l0, l, [], Arrive(e));
    l1 := Act(l2, Expire(c));
    ReachQuietly(l0, l2, [], Expire(c));
  }

  lemma OneKept(z: System, started: Option<(Clock, int)>, c: Clock)
    requires GoesOn(z, started, c)
    ensures Kept([Expired(c)], z, started) == [Expired(c)]
  {
    assert [Expired(c)][1..] == [] && Kept([], z, started) == [];
  }

  lemma LossIsHandled(l0: Loop, l: Loop, i: nat) returns (l1: Loop)
    requires Reach(l0, l, []) && Standing(l.z) && i < |l.z.clients|
    requires Bare(l.z.clients[i]) == UP && l.z.players[MAIN].infos[i].timerArmed
    requires l.queue == [Posted(OnDisconnect(i, "lost")), Expired(OpTimer(MAIN, i))]
    ensures Reach(l0, l1, []) && Standing(l1.z) && i < |l1.z.clients|
    ensures l1.queue == [Expired(OpTimer(MAIN, i))] && l1.z.players == l.z.players
    ensures !VC.Live(l1.z.clients[i]) && !l1.z.clients[i].closing
  {
    var e, c := OnDisconnect(i, "lost"), OpTimer(MAIN, i);
    LossOfUp(l.z, i);
    var z, started := Step(l.z, e), Starts(l.z, e, l.retryMs);
    assert l.queue[0] == Posted(e) && l.queue[1..] == [Expired(c)];
    OneKept(z, started, c);
    l1 := Act(l, NEXT);
    ReachQuietly(l0, l, [], NEXT);
    assert [Expired(c)] + [] == [Expired(c)];
  }

  /** The session is lost just before the wait is over. */
  lemma LoseBefore(p: Plan, l0: Loop, l: Loop, i: nat) returns (l': Loop)
    requires AtLoop(p, l0, l, i, false) && Bare(l.z.clients[i]) == UP
    ensures Reach(l0, l', []) && Standing(l'.z) && i < |l'.z.clients|
    ensures l'.queue == [Expired(OpTimer(MAIN, i))]
    ensures l'.z.players[MAIN].infos[i] == Waiting(p.ops[i], p.li, p.li, false)
    ensures !VC.Live(l'.z.clients[i]) && !l'.z.clients[i].closing
  {
    var due :| due <= l.now && Resting(l0, l, [], i, Waiting(p.ops[i], p.li, p.li, false), due);
    var l1 := LossIsReady(l0, l, i, Waiting(p.ops[i], p.li, p.li, false), due);
    l' := LossIsHandled(l0, l1, i);
  }

  lemma LossOfUp(z: System, i: nat)
    requires Standing(z) && i < |z.clients| && Bare(z.clients[i]) == UP
    ensures var e := OnDisconnect(i, "lost");
            && Enabled(z, e) && Step(z, e).players == z.players && Posts(z, e) == []
            && !Step(z, e).stopped && !Step(z, e).faulted && |Step(z, e).clients| == |z.clients|
            && !VC.Live(Step(z, e).clients[i]) && !Step(z, e).clients[i].closing
            && (Starts(z, e, 0).Some? ==> Starts(z, e, 0).value.0 == RetryTimer(i))
  {
  }

  lemma ThrowsAfterLoss(p: Plan, l0: Loop, l: Loop, i: nat) returns (l': Loop)
    requires AtLoop(p, l0, l, i, false) && Bare(l.z.clients[i]) == UP
    ensures Reach(l0, l', []) && DisconnectIsNext(l', i, false)
  {
    var l1 := LoseBefore(p, l0, l, i);
    assert l1.queue == [Expired(OpTimer(MAIN, i))] + [];
    TimerStep(l1.z, MAIN, i);
    l' := RunHead(l0, l1, [], Expired(OpTimer(MAIN, i)), []);
  }

  // ----- the last client -----

  /** The last client's session is about to end, and all others have exited. */
  ghost predicate LastUp(p: Plan, l0: Loop, l: Loop) {
    && p.ops != [] && AtLoop(p, l0, l, |p.ops| - 1, false) && Bare(l.z.clients[|p.ops| - 1]) == UP
    && MAIN in l.z.players && |l.z.players[MAIN].infos| == |p.ops|
    && |p.ops[|p.ops| - 1]| == p.li + 3 && p.ops[|p.ops| - 1][p.li + 2].Exit?
    && forall k :: 0 <= k < |p.ops| - 1 ==>
         && l.z.players[MAIN].infos[k] == Waiting(p.ops[k], p.li, p.li, true)
         && l.z.clients[k] == VC.INITIAL
         && p.li < |p.ops[k]| && p.ops[k][p.li].Sleep?
  }

  lemma OtherIsGone(p: Plan, l0: Loop, l: Loop, phs: seq<Phase>, k: nat)
    requires Valid(p) && 0 < |p.ops| == |phs| && k < |phs| - 1 && p.delays[|phs| - 1] < p.lasts
    requires Arrived(p, l0, l, phs, |phs| - 1, Up) && OnTheWay(phs, |phs| - 1, Up)
    ensures phs[k] == Gone
  {
    assert p.delays[k] <= p.delays[|phs| - 1] && !phs[k].Asked?;
  }

  /** If hatching is over before the first session ends, all clients but the last can exit. */
  lemma LastIsUp(p: Plan, l0: Loop, l1: Loop, phs: seq<Phase>) returns (l: Loop)
    requires Settled(p, l0, l1, phs) && Exits(p) && p.ops != []
    requires |p.ops| == 1 || p.delays[|p.ops| - 1] < p.lasts
    ensures LastUp(p, l0, l)
  {
    var m := |p.ops| - 1;
    if m == 0 {
      l := SessionUp(p, l0, l1, phs, 0);
    } else {
      assert ClientValid(p, m);
      UpIsReachable(p, m);
      var phs';
      l, phs' := DriveUp(p, l0, l1, phs, m);
      forall k | 0 <= k < m
        ensures l.z.players[MAIN].infos[k] == Waiting(p.ops[k], p.li, p.li, true)
        ensures l.z.clients[k] == VC.INITIAL
        ensures p.li < |p.ops[k]| && p.ops[k][p.li].Sleep?
      {
        assert ClientValid(p, k);
        OtherIsGone(p, l0, l, phs', k);
        assert AtPhase(p, l, k, Gone);
      }
    }
  }

  /** Client m of the main player has a continuation at `at`, the others have exited. */
  ghost predicate Turns(p: Plan, l: Loop, at: int, s: VC.State) {
    var m := |p.ops| - 1;
    && p.ops != [] && Standing(l.z) && |l.z.clients| == |p.ops|
    && l.z.players[MAIN].infos[m] == Ready(p.ops[m], p.li, at, false)
    && Bare(l.z.clients[m]) == s
  }

  ghost predicate OthersOut(p: Plan, l: Loop) {
    && p.ops != [] && Standing(l.z) && |l.z.clients| == |p.ops|
    && forall k :: 0 <= k < |p.ops| - 1 ==>
         && l.z.players[MAIN].infos[k] == Waiting(p.ops[k], p.li, p.li, true)
         && l.z.clients[k] == VC.INITIAL
         && p.li < |p.ops[k]| && p.ops[k][p.li].Sleep?
  }

  ghost predicate Exiting(p: Plan) {
    var m := |p.ops| - 1;
    p.ops != [] && Script(p.ops[m], p.li, p.lasts) && |p.ops[m]| == p.li + 3
    && p.ops[m][p.li + 2].Exit?
  }

  lemma ToDisconnect(p: Plan, l0: Loop, l: Loop) returns (l': Loop)
    requires LastUp(p, l0, l)
    ensures Exiting(p) && Reach(l0, l', []) && l'.queue == [Continue(MAIN, |p.ops| - 1)]
    ensures Turns(p, l', p.li + 1, UP) && OthersOut(p, l') && SameSettings(l0, l')
  {
    var m := |p.ops| - 1;
    var due :| due <= l.now && Resting(l0, l, [], m, Waiting(p.ops[m], p.li, p.li, false), due);
    l' := Wake(l0, l, [], m, p.ops[m], p.li, p.li, false, due);
  }

  lemma DisconnectRuns(p: Plan, l0: Loop, l: Loop, keys: seq<Event>, rest: seq<Entry>)
    returns (l': Loop)
    requires Exiting(p) && Turns(p, l, p.li + 1, UP) && OthersOut(p, l) && Reach(l0, l, keys)
    requires l.queue == [Continue(MAIN, |p.ops| - 1)] + rest && NoneExpired(rest)
    ensures Reach(l0, l', keys) && l'.queue == rest + [Continue(MAIN, |p.ops| - 1)]
    ensures Turns(p, l', p.li + 2, CLOSING) && OthersOut(p, l') && SameSettings(l, l')
  {
    var m := |p.ops| - 1;
    BareOnward(p.ops[m], p.li, p.li + 1, l.z.clients[m], m);
    PlainStep(l.z, m);
    l' := RunHead(l0, l, keys, Continue(MAIN, m), rest);
  }

  lemma Pressed(l0: Loop, l: Loop, keys: seq<Event>, e: Event) returns (l': Loop)
    requires Reach(l0, l, keys) && IsKey(e) && CanArrive(l, e)
    ensures Reach(l0, l', keys + [e]) && l' == l.(queue := l.queue + [Posted(e)])
  {
    l' := Act(l, Arrive(e));
    ReachNext(l0, l, keys, Arrive(e));
  }

  // ----- Exit, paused and resumed -----

  /** Everybody is paused; the last client has a continuation at its Exit, or has run it. */
  ghost predicate Paused(p: Plan, l: Loop, posted: nat, s: VC.State) {
    var m := |p.ops| - 1;
    && p.ops != [] && Standing(l.z) && |l.z.clients| == |p.ops|
    && l.z.players[MAIN].infos[m]
       == Ready(p.ops[m], p.li, p.li + 2, false).(posted := posted, paused := true)
    && Bare(l.z.clients[m]) == s
    && forall k :: 0 <= k < m ==>
         && l.z.players[MAIN].infos[k]
            == Waiting(p.ops[k], p.li, p.li, true).(timerArmed := false, paused := true)
         && p.li < |p.ops[k]| && p.ops[k][p.li].Sleep?
  }

  lemma PauseRuns(p: Plan, l0: Loop, l: Loop, keys: seq<Event>) returns (l': Loop)
    requires Exiting(p) && Turns(p, l, p.li + 2, CLOSING) && OthersOut(p, l)
    requires Reach(l0, l, keys) && l.z.keyTrigger
    requires l.queue == [Posted(PauseAll), Continue(MAIN, |p.ops| - 1)]
    ensures Reach(l0, l', keys) && l'.queue == [Continue(MAIN, |p.ops| - 1)]
    ensures Paused(p, l', 1, CLOSING) && SameSettings(l, l')
  {
    var rest := [Continue(MAIN, |p.ops| - 1)];
    assert l.queue == [Posted(PauseAll)] + rest && rest + [] == rest;
    l' := RunHead(l0, l, keys, Posted(PauseAll), rest);
  }

  lemma ExitRunsPaused(p: Plan, l0: Loop, l: Loop, keys: seq<Event>) returns (l': Loop)
    requires Exiting(p) && Paused(p, l, 1, CLOSING) && Reach(l0, l, keys)
    requires l.queue == [Continue(MAIN, |p.ops| - 1)]
    ensures Reach(l0, l', keys) && l'.queue == []
    ensures Paused(p, l', 0, Leaving(|p.ops| - 1)) && SameSettings(l, l')
  {
    var m := |p.ops| - 1;
    assert l.queue == [Continue(MAIN, m)] + [];
    PlainTurn(l.z, m);
    l' := RunHead(l0, l, keys, Continue(MAIN, m), []);
  }

  /** After the resume: everybody has a continuation, and the first k have run theirs. */
  ghost predicate Resumed(p: Plan, l: Loop, k: nat) {
    var m := |p.ops| - 1;
    && p.ops != [] && Standing(l.z) && |l.z.clients| == |p.ops| && k <= m
    && l.queue == Continues(|p.ops|)[k..]
    && l.z.players[MAIN].infos[m] == Ready(p.ops[m], p.li, p.li + 2, false)
    && Bare(l.z.clients[m]) == Leaving(m)
    && (forall j :: 0 <= j < m ==> l.z.players[MAIN].infos[j].exited)
    && (forall j :: k <= j < m ==>
          && l.z.players[MAIN].infos[j] == Ready(p.ops[j], p.li, p.li, true)
          && p.li < |p.ops[j]| && p.ops[j][p.li].Sleep?)
  }

  lemma ResumeRuns(p: Plan, l0: Loop, l: Loop, keys: seq<Event>) returns (l': Loop)
    requires Exiting(p) && Paused(p, l, 0, Leaving(|p.ops| - 1)) && Reach(l0, l, keys)
    requires l.queue == [Posted(ResumeAll)] && l.z.keyTrigger
    ensures Reach(l0, l', keys) && Resumed(p, l', 0)
  {
    assert l.queue == [Posted(ResumeAll)] + [];
    l' := RunHead(l0, l, keys, Posted(ResumeAll), []);
    assert [] + Continues(|p.ops|) == Continues(|p.ops|)[0..];
  }

  lemma OthersSleep(p: Plan, l0: Loop, l: Loop, keys: seq<Event>, k: nat) returns (l': Loop)
    requires Exiting(p) && Resumed(p, l, k) && Reach(l0, l, keys)
    ensures Reach(l0, l', keys) && Resumed(p, l', |p.ops| - 1)
    decreases |p.ops| - k
  {
    if k == |p.ops| - 1 {
      l' := l;
    } else {
      var rest := Continues(|p.ops|)[k + 1..];
      assert l.queue == [Continue(MAIN, k)] + rest;
      PlainTurn(l.z, k);
      var l1 := RunHead(l0, l, keys, Continue(MAIN, k), rest);
      assert rest + [] == rest;
      l' := OthersSleep(p, l0, l1, keys, k + 1);
    }
  }

  /** The second Exit is answered at once, and stops the loop while the session is live. */
  lemma SecondExit(p: Plan, l0: Loop, l: Loop, keys: seq<Event>) returns (l': Loop)
    requires Exiting(p) && Resumed(p, l, |p.ops| - 1) && Reach(l0, l, keys)
    ensures Reach(l0, l', keys) && l'.z.stopped && !AllQuiescent(l'.z)
  {
    var m := |p.ops| - 1;
    assert l.queue == [Continue(MAIN, m)] + [];
    PlainTurn(l.z, m);
    l' := RunHead(l0, l, keys, Continue(MAIN, m), []);
    assert !VC.Quiescent(l'.z.clients[m]);
  }

  /** One pause and one resume, and the loop stops although a session is live. */
  lemma ResumedRace(p: Plan, l0: Loop, l: Loop) returns (l': Loop)
    requires LastUp(p, l0, l) && l.z.keyTrigger
    ensures Reach(l0, l', [PauseAll, ResumeAll]) && l'.z.stopped && !AllQuiescent(l'.z)
  {
    var l1 := PausedRace(p, l0, l);
    var l2 := Pressed(l0, l1, [PauseAll], ResumeAll);
    assert l2.queue == [Posted(ResumeAll)];
    assert [PauseAll] + [ResumeAll] == [PauseAll, ResumeAll];
    var l3 := ResumeRuns(p, l0, l2, [PauseAll, ResumeAll]);
    var l4 := OthersSleep(p, l0, l3, [PauseAll, ResumeAll], 0);
    l' := SecondExit(p, l0, l4, [PauseAll, ResumeAll]);
  }

  /** The first half: everybody is paused, and the last client has asked to exit. */
  lemma PausedRace(p: Plan, l0: Loop, l: Loop) returns (l': Loop)
    requires LastUp(p, l0, l) && l.z.keyTrigger
    ensures Exiting(p) && Reach(l0, l', [PauseAll]) && l'.queue == [] && l'.z.keyTrigger
    ensures Paused(p, l', 0, Leaving(|p.ops| - 1))
  {
    var m := |p.ops| - 1;
    var l1 := ToDisconnect(p, l0, l);
    var l2 := Pressed(l0, l1, [], PauseAll);
    assert l2.queue == [Continue(MAIN, m)] + [Posted(PauseAll)] && [] + [PauseAll] == [PauseAll];
    var l3 := DisconnectRuns(p, l0, l2, [PauseAll], [Posted(PauseAll)]);
    var l4 := PauseRuns(p, l0, l3, [PauseAll]);
    l' := ExitRunsPaused(p, l0, l4, [PauseAll]);
  }

  // ----- a manual connect after an exit -----

  lemma AskedTurn(ops: seq<S.Op>, li: nat, s: VC.State, i: nat)
    requires |ops| == li + 3 && ops[li + 2].Exit? && Bare(s) == CLOSING
    ensures var (info', s') := After(Ready(ops, li, li + 2, false), s, i);
            info' == Ready(ops, li, li, false) && Bare(s') == Leaving(i)
    ensures !Marks(ops[li + 2], s, i)
  {
  }

  lemma ExitRuns(p: Plan, l0: Loop, l: Loop) returns (l': Loop)
    requires Exiting(p) && Turns(p, l, p.li + 2, CLOSING) && OthersOut(p, l) && Reach(l0, l, [])
    requires l.queue == [Continue(MAIN, |p.ops| - 1)]
    ensures Reach(l0, l', []) && l'.queue == [Continue(MAIN, |p.ops| - 1)]
    ensures Turns(p, l', p.li, Leaving(|p.ops| - 1)) && OthersOut(p, l') && SameSettings(l, l')
  {
    var m := |p.ops| - 1;
    assert l.queue == [Continue(MAIN, m)] + [];
    AskedTurn(p.ops[m], p.li, l.z.clients[m], m);
    PlainTurn(l.z, m);
    l' := RunHead(l0, l, [], Continue(MAIN, m), []);
  }

  /** The last client was asked to exit and is about to wait; the others have exited. */
  lemma LastAsked(p: Plan, l0: Loop, l: Loop) returns (l': Loop)
    requires LastUp(p, l0, l)
    ensures Exiting(p) && Reach(l0, l', []) && l'.queue == [Continue(MAIN, |p.ops| - 1)]
    ensures Turns(p, l', p.li, Leaving(|p.ops| - 1)) && OthersOut(p, l') && SameSettings(l0, l')
  {
    var l1 := ToDisconnect(p, l0, l);
    assert l1.queue == [Continue(MAIN, |p.ops| - 1)] + [];
    var l2 := DisconnectRuns(p, l0, l1, [], []);
    assert l2.queue == [Continue(MAIN, |p.ops| - 1)];
    l' := ExitRuns(p, l0, l2);
  }

  /** The first client is connected by hand, and the end of client i's session becomes ready. */
  lemma ConnectArrives(l0: Loop, l: Loop, i: nat) returns (l': Loop)
    requires Reach(l0, l, []) && l.queue == [Continue(MAIN, i)] && Standing(l.z)
    requires i < |l.z.clients| && VC.Live(l.z.clients[i]) && l.z.keyTrigger
    ensures Reach(l0, l', [ManualConnect(0)]) && l'.z == l.z
    ensures l'.queue == [Continue(MAIN, i), Posted(ManualConnect(0)),
                         Posted(OnDisconnect(i, "closed"))]
  {
    var e := OnDisconnect(i, "closed");
    var l1 := Pressed(l0, l, [], ManualConnect(0));
    assert [] + [ManualConnect(0)] == [ManualConnect(0)];
    l' := Act(l1, Arrive(e));
    ReachQuietly(l0, l1, [ManualConnect(0)], Arrive(e));
  }

  lemma ConnectRuns(z: System, i: nat)
    requires Standing(z) && i < |z.clients| && z.clients[i] == VC.INITIAL && z.keyTrigger
    ensures var e := ManualConnect(i);
            Enabled(z, e) && Step(z, e) == z.(clients := z.clients[i := UP]) && Posts(z, e) == []
  {
  }

  /** One manual connect, and the loop stops although the first client's session is live. */
  lemma ConnectedRace(p: Plan, l0: Loop, l: Loop) returns (l': Loop)
    requires LastUp(p, l0, l) && l.z.keyTrigger && |p.ops| >= 2
    ensures Reach(l0, l', [ManualConnect(0)]) && l'.z.stopped && !AllQuiescent(l'.z)
  {
    var m, keys := |p.ops| - 1, [ManualConnect(0)];
    var l1 := LastAsked(p, l0, l);
    var l2 := ConnectArrives(l0, l1, m);
    var l3 := LastWaits(p, l0, l2, keys);
    l' := LossStopsIt(p, l0, l3, keys);
  }

  lemma LastWaits(p: Plan, l0: Loop, l: Loop, keys: seq<Event>) returns (l': Loop)
    requires Exiting(p) && |p.ops| >= 2 && Reach(l0, l, keys) && l.z.keyTrigger
    requires Turns(p, l, p.li, Leaving(|p.ops| - 1)) && OthersOut(p, l)
    requires l.queue == [Continue(MAIN, |p.ops| - 1), Posted(ManualConnect(0)),
                         Posted(OnDisconnect(|p.ops| - 1, "closed"))]
    ensures Reach(l0, l', keys) && Standing(l'.z) && |l'.z.clients| == |p.ops|
    ensures l'.queue == [Posted(OnDisconnect(|p.ops| - 1, "closed"))]
    ensures l'.z.clients[0] == UP && Bare(l'.z.clients[|p.ops| - 1]) == Leaving(|p.ops| - 1)
    ensures forall k :: 0 <= k < |p.ops| - 1 ==> l'.z.players[MAIN].infos[k].exited
  {
    var m := |p.ops| - 1;
    var loss := [Posted(OnDisconnect(m, "closed"))];
    var rest := [Posted(ManualConnect(0))] + loss;
    assert l.queue == [Continue(MAIN, m)] + rest;
    PlainTurn(l.z, m);
    var l1 := RunHead(l0, l, keys, Continue(MAIN, m), rest);
    assert rest + [] == rest && loss + [] == loss;
    ConnectRuns(l1.z, 0);
    l' := RunHead(l0, l1, keys, Posted(ManualConnect(0)), loss);
  }

  lemma LossStopsIt(p: Plan, l0: Loop, l: Loop, keys: seq<Event>) returns (l': Loop)
    requires Reach(l0, l, keys) && Standing(l.z) && |l.z.clients| == |p.ops| >= 2
    requires l.queue == [Posted(OnDisconnect(|p.ops| - 1, "closed"))]
    requires l.z.clients[0] == UP && Bare(l.z.clients[|p.ops| - 1]) == Leaving(|p.ops| - 1)
    requires forall k :: 0 <= k < |p.ops| - 1 ==> l.z.players[MAIN].infos[k].exited
    ensures Reach(l0, l', keys) && l'.z.stopped && !AllQuiescent(l'.z)
  {
    var m := |p.ops| - 1;
    assert l.queue == [Posted(OnDisconnect(m, "closed"))] + [];
    LossStep(l.z, m, "closed");
    l' := RunHead(l0, l, keys, Posted(OnDisconnect(m, "closed")), []);
    assert !VC.Quiescent(l'.z.clients[0]);
  }

  // ----- for every configuration -----

  /**
   * In every configuration with a duration, prompt and without a key: the first client's session
   * may be lost before it is over, and then its own Disconnect throws. In a shutdown configuration
   * the same can happen to every client that hatches within the duration.
   */
  lemma DisconnectAfterLossCanThrow(u: Setup, i: nat) returns (acts: seq<Action>)
    requires Ends(u) && i < u.n
    requires i == 0 || (Shuts(u.c) && HatchDelay(u.c, i) <= Millis(u.c.duration))
    ensures Prompt(Begin(u), acts) && Keys(acts) == []
    ensures var l := Acts(Begin(u), acts);
            DisconnectIsNext(l, i, false) && !l.z.faulted && Act(l, NEXT).z.faulted
  {
    var l1, phs := Settles(u);
    var p := PlanOf(u);
    var l2 := SessionUp(p, Begin(u), l1, phs, i);
    var l := ThrowsAfterLoss(p, Begin(u), l2, i);
    DisconnectThrows(l, i, false);
    acts :| Prompt(Begin(u), acts) && Keys(acts) == [] && Acts(Begin(u), acts) == l;
  }

  /**
   * In every shutdown configuration with two clients or more, prompt and without a key: while
   * another client's session takes its time to end, the first one, which has exited, comes back
   * to its Disconnect, which throws.
   */
  lemma DisconnectAfterExitCanThrow(u: Setup) returns (acts: seq<Action>)
    requires Ends(u) && Shuts(u.c) && u.n >= 2 && Millis(u.c.duration) >= 0
    ensures Prompt(Begin(u), acts) && Keys(acts) == []
    ensures var l := Acts(Begin(u), acts);
            DisconnectIsNext(l, 0, true) && !l.z.faulted && Act(l, NEXT).z.faulted
  {
    var l1, phs := Settles(u);
    var p := PlanOf(u);
    var l2 := ExitedAtLoop(p, Begin(u), l1, phs);
    var l := ThrowsAfterExit(p, Begin(u), l2, 0);
    DisconnectThrows(l, 0, true);
    acts :| Prompt(Begin(u), acts) && Keys(acts) == [] && Acts(Begin(u), acts) == l;
  }

  lemma ExitedAtLoop(p: Plan, l0: Loop, l1: Loop, phs: seq<Phase>) returns (l: Loop)
    requires Settled(p, l0, l1, phs) && Exits(p) && |p.ops| >= 2 && p.lasts >= 0
    ensures AtLoop(p, l0, l, 0, true) && l.z.clients[0] == VC.INITIAL
  {
    forall j | 0 <= j < |p.ops|
      ensures DueAt(p, 0, Gone) <= DueAt(p, j, Gone)
    {
      assert ClientValid(p, j);
    }
    assert Reachable(p, 0, Gone);
    var phs';
    l, phs' := Drive(p, l0, l1, phs, 0, Gone);
    ArrivedAtLoop(p, l0, l, phs', 0, Gone);
  }

  /** All clients have hatched before the first session is over. */
  predicate HatchesInTime(u: Setup)
    requires u.c.hatchRate > 0.0
  {
    u.n == 1 || (u.n > 1 && HatchDelay(u.c, u.n - 1) < Millis(u.c.duration))
  }

  lemma LastOfAll(u: Setup) returns (l: Loop)
    requires Ends(u) && Shuts(u.c) && HatchesInTime(u)
    ensures LastUp(PlanOf(u), Begin(u), l) && l.z.keyTrigger == u.c.keyTrigger
  {
    var l1, phs := Settles(u);
    l := LastIsUp(PlanOf(u), Begin(u), l1, phs);
  }

  /**
   * In every shutdown configuration with a key trigger whose clients all hatch in time: one pause
   * and one resume suffice for a prompt schedule in which the loop stops although a session is
   * live.
   */
  lemma ResumeCanStopEarly(u: Setup) returns (acts: seq<Action>)
    requires Ends(u) && Shuts(u.c) && u.c.keyTrigger && HatchesInTime(u)
    ensures Prompt(Begin(u), acts) && Keys(acts) == [PauseAll, ResumeAll]
    ensures var z := Acts(Begin(u), acts).z; z.stopped && !AllQuiescent(z)
  {
    var l := LastOfAll(u);
    var l' := ResumedRace(PlanOf(u), Begin(u), l);
    acts :| Prompt(Begin(u), acts) && Keys(acts) == [PauseAll, ResumeAll]
            && Acts(Begin(u), acts) == l';
  }

  /** With two clients or more, so does one manual connect of a client that has exited. */
  lemma ConnectCanStopEarly(u: Setup) returns (acts: seq<Action>)
    requires Ends(u) && Shuts(u.c) && u.c.keyTrigger && HatchesInTime(u) && u.n >= 2
    ensures Prompt(Begin(u), acts) && Keys(acts) == [ManualConnect(0)]
    ensures var z := Acts(Begin(u), acts).z; z.stopped && !AllQuiescent(z)
  {
    var l := LastOfAll(u);
    var l' := ConnectedRace(PlanOf(u), Begin(u), l);
    acts :| Prompt(Begin(u), acts) && Keys(acts) == [ManualConnect(0)]
            && Acts(Begin(u), acts) == l';
  }
}
