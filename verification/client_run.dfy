/**
 * Building blocks of prompt schedules: what one client of the main player does from one wait to
 * the next, while all others wait.
 */
module ClientRuns {
  import opened Base
  import opened LoadEngine
  import opened PromptRuns
  import opened ScenarioPlayers
  import opened Schedules
  import opened Shutdown
  import S = Scenarios
  import VC = VirtualClients

  predicate Standing(z: System) {
    MAIN in z.players && |z.players[MAIN].infos| == |z.clients| && !z.stopped && !z.faulted
  }

  /** The system with another record and another state of client i. */
  function With(z: System, i: nat, info: S.ClientInfo, s: VC.State): System
    requires Standing(z) && i < |z.clients|
  {
    WithClient(WithPlayer(z, MAIN, WithInfo(z.players[MAIN], i, info)), i, s)
  }

  predicate Plain(op: S.Op) {
    op.Sleep? || op.Reconnect? || op.Disconnect? || op.Exit?
  }

  predicate Answered(op: S.Op, s: VC.State) {
    op.Disconnect? ==> !VC.AfterClose(s, None).Faulted?
  }

  /** An Exit that is answered at once marks its client. */
  predicate Marks(op: S.Op, s: VC.State, i: nat) {
    && op.Exit?
    && VC.AfterClose(s, Some(VC.Callback(MAIN, i))).Returned?
    && VC.AfterClose(s, Some(VC.Callback(MAIN, i))).calls != []
  }

  /** A turn of the main player at an operation without nested player or message. */
  lemma PlainTurn(z: System, i: nat)
    requires Standing(z) && i < |z.clients| && CanRun(z.players[MAIN], i)
    requires Plain(S.CurrentOp(z.players[MAIN].infos[i]))
    ensures var e, info, s := OnNext(MAIN, i, ANY), z.players[MAIN].infos[i], z.clients[i];
            var op := S.CurrentOp(info);
            var (info', s') := After(info, s, i);
            var z' := With(z, i, info', s');
            && Enabled(z, e)
            && Step(z, e) == z'.(stopped := Marks(op, s, i) && AllExited(z'.players[MAIN]),
                                 faulted := !Answered(op, s))
            && Posts(z, e) == (if op.Sleep? || info.paused || !Answered(op, s) then []
                               else [Continue(MAIN, i)])
            && Starts(z, e, 0) == (if op.Sleep? then Some((OpTimer(MAIN, i), op.minTimeMs)) else None)
  {
    var main, info, s := z.players[MAIN], z.players[MAIN].infos[i], z.clients[i];
    var (info', s') := After(info, s, i);
    TurnIsAfter(main, s, i, z.pool, ANY);
    var turn := RunOp(main, s, MAIN, i, z.pool, ANY);
    assert turn.player.infos == main.infos[i := info'];
    if Marks(S.CurrentOp(info), s, i) {
      var marked := PlayerAfterExit(WithInfo(main, i, S.Taken(info)), i);
      ExitedAlike(marked, turn.player);
    }
    assert turn.player == WithInfo(main, i, info');
  }

  /** A wait of client i that is not armed is the only clock its plain turn affects. */
  lemma PlainMoves(z: System, i: nat)
    requires Standing(z) && i < |z.clients| && CanRun(z.players[MAIN], i)
    requires Plain(S.CurrentOp(z.players[MAIN].infos[i]))
    requires !z.players[MAIN].infos[i].timerArmed && !z.clients[i].retryArmed
    ensures var z' := Step(z, OnNext(MAIN, i, ANY));
            && OneMoved(z, z', OpTimer(MAIN, i))
            && (Armed(z', OpTimer(MAIN, i)) <==> S.CurrentOp(z.players[MAIN].infos[i]).Sleep?)
  {
    PlainTurn(z, i);
  }

  lemma RestNotExpired(entry: Entry, rest: seq<Entry>)
    requires NoneExpired([entry] + rest)
    ensures NoneExpired(rest)
  {
    assert forall k :: 0 <= k < |rest| ==> rest[k] == ([entry] + rest)[k + 1];
  }

  lemma StartsAlike(z: System, e: Event, retryMs: int)
    requires Enabled(z, e) && e.OnNext?
    ensures Starts(z, e, retryMs) == Starts(z, e, 0)
  {
  }

  /** The deadline that a plain turn sets, if it is a Sleep. */
  lemma PlainDue(l: Loop, i: nat)
    requires Standing(l.z) && ClocksAgree(l) && i < |l.z.clients| && CanRun(l.z.players[MAIN], i)
    requires Plain(S.CurrentOp(l.z.players[MAIN].infos[i]))
    requires !l.z.players[MAIN].infos[i].timerArmed && !l.z.clients[i].retryArmed
    ensures var c, e := OpTimer(MAIN, i), OnNext(MAIN, i, ANY);
            var op := S.CurrentOp(l.z.players[MAIN].infos[i]);
            && Enabled(l.z, e)
            && Starts(l.z, e, l.retryMs)
               == (if op.Sleep? then Some((c, op.minTimeMs)) else None)
            && DueAfter(l, Step(l.z, e), Starts(l.z, e, l.retryMs), c)
               == if op.Sleep? then l.due[c := l.now + op.minTimeMs] else l.due
  {
    var c := OpTimer(MAIN, i);
    PlainTurn(l.z, i);
    PlainMoves(l.z, i);
    StartsAlike(l.z, OnNext(MAIN, i, ANY), l.retryMs);
    assert !Armed(l.z, c);
    assert l.due - {c} == l.due;
  }

  lemma RunPlain(l0: Loop, l: Loop, keys: seq<Event>, i: nat, rest: seq<Entry>)
    returns (l': Loop)
    requires Reach(l0, l, keys) && Steady(l) && l.queue == [Continue(MAIN, i)] + rest
    requires i < |l.z.clients| && CanRun(l.z.players[MAIN], i)
    requires Plain(S.CurrentOp(l.z.players[MAIN].infos[i]))
    requires !l.z.players[MAIN].infos[i].timerArmed && !l.z.clients[i].retryArmed
    ensures Reach(l0, l', keys)
    ensures var e := OnNext(MAIN, i, ANY);
            var op := S.CurrentOp(l.z.players[MAIN].infos[i]);
            && Enabled(l.z, e)
            && l' == l.(z := Step(l.z, e), queue := rest + Posts(l.z, e),
                        due := if op.Sleep? then l.due[OpTimer(MAIN, i) := l.now + op.minTimeMs]
                               else l.due)
    ensures !l'.z.stopped && !l'.z.faulted ==> Steady(l')
  {
    var c, e := OpTimer(MAIN, i), OnNext(MAIN, i, ANY);
    PlainMoves(l.z, i);
    PlainDue(l, i);
    RestNotExpired(Continue(MAIN, i), rest);
    l' := RunFirst(l0, l, keys, Continue(MAIN, i), rest, e, c);
    if !l'.z.stopped && !l'.z.faulted {
      PlainSettles(l, l', i, rest);
    }
  }

  lemma PlainSettles(l: Loop, l': Loop, i: nat, rest: seq<Entry>)
    requires Steady(l) && NoneExpired(rest) && i < |l.z.clients| && CanRun(l.z.players[MAIN], i)
    requires Plain(S.CurrentOp(l.z.players[MAIN].infos[i]))
    requires !l.z.players[MAIN].infos[i].timerArmed && !l.z.clients[i].retryArmed
    requires var e := OnNext(MAIN, i, ANY);
             var op := S.CurrentOp(l.z.players[MAIN].infos[i]);
             && Enabled(l.z, e)
             && l' == l.(z := Step(l.z, e), queue := rest + Posts(l.z, e),
                         due := if op.Sleep? then l.due[OpTimer(MAIN, i) := l.now + op.minTimeMs]
                                else l.due)
    requires !l'.z.stopped && !l'.z.faulted
    ensures Steady(l')
  {
    PlainTurn(l.z, i);
    PlainMoves(l.z, i);
    assert !Armed(l.z, OpTimer(MAIN, i));
    assert SubsRest(l'.z);
    forall d
      ensures d in l'.due <==> Armed(l'.z, d)
    {
      assert d != OpTimer(MAIN, i) ==> (Armed(l.z, d) <==> Armed(l'.z, d));
    }
  }

  // ----- starting a nested player -----

  /** A sub-scenario is started: its client in the nested player has a continuation. */
  lemma SubTurn(z: System, i: nat)
    requires Standing(z) && SubsRest(z) && i < |z.clients| && CanRun(z.players[MAIN], i)
    requires var info := z.players[MAIN].infos[i];
             && S.CurrentOp(info).PlaySubScenario? && !info.paused
             && BackOps(S.CurrentOp(info).ops, S.CurrentOp(info).loopOpIndex)
    ensures var e, info := OnNext(MAIN, i, ANY), z.players[MAIN].infos[i];
            var op := S.CurrentOp(info);
            var q, z' := [op.name], Step(z, e);
            && Enabled(z, e) && q in z'.players && |z'.players[q].infos| == |z.clients|
            && z' == z.(players := z.players[MAIN := WithInfo(z.players[MAIN], i, S.AfterOnNext(info))]
                                            [q := z'.players[q]])
            && z'.players[q].infos[i] == S.ClientInfo(op.ops, 0, 0, false, false, false, 1)
            && (forall k :: 0 <= k < |z.clients| && k != i ==>
                  z'.players[q].infos[k]
                  == if q in z.players then z.players[q].infos[k] else S.UNPLAYED)
            && Posts(z, e) == [Continue(q, i), Continue(MAIN, i)] && Starts(z, e, 0) == None
  {
    var info := z.players[MAIN].infos[i];
    var q := [S.CurrentOp(info).name];
    assert MAIN + q == q;
    assert q in z.players ==> SubRests(z.players[q], |z.clients|);
    RunOpIsOnNext(z.players[MAIN], z.clients[i], MAIN, i, z.pool, ANY);
    var turn := RunOp(z.players[MAIN], z.clients[i], MAIN, i, z.pool, ANY);
    assert turn.player.infos == z.players[MAIN].infos[i := S.AfterOnNext(info)];
  }

  lemma SubMoves(z: System, i: nat)
    requires Standing(z) && SubsRest(z) && i < |z.clients| && CanRun(z.players[MAIN], i)
    requires var info := z.players[MAIN].infos[i];
             && S.CurrentOp(info).PlaySubScenario? && !info.paused
             && BackOps(S.CurrentOp(info).ops, S.CurrentOp(info).loopOpIndex)
    ensures var z' := Step(z, OnNext(MAIN, i, ANY));
            var c := OpTimer([S.CurrentOp(z.players[MAIN].infos[i]).name], i);
            OneMoved(z, z', c) && !Armed(z', c)
  {
    var q := [S.CurrentOp(z.players[MAIN].infos[i]).name];
    SubTurn(z, i);
    var z' := Step(z, OnNext(MAIN, i, ANY));
    assert q in z.players ==> SubRests(z.players[q], |z.clients|);
    forall d | d != OpTimer(q, i)
      ensures Armed(z, d) <==> Armed(z', d)
    {
      if d.OpTimer? && d.path == q && d.i < |z.clients| && q in z.players {
        assert z'.players[q].infos[d.i] == z.players[q].infos[d.i];
      }
    }
  }

  /** What a run of client i leaves alone: the other clients, and the moment. */
  ghost predicate OthersSame(l: Loop, l': Loop, i: nat) {
    && MAIN in l.z.players && MAIN in l'.z.players
    && |l.z.players[MAIN].infos| == |l'.z.players[MAIN].infos| == |l.z.clients| == |l'.z.clients|
    && (forall k :: 0 <= k < |l.z.clients| && k != i ==>
          && l'.z.players[MAIN].infos[k] == l.z.players[MAIN].infos[k]
          && Bare(l'.z.clients[k]) == Bare(l.z.clients[k])
          && MainDue(l', k) == MainDue(l, k))
    && l'.z.keyTrigger == l.z.keyTrigger && l'.z.maxRetry == l.z.maxRetry
    && l'.retryMs == l.retryMs
  }

  lemma OthersSameTwice(l: Loop, l': Loop, l'': Loop, i: nat)
    requires OthersSame(l, l', i) && OthersSame(l', l'', i)
    ensures OthersSame(l, l'', i)
  {
  }

  /** Deadlines of nested players may have been set, to a later moment than now. */
  ghost predicate SubsLater(l: Loop, l': Loop) {
    && l'.now == l.now
    && (forall d :: d in l'.due && !IsBack(d) ==> d in l.due && l'.due[d] == l.due[d])
    && (forall d :: d in l.due && !IsBack(d) ==> d in l'.due)
    && (NotLate(l) ==> NotLate(l'))
  }

  /** A nested player has been started for client i, and is about to wait. */
  ghost predicate SubStarted(l: Loop, l1: Loop, q: Path, i: nat)
    requires Steady(l) && i < |l.z.clients|
  {
    && q != MAIN && q in l1.z.players && MAIN in l1.z.players
    && |l1.z.players[q].infos| == |l.z.clients|
    && l1.z == l.z.(players := l.z.players[MAIN := l1.z.players[MAIN]][q := l1.z.players[q]])
    && |l1.z.players[MAIN].infos| == |l.z.clients|
    && (forall k :: 0 <= k < |l.z.clients| && k != i ==>
          && l1.z.players[MAIN].infos[k] == l.z.players[MAIN].infos[k]
          && l1.z.players[q].infos[k]
             == if q in l.z.players then l.z.players[q].infos[k] else S.UNPLAYED)
    && (var info := l1.z.players[q].infos[i];
        && BackOps(info.ops, info.loopOpIndex) && info.opIndex == 0 && info.posted == 1
        && !info.paused && !info.timerArmed)
    && OneMoved(l.z, l1.z, OpTimer(q, i))
    && l1 == l.(z := l1.z, queue := [Continue(q, i), Continue(MAIN, i)],
                due := l.due - {OpTimer(q, i)})
  }

  lemma StartSubPlayer(l0: Loop, l: Loop, keys: seq<Event>, i: nat) returns (l1: Loop)
    requires Reach(l0, l, keys) && Steady(l) && l.queue == [Continue(MAIN, i)]
    requires i < |l.z.clients| && CanRun(l.z.players[MAIN], i)
    requires var info := l.z.players[MAIN].infos[i];
             && S.CurrentOp(info).PlaySubScenario? && !info.paused
             && BackOps(S.CurrentOp(info).ops, S.CurrentOp(info).loopOpIndex)
    ensures Reach(l0, l1, keys)
    ensures SubStarted(l, l1, [S.CurrentOp(l.z.players[MAIN].infos[i]).name], i)
    ensures l1.z.players[MAIN].infos[i] == S.AfterOnNext(l.z.players[MAIN].infos[i])
  {
    var op := S.CurrentOp(l.z.players[MAIN].infos[i]);
    var c := OpTimer([op.name], i);
    SubTurn(l.z, i);
    SubMoves(l.z, i);
    l1 := RunOne(l0, l, keys, Continue(MAIN, i), OnNext(MAIN, i, ANY), c);
  }

  /** What is left once the nested player waits. */
  ghost predicate SubSleeps(l1: Loop, l': Loop, q: Path, i: nat)
    requires q in l1.z.players && i < |l1.z.players[q].infos|
  {
    var info := l1.z.players[q].infos[i];
    && |info.ops| == 2 && info.ops[0].Sleep?
    && l' == l1.(z := WithPlayer(l1.z, q, WithInfo(l1.z.players[q], i,
                                                   info.(posted := 0, timerArmed := true))),
                 queue := [Continue(MAIN, i)],
                 due := l1.due[OpTimer(q, i) := l1.now + info.ops[0].minTimeMs])
    && OneMoved(l1.z, l'.z, OpTimer(q, i))
  }

  lemma LetSubSleep(l0: Loop, l: Loop, l1: Loop, keys: seq<Event>, q: Path, i: nat)
    returns (l': Loop)
    requires Steady(l) && i < |l.z.clients| && SubStarted(l, l1, q, i) && Reach(l0, l1, keys)
    ensures Reach(l0, l', keys) && SubSleeps(l1, l', q, i)
  {
    BackSleep(l1.z, q, i);
    assert l1.queue == [Continue(q, i)] + [Continue(MAIN, i)];
    var c := OpTimer(q, i);
    l' := RunFirst(l0, l1, keys, Continue(q, i), [Continue(MAIN, i)], OnNext(q, i, ANY), c);
  }

  lemma SubSettles(l: Loop, l1: Loop, l': Loop, q: Path, i: nat)
    requires Steady(l) && i < |l.z.clients| && SubStarted(l, l1, q, i) && SubSleeps(l1, l', q, i)
    ensures Steady(l') && SubsLater(l, l')
  {
    assert q in l.z.players ==> SubRests(l.z.players[q], |l.z.clients|);
    assert SubRests(l'.z.players[q], |l.z.clients|);
    assert Armed(l'.z, OpTimer(q, i));
    forall d
      ensures d in l'.due <==> Armed(l'.z, d)
    {
      assert d != OpTimer(q, i) ==> (Armed(l.z, d) <==> Armed(l1.z, d));
      assert d != OpTimer(q, i) ==> (Armed(l1.z, d) <==> Armed(l'.z, d));
    }
  }

  /** Starts a nested player and lets it run up to its wait. */
  lemma RunSub(l0: Loop, l: Loop, keys: seq<Event>, i: nat) returns (l': Loop)
    requires Reach(l0, l, keys) && Steady(l) && l.queue == [Continue(MAIN, i)]
    requires i < |l.z.clients| && CanRun(l.z.players[MAIN], i)
    requires var info := l.z.players[MAIN].infos[i];
             && S.CurrentOp(info).PlaySubScenario? && !info.paused && !info.timerArmed
             && BackOps(S.CurrentOp(info).ops, S.CurrentOp(info).loopOpIndex)
    ensures Reach(l0, l', keys) && Steady(l') && l'.queue == [Continue(MAIN, i)]
    ensures OthersSame(l, l', i) && SubsLater(l, l') && l'.z.clients == l.z.clients
    ensures l'.z.players[MAIN].infos[i] == S.AfterOnNext(l.z.players[MAIN].infos[i])
  {
    var q := [S.CurrentOp(l.z.players[MAIN].infos[i]).name];
    var l1 := StartSubPlayer(l0, l, keys, i);
    l' := LetSubSleep(l0, l, l1, keys, q, i);
    SubSettles(l, l1, l', q, i);
  }

  // ----- from wait to wait -----

  /** A scenario that waits, connects, starts nested players, and from `li` on waits to disconnect. */
  ghost predicate Script(ops: seq<S.Op>, li: nat, d: int) {
    && 2 <= li && li + 1 < |ops|
    && ops[0].Sleep? && ops[1].Reconnect?
    && (forall k :: 2 <= k < li ==> ops[k].PlaySubScenario? && BackOps(ops[k].ops, ops[k].loopOpIndex))
    && ops[li] == S.Sleep(d, d) && ops[li + 1].Disconnect?
  }

  function Waiting(ops: seq<S.Op>, li: nat, at: int, exited: bool): S.ClientInfo {
    S.ClientInfo(ops, at, li, true, false, exited, 0)
  }

  function Ready(ops: seq<S.Op>, li: nat, at: int, exited: bool): S.ClientInfo {
    S.ClientInfo(ops, at, li, false, false, exited, 1)
  }

  const UP := VC.AfterConnect(VC.INITIAL)

  /** A prompt schedule has led to a loop in which client i has a continuation. */
  ghost predicate Going(l0: Loop, l: Loop, keys: seq<Event>, i: nat, info: S.ClientInfo) {
    && Reach(l0, l, keys) && Steady(l) && NotLate(l) && l.queue == [Continue(MAIN, i)]
    && i < |l.z.clients| && l.z.players[MAIN].infos[i] == info && !l.z.clients[i].retryArmed
  }

  /** The same with no handler ready, client i waiting until `due`. */
  ghost predicate Resting(l0: Loop, l: Loop, keys: seq<Event>, i: nat, info: S.ClientInfo, due: int) {
    && Reach(l0, l, keys) && Steady(l) && l.queue == []
    && i < |l.z.clients| && l.z.players[MAIN].infos[i] == info && !l.z.clients[i].retryArmed
    && MainDue(l, i) == Some(due)
  }

  lemma Wake(l0: Loop, l: Loop, keys: seq<Event>, i: nat, ops: seq<S.Op>, li: nat, at: nat,
             exited: bool, due: int)
    returns (l': Loop)
    requires Resting(l0, l, keys, i, Waiting(ops, li, at, exited), due)
    requires due <= l.now && at + 1 < |ops|
    requires forall c :: c in l.due && c != OpTimer(MAIN, i) ==> l.now <= l.due[c]
    ensures Going(l0, l', keys, i, Ready(ops, li, at + 1, exited))
    ensures OthersSame(l, l', i) && l'.now == l.now && l'.z.clients == l.z.clients
  {
    l' := WakeUp(l0, l, keys, MAIN, i);
    assert Armed(l.z, OpTimer(MAIN, i));
    assert forall d :: d in l'.due <==> Armed(l'.z, d) by {
      assert forall d :: d != OpTimer(MAIN, i) ==> (Armed(l.z, d) <==> Armed(l'.z, d));
    }
  }

  /** A turn at an operation that takes effect, and after which the client goes on. */
  lemma PlainStep(z: System, i: nat)
    requires Standing(z) && i < |z.clients| && CanRun(z.players[MAIN], i)
    requires !z.players[MAIN].infos[i].paused
    requires S.CurrentOp(z.players[MAIN].infos[i]).Reconnect?
             || (S.CurrentOp(z.players[MAIN].infos[i]).Disconnect? && VC.Sends(z.clients[i]))
             || (S.CurrentOp(z.players[MAIN].infos[i]).Exit? && z.clients[i].closing
                 && z.clients[i].onClose.None?)
    ensures var e, info, s := OnNext(MAIN, i, ANY), z.players[MAIN].infos[i], z.clients[i];
            && Enabled(z, e) && Posts(z, e) == [Continue(MAIN, i)] && Starts(z, e, 0) == None
            && Step(z, e) == With(z, i, S.AfterOnNext(info), After(info, s, i).1)
            && (!s.retryArmed ==> !After(info, s, i).1.retryArmed)
  {
    PlainTurn(z, i);
  }

  lemma GoPlain(l0: Loop, l: Loop, keys: seq<Event>, i: nat, info: S.ClientInfo)
    returns (l': Loop)
    requires Going(l0, l, keys, i, info) && S.Played(info) && !info.paused && !info.timerArmed
    requires info.posted == 1
    requires S.CurrentOp(info).Reconnect?
             || (S.CurrentOp(info).Disconnect? && VC.Sends(l.z.clients[i]))
             || (S.CurrentOp(info).Exit? && l.z.clients[i].closing && l.z.clients[i].onClose.None?)
    ensures Going(l0, l', keys, i, S.AfterOnNext(info))
    ensures l'.z.clients[i] == After(info, l.z.clients[i], i).1
    ensures OthersSame(l, l', i) && l'.now == l.now
  {
    assert l.queue == [Continue(MAIN, i)] + [];
    PlainStep(l.z, i);
    l' := RunPlain(l0, l, keys, i, []);
  }

  /** What an operation does to a client, apart from what was sent. */
  function Onward(op: S.Op, b: VC.State, i: nat): VC.State {
    if op.Reconnect? then VC.AfterConnect(b)
    else VC.AfterClose(b, if op.Exit? then Some(VC.Callback(MAIN, i)) else None).state
  }

  predicate Fits(op: S.Op, b: VC.State) {
    || op.Reconnect?
    || (op.Disconnect? && VC.Sends(b))
    || (op.Exit? && b.closing && b.onClose.None?)
  }

  function Next(ops: seq<S.Op>, li: nat, at: nat): nat {
    if at + 1 == |ops| then li else at + 1
  }

  lemma BareOnward(ops: seq<S.Op>, li: nat, at: nat, s: VC.State, i: nat)
    requires at < |ops| && li < |ops| && Fits(ops[at], Bare(s))
    ensures var info := Ready(ops, li, at, false);
            && S.AfterOnNext(info) == Ready(ops, li, Next(ops, li, at), false)
            && Bare(After(info, s, i).1) == Onward(ops[at], Bare(s), i)
            && Fits(ops[at], s)
  {
  }

  lemma GoStep(l0: Loop, l: Loop, keys: seq<Event>, i: nat, ops: seq<S.Op>, li: nat, at: nat)
    returns (l': Loop)
    requires Going(l0, l, keys, i, Ready(ops, li, at, false)) && at < |ops| && li < |ops|
    requires Fits(ops[at], Bare(l.z.clients[i]))
    ensures Going(l0, l', keys, i, Ready(ops, li, Next(ops, li, at), false))
    ensures Bare(l'.z.clients[i]) == Onward(ops[at], Bare(l.z.clients[i]), i)
    ensures OthersSame(l, l', i) && l'.now == l.now
  {
    BareOnward(ops, li, at, l.z.clients[i], i);
    l' := GoPlain(l0, l, keys, i, Ready(ops, li, at, false));
  }

  lemma SleepStep(z: System, i: nat, ops: seq<S.Op>, li: nat, at: nat, exited: bool)
    requires Standing(z) && i < |z.clients| && at < |ops| && ops[at].Sleep? && li < |ops|
    requires z.players[MAIN].infos[i] == Ready(ops, li, at, exited)
    ensures var e := OnNext(MAIN, i, ANY);
            && Enabled(z, e) && CanRun(z.players[MAIN], i) && Posts(z, e) == []
            && Step(z, e) == With(z, i, Waiting(ops, li, at, exited), z.clients[i])
            && Step(z, e).clients == z.clients
  {
    PlainTurn(z, i);
  }

  lemma SleepLeavesOthers(l: Loop, l': Loop, i: nat, info: S.ClientInfo, due: int)
    requires Standing(l.z) && i < |l.z.clients| && NotLate(l)
    requires l'.z == With(l.z, i, info, l.z.clients[i]) && l'.retryMs == l.retryMs
    requires l'.due == l.due[OpTimer(MAIN, i) := due]
    ensures OthersSame(l, l', i) && MainDue(l', i) == Some(due)
    ensures forall c :: c in l'.due && c != OpTimer(MAIN, i) ==> l.now <= l'.due[c]
  {
  }

  lemma GoSleep(l0: Loop, l: Loop, keys: seq<Event>, i: nat, ops: seq<S.Op>, li: nat, at: nat,
                exited: bool)
    returns (l': Loop)
    requires Going(l0, l, keys, i, Ready(ops, li, at, exited)) && li < |ops|
    requires at < |ops| && ops[at].Sleep?
    ensures Resting(l0, l', keys, i, Waiting(ops, li, at, exited), l.now + ops[at].minTimeMs)
    ensures OthersSame(l, l', i) && l'.now == l.now && l'.z.clients == l.z.clients
    ensures forall c :: c in l'.due && c != OpTimer(MAIN, i) ==> l.now <= l'.due[c]
  {
    assert l.queue == [Continue(MAIN, i)] + [];
    SleepStep(l.z, i, ops, li, at, exited);
    l' := RunPlain(l0, l, keys, i, []);
    SleepLeavesOthers(l, l', i, Waiting(ops, li, at, exited), l.now + ops[at].minTimeMs);
  }

  lemma GoPrelude(l0: Loop, l: Loop, keys: seq<Event>, i: nat, ops: seq<S.Op>, li: nat, at: nat,
                  d: int)
    returns (l': Loop)
    requires Script(ops, li, d) && 2 <= at <= li
    requires Going(l0, l, keys, i, Ready(ops, li, at, false))
    ensures Going(l0, l', keys, i, Ready(ops, li, li, false))
    ensures OthersSame(l, l', i) && l'.now == l.now && l'.z.clients == l.z.clients
    decreases li - at
  {
    if at == li {
      l' := l;
    } else {
      var l1 := RunSub(l0, l, keys, i);
      l' := GoPrelude(l0, l1, keys, i, ops, li, at + 1, d);
      OthersSameTwice(l, l1, l', i);
    }
  }

  /** A client's first wait ends: it connects, and waits to disconnect. */
  lemma Hatch(l0: Loop, l: Loop, keys: seq<Event>, i: nat, ops: seq<S.Op>, li: nat, d: int)
    returns (l': Loop)
    requires Script(ops, li, d) && NotLate(l)
    requires Resting(l0, l, keys, i, Waiting(ops, li, 0, false), l.now)
    requires l.z.clients[i] == VC.INITIAL
    ensures Resting(l0, l', keys, i, Waiting(ops, li, li, false), l.now + d)
    ensures Bare(l'.z.clients[i]) == UP && OthersSame(l, l', i) && l'.now == l.now
    ensures forall c :: c in l'.due && c != OpTimer(MAIN, i) ==> l.now <= l'.due[c]
  {
    var l1 := Wake(l0, l, keys, i, ops, li, 0, false, l.now);
    var l2 := GoStep(l0, l1, keys, i, ops, li, 1);
    var l3 := GoPrelude(l0, l2, keys, i, ops, li, 2, d);
    l' := GoSleep(l0, l3, keys, i, ops, li, li, false);
    OthersSameTwice(l, l1, l2, i);
    OthersSameTwice(l, l2, l3, i);
    OthersSameTwice(l, l3, l', i);
  }

  /** A client that was asked to exit, and whose session is going down. */
  function Leaving(i: nat): VC.State {
    VC.State(true, false, 0, Some(VC.Callback(MAIN, i)), false, Some(VC.Signaling(1, [])))
  }

  /** A client whose session is going down, and that was not asked to exit yet. */
  const CLOSING := VC.State(true, false, 0, None, false, Some(VC.Signaling(1, [])))

  lemma CloseBare(s: VC.State)
    requires Bare(s) == UP
    ensures VC.Sends(s) && VC.AfterClose(s, None).Returned?
    ensures Bare(VC.AfterClose(s, None).state) == CLOSING
  {
  }

  /** The second wait ends: the client disconnects, and its Exit is next. */
  lemma Disconnects(l0: Loop, l: Loop, keys: seq<Event>, i: nat, ops: seq<S.Op>, li: nat)
    returns (l': Loop)
    requires li + 2 < |ops| && ops[li + 1].Disconnect? && NotLate(l)
    requires Resting(l0, l, keys, i, Waiting(ops, li, li, false), l.now)
    requires Bare(l.z.clients[i]) == UP
    ensures Going(l0, l', keys, i, Ready(ops, li, li + 2, false))
    ensures Bare(l'.z.clients[i]) == CLOSING && OthersSame(l, l', i) && l'.now == l.now
  {
    var l1 := Wake(l0, l, keys, i, ops, li, li, false, l.now);
    l' := GoStep(l0, l1, keys, i, ops, li, li + 1);
    OthersSameTwice(l, l1, l', i);
  }

  /** It asks to exit, and waits again. */
  lemma Asks(l0: Loop, l: Loop, keys: seq<Event>, i: nat, ops: seq<S.Op>, li: nat, d: int)
    returns (l': Loop)
    requires |ops| == li + 3 && ops[li] == S.Sleep(d, d) && ops[li + 2].Exit?
    requires Going(l0, l, keys, i, Ready(ops, li, li + 2, false))
    requires Bare(l.z.clients[i]) == CLOSING
    ensures Resting(l0, l', keys, i, Waiting(ops, li, li, false), l.now + d)
    ensures Bare(l'.z.clients[i]) == Leaving(i) && OthersSame(l, l', i) && l'.now == l.now
    ensures forall c :: c in l'.due && c != OpTimer(MAIN, i) ==> l.now <= l'.due[c]
  {
    var l1 := GoStep(l0, l, keys, i, ops, li, li + 2);
    l' := GoSleep(l0, l1, keys, i, ops, li, li, false);
    OthersSameTwice(l, l1, l', i);
  }

  /** The second wait ends: the client disconnects, asks to exit, and waits again. */
  lemma Leave(l0: Loop, l: Loop, keys: seq<Event>, i: nat, ops: seq<S.Op>, li: nat, d: int)
    returns (l': Loop)
    requires |ops| == li + 3 && ops[li] == S.Sleep(d, d) && ops[li + 1].Disconnect?
    requires ops[li + 2].Exit? && NotLate(l)
    requires Resting(l0, l, keys, i, Waiting(ops, li, li, false), l.now)
    requires Bare(l.z.clients[i]) == UP
    ensures Resting(l0, l', keys, i, Waiting(ops, li, li, false), l.now + d)
    ensures Bare(l'.z.clients[i]) == Leaving(i) && OthersSame(l, l', i) && l'.now == l.now
    ensures forall c :: c in l'.due && c != OpTimer(MAIN, i) ==> l.now <= l'.due[c]
  {
    var l1 := Disconnects(l0, l, keys, i, ops, li);
    assert l1.now + d == l.now + d;
    l' := Asks(l0, l1, keys, i, ops, li, d);
    assert OthersSame(l, l', i) by {
      OthersSameTwice(l, l1, l', i);
    }
  }

  lemma LossStep(z: System, i: nat, message: string)
    requires Standing(z) && i < |z.clients| && VC.Live(z.clients[i])
    requires z.clients[i].onClose == Some(VC.Callback(MAIN, i)) && z.clients[i].closing
    ensures var e, info := OnDisconnect(i, message), z.players[MAIN].infos[i];
            var s' := VC.AfterDisconnect(z.clients[i], z.maxRetry);
            var z' := With(z, i, info.(exited := true), s');
            && Enabled(z, e) && Step(z, e) == z'.(stopped := AllExited(z'.players[MAIN]))
            && !s'.retryArmed && Posts(z, e) == [] && Starts(z, e, 0) == None
            && (!z.clients[i].retryArmed ==> OneMoved(z, Step(z, e), RetryTimer(i)))
  {
  }

  /** The session has ended: the client has exited, while client j has not. */
  lemma Deliver(l0: Loop, l: Loop, keys: seq<Event>, i: nat, info: S.ClientInfo, due: int, j: nat)
    returns (l': Loop)
    requires Resting(l0, l, keys, i, info, due) && Bare(l.z.clients[i]) == Leaving(i)
    requires j < |l.z.clients| && j != i && !l.z.players[MAIN].infos[j].exited
    ensures Resting(l0, l', keys, i, info.(exited := true), due)
    ensures l'.z.clients[i] == VC.INITIAL && OthersSame(l, l', i)
    ensures l'.now == l.now && l'.due == l.due
  {
    l' := Lose(l0, l, keys, i);
    assert !l'.z.players[MAIN].infos[j].exited;
    SameClocks(l, l', i);
  }

  /** The end of client i's session arrives and is handled. */
  lemma Lose(l0: Loop, l: Loop, keys: seq<Event>, i: nat) returns (l': Loop)
    requires Reach(l0, l, keys) && Steady(l) && l.queue == [] && i < |l.z.clients|
    requires Bare(l.z.clients[i]) == Leaving(i)
    ensures Reach(l0, l', keys)
    ensures var z := With(l.z, i, l.z.players[MAIN].infos[i].(exited := true), VC.INITIAL);
            l' == l.(z := z.(stopped := AllExited(z.players[MAIN])))
  {
    var e := OnDisconnect(i, "closed");
    LossStep(l.z, i, "closed");
    var l1 := Act(l, Arrive(e));
    ReachQuietly(l0, l, keys, Arrive(e));
    assert l1.queue == [Posted(e)];
    assert !Armed(l.z, RetryTimer(i));
    l' := RunOne(l0, l1, keys, Posted(e), e, RetryTimer(i));
    assert l.due - {RetryTimer(i)} == l.due;
  }

  lemma SameClocks(l: Loop, l': Loop, i: nat)
    requires Steady(l) && i < |l.z.clients| && !l.z.clients[i].retryArmed
    requires var z := With(l.z, i, l.z.players[MAIN].infos[i].(exited := true), VC.INITIAL);
             l'.z == z.(stopped := false) && l'.due == l.due
    ensures ClocksAgree(l')
  {
    assert forall d :: Armed(l'.z, d) <==> Armed(l.z, d);
  }
}
