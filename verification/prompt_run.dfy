/**
 * Building blocks of schedules in which nothing is late: the nested players in the background, and
 * one client of the main player from wait to wait.
 */
module PromptRuns {
  import opened Base
  import opened LoadEngine
  import opened Messages
  import opened ScenarioPlayers
  import opened Schedules
  import S = Scenarios
  import VC = VirtualClients

  const ANY := Choice(0, 0, 0, 0, [])
  const NEXT := Run(ANY)

  /** A prompt schedule, with these keys pressed in its course, leads from l to l'. */
  ghost predicate Reach(l: Loop, l': Loop, keys: seq<Event>) {
    exists acts :: Prompt(l, acts) && Keys(acts) == keys && Acts(l, acts) == l'
  }

  lemma ReachItself(l: Loop)
    ensures Reach(l, l, [])
  {
    assert Prompt(l, []) && Keys([]) == [] && Acts(l, []) == l;
  }

  lemma ReachNext(l0: Loop, l: Loop, keys: seq<Event>, a: Action)
    requires Reach(l0, l, keys) && InTime(l, a)
    ensures Reach(l0, Act(l, a), keys + KeyOf(a))
  {
    var acts :| Prompt(l0, acts) && Keys(acts) == keys && Acts(l0, acts) == l;
    AppendAction(l0, acts, a);
    assert Prompt(l0, acts + [a]);
  }

  lemma {:induction false} AppendAction(l: Loop, acts: seq<Action>, a: Action)
    requires Prompt(l, acts) && InTime(Acts(l, acts), a)
    ensures Prompt(l, acts + [a]) && Keys(acts + [a]) == Keys(acts) + KeyOf(a)
    ensures Acts(l, acts + [a]) == Act(Acts(l, acts), a)
    decreases |acts|
  {
    if acts == [] {
      assert acts + [a] == [a] && [a][1..] == [];
      assert Keys([a]) == KeyOf(a) + Keys([]);
      assert Prompt(l, [a]) <==> InTime(l, a) && Prompt(Act(l, a), []);
    } else {
      assert (acts + [a])[1..] == acts[1..] + [a] && (acts + [a])[0] == acts[0];
      AppendAction(Act(l, acts[0]), acts[1..], a);
      var head := KeyOf(acts[0]);
      assert (head + Keys(acts[1..])) + KeyOf(a) == head + (Keys(acts[1..]) + KeyOf(a));
    }
  }

  /** A step that presses no key. */
  lemma ReachQuietly(l0: Loop, l: Loop, keys: seq<Event>, a: Action)
    requires Reach(l0, l, keys) && InTime(l, a) && KeyOf(a) == []
    ensures Reach(l0, Act(l, a), keys)
  {
    ReachNext(l0, l, keys, a);
    assert keys + [] == keys;
  }

  // ----- a loop at rest -----

  /** What runs in the background: a wait, then a message or a voice. */
  predicate BackOps(ops: seq<S.Op>, loopOpIndex: int) {
    && |ops| == 2 && loopOpIndex == 0
    && ops[0].Sleep? && 1 <= ops[0].minTimeMs <= ops[0].maxTimeMs
    && (ops[1].PlayVoiceNumberClient? || ops[1].SendDataChannelMessage?)
  }

  predicate Asleep(info: S.ClientInfo) {
    && BackOps(info.ops, info.loopOpIndex)
    && info.opIndex == 0 && info.timerArmed && !info.paused && info.posted == 0
  }

  /** Every client of a nested player waits, or was never played there. */
  ghost predicate SubRests(player: Player, n: nat) {
    && |player.infos| == n
    && forall i :: 0 <= i < n ==> player.infos[i] == S.UNPLAYED || Asleep(player.infos[i])
  }

  ghost predicate SubsRest(z: System) {
    forall p :: p in z.players && p != MAIN ==> SubRests(z.players[p], |z.clients|)
  }

  /** The deadlines are those of the waits that are not over. */
  ghost predicate ClocksAgree(l: Loop) {
    forall c {:trigger Armed(l.z, c)} :: c in l.due <==> Armed(l.z, c)
  }

  predicate NoneExpired(queue: seq<Entry>) {
    forall k :: 0 <= k < |queue| ==> !queue[k].Expired?
  }

  ghost predicate Steady(l: Loop) {
    && MAIN in l.z.players && |l.z.players[MAIN].infos| == |l.z.clients|
    && !l.z.stopped && !l.z.faulted && SubsRest(l.z) && ClocksAgree(l) && NoneExpired(l.queue)
  }

  /** Only the clock of client i of player p is affected. */
  ghost predicate OneMoved(z: System, z': System, c: Clock) {
    forall d :: d != c ==> (Armed(z, d) <==> Armed(z', d))
  }

  lemma {:induction false} NoneCancelled(queue: seq<Entry>, z: System, started: Option<(Clock, int)>)
    requires NoneExpired(queue)
    ensures Kept(queue, z, started) == queue
  {
    if queue != [] {
      NoneCancelled(queue[1..], z, started);
    }
  }

  /** The deadlines after a handler that affects one clock. */
  function DueAfter(l: Loop, z: System, started: Option<(Clock, int)>, c: Clock): map<Clock, int> {
    if started.Some? then l.due[c := l.now + started.value.1]
    else if Armed(z, c) then l.due else l.due - {c}
  }

  lemma HandlesOne(l: Loop, e: Event, c: Clock)
    requires Enabled(l.z, e) && NoneExpired(l.queue) && OneMoved(l.z, Step(l.z, e), c)
    requires forall d :: d in l.due && d != c ==> Armed(l.z, d)
    requires var started := Starts(l.z, e, l.retryMs);
             started.Some? ==> started.value.0 == c && Armed(Step(l.z, e), c)
    ensures var z, started := Step(l.z, e), Starts(l.z, e, l.retryMs);
            Handle(l, e) == l.(z := z, queue := l.queue + Posts(l.z, e),
                               due := DueAfter(l, z, started, c))
  {
    var z, started := Step(l.z, e), Starts(l.z, e, l.retryMs);
    NoneCancelled(l.queue, z, started);
    var due := KeptDue(l.due, z, started);
    if started.Some? {
      assert due[c := l.now + started.value.1] == l.due[c := l.now + started.value.1];
    } else {
      assert due == DueAfter(l, z, started, c);
    }
  }

  // ----- the background -----

  /** What the main player and the protocol of the clients can see is the same. */
  ghost predicate SameMain(l: Loop, l': Loop) {
    && MAIN in l.z.players && MAIN in l'.z.players
    && l'.z.players[MAIN] == l.z.players[MAIN]
    && |l'.z.clients| == |l.z.clients|
    && (forall i :: 0 <= i < |l.z.clients| ==> Bare(l'.z.clients[i]) == Bare(l.z.clients[i]))
    && l'.z.keyTrigger == l.z.keyTrigger && l'.z.maxRetry == l.z.maxRetry
    && l'.retryMs == l.retryMs
    && (forall i :: MainDue(l', i) == MainDue(l, i))
    && (forall i: nat :: RetryTimer(i) in l'.due <==> RetryTimer(i) in l.due)
  }

  /** A client without what was sent over its session. */
  function Bare(s: VC.State): VC.State {
    if VC.Live(s) then s.(signaling := Some(s.signaling.value.(sent := []))) else s
  }

  function MainDue(l: Loop, i: nat): Option<int> {
    if OpTimer(MAIN, i) in l.due then Some(l.due[OpTimer(MAIN, i)]) else None
  }

  /** A turn of a nested player at its second operation. */
  lemma BackTurn(z: System, p: Path, i: nat)
    requires MAIN in z.players && p in z.players && p != MAIN && !z.stopped && !z.faulted
    requires i < |z.clients| && |z.players[p].infos| == |z.clients|
    requires var info := z.players[p].infos[i];
             BackOps(info.ops, info.loopOpIndex) && info.opIndex == 1 && info.posted == 1
             && !info.paused && !info.timerArmed
    ensures var e, info := OnNext(p, i, ANY), z.players[p].infos[i];
            var z' := Step(z, e);
            && Enabled(z, e) && p in z'.players && !z'.stopped && !z'.faulted
            && z'.players == z.players[p := z'.players[p]]
            && z'.players[p].infos == z.players[p].infos[i := info.(opIndex := 0)]
            && |z'.clients| == |z.clients|
            && (forall k :: 0 <= k < |z.clients| ==> Bare(z'.clients[k]) == Bare(z.clients[k]))
            && z'.keyTrigger == z.keyTrigger && z'.maxRetry == z.maxRetry
            && OneMoved(z, z', OpTimer(p, i))
            && Posts(z, e) == [Continue(p, i)] && Starts(z, e, 0) == None
  {
    var e, info := OnNext(p, i, ANY), z.players[p].infos[i];
    RunOpIsOnNext(z.players[p], z.clients[i], p, i, z.pool, ANY);
    var z' := Step(z, e);
    assert z'.players[p].infos == z.players[p].infos[i := info.(opIndex := 0)];
  }

  /** The first operation again: the wait starts anew. */
  lemma BackSleep(z: System, p: Path, i: nat)
    requires MAIN in z.players && p in z.players && !z.stopped && !z.faulted
    requires i < |z.clients| && |z.players[p].infos| == |z.clients|
    requires var info := z.players[p].infos[i];
             BackOps(info.ops, info.loopOpIndex) && info.opIndex == 0 && info.posted == 1
             && !info.paused && !info.timerArmed
    ensures var e, info := OnNext(p, i, ANY), z.players[p].infos[i];
            var z' := Step(z, e);
            && Enabled(z, e)
            && z' == WithPlayer(z, p, WithInfo(z.players[p], i, info.(posted := 0, timerArmed := true)))
            && OneMoved(z, z', OpTimer(p, i))
            && Posts(z, e) == []
            && Starts(z, e, 0) == Some((OpTimer(p, i), info.ops[0].minTimeMs))
  {
    var e, info := OnNext(p, i, ANY), z.players[p].infos[i];
    var z' := Step(z, e);
    var asleep := WithPlayer(z, p, WithInfo(z.players[p], i, info.(posted := 0, timerArmed := true)));
    assert z'.clients == z.clients && z'.built == z.built;
    assert z'.players[p].infos == asleep.players[p].infos;
  }

  lemma TimerStep(z: System, p: Path, i: nat)
    requires MAIN in z.players && p in z.players && !z.stopped && !z.faulted
    requires i < |z.players[p].infos|
    requires var info := z.players[p].infos[i]; info.timerArmed && !info.paused
    ensures var e, info := OnTimer(p, i), z.players[p].infos[i];
            var z' := Step(z, e);
            && Enabled(z, e)
            && z' == WithPlayer(z, p, WithInfo(z.players[p], i, S.AfterTimer(info)))
            && OneMoved(z, z', OpTimer(p, i)) && !Armed(z', OpTimer(p, i))
            && Posts(z, e) == [Continue(p, i)] && Starts(z, e, 0) == None
  {
  }

  /** Runs the first ready handler, which affects one clock. */
  lemma RunFirst(l0: Loop, l: Loop, keys: seq<Event>, entry: Entry, rest: seq<Entry>, e: Event,
                 c: Clock)
    returns (l': Loop)
    requires Reach(l0, l, keys) && l.queue == [entry] + rest && EventOf(entry, ANY) == e
    requires NoneExpired(rest)
    requires Enabled(l.z, e) && OneMoved(l.z, Step(l.z, e), c)
    requires forall d :: d in l.due && d != c ==> Armed(l.z, d)
    requires var started := Starts(l.z, e, l.retryMs);
             started.Some? ==> started.value.0 == c && Armed(Step(l.z, e), c)
    ensures Reach(l0, l', keys)
    ensures var z := Step(l.z, e);
            l' == l.(z := z, queue := rest + Posts(l.z, e),
                     due := DueAfter(l, z, Starts(l.z, e, l.retryMs), c))
  {
    l' := Act(l, NEXT);
    ReachQuietly(l0, l, keys, NEXT);
    assert l.queue[1..] == rest && l.queue[0] == entry;
    HandlesOne(l.(queue := rest), e, c);
  }

  /** Runs the only ready handler. */
  lemma RunOne(l0: Loop, l: Loop, keys: seq<Event>, entry: Entry, e: Event, c: Clock)
    returns (l': Loop)
    requires Reach(l0, l, keys) && l.queue == [entry] && EventOf(entry, ANY) == e
    requires Enabled(l.z, e) && OneMoved(l.z, Step(l.z, e), c)
    requires forall d :: d in l.due && d != c ==> Armed(l.z, d)
    requires var started := Starts(l.z, e, l.retryMs);
             started.Some? ==> started.value.0 == c && Armed(Step(l.z, e), c)
    ensures Reach(l0, l', keys)
    ensures var z := Step(l.z, e);
            l' == l.(z := z, queue := Posts(l.z, e),
                     due := DueAfter(l, z, Starts(l.z, e, l.retryMs), c))
  {
    assert l.queue == [entry] + [];
    l' := RunFirst(l0, l, keys, entry, [], e, c);
    assert [] + Posts(l.z, e) == Posts(l.z, e);
  }

  /** A wait that is over becomes ready and is handled. */
  lemma WakeUp(l0: Loop, l: Loop, keys: seq<Event>, p: Path, i: nat) returns (l': Loop)
    requires Reach(l0, l, keys) && l.queue == [] && ClocksAgree(l)
    requires MAIN in l.z.players && p in l.z.players && !l.z.stopped && !l.z.faulted
    requires i < |l.z.players[p].infos|
    requires var info := l.z.players[p].infos[i]; info.timerArmed && !info.paused
    requires OpTimer(p, i) in l.due && l.due[OpTimer(p, i)] <= l.now
    requires forall d :: d in l.due ==> l.due[OpTimer(p, i)] <= l.due[d]
    ensures Reach(l0, l', keys)
    ensures l' == l.(z := WithPlayer(l.z, p, WithInfo(l.z.players[p], i,
                                       S.AfterTimer(l.z.players[p].infos[i]))),
                     queue := [Continue(p, i)], due := l.due - {OpTimer(p, i)})
    ensures OneMoved(l.z, l'.z, OpTimer(p, i)) && !Armed(l'.z, OpTimer(p, i))
  {
    var c := OpTimer(p, i);
    var l1 := Act(l, Expire(c));
    ReachQuietly(l0, l, keys, Expire(c));
    assert l1.queue == [Expired(c)];
    TimerStep(l1.z, p, i);
    l' := RunOne(l0, l1, keys, Expired(c), OnTimer(p, i), c);
    assert (l.due - {c}) - {c} == l.due - {c};
  }

  /** What the end of a wait in the background leads to: the same wait, starting now. */
  lemma Tick(l0: Loop, l: Loop, keys: seq<Event>, p: Path, i: nat) returns (l': Loop)
    requires Reach(l0, l, keys) && Steady(l) && l.queue == []
    requires p in l.z.players && p != MAIN && i < |l.z.clients| && Asleep(l.z.players[p].infos[i])
    requires OpTimer(p, i) in l.due && l.due[OpTimer(p, i)] == l.now
    requires forall d :: d in l.due ==> l.now <= l.due[d]
    ensures Reach(l0, l', keys) && Steady(l') && l'.queue == [] && l'.now == l.now
    ensures SameMain(l, l')
    ensures var ms := l.z.players[p].infos[i].ops[0].minTimeMs;
            ms > 0 && l'.due == l.due[OpTimer(p, i) := l.now + ms]
  {
    var c, info := OpTimer(p, i), l.z.players[p].infos[i];
    assert SubRests(l.z.players[p], |l.z.clients|);
    var l1 := WakeUp(l0, l, keys, p, i);
    BackTurn(l1.z, p, i);
    var l2 := RunOne(l0, l1, keys, Continue(p, i), OnNext(p, i, ANY), c);
    BackSleep(l2.z, p, i);
    l' := RunOne(l0, l2, keys, Continue(p, i), OnNext(p, i, ANY), c);
    TickRestores(l, l1, l2, l', p, i);
  }

  lemma TickRestores(l: Loop, l1: Loop, l2: Loop, l': Loop, p: Path, i: nat)
    requires Steady(l) && l.queue == [] && l'.queue == []
    requires p in l.z.players && p != MAIN && i < |l.z.clients|
    requires SubRests(l.z.players[p], |l.z.clients|) && Asleep(l.z.players[p].infos[i])
    requires var info := l.z.players[p].infos[i];
             && l1 == l.(z := WithPlayer(l.z, p, WithInfo(l.z.players[p], i, S.AfterTimer(info))),
                         queue := [Continue(p, i)], due := l.due - {OpTimer(p, i)})
             && p in l2.z.players && l2.z.players == l1.z.players[p := l2.z.players[p]]
             && l2.z.players[p].infos == l1.z.players[p].infos[i := info.(posted := 1, timerArmed := false)]
             && l2 == l1.(z := l2.z, queue := l2.queue, due := l2.due) && l2.due == l1.due
             && !l2.z.stopped && !l2.z.faulted
             && |l2.z.clients| == |l1.z.clients|
             && (forall k :: 0 <= k < |l1.z.clients| ==>
                   Bare(l2.z.clients[k]) == Bare(l1.z.clients[k]))
             && l2.z.keyTrigger == l1.z.keyTrigger && l2.z.maxRetry == l1.z.maxRetry
             && l'.z == WithPlayer(l2.z, p, WithInfo(l2.z.players[p], i, info))
             && l' == l2.(z := l'.z, queue := [],
                          due := l2.due[OpTimer(p, i) := l.now + info.ops[0].minTimeMs])
    ensures Steady(l') && SameMain(l, l')
    ensures var ms := l.z.players[p].infos[i].ops[0].minTimeMs;
            ms > 0 && l'.due == l.due[OpTimer(p, i) := l.now + ms]
  {
    var c, info := OpTimer(p, i), l.z.players[p].infos[i];
    assert l'.z.players[p].infos == l.z.players[p].infos;
    assert l'.due == l.due[c := l.now + info.ops[0].minTimeMs];
    assert Armed(l.z, c);
    assert forall d :: Armed(l'.z, d) <==> Armed(l.z, d) by {
      BareKeepsRetry(l, l');
    }
  }

  lemma BareKeepsRetry(l: Loop, l': Loop)
    requires |l'.z.clients| == |l.z.clients|
    requires forall k :: 0 <= k < |l.z.clients| ==> Bare(l'.z.clients[k]) == Bare(l.z.clients[k])
    ensures forall i: nat :: Armed(l'.z, RetryTimer(i)) <==> Armed(l.z, RetryTimer(i))
  {
    forall i: nat
      ensures Armed(l'.z, RetryTimer(i)) <==> Armed(l.z, RetryTimer(i))
    {
      if i < |l.z.clients| {
        assert Bare(l'.z.clients[i]).retryArmed == Bare(l.z.clients[i]).retryArmed;
      }
    }
  }

  /** No deadline has passed. */
  ghost predicate NotLate(l: Loop) {
    forall d :: d in l.due ==> l.now <= l.due[d]
  }

  predicate IsBack(c: Clock) {
    c.OpTimer? && c.path != MAIN
  }

  function DueNow(l: Loop): set<Clock> {
    set c | c in l.due && l.due[c] == l.now
  }

  lemma SameMainTwice(l: Loop, l': Loop, l'': Loop)
    requires SameMain(l, l') && SameMain(l', l'')
    ensures SameMain(l, l'')
  {
  }

  /** At rest, and until `t` only nested players have something to do. */
  ghost predicate Quiet(l0: Loop, l: Loop, keys: seq<Event>, t: int) {
    && Reach(l0, l, keys) && Steady(l) && l.queue == [] && NotLate(l) && l.now <= t
    && forall d :: d in l.due && l.due[d] < t ==> IsBack(d)
  }

  lemma QuietTick(l0: Loop, l: Loop, keys: seq<Event>, t: int, c: Clock) returns (l': Loop)
    requires Quiet(l0, l, keys, t) && l.now < t && c in l.due && l.due[c] == l.now
    ensures Quiet(l0, l', keys, t) && l'.now == l.now && SameMain(l, l')
    ensures |DueNow(l')| < |DueNow(l)|
  {
    assert IsBack(c) && Armed(l.z, c) && SubRests(l.z.players[c.path], |l.z.clients|);
    l' := Tick(l0, l, keys, c.path, c.i);
    DueLater(l, l', c);
  }

  lemma DueLater(l: Loop, l': Loop, c: Clock)
    requires c in l.due && l.due[c] == l.now && l'.now == l.now
    requires c in l'.due && l'.due[c] > l.now && l'.due == l.due[c := l'.due[c]]
    ensures |DueNow(l')| < |DueNow(l)|
    ensures forall d :: d in l'.due ==> d in l.due && l'.due[d] >= l.due[d]
  {
    assert DueNow(l') == DueNow(l) - {c};
  }

  lemma QuietPass(l0: Loop, l: Loop, keys: seq<Event>, t: int) returns (l': Loop)
    requires Quiet(l0, l, keys, t) && l.now < t && forall c :: c in l.due ==> l.due[c] != l.now
    ensures Quiet(l0, l', keys, t) && l'.now == l.now + 1 && SameMain(l, l')
  {
    l' := Act(l, Pass(1));
    ReachQuietly(l0, l, keys, Pass(1));
  }

  /** Time passes up to a moment before which only nested players have something to do. */
  lemma Background(l0: Loop, l: Loop, keys: seq<Event>, t: int) returns (l': Loop)
    requires Quiet(l0, l, keys, t)
    ensures Quiet(l0, l', keys, t) && l'.now == t && SameMain(l, l')
    decreases t - l.now, |DueNow(l)|
  {
    if l.now == t {
      l' := l;
    } else {
      var l1;
      if c :| c in l.due && l.due[c] == l.now {
        l1 := QuietTick(l0, l, keys, t, c);
      } else {
        l1 := QuietPass(l0, l, keys, t);
      }
      l' := Background(l0, l1, keys, t);
      SameMainTwice(l, l1, l');
    }
  }
}
