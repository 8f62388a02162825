/**
 * The exact condition under which a shutdown configuration stops at rest: how many resumes and
 * manual connects the operator may use.
 */
module ShutdownCondition {
  import opened Base
  import opened LoadEngine
  import opened Messages
  import opened Schedules
  import opened Setups
  import opened Shutdown
  import opened ShutdownRace
  import S = Scenarios
  import VC = VirtualClients

  /**
   * In every schedule, or every prompt one, with so many resumes and manual connects at most, the
   * loop stops at rest only.
   */
  ghost predicate StopsAtRest(u: Setup, resumes: nat, connects: nat, prompt: bool)
    requires u.c.hatchRate > 0.0
  {
    forall acts :: Resumes(Keys(acts)) <= resumes && Connects(Keys(acts)) <= connects
                   && (prompt ==> Prompt(Begin(u), acts)) ==>
      var z := Acts(Begin(u), acts).z; z.stopped ==> AllQuiescent(z)
  }

  lemma RestsWithoutEither(u: Setup, prompt: bool)
    requires Shuts(u.c) && u.n > 0
    ensures StopsAtRest(u, 0, 0, prompt)
  {
    forall acts | Resumes(Keys(acts)) <= 0 && Connects(Keys(acts)) <= 0
      ensures var z := Acts(Begin(u), acts).z; z.stopped ==> AllQuiescent(z)
    {
      var es := Trace(Begin(u), acts);
      SchedulesAreRuns(Begin(u), acts);
      UnaskedNeverRuns(Begin(u), acts);
      StopsOnlyWhenAllQuiescent(u.c, u.channels, u.maxRetry, u.pool, u.n, es);
    }
  }

  // ----- one client -----

  /** What matters in the queue: the client's continuation, and the end of its session. */
  datatype Mark = Go | Lost

  function MarkOf(entry: Entry): seq<Mark> {
    if entry == Continue(MAIN, 0) then [Go] else if IsLoss(entry, 0) then [Lost] else []
  }

  function View(queue: seq<Entry>): seq<Mark> {
    if queue == [] then [] else MarkOf(queue[0]) + View(queue[1..])
  }

  lemma {:induction false} ViewConcat(a: seq<Entry>, b: seq<Entry>)
    ensures View(a + b) == View(a) + View(b)
    decreases |a|
  {
    if a == [] {
      assert a + b == b;
    } else {
      assert (a + b)[1..] == a[1..] + b;
      ViewConcat(a[1..], b);
    }
  }

  lemma ViewOne(entry: Entry)
    ensures View([entry]) == MarkOf(entry)
  {
    assert [entry][1..] == [] && View([entry]) == MarkOf(entry) + View([]);
  }

  lemma {:induction false} ViewKept(queue: seq<Entry>, z: System, started: Option<(Clock, int)>)
    ensures View(Kept(queue, z, started)) == View(queue)
  {
    if queue != [] {
      ViewKept(queue[1..], z, started);
      var head := if queue[0].Expired? && !GoesOn(z, started, queue[0].clock) then [] else [queue[0]];
      ViewConcat(head, Kept(queue[1..], z, started));
      ViewOne(queue[0]);
    }
  }

  lemma {:induction false} NoLossSeen(queue: seq<Entry>)
    requires forall k :: 0 <= k < |queue| ==> !IsLoss(queue[k], 0)
    ensures Lost !in View(queue)
  {
    if queue != [] {
      NoLossSeen(queue[1..]);
    }
  }

  predicate ExitIsNext(info: S.ClientInfo) {
    info.opIndex == info.loopOpIndex + 2 && info.posted > 0
  }

  /** At most one continuation; a client about to exit has not been asked to, and does not retry. */
  predicate LoneClient(info: S.ClientInfo, s: VC.State) {
    && S.LiveContinuations(info) <= 1
    && (ExitIsNext(info) ==> s.onClose.None? && !s.retryArmed)
  }

  /** A session whose end is ready before the Exit is one that is being closed. */
  predicate Seen(info: S.ClientInfo, s: VC.State, v: seq<Mark>) {
    && (v == [] || v == [Go] || v == [Lost] || v == [Go, Lost] || v == [Lost, Go])
    && (Go in v <==> info.posted > 0)
    && (Lost in v ==> VC.Live(s))
    && (v == [Lost, Go] && ExitIsNext(info) ==> s.closing)
  }

  ghost predicate Lone(l: Loop) {
    && Inv(l.z) && |l.z.clients| == 1 && StoppedWhenAllExited(l.z) && !l.z.stopped && !l.z.faulted
    && LoneClient(l.z.players[MAIN].infos[0], l.z.clients[0])
    && Seen(l.z.players[MAIN].infos[0], l.z.clients[0], View(l.queue)) && Ordinary(l.queue)
  }

  /** No resume, and no turn that a thread has posted. */
  predicate Ordinary(queue: seq<Entry>) {
    forall k :: 0 <= k < |queue| ==>
      queue[k].Posted? ==> !queue[k].event.ResumeAll? && !queue[k].event.OnNext?
  }

  /** The client's record and state after a handler, and what is in the queue then. */
  ghost predicate StaysLone(z: System, v: seq<Mark>) {
    && Inv(z) && |z.clients| == 1 && StoppedWhenAllExited(z)
    && (!z.stopped ==>
          && LoneClient(z.players[MAIN].infos[0], z.clients[0])
          && Seen(z.players[MAIN].infos[0], z.clients[0], v))
  }

  /** A turn of the client: `v` is what is in the queue behind its continuation. */
  lemma LoneTurn(info: S.ClientInfo, s: VC.State, v: seq<Mark>)
    requires Local(info, s, 0) && LoneClient(info, s) && info.posted > 0 && !info.exited
    requires v == [] || (v == [Lost] && VC.Live(s))
    ensures S.CurrentOp(info).Exit? ==> CleanExit(s)
    ensures var (info', s') := After(info, s, 0);
            var go := if info'.posted > 0 then [Go] else [];
            (LoneClient(info', s') && (info'.exited || Seen(info', s', v + go)))
            || (S.CurrentOp(info).Disconnect? && VC.AfterClose(s, None).Faulted?)
  {
  }

  /** What the handler's own entry and the rest of the queue look like, and that it can run. */
  ghost predicate Runs(z: System, e: Event, mark: seq<Mark>, v: seq<Mark>) {
    && Inv(z) && |z.clients| == 1 && StoppedWhenAllExited(z) && Enabled(z, e) && !e.ResumeAll?
    && LoneClient(z.players[MAIN].infos[0], z.clients[0])
    && Seen(z.players[MAIN].infos[0], z.clients[0], mark + v)
    && (mark == [Go] <==> e.OnNext? && e.path == MAIN) && (mark == [Lost] <==> e.OnDisconnect?)
    && (mark == [] || mark == [Go] || mark == [Lost])
  }

  lemma Behind(mark: seq<Mark>, v: seq<Mark>)
    requires var w := mark + v;
             w == [] || w == [Go] || w == [Lost] || w == [Go, Lost] || w == [Lost, Go]
    ensures mark == [Go] ==> v == [] || v == [Lost]
    ensures mark == [Lost] ==> v == [] || v == [Go]
    ensures mark == [] ==> mark + v == v
  {
    if mark == [Go] || mark == [Lost] {
      assert v == (mark + v)[1..];
    }
  }

  lemma LoneRunsTurn(z: System, e: Event, v: seq<Mark>)
    requires Runs(z, e, [Go], v)
    ensures Step(z, e).faulted || StaysLone(Step(z, e), v + View(Posts(z, e)))
  {
    var info, s := z.players[MAIN].infos[0], z.clients[0];
    assert Local(info, s, 0) && !info.exited;
    Behind([Go], v);
    MainStep(z, e);
    LoneTurn(info, s, v);
    StepKeepsInv(z, e);
    StepStops(z, e);
    if !Step(z, e).faulted {
      OwnPosts(z, e);
    }
  }

  /** A turn of the client posts its continuation, unless it waits or is paused. */
  lemma OwnPosts(z: System, e: Event)
    requires Inv(z) && Enabled(z, e) && e.OnNext? && e.path == MAIN && e.i == 0
    requires !Step(z, e).faulted && z.players[MAIN].infos[0].posted == 1
    ensures var (info', s') := After(z.players[MAIN].infos[0], z.clients[0], 0);
            View(Posts(z, e)) == (if info'.posted > 0 then [Go] else [])
  {
    var info := z.players[MAIN].infos[0];
    assert Local(info, z.clients[0], 0);
    var op := S.CurrentOp(info);
    var own := if info.paused then [] else [Continue(MAIN, 0)];
    ViewOne(Continue(MAIN, 0));
    PostedAfter(info, z.clients[0]);
    if op.PlaySubScenario? {
      SubPostsUnseen(op.name, own);
    }
    assert [] + own == own;
    assert Posts(z, e) == [] || View(Posts(z, e)) == View(own);
  }

  lemma PostedAfter(info: S.ClientInfo, s: VC.State)
    requires Local(info, s, 0) && info.posted == 1
    requires S.CurrentOp(info).Disconnect? ==> !VC.AfterClose(s, None).Faulted?
    ensures After(info, s, 0).0.posted
         == if S.CurrentOp(info).Sleep? || info.paused then 0 else 1
  {
  }

  lemma SubPostsUnseen(name: string, own: seq<Entry>)
    ensures View([Continue(MAIN + [name], 0)] + own) == View(own)
  {
    ViewOne(Continue(MAIN + [name], 0));
    ViewConcat([Continue(MAIN + [name], 0)], own);
    assert [] + View(own) == View(own);
  }

  lemma LoneLoses(z: System, e: Event, v: seq<Mark>)
    requires Runs(z, e, [Lost], v)
    ensures StaysLone(Step(z, e), v + View(Posts(z, e)))
  {
    var info, s := z.players[MAIN].infos[0], z.clients[0];
    assert Local(info, s, 0) && !info.exited && e.i == 0;
    Behind([Lost], v);
    assert [Lost] + v == [Lost] || [Lost] + v == [Lost, Go];
    DisconnectStep(z, e);
    StepKeepsInv(z, e);
    StepStops(z, e);
    assert v + View(Posts(z, e)) == v;
  }

  /** The other handlers: a nested player's, a timer's, a key's, or a notification's. */
  lemma LoneRunsOther(z: System, e: Event, v: seq<Mark>)
    requires Runs(z, e, [], v)
    ensures Step(z, e).faulted || StaysLone(Step(z, e), v + View(Posts(z, e)))
  {
    var info, s := z.players[MAIN].infos[0], z.clients[0];
    assert Local(info, s, 0) && !info.exited && [] + v == v;
    StepStops(z, e);
    if e.OnNext? {
      LoneBackground(z, e, v);
    } else if e.OnTimer? {
      LoneTimer(z, e, v);
    } else {
      assert v + [] == v;
      if e.ManualConnect? {
        assert Local(info, VC.AfterConnect(s), 0);
      } else {
        StepKeepsInv(z, e);
      }
    }
  }

  lemma LoneBackground(z: System, e: Event, v: seq<Mark>)
    requires Runs(z, e, [], v) && e.OnNext? && e.path != MAIN
    ensures StaysLone(Step(z, e), v + View(Posts(z, e)))
  {
    assert [] + v == v;
    var _, _ := BackgroundStep(z, e);
    StepKeepsInv(z, e);
    StepStops(z, e);
    BackPosts(z, e);
    assert v + [] == v;
  }

  lemma BackPosts(z: System, e: Event)
    requires Shaped(z) && Enabled(z, e) && e.OnNext? && e.path != MAIN
    ensures View(Posts(z, e)) == []
  {
    ViewOne(Continue(e.path, e.i));
    assert Harmless(z.players[e.path].infos[e.i].ops);
    assert Shutdown.Background(S.CurrentOp(z.players[e.path].infos[e.i]));
  }

  lemma LoneTimer(z: System, e: Event, v: seq<Mark>)
    requires Runs(z, e, [], v) && e.OnTimer?
    ensures StaysLone(Step(z, e), v + View(Posts(z, e)))
  {
    StepKeepsInv(z, e);
    StepStops(z, e);
    ViewOne(Continue(e.path, e.i));
    if e.path == MAIN {
      LoneWakes(z.players[MAIN].infos[0], z.clients[0], v);
    } else {
      assert [] + v == v && v + [] == v;
    }
  }

  lemma LoneWakes(info: S.ClientInfo, s: VC.State, v: seq<Mark>)
    requires Local(info, s, 0) && LoneClient(info, s) && Seen(info, s, [] + v) && info.timerArmed
    ensures var info', go := S.AfterTimer(info), if info.paused then [] else [Go];
            LoneClient(info', s) && Seen(info', s, v + go)
  {
    assert [] + v == v && v + [] == v;
    assert S.CurrentOp(info).Sleep? && info.posted == 0;
    assert v == [] || v == [Lost];
    assert [] + [Go] == [Go] && [Lost] + [Go] == [Lost, Go];
  }

  // ----- schedules of one client -----

  /** Not over yet; or stopped at rest; or ended by a throw. */
  ghost predicate Fine(l: Loop) {
    Lone(l) || (l.z.stopped && AllQuiescent(l.z)) || (l.z.faulted && !l.z.stopped)
  }

  lemma StopIsQuiescent(z: System, v: seq<Mark>)
    requires StaysLone(z, v) && z.stopped
    ensures AllQuiescent(z)
  {
    assert Local(z.players[MAIN].infos[0], z.clients[0], 0);
  }

  /** A handler that cannot run is neither the client's continuation nor the end of its session. */
  lemma CannotRun(l: Loop, choice: Choice)
    requires Lone(l) && l.queue != [] && !Enabled(l.z, EventOf(l.queue[0], choice))
    ensures MarkOf(l.queue[0]) == []
  {
    assert Local(l.z.players[MAIN].infos[0], l.z.clients[0], 0);
    var mark, v := MarkOf(l.queue[0]), View(l.queue[1..]);
    assert View(l.queue) == mark + v;
    assert ([Go] + v)[0] == Go && ([Lost] + v)[0] == Lost;
  }

  lemma HandledIsLone(l: Loop, choice: Choice)
    requires Lone(l) && l.queue != [] && Enabled(l.z, EventOf(l.queue[0], choice))
    ensures Runs(l.z, EventOf(l.queue[0], choice), MarkOf(l.queue[0]), View(l.queue[1..]))
  {
  }

  lemma LoneHandles(l: Loop, a: Action)
    requires Lone(l) && a.Run? && Can(l, a)
    ensures Fine(Act(l, a))
  {
    if Enabled(l.z, EventOf(l.queue[0], a.choice)) {
      EnabledHandles(l, a.choice);
    } else {
      CannotRun(l, a.choice);
      assert [] + View(l.queue[1..]) == View(l.queue[1..]);
    }
  }

  lemma EnabledHandles(l: Loop, choice: Choice)
    requires Lone(l) && l.queue != [] && Enabled(l.z, EventOf(l.queue[0], choice))
    ensures Fine(Act(l, Run(choice)))
  {
    var entry, rest := l.queue[0], l.queue[1..];
    var e, v, l' := EventOf(entry, choice), View(rest), Act(l, Run(choice));
    var z, started := Step(l.z, e), Starts(l.z, e, l.retryMs);
    HandledIsLone(l, choice);
    LoneRuns(l.z, e, MarkOf(entry), v);
    assert l'.z == z && l'.queue == Kept(rest, z, started) + Posts(l.z, e);
    assert View(l'.queue) == v + View(Posts(l.z, e)) by {
      ViewKept(rest, z, started);
      ViewConcat(Kept(rest, z, started), Posts(l.z, e));
    }
    if z.faulted {
      FaultStopsNothing(l.z, e);
    } else if z.stopped {
      StopIsQuiescent(z, v + View(Posts(l.z, e)));
    } else {
      StaysOrdinary(l, Run(choice));
    }
  }

  lemma StaysOrdinary(l: Loop, a: Action)
    requires Ordinary(l.queue) && a != Arrive(ResumeAll)
    ensures Ordinary(Act(l, a).queue)
  {
    ActPosts(l, a);
    if Can(l, a) && a.Arrive? {
      assert !a.event.OnNext?;
    }
  }

  lemma FaultStopsNothing(z: System, e: Event)
    requires Enabled(z, e) && Step(z, e).faulted
    ensures !Step(z, e).stopped
  {
  }

  lemma LoneRuns(z: System, e: Event, mark: seq<Mark>, v: seq<Mark>)
    requires Runs(z, e, mark, v)
    ensures Step(z, e).faulted || StaysLone(Step(z, e), v + View(Posts(z, e)))
  {
    if mark == [Go] {
      LoneRunsTurn(z, e, v);
    } else if mark == [Lost] {
      LoneLoses(z, e, v);
    } else {
      LoneRunsOther(z, e, v);
    }
  }

  lemma LoneActs(l: Loop, a: Action)
    requires Lone(l) && a != Arrive(ResumeAll)
    ensures Fine(Act(l, a))
  {
    if Can(l, a) {
      match a {
        case Run(_) => LoneHandles(l, a);
        case Expire(c) =>
          ViewConcat(l.queue, [Expired(c)]);
          ViewOne(Expired(c));
          assert View(l.queue) + [] == View(l.queue);
        case Arrive(e) => LoneArrives(l, e);
        case Pass(_) =>
      }
    }
  }

  lemma LoneArrives(l: Loop, e: Event)
    requires Lone(l) && CanArrive(l, e) && e != ResumeAll
    ensures Lone(l.(queue := l.queue + [Posted(e)]))
  {
    var v := View(l.queue);
    ViewConcat(l.queue, [Posted(e)]);
    ViewOne(Posted(e));
    if e.OnDisconnect? {
      NoLossSeen(l.queue);
      assert [Lost][0] == Lost && [Go, Lost][1] == Lost && [Lost, Go][0] == Lost;
      assert v == [] || v == [Go];
      assert [] + [Lost] == [Lost] && [Go] + [Lost] == [Go, Lost];
    } else {
      assert v + [] == v;
    }
  }

  lemma OverStays(l: Loop, a: Action)
    requires l.z.stopped || l.z.faulted
    ensures Act(l, a).z == l.z
  {
  }

  lemma {:induction false} LoneSchedule(l: Loop, acts: seq<Action>)
    requires Fine(l) && Resumes(Keys(acts)) == 0
    ensures Fine(Acts(l, acts))
    decreases |acts|
  {
    if acts != [] {
      KeysGrow(acts);
      if Lone(l) {
        LoneActs(l, acts[0]);
      } else {
        OverStays(l, acts[0]);
      }
      LoneSchedule(Act(l, acts[0]), acts[1..]);
    }
  }

  lemma LoneStarts(u: Setup)
    requires Shuts(u.c) && u.n == 1
    ensures Lone(Begin(u))
  {
    var l := Begin(u);
    BootInv(u.c, u.channels, u.maxRetry, u.pool, 1);
    BootsToShutdown(u.c, u.channels, 0);
    assert l.queue == [Continue(MAIN, 0)] && !l.z.players[MAIN].infos[0].exited;
    ViewOne(Continue(MAIN, 0));
    assert [Go][0] == Go;
  }

  /** A single client stops at rest however often it is connected by hand, retries or not. */
  lemma RestsAlone(u: Setup, connects: nat, prompt: bool)
    requires Shuts(u.c) && u.n == 1
    ensures StopsAtRest(u, 0, connects, prompt)
  {
    forall acts | Resumes(Keys(acts)) <= 0
      ensures var z := Acts(Begin(u), acts).z; z.stopped ==> AllQuiescent(z)
    {
      LoneStarts(u);
      LoneSchedule(Begin(u), acts);
    }
  }

  // ----- all shutdown configurations -----

  /**
   * With a key trigger, and clients that all hatch before the first session is over: all schedules
   * with up to `resumes` resumes and up to `connects` manual connects stop with every client
   * quiescent if and only if there are no resumes, and no manual connects either unless there is
   * only one client. The same is true of the schedules in which nothing is late.
   */
  lemma StopsAtRestExactly(u: Setup, resumes: nat, connects: nat, prompt: bool)
    requires Ends(u) && Shuts(u.c) && u.c.keyTrigger && HatchesInTime(u)
    ensures StopsAtRest(u, resumes, connects, prompt)
       <==> resumes == 0 && (connects == 0 || u.n == 1)
  {
    if resumes > 0 {
      var acts := ResumeCanStopEarly(u);
      TwoKeys(PauseAll, ResumeAll);
    } else if connects == 0 {
      RestsWithoutEither(u, prompt);
    } else if u.n > 1 {
      var acts := ConnectCanStopEarly(u);
      OneKey(ManualConnect(0));
    } else {
      RestsAlone(u, connects, prompt);
    }
  }

  lemma OneKey(a: Event)
    ensures Resumes([a]) == (if a.ResumeAll? then 1 else 0)
    ensures Connects([a]) == (if a.ManualConnect? then 1 else 0)
  {
    assert [a][1..] == [];
  }

  lemma TwoKeys(a: Event, b: Event)
    ensures Resumes([a, b]) == Resumes([a]) + Resumes([b])
    ensures Connects([a, b]) == Connects([a]) + Connects([b])
  {
    OneKey(a);
    assert [a, b][1..] == [b];
  }
}
