/**
 * Every prompt schedule keeps time: in any schedule in which nothing is late, and in which nobody
 * pauses, each client runs each operation exactly when the waits before it are over.
 */
module Punctual {
  import opened Base
  import opened LoadEngine
  import opened Messages
  import opened ScenarioPlayers
  import opened Schedules
  import S = Scenarios
  import VC = VirtualClients

  // ----- the entries of one clock -----

  /** The end of a wait, or a continuation of the client that waits with this clock. */
  predicate IsOf(entry: Entry, c: Clock) {
    entry == Expired(c) || (c.OpTimer? && entry == Continue(c.path, c.i))
  }

  function Mine(queue: seq<Entry>, c: Clock): seq<Entry> {
    if queue == [] then []
    else (if IsOf(queue[0], c) then [queue[0]] else []) + Mine(queue[1..], c)
  }

  lemma {:induction false} MineConcat(a: seq<Entry>, b: seq<Entry>, c: Clock)
    ensures Mine(a + b, c) == Mine(a, c) + Mine(b, c)
    decreases |a|
  {
    if a == [] {
      assert a + b == b;
    } else {
      assert (a + b)[1..] == a[1..] + b;
      MineConcat(a[1..], b, c);
    }
  }

  /** What a handler cancels is of other clocks, unless it ends or restarts this one's wait. */
  lemma {:induction false} MineKept(queue: seq<Entry>, z: System, started: Option<(Clock, int)>,
                                    c: Clock)
    requires Expired(c) in Mine(queue, c) ==> GoesOn(z, started, c)
    ensures Mine(Kept(queue, z, started), c) == Mine(queue, c)
    decreases |queue|
  {
    if queue != [] {
      var head := if queue[0].Expired? && !GoesOn(z, started, queue[0].clock) then [] else [queue[0]];
      MineKept(queue[1..], z, started, c);
      MineConcat(head, Kept(queue[1..], z, started), c);
      assert Mine([queue[0]], c) == (if IsOf(queue[0], c) then [queue[0]] else []) + Mine([], c);
    }
  }

  /** Nothing of this clock changes. */
  predicate SameClock(l: Loop, l': Loop, c: Clock) {
    && Mine(l'.queue, c) == Mine(l.queue, c)
    && (c in l'.due <==> c in l.due) && (c in l.due ==> l'.due[c] == l.due[c])
  }

  /** A handler that neither affects a wait nor posts for its client. */
  lemma HandledElsewhere(l: Loop, e: Event, c: Clock)
    requires Enabled(l.z, e) && (Armed(Step(l.z, e), c) <==> Armed(l.z, c))
    requires var started := Starts(l.z, e, l.retryMs); started.Some? ==> started.value.0 != c
    requires Mine(Posts(l.z, e), c) == []
    requires Expired(c) in Mine(l.queue, c) || c in l.due ==> Armed(l.z, c)
    ensures SameClock(l, Handle(l, e), c)
  {
    var z, started := Step(l.z, e), Starts(l.z, e, l.retryMs);
    MineKept(l.queue, z, started, c);
    MineConcat(Kept(l.queue, z, started), Posts(l.z, e), c);
  }

  // ----- what a client runs, and when -----

  /** An operation that was run at a time. */
  datatype Stamp = Stamp(at: int, op: S.Op)

  /** Whether an action runs an operation of the client that waits with this clock. */
  predicate RunsOp(l: Loop, a: Action, c: Clock) {
    && c.OpTimer? && a.Run? && l.queue != [] && l.queue[0] == Continue(c.path, c.i)
    && Enabled(l.z, OnNext(c.path, c.i, a.choice))
  }

  function StampOf(l: Loop, a: Action, c: Clock): seq<Stamp> {
    if RunsOp(l, a, c) then [Stamp(l.now, S.CurrentOp(l.z.players[c.path].infos[c.i]))] else []
  }

  function Stamps(l: Loop, acts: seq<Action>, c: Clock): seq<Stamp>
    decreases |acts|
  {
    if acts == [] then [] else StampOf(l, acts[0], c) + Stamps(Act(l, acts[0]), acts[1..], c)
  }

  lemma Associates<T>(a: seq<T>, b: seq<T>, c: seq<T>)
    ensures (a + b) + c == a + (b + c)
  {
  }

  lemma StampsGrow(l: Loop, acts: seq<Action>, c: Clock, log: seq<Stamp>)
    requires acts != []
    ensures (log + StampOf(l, acts[0], c)) + Stamps(Act(l, acts[0]), acts[1..], c)
         == log + Stamps(l, acts, c)
  {
    Associates(log, StampOf(l, acts[0], c), Stamps(Act(l, acts[0]), acts[1..], c));
  }

  /** A wait that is negative is over at once. */
  function Clamp(ms: int): nat {
    if ms < 0 then 0 else ms
  }

  /** How long after an operation the next one runs. */
  predicate Lag(op: S.Op, ms: int) {
    if op.Sleep? then Clamp(op.minTimeMs) <= ms <= Clamp(op.maxTimeMs) else ms == 0
  }

  /** Entry k of a log comes when the operation before it is over. */
  predicate InTurn(log: seq<Stamp>, k: int)
    requires 0 < k < |log|
  {
    Lag(log[k - 1].op, log[k].at - log[k - 1].at)
  }

  /** Entry k is the operation that a scenario is at after k moves. */
  predicate InOrder(ops: seq<S.Op>, li: int, log: seq<Stamp>, k: int)
    requires S.Playable(ops, li) && 0 <= k < |log|
  {
    var at := S.Position(|ops|, li, k);
    0 <= at < |ops| && log[k].op == ops[at]
  }

  /** The operations of a scenario in order, from `start` on, each when the one before is over. */
  ghost predicate Follows(ops: seq<S.Op>, li: int, start: int, log: seq<Stamp>) {
    && S.Playable(ops, li)
    && (log != [] ==> log[0].at == start)
    && (forall k :: 0 < k < |log| ==> InTurn(log, k))
    && (forall k :: 0 <= k < |log| ==> InOrder(ops, li, log, k))
  }

  /** It is time for the next operation. */
  predicate Reached(start: int, log: seq<Stamp>, now: int) {
    if log == [] then now == start else Lag(log[|log| - 1].op, now - log[|log| - 1].at)
  }

  ghost predicate Sound(ops: seq<S.Op>, li: int) {
    && S.Playable(ops, li)
    && forall k :: 0 <= k < |ops| && ops[k].Sleep? ==> ops[k].minTimeMs <= ops[k].maxTimeMs
  }

  predicate Alive(z: System) {
    !z.stopped && !z.faulted
  }

  // ----- where a client is -----

  predicate Present(z: System, c: Clock) {
    && c.OpTimer? && MAIN in z.players && c.path in z.players
    && c.i < |z.clients| == |z.players[c.path].infos|
  }

  function InfoOf(z: System, c: Clock): S.ClientInfo
    requires Present(z, c)
  {
    z.players[c.path].infos[c.i]
  }

  /** The client has a continuation, and it is time for it. */
  ghost predicate Ready(l: Loop, c: Clock, ops: seq<S.Op>, li: int, start: int, log: seq<Stamp>)
    requires Present(l.z, c) && S.Playable(ops, li)
  {
    var info := InfoOf(l.z, c);
    && Mine(l.queue, c) == [Continue(c.path, c.i)] && c !in l.due
    && info.posted == 1 && !info.timerArmed && info.opIndex == S.Position(|ops|, li, |log|)
    && Reached(start, log, l.now)
  }

  /** The client waits, or its wait has just ended. */
  ghost predicate Asleep(l: Loop, c: Clock, ops: seq<S.Op>, li: int, log: seq<Stamp>)
    requires Present(l.z, c) && S.Playable(ops, li)
  {
    var info := InfoOf(l.z, c);
    && log != [] && info.posted == 0 && info.timerArmed
    && info.opIndex == S.Position(|ops|, li, |log| - 1)
    && var last := log[|log| - 1];
       && last.op.Sleep? && last.at <= l.now
       && (if c in l.due then
             && Mine(l.queue, c) == []
             && last.op.minTimeMs <= l.due[c] - last.at <= last.op.maxTimeMs
             && l.now <= last.at + Clamp(l.due[c] - last.at)
           else
             Mine(l.queue, c) == [Expired(c)] && Lag(last.op, l.now - last.at))
  }

  ghost predicate OnTrack(l: Loop, c: Clock, ops: seq<S.Op>, li: int, start: int, log: seq<Stamp>) {
    && Present(l.z, c) && Sound(ops, li)
    && InfoOf(l.z, c).ops == ops && InfoOf(l.z, c).loopOpIndex == li && !InfoOf(l.z, c).paused
    && (Ready(l, c, ops, li, start, log) || Asleep(l, c, ops, li, log))
  }

  // ----- one handler -----

  /** A handler starts the nested player of this clock for its client. */
  predicate Starting(z: System, e: Event, c: Clock) {
    && Enabled(z, e) && e.OnNext? && c.OpTimer? && e.i == c.i
    && var op := S.CurrentOp(z.players[e.path].infos[e.i]);
       op.PlaySubScenario? && e.path + [op.name] == c.path
  }

  predicate Own(e: Event, c: Clock) {
    && c.OpTimer?
    && ((e.OnNext? && e.path == c.path && e.i == c.i)
        || (e.OnTimer? && e.path == c.path && e.i == c.i))
  }

  predicate Pauses(e: Event) {
    e.PauseAll? || e.ResumeAll?
  }

  lemma OneOf(entry: Entry, c: Clock)
    ensures Mine([entry], c) == if IsOf(entry, c) then [entry] else []
  {
    assert [entry][1..] == [];
  }

  lemma TwoOf(a: Entry, b: Entry, c: Clock)
    ensures Mine([a, b], c)
         == (if IsOf(a, c) then [a] else []) + (if IsOf(b, c) then [b] else [])
  {
    assert [a, b][1..] == [b];
    OneOf(b, c);
  }

  /** The record of a client, but for the mark that an Exit callback leaves. */
  ghost predicate Untouched(z: System, z': System, c: Clock) {
    && c.OpTimer? && |z'.clients| == |z.clients|
    && (Present(z, c) ==>
          && Present(z', c)
          && InfoOf(z', c).(exited := false) == InfoOf(z, c).(exited := false))
    && (c.path !in z.players && c.path in z'.players && c.i < |z.clients| ==>
          Present(z', c) && InfoOf(z', c) == S.UNPLAYED)
  }

  lemma TurnLeaves(z: System, e: Event, c: Clock)
    requires Enabled(z, e) && e.OnNext? && c.OpTimer? && !Own(e, c)
    ensures var turn := RunOp(z.players[e.path], z.clients[e.i], e.path, e.i, z.pool, e.choice);
            var z' := AfterTurn(z, e.path, e.i, turn);
            Untouched(z, z', c) && (c.path in z'.players <==> c.path in z.players)
  {
    RunOpIsOnNext(z.players[e.path], z.clients[e.i], e.path, e.i, z.pool, e.choice);
  }

  lemma StartLeaves(z: System, p: Path, i: nat, op: S.Op, c: Clock)
    requires op.PlaySubScenario? && i < |z.clients| && MAIN in z.players && c.OpTimer?
    requires p + [op.name] == c.path ==> i != c.i
    ensures Untouched(z, StartSub(z, p, i, op), c)
  {
  }

  /** Events of others leave a record as it is. */
  lemma OthersLeave(z: System, e: Event, c: Clock)
    requires Enabled(z, e) && c.OpTimer? && !Own(e, c) && !Pauses(e) && !Starting(z, e, c)
    ensures Untouched(z, Step(z, e), c)
  {
    if e.OnNext? {
      var op := S.CurrentOp(z.players[e.path].infos[e.i]);
      TurnLeaves(z, e, c);
      if op.PlaySubScenario? {
        var turn := RunOp(z.players[e.path], z.clients[e.i], e.path, e.i, z.pool, e.choice);
        StartLeaves(AfterTurn(z, e.path, e.i, turn), e.path, e.i, op, c);
      }
    } else if e.OnDisconnect? {
      LossLeaves(z, e, c);
    }
  }

  lemma LossLeaves(z: System, e: Event, c: Clock)
    requires Enabled(z, e) && e.OnDisconnect? && c.OpTimer?
    ensures Untouched(z, Step(z, e), c)
  {
  }

  lemma OthersPostElsewhere(z: System, e: Event, c: Clock)
    requires Enabled(z, e) && c.OpTimer? && !Own(e, c) && !Pauses(e) && !Starting(z, e, c)
    ensures Mine(Posts(z, e), c) == []
    ensures forall retryMs :: var started := Starts(z, e, retryMs);
                              started.Some? ==> started.value.0 != c
  {
    match e {
      case OnNext(p, i, _) =>
        var op := S.CurrentOp(z.players[p].infos[i]);
        OneOf(Continue(p, i), c);
        if op.PlaySubScenario? {
          var q := p + [op.name];
          OneOf(Continue(q, i), c);
          TwoOf(Continue(q, i), Continue(p, i), c);
          assert [Continue(q, i)] + [Continue(p, i)] == [Continue(q, i), Continue(p, i)];
        }
      case OnTimer(p, i) => OneOf(Continue(p, i), c);
      case _ =>
    }
  }

  /** A client's own turn, seen from its record. */
  lemma OwnTurn(z: System, e: Event, c: Clock)
    requires Present(z, c) && Enabled(z, e) && e.OnNext? && Own(e, c)
    requires InfoOf(z, c).posted > 0 && S.Played(InfoOf(z, c)) && !InfoOf(z, c).paused
    ensures var info, z' := InfoOf(z, c), Step(z, e);
            && Present(z', c)
            && (Alive(z') ==>
                  InfoOf(z', c).(exited := false) == S.AfterOnNext(info).(exited := false))
  {
    var p, i := c.path, c.i;
    RunOpIsOnNext(z.players[p], z.clients[i], p, i, z.pool, e.choice);
    var op := S.CurrentOp(InfoOf(z, c));
    if op.PlaySubScenario? {
      assert |p + [op.name]| == |p| + 1;
    }
  }

  lemma OwnPosts(z: System, e: Event, c: Clock)
    requires Present(z, c) && Enabled(z, e) && e.OnNext? && Own(e, c) && !InfoOf(z, c).paused
    ensures Mine(Posts(z, e), c)
         == (if S.CurrentOp(InfoOf(z, c)).Sleep? || Step(z, e).faulted then []
             else [Continue(c.path, c.i)])
  {
    var p, i := c.path, c.i;
    var op := S.CurrentOp(InfoOf(z, c));
    OneOf(Continue(p, i), c);
    if op.PlaySubScenario? {
      var q := p + [op.name];
      assert |q| == |p| + 1;
      TwoOf(Continue(q, i), Continue(p, i), c);
      assert [Continue(q, i)] + [Continue(p, i)] == [Continue(q, i), Continue(p, i)];
    }
  }

  lemma OwnTimer(z: System, e: Event, c: Clock)
    requires Present(z, c) && Enabled(z, e) && e.OnTimer? && Own(e, c)
    requires !InfoOf(z, c).paused
    ensures var info, z' := InfoOf(z, c), Step(z, e);
            && Present(z', c) && InfoOf(z', c) == S.AfterTimer(info)
            && Mine(Posts(z, e), c) == [Continue(c.path, c.i)]
  {
    OneOf(Continue(c.path, c.i), c);
  }

  // ----- one action -----

  lemma MineHead(queue: seq<Entry>, c: Clock)
    requires queue != []
    ensures Mine(queue, c) == (if IsOf(queue[0], c) then [queue[0]] else []) + Mine(queue[1..], c)
  {
  }

  lemma FollowsGrows(ops: seq<S.Op>, li: int, start: int, log: seq<Stamp>, stamp: Stamp)
    requires Follows(ops, li, start, log) && Reached(start, log, stamp.at)
    requires stamp.op == ops[S.Position(|ops|, li, |log|)]
    ensures Follows(ops, li, start, log + [stamp])
  {
    S.PositionMoves(|ops|, li, |log|);
    var log' := log + [stamp];
    forall k | 0 < k < |log'|
      ensures InTurn(log', k)
    {
      assert k < |log| ==> InTurn(log, k);
    }
    forall k | 0 <= k < |log'|
      ensures InOrder(ops, li, log', k)
    {
      assert k < |log| ==> InOrder(ops, li, log, k);
    }
  }

  /** What a client's turn does to its record, its entries and its deadline. */
  lemma TurnHandled(l: Loop, e: Event, c: Clock)
    requires Present(l.z, c) && Enabled(l.z, e) && e.OnNext? && Own(e, c)
    requires InfoOf(l.z, c).posted > 0 && S.Played(InfoOf(l.z, c)) && !InfoOf(l.z, c).paused
    requires !InfoOf(l.z, c).timerArmed && Mine(l.queue, c) == [] && c !in l.due
    requires var op := S.CurrentOp(InfoOf(l.z, c)); op.Sleep? ==> op.minTimeMs <= op.maxTimeMs
    ensures var info, l' := InfoOf(l.z, c), Handle(l, e);
            var op := S.CurrentOp(info);
            && l'.now == l.now && Present(l'.z, c)
            && (Alive(l'.z) ==>
                  && InfoOf(l'.z, c).(exited := false) == S.AfterOnNext(info).(exited := false)
                  && Mine(l'.queue, c) == (if op.Sleep? then [] else [Continue(c.path, c.i)])
                  && (if op.Sleep? then
                        c in l'.due && op.minTimeMs <= l'.due[c] - l.now <= op.maxTimeMs
                      else c !in l'.due))
  {
    OwnTurn(l.z, e, c);
    OwnPosts(l.z, e, c);
    var z, started := Step(l.z, e), Starts(l.z, e, l.retryMs);
    MineKept(l.queue, z, started, c);
    MineConcat(Kept(l.queue, z, started), Posts(l.z, e), c);
  }

  lemma TurnIsDue(l: Loop, a: Action, c: Clock, ops: seq<S.Op>, li: int, start: int,
                  log: seq<Stamp>)
    requires Alive(l.z) && OnTrack(l, c, ops, li, start, log)
    requires a.Run? && l.queue != [] && l.queue[0] == Continue(c.path, c.i)
    ensures RunsOp(l, a, c) && S.Played(InfoOf(l.z, c)) && Ready(l, c, ops, li, start, log)
    ensures Mine(l.queue[1..], c) == []
    ensures StampOf(l, a, c) == [Stamp(l.now, ops[S.Position(|ops|, li, |log|)])]
  {
    MineHead(l.queue, c);
    S.PositionMoves(|ops|, li, |log|);
    assert Mine(l.queue, c)[0] == Continue(c.path, c.i);
    assert !Asleep(l, c, ops, li, log);
    assert CanRun(l.z.players[c.path], c.i);
  }

  /** The turn that is due. */
  lemma TurnOnTrack(l: Loop, a: Action, c: Clock, ops: seq<S.Op>, li: int, start: int,
                    log: seq<Stamp>)
    requires Alive(l.z) && OnTrack(l, c, ops, li, start, log) && Follows(ops, li, start, log)
    requires a.Run? && l.queue != [] && l.queue[0] == Continue(c.path, c.i)
    ensures Follows(ops, li, start, log + StampOf(l, a, c))
    ensures Alive(Act(l, a).z) ==> OnTrack(Act(l, a), c, ops, li, start, log + StampOf(l, a, c))
  {
    TurnIsDue(l, a, c, ops, li, start, log);
    var stamp := StampOf(l, a, c)[0];
    FollowsGrows(ops, li, start, log, stamp);
    var l1 := l.(queue := l.queue[1..]);
    TurnHandled(l1, OnNext(c.path, c.i, a.choice), c);
    var l' := Act(l, a);
    assert l' == Handle(l1, OnNext(c.path, c.i, a.choice));
    if Alive(l'.z) {
      TurnSettles(l, l', c, ops, li, start, log, stamp);
      assert log + StampOf(l, a, c) == log + [stamp];
    }
  }

  lemma TurnSettles(l: Loop, l': Loop, c: Clock, ops: seq<S.Op>, li: int, start: int,
                    log: seq<Stamp>, stamp: Stamp)
    requires Present(l.z, c) && Sound(ops, li) && Ready(l, c, ops, li, start, log)
    requires InfoOf(l.z, c).ops == ops && InfoOf(l.z, c).loopOpIndex == li
    requires !InfoOf(l.z, c).paused && S.Played(InfoOf(l.z, c))
    requires stamp == Stamp(l.now, S.CurrentOp(InfoOf(l.z, c)))
    requires l'.now == l.now && Present(l'.z, c)
    requires InfoOf(l'.z, c).(exited := false) == S.AfterOnNext(InfoOf(l.z, c)).(exited := false)
    requires Mine(l'.queue, c) == if stamp.op.Sleep? then [] else [Continue(c.path, c.i)]
    requires if stamp.op.Sleep? then
               c in l'.due && stamp.op.minTimeMs <= l'.due[c] - l.now <= stamp.op.maxTimeMs
             else c !in l'.due
    ensures OnTrack(l', c, ops, li, start, log + [stamp])
  {
    S.PositionMoves(|ops|, li, |log|);
  }

  /** What the end of a wait does to its client's record, its entries and its deadline. */
  lemma TimerHandled(l: Loop, c: Clock)
    requires Present(l.z, c) && Alive(l.z) && InfoOf(l.z, c).timerArmed && !InfoOf(l.z, c).paused
    requires Mine(l.queue, c) == [] && c !in l.due
    ensures var l' := Handle(l, OnTimer(c.path, c.i));
            && l'.now == l.now && Present(l'.z, c)
            && InfoOf(l'.z, c) == S.AfterTimer(InfoOf(l.z, c))
            && Mine(l'.queue, c) == [Continue(c.path, c.i)] && c !in l'.due
  {
    var e := OnTimer(c.path, c.i);
    OwnTimer(l.z, e, c);
    var z, started := Step(l.z, e), Starts(l.z, e, l.retryMs);
    MineKept(l.queue, z, started, c);
    MineConcat(Kept(l.queue, z, started), Posts(l.z, e), c);
  }

  lemma TimerIsDue(l: Loop, c: Clock, ops: seq<S.Op>, li: int, start: int, log: seq<Stamp>)
    requires OnTrack(l, c, ops, li, start, log) && l.queue != [] && l.queue[0] == Expired(c)
    ensures Asleep(l, c, ops, li, log) && c !in l.due && Mine(l.queue[1..], c) == []
    ensures Reached(start, log, l.now)
  {
    MineHead(l.queue, c);
    assert Mine(l.queue, c)[0] == Expired(c);
  }

  /** The end of a wait. */
  lemma TimerOnTrack(l: Loop, a: Action, c: Clock, ops: seq<S.Op>, li: int, start: int,
                     log: seq<Stamp>)
    requires Alive(l.z) && OnTrack(l, c, ops, li, start, log)
    requires a.Run? && l.queue != [] && l.queue[0] == Expired(c)
    ensures OnTrack(Act(l, a), c, ops, li, start, log)
  {
    TimerIsDue(l, c, ops, li, start, log);
    TimerHandled(l.(queue := l.queue[1..]), c);
    S.PositionMoves(|ops|, li, |log| - 1);
    var l' := Act(l, a);
    assert l' == Handle(l.(queue := l.queue[1..]), OnTimer(c.path, c.i));
    assert Ready(l', c, ops, li, start, log);
  }

  /** Any other handler. */
  lemma OtherOnTrack(l: Loop, e: Event, c: Clock, ops: seq<S.Op>, li: int, start: int,
                     log: seq<Stamp>)
    requires OnTrack(l, c, ops, li, start, log) && Enabled(l.z, e)
    requires !Own(e, c) && !Pauses(e) && !Starting(l.z, e, c)
    ensures OnTrack(Handle(l, e), c, ops, li, start, log)
  {
    OthersLeave(l.z, e, c);
    OthersPostElsewhere(l.z, e, c);
    HandledElsewhere(l, e, c);
  }

  /** What other threads have posted is no pause and no resume. */
  predicate Foreign(queue: seq<Entry>) {
    forall k :: 0 <= k < |queue| ==> IsForeign(queue[k])
  }

  predicate IsForeign(entry: Entry) {
    entry.Posted? ==> !Pauses(entry.event) && !entry.event.OnNext? && !entry.event.OnTimer?
  }

  /** Nobody pauses or resumes. */
  predicate Unpaused(acts: seq<Action>) {
    forall a :: a in acts && a.Arrive? ==> !Pauses(a.event)
  }

  lemma StaysForeign(l: Loop, a: Action)
    requires Foreign(l.queue) && (a.Arrive? ==> !Pauses(a.event))
    ensures Foreign(Act(l, a).queue)
  {
    ActPosts(l, a);
    forall k | 0 <= k < |Act(l, a).queue|
      ensures IsForeign(Act(l, a).queue[k])
    {
      var e := Act(l, a).queue[k];
      if e in l.queue {
        var j :| 0 <= j < |l.queue| && l.queue[j] == e;
        assert IsForeign(l.queue[j]);
      }
    }
  }

  predicate StartsAt(l: Loop, a: Action, c: Clock) {
    a.Run? && l.queue != [] && Starting(l.z, EventOf(l.queue[0], a.choice), c)
  }

  lemma RunOnTrack(l: Loop, a: Action, c: Clock, ops: seq<S.Op>, li: int, start: int,
                   log: seq<Stamp>)
    requires Alive(l.z) && OnTrack(l, c, ops, li, start, log) && Follows(ops, li, start, log)
    requires a.Run? && l.queue != [] && Foreign(l.queue) && !StartsAt(l, a, c)
    ensures Follows(ops, li, start, log + StampOf(l, a, c))
    ensures Alive(Act(l, a).z) ==> OnTrack(Act(l, a), c, ops, li, start, log + StampOf(l, a, c))
  {
    var head, rest := l.queue[0], l.queue[1..];
    var e := EventOf(head, a.choice);
    if head == Continue(c.path, c.i) {
      TurnOnTrack(l, a, c, ops, li, start, log);
    } else {
      assert log + StampOf(l, a, c) == log;
      if head == Expired(c) {
        TimerOnTrack(l, a, c, ops, li, start, log);
      } else {
        MineHead(l.queue, c);
        assert Mine(rest, c) == Mine(l.queue, c);
        assert IsForeign(head);
        if Enabled(l.z, e) {
          OtherOnTrack(l.(queue := rest), e, c, ops, li, start, log);
        }
      }
    }
  }

  lemma WaitOnTrack(l: Loop, a: Action, c: Clock, ops: seq<S.Op>, li: int, start: int,
                    log: seq<Stamp>)
    requires OnTrack(l, c, ops, li, start, log) && InTime(l, a) && !a.Run?
    ensures OnTrack(Act(l, a), c, ops, li, start, log)
  {
    match a {
      case Expire(d) =>
        OneOf(Expired(d), c);
        MineConcat(l.queue, [Expired(d)], c);
      case Arrive(e) =>
        OneOf(Posted(e), c);
        MineConcat(l.queue, [Posted(e)], c);
      case Pass(ms) =>
    }
  }

  lemma ActOnTrack(l: Loop, a: Action, c: Clock, ops: seq<S.Op>, li: int, start: int,
                   log: seq<Stamp>)
    requires Follows(ops, li, start, log) && (Alive(l.z) ==> OnTrack(l, c, ops, li, start, log))
    requires InTime(l, a) && Foreign(l.queue) && !StartsAt(l, a, c)
    ensures var log' := log + StampOf(l, a, c);
            && Follows(ops, li, start, log')
            && (Alive(Act(l, a).z) ==> OnTrack(Act(l, a), c, ops, li, start, log'))
  {
    if Alive(l.z) && a.Run? {
      RunOnTrack(l, a, c, ops, li, start, log);
    } else {
      assert log + StampOf(l, a, c) == log;
      if Alive(l.z) {
        WaitOnTrack(l, a, c, ops, li, start, log);
      }
    }
  }

  /** From a state on track on, over every prompt schedule without pauses. */
  lemma {:induction false} StaysOnTrack(l: Loop, acts: seq<Action>, c: Clock, ops: seq<S.Op>,
                                        li: int, start: int, log: seq<Stamp>)
    requires Follows(ops, li, start, log) && (Alive(l.z) ==> OnTrack(l, c, ops, li, start, log))
    requires Prompt(l, acts) && Foreign(l.queue) && Unpaused(acts)
    requires c.OpTimer? && c.path == MAIN
    ensures var log', l' := log + Stamps(l, acts, c), Acts(l, acts);
            Follows(ops, li, start, log') && (Alive(l'.z) ==> OnTrack(l', c, ops, li, start, log'))
    decreases |acts|
  {
    if acts == [] {
      assert log + [] == log;
    } else {
      var a := acts[0];
      assert a in acts;
      StaysForeign(l, a);
      ActOnTrack(l, a, c, ops, li, start, log);
      StaysOnTrack(Act(l, a), acts[1..], c, ops, li, start, log + StampOf(l, a, c));
      StampsGrow(l, acts, c, log);
    }
  }

  // ----- nested players -----

  /** The client has not been played by the nested player of this clock. */
  ghost predicate Unstarted(l: Loop, c: Clock) {
    && c.OpTimer? && MAIN in l.z.players && c.i < |l.z.clients|
    && Mine(l.queue, c) == [] && c !in l.due
    && (c.path in l.z.players ==>
          Present(l.z, c) && InfoOf(l.z, c).posted == 0 && !InfoOf(l.z, c).timerArmed)
  }

  lemma MainStays(z: System, e: Event)
    requires MAIN in z.players
    ensures MAIN in Step(z, e).players
  {
  }

  lemma OtherUnstarted(l: Loop, e: Event, c: Clock)
    requires Unstarted(l, c) && Enabled(l.z, e) && !Pauses(e) && !Starting(l.z, e, c)
    ensures Unstarted(Handle(l, e), c)
  {
    OthersLeave(l.z, e, c);
    OthersPostElsewhere(l.z, e, c);
    MainStays(l.z, e);
    HandledElsewhere(l, e, c);
  }

  lemma ActUnstarted(l: Loop, a: Action, c: Clock)
    requires Unstarted(l, c) && InTime(l, a) && Foreign(l.queue) && !StartsAt(l, a, c)
    ensures Unstarted(Act(l, a), c) && StampOf(l, a, c) == []
  {
    match a {
      case Run(choice) =>
        MineHead(l.queue, c);
        assert IsForeign(l.queue[0]);
        var e := EventOf(l.queue[0], choice);
        if Enabled(l.z, e) {
          OtherUnstarted(l.(queue := l.queue[1..]), e, c);
        }
      case Expire(d) =>
        OneOf(Expired(d), c);
        MineConcat(l.queue, [Expired(d)], c);
      case Arrive(e) =>
        OneOf(Posted(e), c);
        MineConcat(l.queue, [Posted(e)], c);
      case Pass(ms) =>
    }
  }

  /** The turn that starts a nested player puts its client on track there. */
  lemma Started(l: Loop, e: Event, c: Clock)
    requires Unstarted(l, c) && Starting(l.z, e, c)
    requires var op := S.CurrentOp(l.z.players[e.path].infos[e.i]); Sound(op.ops, op.loopOpIndex)
    ensures var op := S.CurrentOp(l.z.players[e.path].infos[e.i]);
            Alive(Handle(l, e).z)
            && OnTrack(Handle(l, e), c, op.ops, op.loopOpIndex, l.now, [])
  {
    var op, z' := S.CurrentOp(l.z.players[e.path].infos[e.i]), Step(l.z, e);
    StartedRecord(l.z, e, c);
    StartedPosts(l.z, e, c);
    var started := Starts(l.z, e, l.retryMs);
    MineKept(l.queue, z', started, c);
    MineConcat(Kept(l.queue, z', started), Posts(l.z, e), c);
  }

  lemma StartedRecord(z: System, e: Event, c: Clock)
    requires Starting(z, e, c)
    requires c.path in z.players ==> Present(z, c) && InfoOf(z, c).posted == 0
    requires var op := S.CurrentOp(z.players[e.path].infos[e.i]); S.Playable(op.ops, op.loopOpIndex)
    ensures var op, z' := S.CurrentOp(z.players[e.path].infos[e.i]), Step(z, e);
            && Alive(z') && Present(z', c)
            && InfoOf(z', c) == S.ClientInfo(op.ops, 0, op.loopOpIndex, false, false, false, 1)
  {
    RunOpIsOnNext(z.players[e.path], z.clients[e.i], e.path, e.i, z.pool, e.choice);
    assert |c.path| == |e.path| + 1;
  }

  lemma StartedPosts(z: System, e: Event, c: Clock)
    requires Starting(z, e, c)
    requires var op := S.CurrentOp(z.players[e.path].infos[e.i]); S.Playable(op.ops, op.loopOpIndex)
    ensures Mine(Posts(z, e), c) == [Continue(c.path, c.i)]
  {
    var own := Continue(e.path, e.i);
    assert |c.path| == |e.path| + 1;
    OneOf(Continue(c.path, c.i), c);
    TwoOf(Continue(c.path, c.i), own, c);
    assert [Continue(c.path, c.i)] + [own] == [Continue(c.path, c.i), own];
    assert [Continue(c.path, c.i)] + [] == [Continue(c.path, c.i)];
  }

  /** Only operation j starts the nested player of its name. */
  ghost predicate StartsOnce(ops: seq<S.Op>, li: int, j: nat) {
    && j < li < |ops| && ops[j].PlaySubScenario? && Sound(ops[j].ops, ops[j].loopOpIndex)
    && forall k :: 0 <= k < |ops| && ops[k].PlaySubScenario? && k != j ==> ops[k].name != ops[j].name
  }

  function SubClock(ops: seq<S.Op>, j: nat, i: nat): Clock
    requires j < |ops| && ops[j].PlaySubScenario?
  {
    OpTimer([ops[j].name], i)
  }

  /** Client i of the main player is on track, and so is the nested player that it starts. */
  ghost predicate Both(l: Loop, i: nat, ops: seq<S.Op>, li: int, j: nat, log: seq<Stamp>,
                       sub: seq<Stamp>)
    requires StartsOnce(ops, li, j)
  {
    var c := SubClock(ops, j, i);
    && Follows(ops, li, 0, log) && (Alive(l.z) ==> OnTrack(l, OpTimer(MAIN, i), ops, li, 0, log))
    && if |log| <= j then sub == [] && (Alive(l.z) ==> Unstarted(l, c))
       else
         && Follows(ops[j].ops, ops[j].loopOpIndex, log[j].at, sub)
         && (Alive(l.z) ==> OnTrack(l, c, ops[j].ops, ops[j].loopOpIndex, log[j].at, sub))
  }

  /** The nested player is started by the client's turn at operation j only. */
  lemma StartsAtTurn(l: Loop, a: Action, i: nat, ops: seq<S.Op>, li: int, j: nat, log: seq<Stamp>)
    requires StartsOnce(ops, li, j) && Alive(l.z) && Foreign(l.queue)
    requires OnTrack(l, OpTimer(MAIN, i), ops, li, 0, log)
    requires StartsAt(l, a, SubClock(ops, j, i))
    ensures l.queue[0] == Continue(MAIN, i) && |log| == j
    ensures StampOf(l, a, OpTimer(MAIN, i)) == [Stamp(l.now, ops[j])]
  {
    assert IsForeign(l.queue[0]);
    var e := EventOf(l.queue[0], a.choice);
    var op := S.CurrentOp(l.z.players[e.path].infos[e.i]);
    assert |e.path + [op.name]| == |e.path| + 1;
    assert e.path == MAIN;
    assert (e.path + [op.name])[0] == op.name;
    TurnIsDue(l, a, OpTimer(MAIN, i), ops, li, 0, log);
    S.PositionMoves(|ops|, li, |log|);
    assert op == ops[S.Position(|ops|, li, |log|)];
  }

  lemma MainNotStarted(l: Loop, a: Action, c: Clock)
    requires c.OpTimer? && c.path == MAIN
    ensures !StartsAt(l, a, c)
  {
  }

  lemma BothStart(l: Loop, a: Action, i: nat, ops: seq<S.Op>, li: int, j: nat, log: seq<Stamp>,
                  sub: seq<Stamp>)
    requires StartsOnce(ops, li, j) && Both(l, i, ops, li, j, log, sub) && Alive(l.z)
    requires InTime(l, a) && Foreign(l.queue) && StartsAt(l, a, SubClock(ops, j, i))
    ensures Both(Act(l, a), i, ops, li, j, log + StampOf(l, a, OpTimer(MAIN, i)),
                 sub + StampOf(l, a, SubClock(ops, j, i)))
  {
    var c, main := SubClock(ops, j, i), OpTimer(MAIN, i);
    MainNotStarted(l, a, main);
    ActOnTrack(l, a, main, ops, li, 0, log);
    StartsAtTurn(l, a, i, ops, li, j, log);
    var e, l1 := EventOf(l.queue[0], a.choice), l.(queue := l.queue[1..]);
    MineHead(l.queue, c);
    Started(l1, e, c);
    assert StampOf(l, a, c) == [];
  }

  lemma BothGoOn(l: Loop, a: Action, i: nat, ops: seq<S.Op>, li: int, j: nat, log: seq<Stamp>,
                 sub: seq<Stamp>)
    requires StartsOnce(ops, li, j) && Both(l, i, ops, li, j, log, sub)
    requires InTime(l, a) && Foreign(l.queue) && !(Alive(l.z) && StartsAt(l, a, SubClock(ops, j, i)))
    ensures Both(Act(l, a), i, ops, li, j, log + StampOf(l, a, OpTimer(MAIN, i)),
                 sub + StampOf(l, a, SubClock(ops, j, i)))
  {
    var c, main := SubClock(ops, j, i), OpTimer(MAIN, i);
    MainNotStarted(l, a, main);
    ActOnTrack(l, a, main, ops, li, 0, log);
    if |log| > j {
      ActOnTrack(l, a, c, ops[j].ops, ops[j].loopOpIndex, log[j].at, sub);
    } else if Alive(l.z) {
      ActUnstarted(l, a, c);
      NotPastStart(l, a, i, ops, li, j, log);
    }
  }

  /** A turn of the main player at operation j starts the nested player. */
  lemma NotPastStart(l: Loop, a: Action, i: nat, ops: seq<S.Op>, li: int, j: nat, log: seq<Stamp>)
    requires StartsOnce(ops, li, j) && Alive(l.z) && |log| <= j
    requires OnTrack(l, OpTimer(MAIN, i), ops, li, 0, log)
    requires !StartsAt(l, a, SubClock(ops, j, i))
    ensures |log + StampOf(l, a, OpTimer(MAIN, i))| <= j
  {
    if RunsOp(l, a, OpTimer(MAIN, i)) && |log| == j {
      TurnIsDue(l, a, OpTimer(MAIN, i), ops, li, 0, log);
    }
  }

  lemma BothAct(l: Loop, a: Action, i: nat, ops: seq<S.Op>, li: int, j: nat, log: seq<Stamp>,
                sub: seq<Stamp>)
    requires StartsOnce(ops, li, j) && Both(l, i, ops, li, j, log, sub)
    requires InTime(l, a) && Foreign(l.queue)
    ensures Both(Act(l, a), i, ops, li, j, log + StampOf(l, a, OpTimer(MAIN, i)),
                 sub + StampOf(l, a, SubClock(ops, j, i)))
  {
    if Alive(l.z) && StartsAt(l, a, SubClock(ops, j, i)) {
      BothStart(l, a, i, ops, li, j, log, sub);
    } else {
      BothGoOn(l, a, i, ops, li, j, log, sub);
    }
  }


  lemma {:induction false} BothStay(l: Loop, acts: seq<Action>, i: nat, ops: seq<S.Op>, li: int,
                                    j: nat, log: seq<Stamp>, sub: seq<Stamp>)
    requires StartsOnce(ops, li, j) && Both(l, i, ops, li, j, log, sub)
    requires Prompt(l, acts) && Foreign(l.queue) && Unpaused(acts)
    ensures Both(Acts(l, acts), i, ops, li, j, log + Stamps(l, acts, OpTimer(MAIN, i)),
                 sub + Stamps(l, acts, SubClock(ops, j, i)))
    decreases |acts|
  {
    var main, c := OpTimer(MAIN, i), SubClock(ops, j, i);
    if acts == [] {
      assert log + [] == log && sub + [] == sub;
    } else {
      var a := acts[0];
      var l' := Act(l, a);
      assert a in acts;
      StaysForeign(l, a);
      BothAct(l, a, i, ops, li, j, log, sub);
      BothStay(l', acts[1..], i, ops, li, j, log + StampOf(l, a, main), sub + StampOf(l, a, c));
      StampsGrow(l, acts, main, log);
      StampsGrow(l, acts, c, sub);
    }
  }
}
