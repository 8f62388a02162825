/**
 * Scenario operations and the per-client interpreter state of src/scenario_player.h.
 *
 * `ClientInfo` is the player's record for one client, together with the number of OnNext
 * continuations posted for it that the event loop has not run yet. `Observe` plays any
 * interleaving of the four things that can happen to it.
 */
module Scenarios {
  import opened Arithmetic

  datatype Op =
    | Sleep(minTimeMs: int, maxTimeMs: int)
    | PlaySubScenario(name: string, ops: seq<Op>, loopOpIndex: int)
    | PlayVoiceNumberClient
    | SendDataChannelMessage(channel: string, minSize: int, maxSize: int)
    | Disconnect
    | Reconnect
    | Exit

  datatype ClientInfo = ClientInfo(
    ops: seq<Op>,
    opIndex: int,
    loopOpIndex: int,
    timerArmed: bool,
    paused: bool,
    exited: bool,
    posted: nat)

  /** A client's record before Play; the index fields are not read until then. */
  const UNPLAYED := ClientInfo([], 0, 0, false, false, false, 0)

  predicate Playable(ops: seq<Op>, loopOpIndex: int) {
    0 <= loopOpIndex < |ops|
  }

  /** What Play establishes: the index can be used whenever a continuation runs. */
  predicate Played(info: ClientInfo) {
    Playable(info.ops, info.loopOpIndex) && 0 <= info.opIndex < |info.ops|
  }

  function CurrentOp(info: ClientInfo): Op
    requires Played(info)
  {
    info.ops[info.opIndex]
  }

  // ----- what each member function and handler does to one client -----

  function Post(info: ClientInfo): ClientInfo {
    info.(posted := info.posted + 1)
  }

  /** Play, for a client id in range. */
  function AfterPlay(info: ClientInfo, ops: seq<Op>, loopOpIndex: int): ClientInfo {
    if !Playable(ops, loopOpIndex) then info
    else ClientInfo(ops, 0, loopOpIndex, false, false, false, info.posted + 1)
  }

  function AfterPause(info: ClientInfo): ClientInfo {
    info.(timerArmed := false, paused := true)
  }

  function AfterResume(info: ClientInfo): ClientInfo {
    Post(info.(paused := false))
  }

  function Succ(n: int, loopOpIndex: int, i: int): int {
    if i + 1 == n then loopOpIndex else i + 1
  }

  function AfterNext(info: ClientInfo): ClientInfo {
    if info.paused then info
    else Post(info.(opIndex := Succ(|info.ops|, info.loopOpIndex, info.opIndex)))
  }

  /** The event loop takes one posted continuation of this client. */
  function Taken(info: ClientInfo): ClientInfo
    requires info.posted > 0
  {
    info.(posted := info.posted - 1)
  }

  /** OnNext without the operation's effect outside the player. */
  function AfterOnNext(info: ClientInfo): ClientInfo
    requires Played(info) && info.posted > 0
  {
    if CurrentOp(info).Sleep? then Taken(info).(timerArmed := true) else AfterNext(Taken(info))
  }

  function AfterTimer(info: ClientInfo): ClientInfo {
    AfterNext(info.(timerArmed := false))
  }

  /** The delay of a Sleep, for the number the random engine produced. */
  function Delay(op: Op, random: nat): (ms: int)
    requires op.Sleep? && op.minTimeMs <= op.maxTimeMs
    ensures op.minTimeMs <= ms <= op.maxTimeMs
  {
    random % (op.maxTimeMs - op.minTimeMs + 1) + op.minTimeMs
  }

  /** Every delay in its range can be drawn, and no other. */
  lemma DelaysAre(op: Op, ms: int)
    requires op.Sleep? && op.minTimeMs <= op.maxTimeMs
    ensures op.minTimeMs <= ms <= op.maxTimeMs <==> exists random: nat :: Delay(op, random) == ms
  {
    if op.minTimeMs <= ms <= op.maxTimeMs {
      ModUnique(ms - op.minTimeMs, op.maxTimeMs - op.minTimeMs + 1, 0, ms - op.minTimeMs);
      assert Delay(op, ms - op.minTimeMs) == ms;
    }
  }

  // ----- every interleaving, observed -----

  datatype Event = OnNext | TimerExpired | PauseAll | ResumeAll

  /**
   * A played client and what an observer counts: `visit` is how often the index has moved,
   * `ran` whether the operation at the index has been run since, `repeats` how many runs
   * repeated an operation, and `log` the visit during which each operation ran.
   */
  datatype Observed = Observed(
    info: ClientInfo,
    visit: nat,
    ran: bool,
    repeats: nat,
    resumes: nat,
    log: seq<nat>)

  function Begin(ops: seq<Op>, loopOpIndex: int): Observed {
    Observed(AfterPlay(UNPLAYED, ops, loopOpIndex), 0, false, 0, 0, [])
  }

  predicate Enabled(o: Observed, e: Event) {
    && Played(o.info)
    && (e.OnNext? ==> o.info.posted > 0)
    && (e.TimerExpired? ==> o.info.timerArmed)
  }

  function Observe(o: Observed, e: Event): Observed {
    if !Enabled(o, e) then o else
    match e
    case OnNext =>
      var stays := CurrentOp(o.info).Sleep? || o.info.paused;
      Observed(AfterOnNext(o.info), o.visit + (if stays then 0 else 1), stays,
               o.repeats + (if o.ran then 1 else 0), o.resumes, o.log + [o.visit])
    case TimerExpired =>
      var stays := o.info.paused;
      o.(info := AfterTimer(o.info), visit := o.visit + (if stays then 0 else 1),
         ran := o.ran && stays)
    case PauseAll =>
      o.(info := AfterPause(o.info))
    case ResumeAll =>
      o.(info := AfterResume(o.info), resumes := o.resumes + 1)
  }

  function ObserveAll(o: Observed, es: seq<Event>): Observed
    decreases |es|
  {
    if es == [] then o else ObserveAll(Observe(o, es[0]), es[1..])
  }

  /** The index a scenario of n operations is at after its index has moved `visit` times. */
  function Position(n: int, loopOpIndex: int, visit: nat): int
    requires 0 <= loopOpIndex < n
  {
    if visit < n then visit else loopOpIndex + (visit - loopOpIndex) % (n - loopOpIndex)
  }

  function Armed(info: ClientInfo): nat {
    if info.timerArmed then 1 else 0
  }

  /** Continuations of this client that are still to come: posted ones and the timer's. */
  function LiveContinuations(info: ClientInfo): nat {
    info.posted + Armed(info)
  }

  // ----- the invariant -----

  /** The control invariant: an armed timer belongs to the Sleep the index is at. */
  ghost predicate InControl(o: Observed) {
    && Played(o.info)
    && (o.info.timerArmed ==> CurrentOp(o.info).Sleep? && o.ran)
    && (!o.info.paused ==> LiveContinuations(o.info) >= 1)
    && (!o.ran ==> o.info.posted > 0)
  }

  /** Every repeated operation, and every continuation beyond the first, is paid for by a resume. */
  ghost predicate Conserved(o: Observed) {
    o.repeats + LiveContinuations(o.info) - 1 + (if o.ran && !o.info.timerArmed then 1 else 0)
    == o.resumes
  }

  /** A log of visits: it starts at visit 0 and each entry repeats or follows the one before. */
  ghost predicate Walk(log: seq<nat>) {
    && (log != [] ==> log[0] == 0)
    && (forall k :: 0 < k < |log| ==> log[k - 1] <= log[k] <= log[k - 1] + 1)
  }

  /** The operations that ran form a walk: no operation is skipped or reordered, only repeated. */
  ghost predicate Walked(o: Observed) {
    && Played(o.info)
    && o.info.opIndex == Position(|o.info.ops|, o.info.loopOpIndex, o.visit)
    && Walk(o.log)
    && LogEnds(o.log, o.visit, o.ran)
    && |o.log| == o.visit + (if o.ran then 1 else 0) + o.repeats
    && (o.repeats == 0 ==> Strict(o.log))
  }

  /** The last entry is the current visit, or the one before if nothing ran during it yet. */
  predicate LogEnds(log: seq<nat>, visit: nat, ran: bool) {
    if log == [] then visit == 0 && !ran
    else log[|log| - 1] + (if ran then 0 else 1) == visit
  }

  ghost predicate Strict(log: seq<nat>) {
    forall k :: 0 <= k < |log| ==> log[k] == k
  }

  lemma PositionMoves(n: int, loopOpIndex: int, visit: nat)
    requires 0 <= loopOpIndex < n
    ensures 0 <= Position(n, loopOpIndex, visit) < n
    ensures Position(n, loopOpIndex, visit + 1)
         == Succ(n, loopOpIndex, Position(n, loopOpIndex, visit))
  {
    var period := n - loopOpIndex;
    if visit + 1 == n {
      ModUnique(period, period, 1, 0);
    } else if visit + 1 > n {
      ModStep(visit - loopOpIndex, period);
    }
  }

  /** Up to the last operation the position moves with the visit. */
  lemma {:induction false} PositionAdvances(n: int, loopOpIndex: int, visit: nat, d: nat)
    requires 0 <= loopOpIndex < n && Position(n, loopOpIndex, visit) + d < n
    ensures Position(n, loopOpIndex, visit + d) == Position(n, loopOpIndex, visit) + d
  {
    if d > 0 {
      PositionAdvances(n, loopOpIndex, visit, d - 1);
      PositionMoves(n, loopOpIndex, visit + d - 1);
    }
  }

  lemma ObserveKeepsControl(o: Observed, e: Event)
    requires InControl(o) && Conserved(o)
    ensures InControl(Observe(o, e)) && Conserved(Observe(o, e))
  {
  }

  lemma ObserveKeepsWalk(o: Observed, e: Event)
    requires InControl(o) && Walked(o)
    ensures Walked(Observe(o, e))
  {
    var o' := Observe(o, e);
    if Enabled(o, e) && e.OnNext? {
      WalkGrows(o.log, o.visit, o.ran);
      assert o'.log == o.log + [o.visit];
      assert o'.info.opIndex == Position(|o'.info.ops|, o'.info.loopOpIndex, o'.visit) by {
        PositionMoves(|o.info.ops|, o.info.loopOpIndex, o.visit);
      }
    } else if Enabled(o, e) && e.TimerExpired? {
      PositionMoves(|o.info.ops|, o.info.loopOpIndex, o.visit);
    }
  }

  lemma WalkGrows(log: seq<nat>, visit: nat, ran: bool)
    requires Walk(log) && LogEnds(log, visit, ran)
    ensures Walk(log + [visit])
    ensures LogEnds(log + [visit], visit, true) && LogEnds(log + [visit], visit + 1, false)
    ensures !ran && Strict(log) ==> Strict(log + [visit])
  {
  }

  lemma ObserveKeepsScenario(o: Observed, e: Event)
    ensures Observe(o, e).info.ops == o.info.ops
         && Observe(o, e).info.loopOpIndex == o.info.loopOpIndex
  {
  }

  /**
   * In every interleaving of continuations, timer expiries, pauses and resumes: the index stays
   * in range, an armed timer belongs to the Sleep at the index, continuations are conserved, and
   * the operations that ran form a walk from the first one.
   */
  lemma {:induction false} InterleavingInvariant(o: Observed, es: seq<Event>)
    requires InControl(o) && Conserved(o) && Walked(o)
    ensures var o' := ObserveAll(o, es);
            && InControl(o') && Conserved(o') && Walked(o')
            && o'.info.ops == o.info.ops && o'.info.loopOpIndex == o.info.loopOpIndex
    decreases |es|
  {
    if es != [] {
      ObserveKeepsControl(o, es[0]);
      ObserveKeepsWalk(o, es[0]);
      ObserveKeepsScenario(o, es[0]);
      InterleavingInvariant(Observe(o, es[0]), es[1..]);
    }
  }

  lemma PlayedOnce(ops: seq<Op>, loopOpIndex: int, es: seq<Event>)
    requires Playable(ops, loopOpIndex)
    ensures var o := ObserveAll(Begin(ops, loopOpIndex), es);
            && InControl(o) && Conserved(o) && Walked(o)
            && o.info.ops == ops && o.info.loopOpIndex == loopOpIndex
  {
    InterleavingInvariant(Begin(ops, loopOpIndex), es);
  }

  function Count(es: seq<Event>, e: Event): nat {
    if es == [] then 0 else (if es[0] == e then 1 else 0) + Count(es[1..], e)
  }

  lemma {:induction false} ResumesCounted(o: Observed, es: seq<Event>)
    requires Played(o.info) && InControl(o) && Conserved(o)
    ensures ObserveAll(o, es).resumes == o.resumes + Count(es, ResumeAll)
    decreases |es|
  {
    if es != [] {
      ObserveKeepsControl(o, es[0]);
      ResumesCounted(Observe(o, es[0]), es[1..]);
    }
  }

  /**
   * Repeated operations number at most the ResumeAll calls; without any ResumeAll the k-th
   * operation to run is the one at Position k, and there is never a second continuation.
   */
  lemma RepeatsArePaidFor(ops: seq<Op>, loopOpIndex: int, es: seq<Event>)
    requires Playable(ops, loopOpIndex)
    ensures var o := ObserveAll(Begin(ops, loopOpIndex), es);
            && o.repeats <= Count(es, ResumeAll)
            && LiveContinuations(o.info) <= 1 + Count(es, ResumeAll)
            && (Count(es, ResumeAll) == 0 ==>
                && Strict(o.log)
                && (!o.info.paused ==> LiveContinuations(o.info) == 1))
  {
    PlayedOnce(ops, loopOpIndex, es);
    ResumesCounted(Begin(ops, loopOpIndex), es);
  }

  // ----- pausing -----

  function Measure(info: ClientInfo): nat {
    2 * info.posted + Armed(info)
  }

  /** While a client is paused, each continuation that runs uses up its measure. */
  lemma PausedStepShrinks(o: Observed, e: Event)
    requires InControl(o) && o.info.paused && !e.ResumeAll?
    ensures var o' := Observe(o, e);
            && o'.info.paused && o'.info.opIndex == o.info.opIndex
            && |o'.log| + o'.info.posted == |o.log| + o.info.posted
            && Measure(o'.info) <= Measure(o.info)
            && ((e.OnNext? || e.TimerExpired?) && Enabled(o, e) ==>
                Measure(o'.info) < Measure(o.info))
  {
  }

  /**
   * After PauseAll and until ResumeAll the index does not move, and no more operations run than
   * there were posted continuations.
   */
  lemma {:induction false} PauseQuiesces(o: Observed, es: seq<Event>)
    requires InControl(o) && Conserved(o) && o.info.paused
    requires ResumeAll !in es
    ensures var o' := ObserveAll(o, es);
            && o'.info.paused && o'.info.opIndex == o.info.opIndex
            && |o'.log| - |o.log| == o.info.posted - o'.info.posted
            && Measure(o'.info) <= Measure(o.info)
    decreases |es|
  {
    if es != [] {
      PausedStepShrinks(o, es[0]);
      ObserveKeepsControl(o, es[0]);
      PauseQuiesces(Observe(o, es[0]), es[1..]);
    }
  }
}
