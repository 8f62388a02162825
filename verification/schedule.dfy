/**
 * The ready queue and the clocks of the event loop (boost::asio::io_context with one thread): what
 * was posted first runs first, and waits complete in the order of their deadlines.
 *
 * A `Loop` holds the system, the handlers that are ready, and the deadlines of the waits that are
 * not over. Everything that holds of all event sequences holds of all schedules; a schedule shows
 * that something can happen.
 */
module Schedules {
  import opened Base
  import opened DataChannels
  import opened LoadEngine
  import opened Messages
  import opened ScenarioBuilder
  import S = Scenarios
  import VC = VirtualClients

  /** A wait: that of a Sleep, or that before a retry. */
  datatype Clock = OpTimer(path: Path, i: nat) | RetryTimer(i: nat)

  /** A ready handler: a continuation, the end of a wait, or what another thread has posted. */
  datatype Entry = Continue(path: Path, i: nat) | Expired(clock: Clock) | Posted(event: Event)

  datatype Loop = Loop(z: System, queue: seq<Entry>, now: int, due: map<Clock, int>, retryMs: int)

  predicate Armed(z: System, c: Clock) {
    match c
    case OpTimer(p, i) =>
      p in z.players && i < |z.players[p].infos| && z.players[p].infos[i].timerArmed
    case RetryTimer(i) => i < |z.clients| && z.clients[i].retryArmed
  }

  function Start(c: Config, channels: seq<Channel>, maxRetry: int, pool: Pool, n: nat,
                 retryMs: int): Loop
    requires c.hatchRate > 0.0
  {
    Loop(Boot(c, channels, maxRetry, pool, n), Continues(n), 0, map[], retryMs)
  }

  function Continues(n: nat): (q: seq<Entry>)
    ensures |q| == n && forall k :: 0 <= k < n ==> q[k] == Continue(MAIN, k)
  {
    seq(n, k requires 0 <= k => Continue(MAIN, k))
  }

  // ----- running a handler -----

  function EventOf(entry: Entry, choice: Choice): Event {
    match entry
    case Continue(p, i) => OnNext(p, i, choice)
    case Expired(OpTimer(p, i)) => OnTimer(p, i)
    case Expired(RetryTimer(i)) => OnRetryTimer(i)
    case Posted(e) => e
  }

  /** The continuations that a handler posts, in order. */
  function Posts(z: System, e: Event): seq<Entry>
    requires Enabled(z, e)
  {
    match e
    case OnNext(p, i, _) =>
      var info := z.players[p].infos[i];
      var op := S.CurrentOp(info);
      if op.Sleep? || Step(z, e).faulted then []
      else
        (if op.PlaySubScenario? && S.Playable(op.ops, op.loopOpIndex)
         then [Continue(p + [op.name], i)] else [])
        + (if info.paused then [] else [Continue(p, i)])
    case OnTimer(p, i) => if z.players[p].infos[i].paused then [] else [Continue(p, i)]
    case ResumeAll => Continues(|z.players[MAIN].infos|)
    case _ => []
  }

  /** The wait that a handler starts, and for how long. */
  function Starts(z: System, e: Event, retryMs: int): Option<(Clock, int)>
    requires Enabled(z, e)
  {
    match e
    case OnNext(p, i, c) =>
      var op := S.CurrentOp(z.players[p].infos[i]);
      if !op.Sleep? then None
      else Some((OpTimer(p, i),
                 if op.minTimeMs <= op.maxTimeMs then S.Delay(op, c.random) else op.minTimeMs))
    case OnDisconnect(i, _) =>
      if VC.AfterDisconnect(z.clients[i], z.maxRetry).retryArmed then Some((RetryTimer(i), retryMs))
      else None
    case _ => None
  }

  /** A wait goes on unless a handler has cancelled it or started it anew. */
  predicate GoesOn(z: System, started: Option<(Clock, int)>, c: Clock) {
    Armed(z, c) && !(started.Some? && started.value.0 == c)
  }

  /** A wait that was cancelled does not complete, not even if its end was ready already. */
  function Kept(queue: seq<Entry>, z: System, started: Option<(Clock, int)>): seq<Entry> {
    if queue == [] then []
    else (if queue[0].Expired? && !GoesOn(z, started, queue[0].clock) then [] else [queue[0]])
         + Kept(queue[1..], z, started)
  }

  function KeptDue(due: map<Clock, int>, z: System, started: Option<(Clock, int)>): map<Clock, int> {
    map c | c in due && GoesOn(z, started, c) :: due[c]
  }

  function Handle(l: Loop, e: Event): Loop {
    if !Enabled(l.z, e) then l else
    var z, started := Step(l.z, e), Starts(l.z, e, l.retryMs);
    var due := KeptDue(l.due, z, started);
    l.(z := z,
       queue := Kept(l.queue, z, started) + Posts(l.z, e),
       due := if started.Some? then due[started.value.0 := l.now + started.value.1] else due)
  }

  // ----- schedules -----

  /** The loop runs what is ready, a wait ends, another thread posts something, or time passes. */
  datatype Action = Run(choice: Choice) | Expire(clock: Clock) | Arrive(event: Event) | Pass(ms: nat)

  /** What another thread can post: keys, if there is a key trigger, and what a session reports. */
  predicate CanArrive(l: Loop, e: Event) {
    && Enabled(l.z, e)
    && match e
       case OnNext(_, _, _) => false
       case OnTimer(_, _) => false
       case OnRetryTimer(_) => false
       case OnDisconnect(i, _) =>
         forall k :: 0 <= k < |l.queue| ==> !IsLoss(l.queue[k], i)
       case _ => true
  }

  /** The end of client i's session is ready to be handled. */
  predicate IsLoss(entry: Entry, i: nat) {
    entry.Posted? && entry.event.OnDisconnect? && entry.event.i == i
  }

  predicate Can(l: Loop, a: Action) {
    match a
    case Run(_) => l.queue != []
    case Expire(c) =>
      c in l.due && l.due[c] <= l.now && forall d :: d in l.due ==> l.due[c] <= l.due[d]
    case Arrive(e) => CanArrive(l, e)
    case Pass(_) => true
  }

  function Act(l: Loop, a: Action): Loop {
    if !Can(l, a) then l else
    match a
    case Run(choice) => Handle(l.(queue := l.queue[1..]), EventOf(l.queue[0], choice))
    case Expire(c) => l.(queue := l.queue + [Expired(c)], due := l.due - {c})
    case Arrive(e) => l.(queue := l.queue + [Posted(e)])
    case Pass(ms) => l.(now := l.now + ms)
  }

  function Acts(l: Loop, acts: seq<Action>): Loop
    decreases |acts|
  {
    if acts == [] then l else Acts(Act(l, acts[0]), acts[1..])
  }

  /** The keys that were pressed, in order. */
  function Keys(acts: seq<Action>): seq<Event> {
    if acts == [] then [] else KeyOf(acts[0]) + Keys(acts[1..])
  }

  function KeyOf(a: Action): seq<Event> {
    if a.Arrive? && IsKey(a.event) then [a.event] else []
  }

  /** Time passes only while nothing is ready, and no further than to the first deadline. */
  predicate InTime(l: Loop, a: Action) {
    && Can(l, a)
    && (a.Pass? ==> l.queue == [] && forall c :: c in l.due ==> l.now + a.ms <= l.due[c])
  }

  /** A schedule in which nothing is ever late. */
  predicate Prompt(l: Loop, acts: seq<Action>)
    decreases |acts|
  {
    acts != [] ==> InTime(l, acts[0]) && Prompt(Act(l, acts[0]), acts[1..])
  }

  // ----- every schedule is a run -----

  /** The handlers that a schedule runs. */
  function Trace(l: Loop, acts: seq<Action>): seq<Event>
    decreases |acts|
  {
    if acts == [] then []
    else (if acts[0].Run? && l.queue != [] then [EventOf(l.queue[0], acts[0].choice)] else [])
         + Trace(Act(l, acts[0]), acts[1..])
  }

  lemma {:induction false} SchedulesAreRuns(l: Loop, acts: seq<Action>)
    ensures Acts(l, acts).z == Steps(l.z, Trace(l, acts))
    decreases |acts|
  {
    if acts != [] {
      var l' := Act(l, acts[0]);
      SchedulesAreRuns(l', acts[1..]);
      if acts[0].Run? && l.queue != [] {
        var e, rest := EventOf(l.queue[0], acts[0].choice), Trace(l', acts[1..]);
        assert ([e] + rest)[1..] == rest;
      } else {
        assert [] + Trace(l', acts[1..]) == Trace(l', acts[1..]);
      }
    }
  }

  /** Nothing of this kind has been posted. */
  predicate NoResume(queue: seq<Entry>) {
    forall k :: 0 <= k < |queue| ==> queue[k] != Posted(ResumeAll)
  }

  predicate NoConnect(queue: seq<Entry>) {
    forall k :: 0 <= k < |queue| ==> !(queue[k].Posted? && queue[k].event.ManualConnect?)
  }

  /** Posted events come from other threads only: running a handler adds none. */
  lemma {:induction false} KeptIsOld(queue: seq<Entry>, z: System, started: Option<(Clock, int)>)
    ensures forall k :: 0 <= k < |Kept(queue, z, started)| ==> Kept(queue, z, started)[k] in queue
  {
    if queue != [] {
      KeptIsOld(queue[1..], z, started);
      var rest := Kept(queue[1..], z, started);
      forall k | 0 <= k < |Kept(queue, z, started)|
        ensures Kept(queue, z, started)[k] in queue
      {
        var e := Kept(queue, z, started)[k];
        assert e == queue[0] || e in rest;
        if e in rest {
          assert e in queue[1..];
        }
      }
    }
  }

  lemma ActPosts(l: Loop, a: Action)
    ensures forall k :: 0 <= k < |Act(l, a).queue| ==>
              var e := Act(l, a).queue[k];
              e in l.queue || !e.Posted? || a == Arrive(e.event)
  {
    if Can(l, a) && a.Run? {
      var e := EventOf(l.queue[0], a.choice);
      if Enabled(l.z, e) {
        KeptIsOld(l.queue[1..], Step(l.z, e), Starts(l.z, e, l.retryMs));
      }
    }
  }

  lemma {:induction false} UnaskedNeverRuns(l: Loop, acts: seq<Action>)
    ensures NoResume(l.queue) && Resumes(Keys(acts)) == 0 ==> ResumeAll !in Trace(l, acts)
    ensures NoConnect(l.queue) && Connects(Keys(acts)) == 0 ==>
              forall e :: e in Trace(l, acts) ==> !e.ManualConnect?
    decreases |acts|
  {
    if acts != [] {
      var l' := Act(l, acts[0]);
      ActPosts(l, acts[0]);
      KeysGrow(acts);
      UnaskedNeverRuns(l', acts[1..]);
    }
  }

  lemma KeysGrow(acts: seq<Action>)
    requires acts != []
    ensures Resumes(Keys(acts))
         == Resumes(Keys(acts[1..])) + (if acts[0] == Arrive(ResumeAll) then 1 else 0)
    ensures Connects(Keys(acts))
         == Connects(Keys(acts[1..]))
            + (if acts[0].Arrive? && acts[0].event.ManualConnect? then 1 else 0)
  {
    var key, rest := KeyOf(acts[0]), Keys(acts[1..]);
    if key == [] {
      assert key + rest == rest;
    } else {
      assert (key + rest)[1..] == rest;
    }
  }
}
