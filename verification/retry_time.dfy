/**
 * When a client reconnects by itself: in every schedule in which nothing is late, the retry
 * interval after its session was lost (src/virtual_client.cpp).
 */
module RetryTimes {
  import opened Base
  import opened LoadEngine
  import opened Punctual
  import opened ScenarioPlayers
  import opened Schedules
  import opened Setups
  import VC = VirtualClients

  /** Whether an action handles the end of client i's session. */
  predicate RunsLoss(l: Loop, a: Action, i: nat) {
    && a.Run? && l.queue != [] && IsLoss(l.queue[0], i)
    && Enabled(l.z, l.queue[0].event)
  }

  /** When a session of client i was last lost. */
  function LossTime(l: Loop, acts: seq<Action>, i: nat, last: int): int
    decreases |acts|
  {
    if acts == [] then last
    else LossTime(Act(l, acts[0]), acts[1..], i, if RunsLoss(l, acts[0], i) then l.now else last)
  }

  /** A retry wait ends the retry interval after the loss that it belongs to. */
  ghost predicate RetryInTime(l: Loop, i: nat, last: int) {
    var c := RetryTimer(i);
    if Armed(l.z, c) then
      && last <= l.now <= last + Clamp(l.retryMs)
      && (if c in l.due then Mine(l.queue, c) == [] && l.due[c] == last + l.retryMs
          else Mine(l.queue, c) == [Expired(c)] && l.now == last + Clamp(l.retryMs))
    else
      c !in l.due && Mine(l.queue, c) == []
  }

  /** A wait that does not go on leaves nothing behind. */
  lemma {:induction false} MineGone(queue: seq<Entry>, z: System, started: Option<(Clock, int)>,
                                    i: nat)
    requires !GoesOn(z, started, RetryTimer(i))
    ensures Mine(Kept(queue, z, started), RetryTimer(i)) == []
    decreases |queue|
  {
    if queue != [] {
      var head := if queue[0].Expired? && !GoesOn(z, started, queue[0].clock) then [] else [queue[0]];
      MineGone(queue[1..], z, started, i);
      MineConcat(head, Kept(queue[1..], z, started), RetryTimer(i));
      OneOf(queue[0], RetryTimer(i));
    }
  }

  lemma NoneArmed(z: System, e: Event, i: nat)
    requires Enabled(z, e) && !(e.OnDisconnect? && e.i == i)
    ensures |Step(z, e).clients| == |z.clients|
    ensures Armed(Step(z, e), RetryTimer(i)) ==> Armed(z, RetryTimer(i))
    ensures forall ms :: Starts(z, e, ms).None? || Starts(z, e, ms).value.0 != RetryTimer(i)
  {
    if e.OnNext? {
      TurnArmsNone(z, e);
    }
  }

  lemma TurnArmsNone(z: System, e: Event)
    requires Enabled(z, e) && e.OnNext?
    ensures |Step(z, e).clients| == |z.clients|
    ensures forall k :: 0 <= k < |z.clients| && Step(z, e).clients[k].retryArmed ==>
              z.clients[k].retryArmed
  {
    var player, s := z.players[e.path], z.clients[e.i];
    var turn := RunOp(player, s, e.path, e.i, z.pool, e.choice);
    assert turn.client.retryArmed ==> s.retryArmed;
    assert Step(z, e).clients == z.clients[e.i := turn.client];
  }

  lemma PostsNoRetry(z: System, e: Event, i: nat)
    requires Enabled(z, e)
    ensures Mine(Posts(z, e), RetryTimer(i)) == []
  {
    NoneOf(Posts(z, e), RetryTimer(i));
  }

  lemma {:induction false} NoneOf(queue: seq<Entry>, c: Clock)
    requires c.RetryTimer? && forall k :: 0 <= k < |queue| ==> queue[k].Continue?
    ensures Mine(queue, c) == []
  {
    if queue != [] {
      NoneOf(queue[1..], c);
    }
  }

  lemma OtherKeepsRetry(l: Loop, e: Event, i: nat, last: int)
    requires RetryInTime(l, i, last) && Enabled(l.z, e) && !(e.OnDisconnect? && e.i == i)
    ensures RetryInTime(Handle(l, e), i, last)
  {
    var c, z, started := RetryTimer(i), Step(l.z, e), Starts(l.z, e, l.retryMs);
    NoneArmed(l.z, e, i);
    PostsNoRetry(l.z, e, i);
    if Armed(z, c) {
      HandledElsewhere(l, e, c);
    } else {
      MineGone(l.queue, z, started, i);
      MineConcat(Kept(l.queue, z, started), Posts(l.z, e), c);
    }
  }

  lemma LossStartsRetry(l: Loop, e: Event, i: nat)
    requires Enabled(l.z, e) && e.OnDisconnect? && e.i == i
    ensures RetryInTime(Handle(l, e), i, l.now)
  {
    var c, z, started := RetryTimer(i), Step(l.z, e), Starts(l.z, e, l.retryMs);
    assert z.clients[i] == VC.AfterDisconnect(l.z.clients[i], l.z.maxRetry);
    MineGone(l.queue, z, started, i);
    PostsNoRetry(l.z, e, i);
    MineConcat(Kept(l.queue, z, started), Posts(l.z, e), c);
  }

  lemma TimerEndsRetry(l: Loop, i: nat)
    requires Alive(l.z) && MAIN in l.z.players && Armed(l.z, RetryTimer(i))
    requires Mine(l.queue, RetryTimer(i)) == [] && RetryTimer(i) !in l.due
    ensures var l' := Handle(l, OnRetryTimer(i));
            forall last :: RetryInTime(l', i, last)
  {
    var e := OnRetryTimer(i);
    var z, started := Step(l.z, e), Starts(l.z, e, l.retryMs);
    MineGone(l.queue, z, started, i);
    PostsNoRetry(l.z, e, i);
    MineConcat(Kept(l.queue, z, started), Posts(l.z, e), RetryTimer(i));
  }

  lemma RunKeepsRetry(l: Loop, a: Action, i: nat, last: int)
    requires Alive(l.z) && MAIN in l.z.players && RetryInTime(l, i, last)
    requires a.Run? && l.queue != []
    ensures RetryInTime(Act(l, a), i, if RunsLoss(l, a, i) then l.now else last)
  {
    var c, rest := RetryTimer(i), l.(queue := l.queue[1..]);
    var e := EventOf(l.queue[0], a.choice);
    MineHead(l.queue, c);
    if l.queue[0] == Expired(c) {
      TimerEndsRetry(rest, i);
    } else if Enabled(l.z, e) {
      if e.OnDisconnect? && e.i == i {
        LossStartsRetry(rest, e, i);
      } else {
        OtherKeepsRetry(rest, e, i, last);
      }
    }
  }

  lemma WaitKeepsRetry(l: Loop, a: Action, i: nat, last: int)
    requires RetryInTime(l, i, last) && InTime(l, a) && !a.Run?
    ensures RetryInTime(Act(l, a), i, last)
  {
    var c := RetryTimer(i);
    match a {
      case Expire(d) =>
        OneOf(Expired(d), c);
        MineConcat(l.queue, [Expired(d)], c);
      case Arrive(e) =>
        OneOf(Posted(e), c);
        MineConcat(l.queue, [Posted(e)], c);
      case Pass(ms) =>
    }
  }

  lemma MainIsThere(l: Loop, a: Action)
    requires MAIN in l.z.players
    ensures MAIN in Act(l, a).z.players
  {
    if Can(l, a) && a.Run? {
      MainStays(l.z, EventOf(l.queue[0], a.choice));
    }
  }

  lemma {:induction false} StaysInTime(l: Loop, acts: seq<Action>, i: nat, last: int)
    requires MAIN in l.z.players && (Alive(l.z) ==> RetryInTime(l, i, last)) && Prompt(l, acts)
    ensures var l' := Acts(l, acts);
            Alive(l'.z) ==> RetryInTime(l', i, LossTime(l, acts, i, last))
    decreases |acts|
  {
    if acts != [] {
      var a := acts[0];
      var last' := if RunsLoss(l, a, i) then l.now else last;
      if Alive(l.z) {
        if a.Run? {
          RunKeepsRetry(l, a, i, last);
        } else {
          WaitKeepsRetry(l, a, i, last);
        }
      }
      MainIsThere(l, a);
      StaysInTime(Act(l, a), acts[1..], i, last');
    }
  }

  /**
   * In every schedule in which nothing is late, whatever keys are pressed: a client that waits to
   * reconnect does so exactly the retry interval after its session was lost, and at no moment has
   * it waited longer.
   */
  lemma RetryIsTimely(u: Setup, acts: seq<Action>, i: nat)
    requires u.c.hatchRate > 0.0 && Prompt(Begin(u), acts)
    ensures var l, lost := Acts(Begin(u), acts), LossTime(Begin(u), acts, i, 0);
            Alive(l.z) ==>
              && (i < |l.z.clients| && l.z.clients[i].retryArmed ==> l.now <= lost + Clamp(u.retryMs))
              && (l.queue != [] && l.queue[0] == Expired(RetryTimer(i)) ==>
                    && Enabled(l.z, OnRetryTimer(i)) && l.now == lost + Clamp(u.retryMs))
  {
    var l0 := Begin(u);
    NoRetryAtFirst(u, i);
    StaysInTime(l0, acts, i, 0);
    var l := Acts(l0, acts);
    RetrySettings(l0, acts);
    if Alive(l.z) && l.queue != [] && l.queue[0] == Expired(RetryTimer(i)) {
      MineHead(l.queue, RetryTimer(i));
      assert Mine(l.queue, RetryTimer(i))[0] == Expired(RetryTimer(i));
    }
  }

  lemma NoRetryAtFirst(u: Setup, i: nat)
    requires u.c.hatchRate > 0.0
    ensures MAIN in Begin(u).z.players && RetryInTime(Begin(u), i, 0)
  {
    NoneOf(Continues(u.n), RetryTimer(i));
  }

  lemma {:induction false} RetrySettings(l: Loop, acts: seq<Action>)
    requires MAIN in l.z.players
    ensures Acts(l, acts).retryMs == l.retryMs && MAIN in Acts(l, acts).z.players
    decreases |acts|
  {
    if acts != [] {
      MainIsThere(l, acts[0]);
      RetrySettings(Act(l, acts[0]), acts[1..]);
    }
  }
}
