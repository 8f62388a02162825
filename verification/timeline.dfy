/**
 * Prompt schedules of scenarios that wait, connect and disconnect, from the start on: who waits
 * for what, and until when.
 */
module Timelines {
  import opened Base
  import opened ClientRuns
  import opened LoadEngine
  import opened PromptRuns
  import opened Schedules
  import S = Scenarios
  import VC = VirtualClients

  /** Every client's scenario, its loop index, how long a session lasts, and the hatch delays. */
  datatype Plan = Plan(ops: seq<seq<S.Op>>, li: nat, lasts: int, delays: seq<int>)

  ghost predicate Valid(p: Plan) {
    && |p.ops| == |p.delays|
    && (forall i :: 0 <= i < |p.ops| ==> ClientValid(p, i))
    && (forall i, j :: 0 <= i < j < |p.ops| ==> p.delays[i] <= p.delays[j])
    && (p.delays != [] ==> p.delays[0] == 0)
  }

  ghost predicate ClientValid(p: Plan, i: nat)
    requires i < |p.ops| == |p.delays|
  {
    && Script(p.ops[i], p.li, p.lasts)
    && p.ops[i][0] == S.Sleep(p.delays[i], p.delays[i]) && p.delays[i] >= 0
  }

  /** After its disconnect, every client exits. */
  ghost predicate Exits(p: Plan) {
    forall i :: 0 <= i < |p.ops| ==> |p.ops[i]| == p.li + 3 && p.ops[i][p.li + 2].Exit?
  }

  // ----- the first turns -----

  /** The first k clients wait for their turn to hatch, the others are about to. */
  ghost predicate Opening(p: Plan, l0: Loop, l: Loop, k: nat)
    requires Valid(p)
  {
    && k <= |p.ops| == |l.z.clients| && Steady(l) && NotLate(l) && l.now == 0 && Reach(l0, l, [])
    && l.queue == Continues(|p.ops|)[k..]
    && (forall i :: 0 <= i < |p.ops| ==> l.z.clients[i] == VC.INITIAL)
    && (forall i :: 0 <= i < k ==>
          l.z.players[MAIN].infos[i] == Waiting(p.ops[i], p.li, 0, false)
          && MainDue(l, i) == Some(p.delays[i]))
    && (forall i :: k <= i < |p.ops| ==>
          l.z.players[MAIN].infos[i] == Ready(p.ops[i], p.li, 0, false))
  }

  lemma FirstTurn(l0: Loop, l: Loop, i: nat, ops: seq<S.Op>, li: nat, h: int, rest: seq<Entry>)
    returns (l': Loop)
    requires Reach(l0, l, []) && Steady(l) && l.queue == [Continue(MAIN, i)] + rest
    requires i < |l.z.clients| && l.z.players[MAIN].infos[i] == Ready(ops, li, 0, false)
    requires li < |ops| && ops[0] == S.Sleep(h, h) && !l.z.clients[i].retryArmed
    ensures Reach(l0, l', []) && Steady(l')
    ensures l'.z == With(l.z, i, Waiting(ops, li, 0, false), l.z.clients[i])
    ensures l' == l.(z := l'.z, queue := rest, due := l.due[OpTimer(MAIN, i) := l.now + h])
  {
    PlainTurn(l.z, i);
    l' := RunPlain(l0, l, [], i, rest);
    assert rest + [] == rest;
  }

  lemma NextOpens(p: Plan, l0: Loop, l: Loop, k: nat) returns (l': Loop)
    requires Valid(p) && Opening(p, l0, l, k) && k < |p.ops|
    ensures Opening(p, l0, l', k + 1)
    ensures l'.z.keyTrigger == l.z.keyTrigger && l'.z.maxRetry == l.z.maxRetry
    ensures l'.retryMs == l.retryMs
  {
    var rest := Continues(|p.ops|)[k + 1..];
    assert l.queue == [Continue(MAIN, k)] + rest;
    assert ClientValid(p, k);
    l' := FirstTurn(l0, l, k, p.ops[k], p.li, p.delays[k], rest);
    assert l'.z.clients == l.z.clients;
  }

  lemma AllOpen(p: Plan, l0: Loop, l: Loop, k: nat) returns (l': Loop)
    requires Valid(p) && Opening(p, l0, l, k)
    ensures Opening(p, l0, l', |p.ops|)
    ensures l'.z.keyTrigger == l.z.keyTrigger && l'.z.maxRetry == l.z.maxRetry
    ensures l'.retryMs == l.retryMs
    decreases |p.ops| - k
  {
    if k == |p.ops| {
      l' := l;
    } else {
      var l1 := NextOpens(p, l0, l, k);
      l' := AllOpen(p, l0, l1, k + 1);
    }
  }

  // ----- stages -----

  /** Where a client is: it waits to hatch, it is up, it was asked to exit, or it has exited. */
  datatype Phase = Hatching | Up | Asked | Gone

  predicate Early(ph: Phase) {
    ph.Hatching? || ph.Up?
  }

  function DueAt(p: Plan, i: nat, ph: Phase): int
    requires i < |p.delays|
  {
    p.delays[i] + (match ph
                   case Hatching => 0
                   case Up => p.lasts
                   case _ => 2 * p.lasts)
  }

  function InfoAt(p: Plan, i: nat, ph: Phase): S.ClientInfo
    requires i < |p.ops|
  {
    Waiting(p.ops[i], p.li, if ph.Hatching? then 0 else p.li, ph.Gone?)
  }

  function StateAt(i: nat, ph: Phase): VC.State {
    match ph
    case Up => UP
    case Asked => Leaving(i)
    case _ => VC.INITIAL
  }

  ghost predicate AtPhase(p: Plan, l: Loop, i: nat, ph: Phase) {
    && MAIN in l.z.players && |l.z.players[MAIN].infos| == |l.z.clients|
    && i < |p.ops| == |p.delays| == |l.z.clients|
    && l.z.players[MAIN].infos[i] == InfoAt(p, i, ph)
    && Bare(l.z.clients[i]) == StateAt(i, ph)
    && MainDue(l, i) == Some(DueAt(p, i, ph))
  }

  ghost predicate Staged(p: Plan, l0: Loop, l: Loop, phs: seq<Phase>) {
    && Reach(l0, l, []) && Steady(l) && l.queue == [] && NotLate(l)
    && |phs| == |p.ops| == |l.z.clients|
    && forall i :: 0 <= i < |phs| ==> AtPhase(p, l, i, phs[i])
  }

  ghost predicate SameSettings(l: Loop, l': Loop) {
    l'.z.keyTrigger == l.z.keyTrigger && l'.z.maxRetry == l.z.maxRetry && l'.retryMs == l.retryMs
  }

  /** All clients have had their first turn. */
  lemma Opened(p: Plan, l0: Loop, l: Loop) returns (phs: seq<Phase>)
    requires Valid(p) && Opening(p, l0, l, |p.ops|)
    ensures phs == seq(|p.ops|, _ => Hatching) && Staged(p, l0, l, phs)
  {
    phs := seq(|p.ops|, _ => Hatching);
  }

  /** A deadline that is not of a nested player is that of a client's phase. */
  lemma DueIsStaged(p: Plan, l0: Loop, l: Loop, phs: seq<Phase>, d: Clock)
    requires Staged(p, l0, l, phs) && d in l.due && !IsBack(d)
    ensures d.OpTimer? && d.path == MAIN && d.i < |phs| && l.due[d] == DueAt(p, d.i, phs[d.i])
  {
    assert Armed(l.z, d);
    assert d.i < |phs|;
    assert AtPhase(p, l, d.i, phs[d.i]);
    assert Bare(l.z.clients[d.i]).retryArmed == l.z.clients[d.i].retryArmed;
  }

  /** Time passes to the next deadline of the main player. */
  lemma ToDeadline(p: Plan, l0: Loop, l: Loop, phs: seq<Phase>, k: nat) returns (l': Loop)
    requires Staged(p, l0, l, phs) && k < |phs|
    requires forall i :: 0 <= i < |phs| ==> DueAt(p, k, phs[k]) <= DueAt(p, i, phs[i])
    ensures Staged(p, l0, l', phs) && l'.now == DueAt(p, k, phs[k]) && SameSettings(l, l')
  {
    var t := DueAt(p, k, phs[k]);
    assert AtPhase(p, l, k, phs[k]);
    forall d | d in l.due && l.due[d] < t
      ensures IsBack(d)
    {
      if !IsBack(d) {
        DueIsStaged(p, l0, l, phs, d);
      }
    }
    l' := Background(l0, l, [], t);
    forall i | 0 <= i < |phs|
      ensures AtPhase(p, l', i, phs[i])
    {
      assert AtPhase(p, l, i, phs[i]);
    }
  }

  /** What a handler's turn of client k does to the stages of all. */
  lemma Restaged(p: Plan, l0: Loop, l: Loop, l': Loop, phs: seq<Phase>, k: nat, ph: Phase)
    requires Staged(p, l0, l, phs) && k < |phs| && OthersSame(l, l', k)
    requires Reach(l0, l', []) && Steady(l') && l'.queue == [] && NotLate(l')
    requires AtPhase(p, l', k, ph)
    ensures Staged(p, l0, l', phs[k := ph])
  {
    var phs' := phs[k := ph];
    forall i | 0 <= i < |phs'|
      ensures AtPhase(p, l', i, phs'[i])
    {
      assert AtPhase(p, l, i, phs[i]);
    }
  }

  /** Client k rests in its phase, and its wait is over. */
  ghost predicate Over(p: Plan, l0: Loop, l: Loop, k: nat, ph: Phase) {
    && k < |p.ops| == |p.delays| && AtPhase(p, l, k, ph) && l.now == DueAt(p, k, ph)
    && NotLate(l) && Resting(l0, l, [], k, InfoAt(p, k, ph), l.now)
  }

  lemma StagedIsOver(p: Plan, l0: Loop, l: Loop, phs: seq<Phase>, k: nat)
    requires Staged(p, l0, l, phs) && |p.ops| == |p.delays| && k < |phs|
    requires l.now == DueAt(p, k, phs[k])
    ensures Over(p, l0, l, k, phs[k])
  {
    assert AtPhase(p, l, k, phs[k]);
    assert Bare(l.z.clients[k]).retryArmed == l.z.clients[k].retryArmed;
  }

  lemma HatchOver(p: Plan, l0: Loop, l: Loop, k: nat) returns (l': Loop)
    requires Over(p, l0, l, k, Hatching) && ClientValid(p, k) && p.lasts >= 0
    ensures AtPhase(p, l', k, Up) && OthersSame(l, l', k) && Reach(l0, l', [])
    ensures Steady(l') && l'.queue == [] && NotLate(l')
  {
    assert l.z.clients[k] == VC.INITIAL;
    l' := Hatch(l0, l, [], k, p.ops[k], p.li, p.lasts);
  }

  lemma HatchNow(p: Plan, l0: Loop, l: Loop, phs: seq<Phase>, k: nat) returns (l': Loop)
    requires Valid(p) && p.lasts >= 0 && Staged(p, l0, l, phs) && k < |phs|
    requires phs[k].Hatching? && l.now == DueAt(p, k, phs[k])
    ensures Staged(p, l0, l', phs[k := Up]) && SameSettings(l, l')
  {
    StagedIsOver(p, l0, l, phs, k);
    assert ClientValid(p, k);
    l' := HatchOver(p, l0, l, k);
    Restaged(p, l0, l, l', phs, k, Up);
  }

  lemma LeaveOver(p: Plan, l0: Loop, l: Loop, k: nat) returns (l': Loop)
    requires Over(p, l0, l, k, Up) && ClientValid(p, k) && p.lasts >= 0
    requires |p.ops[k]| == p.li + 3 && p.ops[k][p.li + 2].Exit?
    ensures AtPhase(p, l', k, Asked) && OthersSame(l, l', k) && Reach(l0, l', [])
    ensures Steady(l') && l'.queue == [] && NotLate(l')
  {
    l' := Leave(l0, l, [], k, p.ops[k], p.li, p.lasts);
  }

  lemma LeaveNow(p: Plan, l0: Loop, l: Loop, phs: seq<Phase>, k: nat) returns (l': Loop)
    requires Valid(p) && Exits(p) && p.lasts >= 0 && Staged(p, l0, l, phs) && k < |phs|
    requires phs[k].Up? && l.now == DueAt(p, k, phs[k])
    ensures Staged(p, l0, l', phs[k := Asked]) && SameSettings(l, l')
  {
    StagedIsOver(p, l0, l, phs, k);
    assert ClientValid(p, k);
    l' := LeaveOver(p, l0, l, k);
    Restaged(p, l0, l, l', phs, k, Asked);
  }

  lemma ExitNow(p: Plan, l0: Loop, l: Loop, phs: seq<Phase>, k: nat, j: nat) returns (l': Loop)
    requires Staged(p, l0, l, phs) && k < |phs| && phs[k].Asked?
    requires j < |phs| && j != k && !phs[j].Gone?
    ensures Staged(p, l0, l', phs[k := Gone]) && SameSettings(l, l')
  {
    assert AtPhase(p, l, k, phs[k]) && AtPhase(p, l, j, phs[j]);
    var due := DueAt(p, k, Asked);
    assert !l.z.clients[k].retryArmed by {
      assert Bare(l.z.clients[k]).retryArmed == l.z.clients[k].retryArmed;
    }
    l' := Deliver(l0, l, [], k, InfoAt(p, k, Asked), due, j);
    Restaged(p, l0, l, l', phs, k, Gone);
  }

  /** Client k moves on to its next phase; unless it is slow, it exits while client j has not. */
  lemma Rise(p: Plan, l0: Loop, l: Loop, phs: seq<Phase>, k: nat, slow: bool, j: nat)
    returns (l': Loop, ph: Phase)
    requires Valid(p) && p.lasts >= 0 && Staged(p, l0, l, phs) && k < |phs| && Early(phs[k])
    requires phs[k].Up? ==> Exits(p)
    requires phs[k].Up? && !slow ==> j < |phs| && j != k && !phs[j].Gone?
    requires forall i :: 0 <= i < |phs| ==> DueAt(p, k, phs[k]) <= DueAt(p, i, phs[i])
    ensures Staged(p, l0, l', phs[k := ph]) && SameSettings(l, l')
    ensures ph == if phs[k].Hatching? then Up else if slow then Asked else Gone
  {
    var l1 := ToDeadline(p, l0, l, phs, k);
    if phs[k].Hatching? {
      l' := HatchNow(p, l0, l1, phs, k);
      ph := Up;
    } else {
      var l2 := LeaveNow(p, l0, l1, phs, k);
      ph := Asked;
      l' := l2;
      if !slow {
        var asked := phs[k := Asked];
        l' := ExitNow(p, l0, l2, asked, k, j);
        ph := Gone;
        assert asked[k := Gone] == phs[k := Gone];
      }
    }
  }

  // ----- up to a moment in a client's life -----

  /** Phases that all clients have still to go through. */
  function Left(phs: seq<Phase>): nat {
    if phs == [] then 0
    else Left(phs[..|phs| - 1])
         + (match phs[|phs| - 1] case Hatching => 3 case Up => 2 case Asked => 1 case Gone => 0)
  }

  lemma {:induction false} LeftFalls(phs: seq<Phase>, k: nat, ph: Phase)
    requires k < |phs|
    requires phs[k].Hatching? ==> ph.Up?
    requires phs[k].Up? ==> ph.Asked? || ph.Gone?
    requires Early(phs[k])
    ensures Left(phs[k := ph]) < Left(phs)
  {
    var n := |phs| - 1;
    if k == n {
      assert phs[k := ph][..n] == phs[..n];
    } else {
      assert phs[k := ph][..n] == phs[..n][k := ph];
      LeftFalls(phs[..n], k, ph);
    }
  }

  /**
   * Client k has something to do by the time t at which client i should be in phase `goal`. When
   * the first client's session is about to end, no other client's is before it.
   */
  predicate Due(p: Plan, phs: seq<Phase>, i: nat, goal: Phase, t: int, k: nat)
    requires k < |phs| == |p.delays|
  {
    && Early(phs[k]) && DueAt(p, k, phs[k]) <= t && (k == i ==> phs[k] != goal)
    && (i == 0 && goal.Up? ==> phs[k].Hatching?)
  }

  /** The earliest of the first m clients that have something to do, if there is one. */
  lemma Earliest(p: Plan, phs: seq<Phase>, i: nat, goal: Phase, t: int, m: nat)
    returns (found: bool, k: nat)
    requires m <= |phs| == |p.delays|
    ensures found ==> k < m && Due(p, phs, i, goal, t, k)
    ensures found ==> forall j :: 0 <= j < m && Due(p, phs, i, goal, t, j) ==>
                        DueAt(p, k, phs[k]) <= DueAt(p, j, phs[j])
    ensures !found ==> forall j :: 0 <= j < m ==> !Due(p, phs, i, goal, t, j)
  {
    if m == 0 {
      found, k := false, 0;
    } else {
      found, k := Earliest(p, phs, i, goal, t, m - 1);
      if Due(p, phs, i, goal, t, m - 1)
         && (!found || DueAt(p, m - 1, phs[m - 1]) < DueAt(p, k, phs[k])) {
        found, k := true, m - 1;
      }
    }
  }

  /** A moment for client i, before which no other client comes round a second time. */
  ghost predicate Reachable(p: Plan, i: nat, goal: Phase) {
    && Valid(p) && p.lasts >= 0 && i < |p.ops|
    && (goal.Up? || (goal.Gone? && |p.ops| >= 2)) && (Exits(p) || (i == 0 && goal.Up?))
    && forall j :: 0 <= j < |p.ops| ==> DueAt(p, i, goal) <= DueAt(p, j, Gone)
  }

  /** No client has anything left to do before client i's wait in phase `goal` ends. */
  ghost predicate Arrived(p: Plan, l0: Loop, l: Loop, phs: seq<Phase>, i: nat, goal: Phase) {
    && Staged(p, l0, l, phs) && i < |phs| == |p.delays| && phs[i] == goal
    && l.now == DueAt(p, i, goal)
    && (forall j :: 0 <= j < |phs| ==> DueAt(p, i, goal) <= DueAt(p, j, phs[j]))
    && (forall j :: 0 <= j < |phs| && j != i && i > 0 && Early(phs[j]) ==>
          DueAt(p, i, goal) < DueAt(p, j, phs[j]))
  }

  /** The others exit as soon as they are asked to, or, if the goal is an exit, not yet. */
  ghost predicate OnTheWay(phs: seq<Phase>, i: nat, goal: Phase)
    requires i < |phs|
  {
    && (goal.Up? ==> Early(phs[i]) && forall j :: 0 <= j < |phs| ==> !phs[j].Asked?)
    && (goal.Gone? ==> !phs[i].Asked? && forall j :: 0 <= j < |phs| && j != i ==> !phs[j].Gone?)
  }

  /** The earliest client that has something to do by then is the earliest of all. */
  lemma EarliestOfAll(p: Plan, phs: seq<Phase>, i: nat, goal: Phase, k: nat)
    requires Reachable(p, i, goal) && |phs| == |p.ops| && k < |phs|
    requires Due(p, phs, i, goal, DueAt(p, i, goal), k)
    requires forall j :: 0 <= j < |phs| && Due(p, phs, i, goal, DueAt(p, i, goal), j) ==>
               DueAt(p, k, phs[k]) <= DueAt(p, j, phs[j])
    ensures forall j :: 0 <= j < |phs| ==> DueAt(p, k, phs[k]) <= DueAt(p, j, phs[j])
  {
    forall j | 0 <= j < |phs|
      ensures DueAt(p, k, phs[k]) <= DueAt(p, j, phs[j])
    {
      if !Due(p, phs, i, goal, DueAt(p, i, goal), j) && !Early(phs[j]) {
        assert DueAt(p, j, phs[j]) == DueAt(p, j, Gone);
      }
    }
  }

  lemma StaysOnTheWay(phs: seq<Phase>, i: nat, goal: Phase, k: nat, ph: Phase)
    requires i < |phs| && k < |phs| && OnTheWay(phs, i, goal) && Early(phs[k])
    requires k == i ==> phs[k] != goal
    requires ph == if phs[k].Hatching? then Up else if k != i && goal.Gone? then Asked else Gone
    requires goal.Up? || goal.Gone?
    ensures OnTheWay(phs[k := ph], i, goal)
  {
  }

  lemma DriveOnce(p: Plan, l0: Loop, l: Loop, phs: seq<Phase>, i: nat, goal: Phase, k: nat)
    returns (l': Loop, phs': seq<Phase>)
    requires Reachable(p, i, goal) && Staged(p, l0, l, phs) && OnTheWay(phs, i, goal)
    requires k < |phs| && Due(p, phs, i, goal, DueAt(p, i, goal), k)
    requires forall j :: 0 <= j < |phs| ==> DueAt(p, k, phs[k]) <= DueAt(p, j, phs[j])
    ensures Staged(p, l0, l', phs') && OnTheWay(phs', i, goal) && SameSettings(l, l')
    ensures Left(phs') < Left(phs)
  {
    var j := if k != i then i else if i == 0 then 1 else 0;
    var slow := k != i && goal.Gone?;
    assert phs[k].Up? && !slow ==> j < |phs| && !phs[j].Gone?;
    var ph;
    l', ph := Rise(p, l0, l, phs, k, slow, j);
    LeftFalls(phs, k, ph);
    StaysOnTheWay(phs, i, goal, k, ph);
    phs' := phs[k := ph];
  }

  /** Nothing is left to do by then. */
  lemma NothingDue(p: Plan, phs: seq<Phase>, i: nat, goal: Phase)
    requires Reachable(p, i, goal) && |phs| == |p.ops| && OnTheWay(phs, i, goal)
    requires forall j :: 0 <= j < |phs| ==> !Due(p, phs, i, goal, DueAt(p, i, goal), j)
    ensures phs[i] == goal
    ensures forall j :: 0 <= j < |phs| ==> DueAt(p, i, goal) <= DueAt(p, j, phs[j])
    ensures forall j :: 0 <= j < |phs| && j != i && i > 0 && Early(phs[j]) ==>
              DueAt(p, i, goal) < DueAt(p, j, phs[j])
  {
    assert !Due(p, phs, i, goal, DueAt(p, i, goal), i);
    forall j | 0 <= j < |phs|
      ensures DueAt(p, i, goal) <= DueAt(p, j, phs[j])
      ensures j != i && i > 0 && Early(phs[j]) ==> DueAt(p, i, goal) < DueAt(p, j, phs[j])
    {
      assert !Due(p, phs, i, goal, DueAt(p, i, goal), j);
      if !Early(phs[j]) {
        assert DueAt(p, j, phs[j]) == DueAt(p, j, Gone);
      }
    }
  }

  lemma Drive(p: Plan, l0: Loop, l: Loop, phs: seq<Phase>, i: nat, goal: Phase)
    returns (l': Loop, phs': seq<Phase>)
    requires Reachable(p, i, goal) && Staged(p, l0, l, phs) && OnTheWay(phs, i, goal)
    ensures Arrived(p, l0, l', phs', i, goal) && OnTheWay(phs', i, goal) && SameSettings(l, l')
    decreases Left(phs)
  {
    var found, k := Earliest(p, phs, i, goal, DueAt(p, i, goal), |phs|);
    if found {
      EarliestOfAll(p, phs, i, goal, k);
      var l1, phs1 := DriveOnce(p, l0, l, phs, i, goal, k);
      l', phs' := Drive(p, l0, l1, phs1, i, goal);
    } else {
      NothingDue(p, phs, i, goal);
      l' := ToDeadline(p, l0, l, phs, i);
      phs' := phs;
    }
  }
}
