/**
 * The scenario player (src/scenario_player.h): one interpreter for all clients of a process,
 * with nested players for sub-scenarios.
 */
module ScenarioPlayers {
  import opened Base
  import opened BinaryPools
  import opened Messages
  import opened Scenarios
  import opened VC = VirtualClients

  /** The player's own state: a record per client, and the next counter of each channel. */
  datatype Player = Player(infos: seq<ClientInfo>, counters: map<string, nat>)

  /**
   * A DataChannel message that was built for a client, and what it was built from; `live` says
   * whether the client had a session.
   */
  datatype Built = Built(
    channel: string,
    minSize: int,
    maxSize: int,
    counter: nat,
    client: nat,
    choice: Choice,
    live: bool,
    id: seq<byte>,
    data: seq<byte>)

  /** What one OnNext does to the player and to the client, apart from nested players. */
  datatype Turn = Turn(
    player: Player,
    client: State,
    faulted: bool,
    stops: bool,
    built: Option<Built>)

  function NewPlayer(clients: nat): Player {
    Player(seq(clients, _ => UNPLAYED), map[])
  }

  function CounterOf(player: Player, channel: string): nat {
    if channel in player.counters then player.counters[channel] else 0
  }

  predicate AllExited(player: Player) {
    forall k :: 0 <= k < |player.infos| ==> player.infos[k].exited
  }

  function WithInfo(player: Player, i: nat, info: ClientInfo): Player
    requires i < |player.infos|
  {
    player.(infos := player.infos[i := info])
  }

  function PlayerAfterPlay(player: Player, i: int, ops: seq<Op>, loopOpIndex: int): Player {
    if 0 <= i < |player.infos|
    then WithInfo(player, i, AfterPlay(player.infos[i], ops, loopOpIndex))
    else player
  }

  /** The callback of an Exit operation marks the client; the last one stops the event loop. */
  function PlayerAfterExit(player: Player, i: nat): Player
    requires i < |player.infos|
  {
    WithInfo(player, i, player.infos[i].(exited := true))
  }

  predicate CanRun(player: Player, i: nat) {
    i < |player.infos| && Played(player.infos[i]) && player.infos[i].posted > 0
  }

  /** The effect of an operation other than Sleep, before Next; a Turn with `faulted` threw. */
  function Perform(op: Op, player: Player, client: State, path: Path, i: nat, pool: Pool,
                   c: Choice): (turn: Turn)
    requires i < |player.infos|
    ensures |turn.player.infos| == |player.infos|
  {
    match op
    case SendDataChannelMessage(channel, minSize, maxSize) =>
      var counter := CounterOf(player, channel);
      var id := ReportedId(client, c.connectionId);
      var data := Message(pool, minSize, maxSize, c, counter, id);
      var counters := player.counters[channel := (counter + 1) % TWO_64];
      Turn(player.(counters := counters), AfterSend(client, channel, data), false, false,
           Some(Built(channel, minSize, maxSize, counter, i, c, Live(client), id, data)))
    case Disconnect =>
      var close := AfterClose(client, None);
      Turn(player, close.state, close.Faulted?, false, None)
    case Reconnect =>
      Turn(player, AfterConnect(client), false, false, None)
    case Exit =>
      var close := AfterClose(client, Some(Callback(path, i)));
      if close.calls == [] then
        Turn(player, close.state, false, false, None)
      else
        var marked := PlayerAfterExit(player, i);
        Turn(marked, close.state, false, AllExited(marked), None)
    case _ =>
      Turn(player, client, false, false, None)
  }

  /** One OnNext of client i. */
  function RunOp(player: Player, client: State, path: Path, i: nat, pool: Pool, c: Choice): Turn
    requires CanRun(player, i)
  {
    var op := CurrentOp(player.infos[i]);
    var taken := WithInfo(player, i, Taken(player.infos[i]));
    if op.Sleep? then
      Turn(WithInfo(taken, i, taken.infos[i].(timerArmed := true)), client, false, false, None)
    else
      var turn := Perform(op, taken, client, path, i, pool, c);
      if turn.faulted then turn
      else turn.(player := WithInfo(turn.player, i, AfterNext(turn.player.infos[i])))
  }

  /** Seen from the interpreter, a turn that does not throw is one step of the client's record. */
  lemma RunOpIsOnNext(player: Player, client: State, path: Path, i: nat, pool: Pool, c: Choice)
    requires CanRun(player, i)
    ensures var info, turn := player.infos[i], RunOp(player, client, path, i, pool, c);
            var exited := turn.player.infos[i].exited;
            && |turn.player.infos| == |player.infos|
            && (forall k :: 0 <= k < |player.infos| && k != i ==>
                  turn.player.infos[k] == player.infos[k])
            && turn.player.infos[i]
               == (if turn.faulted then Taken(info) else AfterOnNext(info.(exited := exited)))
  {
  }

  /** The part of boost::asio::io_context that the player can change. */
  class IoContext {
    var stopped: bool

    constructor ()
      ensures !stopped
    {
      stopped := false;
    }
  }

  class ScenarioPlayer {
    const path: Path
    const ioc: IoContext
    const vcs: seq<VirtualClient>
    const pool: BinaryPool
    var infos: seq<ClientInfo>
    var counters: map<string, nat>
    var subs: map<string, ScenarioPlayer>

    ghost predicate Valid()
      reads this, subs.Values
    {
      && |infos| == |vcs|
      && pool.bin.Length > 0
      && forall name :: name in subs ==> IsSub(name, subs[name])
    }

    /** A nested player is another object, over the same clients and the same pool. */
    ghost predicate IsSub(name: string, sub: ScenarioPlayer)
      reads this, sub
    {
      && sub.path == path + [name]
      && sub.ioc == ioc && sub.vcs == vcs && sub.pool == pool
      && |sub.infos| == |vcs|
    }

    function Value(): Player
      reads this
    {
      Player(infos, counters)
    }

    constructor (path: Path, ioc: IoContext, vcs: seq<VirtualClient>, pool: BinaryPool)
      requires pool.bin.Length > 0
      ensures Valid() && Value() == NewPlayer(|vcs|) && subs == map[]
      ensures this.path == path && this.ioc == ioc && this.vcs == vcs && this.pool == pool
    {
      this.path, this.ioc, this.vcs, this.pool := path, ioc, vcs, pool;
      infos := seq(|vcs|, _ => UNPLAYED);
      counters := map[];
      subs := map[];
    }

    method Play(i: int, ops: seq<Op>, loopOpIndex: int)
      modifies this`infos
      ensures Value() == PlayerAfterPlay(old(Value()), i, ops, loopOpIndex)
    {
      if i < 0 || i >= |infos| || ops == [] || loopOpIndex < 0 || loopOpIndex >= |ops| {
        return;
      }
      infos := infos[i := infos[i].(ops := ops, opIndex := 0, loopOpIndex := loopOpIndex,
                                    timerArmed := false, paused := false, exited := false)];
      DoNext(i);
    }

    method PauseAll()
      modifies this`infos
      ensures |infos| == |old(infos)|
      ensures forall i :: 0 <= i < |infos| ==> infos[i] == AfterPause(old(infos)[i])
    {
      for i := 0 to |infos|
        invariant |infos| == |old(infos)|
        invariant forall k :: 0 <= k < i ==> infos[k] == AfterPause(old(infos)[k])
        invariant forall k :: i <= k < |infos| ==> infos[k] == old(infos)[k]
      {
        infos := infos[i := infos[i].(timerArmed := false)];
        infos := infos[i := infos[i].(paused := true)];
      }
    }

    method ResumeAll()
      modifies this`infos
      ensures |infos| == |old(infos)|
      ensures forall i :: 0 <= i < |infos| ==> infos[i] == AfterResume(old(infos)[i])
    {
      for i := 0 to |infos|
        invariant |infos| == |old(infos)|
        invariant forall k :: 0 <= k < i ==> infos[k] == AfterResume(old(infos)[k])
        invariant forall k :: i <= k < |infos| ==> infos[k] == old(infos)[k]
      {
        infos := infos[i := infos[i].(paused := false)];
        DoNext(i);
      }
    }

    method Next(i: nat)
      requires i < |infos|
      modifies this`infos
      ensures infos == old(infos)[i := AfterNext(old(infos)[i])]
    {
      var info := infos[i];
      if info.paused {
        return;
      }
      info := info.(opIndex := info.opIndex + 1);
      if info.opIndex == |info.ops| {
        info := info.(opIndex := info.loopOpIndex);
      }
      infos := infos[i := info];
      DoNext(i);
    }

    method DoNext(i: nat)
      requires i < |infos|
      modifies this`infos
      ensures infos == old(infos)[i := Post(old(infos)[i])]
    {
      infos := infos[i := infos[i].(posted := infos[i].posted + 1)];
    }

    /** The handler of a Sleep's wait, when the wait was not cancelled. */
    method OnTimer(i: nat)
      requires i < |infos| && infos[i].timerArmed
      modifies this`infos
      ensures infos == old(infos)[i := AfterTimer(old(infos)[i])]
    {
      infos := infos[i := infos[i].(timerArmed := false)];
      Next(i);
    }

    /** The callback of an Exit operation. */
    method OnExited(i: nat)
      requires i < |infos|
      modifies this`infos, ioc
      ensures Value() == PlayerAfterExit(old(Value()), i)
      ensures ioc.stopped == (old(ioc.stopped) || AllExited(Value()))
    {
      infos := infos[i := infos[i].(exited := true)];
      if forall k :: 0 <= k < |infos| ==> infos[k].exited {
        ioc.stopped := true;
      }
    }

    /** Sends one message; the counter moves on whether or not the session takes the message. */
    method SendMessage(i: nat, channel: string, minSize: int, maxSize: int, c: Choice)
      requires Valid() && i < |vcs|
      requires HEADER_SIZE <= minSize <= maxSize
      modifies this`counters, vcs[i]
      ensures var counter := old(CounterOf(Value(), channel));
              var id := ReportedId(old(vcs[i].Value()), c.connectionId);
              && counters == old(counters)[channel := (counter + 1) % TWO_64]
              && vcs[i].Value() == AfterSend(old(vcs[i].Value()), channel,
                   Message(pool.bin[..], minSize, maxSize, c, counter, id))
    {
      var data := pool.Get(minSize - HEADER_SIZE, maxSize - HEADER_SIZE, c.sizeDraw, c.posDraw);
      var counter := CounterOf(Value(), channel);
      var id := vcs[i].ConnectionId(c.connectionId);
      var header := BuildHeader(Clock(c), counter, id);
      vcs[i].SendMessage(channel, header + data);
      counters := counters[channel := (counter + 1) % TWO_64];
    }

    /** The nested players of different names, and this player, are different objects. */
    lemma SubsAreOthers()
      requires Valid()
      ensures forall name :: name in subs ==> subs[name] != this
      ensures forall a, b :: a in subs && b in subs && a != b ==> subs[a] != subs[b]
    {
      forall name | name in subs
        ensures subs[name] != this
      {
        assert |subs[name].path| == |path| + 1;
      }
      forall a, b | a in subs && b in subs && a != b
        ensures subs[a] != subs[b]
      {
        assert (path + [a])[|path|] == a && (path + [b])[|path|] == b;
      }
    }

    /** Starts client i in the nested player of that name, which is created on first use. */
    method PlaySub(i: nat, name: string, ops: seq<Op>, loopOpIndex: int)
      requires Valid() && i < |vcs|
      modifies this`subs, subs.Values
      ensures Valid() && Value() == old(Value())
      ensures name in subs && subs == old(subs)[name := subs[name]]
      ensures name in old(subs) ==> subs[name] == old(subs)[name]
      ensures name !in old(subs) ==> fresh(subs[name])
      ensures subs[name].Value()
           == PlayerAfterPlay(old(if name in subs then subs[name].Value() else NewPlayer(|vcs|)),
                              i, ops, loopOpIndex)
      ensures forall other :: other in old(subs) && other != name ==> unchanged(old(subs)[other])
    {
      SubsAreOthers();
      if name !in subs {
        var sub := new ScenarioPlayer(path + [name], ioc, vcs, pool);
        subs := subs[name := sub];
      }
      subs[name].Play(i, ops, loopOpIndex);
    }

    /** The operations that neither wait nor start a nested player. */
    method PerformOp(op: Op, i: nat, c: Choice) returns (faulted: bool)
      requires Valid() && i < |vcs| && !op.Sleep? && !op.PlaySubScenario?
      requires op.SendDataChannelMessage? ==> HEADER_SIZE <= op.minSize <= op.maxSize
      modifies this`infos, this`counters, ioc, vcs[i]
      ensures var turn := Perform(op, old(Value()), old(vcs[i].Value()), path, i, old(pool.bin[..]), c);
              && Value() == turn.player
              && vcs[i].Value() == turn.client
              && faulted == turn.faulted
              && ioc.stopped == (old(ioc.stopped) || turn.stops)
    {
      faulted := false;
      match op {
        case PlayVoiceNumberClient =>
        case SendDataChannelMessage(channel, minSize, maxSize) =>
          SendMessage(i, channel, minSize, maxSize, c);
        case Disconnect =>
          var _, failed := vcs[i].Close(None);
          faulted := failed;
        case Reconnect =>
          vcs[i].Connect();
        case Exit =>
          var calls, _ := vcs[i].Close(Some(Callback(path, i)));
          if calls != [] {
            OnExited(i);
          }
      }
    }

    /**
     * One posted continuation; `ms` is how long a Sleep waits. It ends early, without Next, if
     * the operation throws.
     */
    method OnNext(i: nat, c: Choice) returns (faulted: bool, ms: int)
      requires Valid() && CanRun(Value(), i)
      requires var op := CurrentOp(infos[i]);
               op.SendDataChannelMessage? ==> HEADER_SIZE <= op.minSize <= op.maxSize
      modifies this, ioc, vcs[i], subs.Values
      ensures Valid()
      ensures var turn := RunOp(old(Value()), old(vcs[i].Value()), path, i, old(pool.bin[..]), c);
              && Value() == turn.player
              && vcs[i].Value() == turn.client
              && faulted == turn.faulted
              && ioc.stopped == (old(ioc.stopped) || turn.stops)
      ensures var op := old(CurrentOp(infos[i]));
              op.Sleep? && op.minTimeMs <= op.maxTimeMs ==> op.minTimeMs <= ms <= op.maxTimeMs
      ensures var op := old(CurrentOp(infos[i]));
              op.PlaySubScenario? ==>
                && op.name in subs && subs == old(subs)[op.name := subs[op.name]]
                && subs[op.name].Value()
                   == PlayerAfterPlay(
                        old(if op.name in subs then subs[op.name].Value() else NewPlayer(|vcs|)),
                        i, op.ops, op.loopOpIndex)
      ensures var op := old(CurrentOp(infos[i]));
              && (!op.PlaySubScenario? ==> subs == old(subs))
              && forall name :: name in old(subs) && !(op.PlaySubScenario? && op.name == name)
                   ==> unchanged(old(subs)[name])
    {
      faulted, ms := false, 0;
      SubsAreOthers();
      var op := CurrentOp(infos[i]);
      infos := infos[i := Taken(infos[i])];
      if op.Sleep? {
        if op.minTimeMs <= op.maxTimeMs {
          ms := Delay(op, c.random);
        }
        infos := infos[i := infos[i].(timerArmed := true)];
        return;
      }
      if op.PlaySubScenario? {
        PlaySub(i, op.name, op.ops, op.loopOpIndex);
      } else {
        faulted := PerformOp(op, i, c);
      }
      if faulted {
        return;
      }
      Next(i);
    }
  }
}
