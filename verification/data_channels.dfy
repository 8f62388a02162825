/**
 * Reading the --sora-data-channels value (ParseDataChannels in src/zakuro.cpp).
 */
module DataChannels {
  import opened Base

  const MESSAGE_SIZE_MIN := 48
  const MESSAGE_SIZE_MAX := 256 * 1000
  const DEFAULT_INTERVAL := 500

  datatype Json =
    | Null
    | Bool(flag: bool)
    | Number(number: real)
    | Str(text: string)
    | Array(items: seq<Json>)
    | Object(members: map<string, Json>)

  type Members = map<string, Json>

  /** What a channel sends: how often, and how much. */
  datatype Channel = Channel(name: string, interval: int, sizeMin: int, sizeMax: int)

  /** What the signaling configuration is told about a channel. */
  datatype SignalingChannel = SignalingChannel(
    name: string,
    direction: string,
    ordered: Option<bool>,
    maxPacketLifeTime: Option<int>,
    maxRetransmits: Option<int>,
    protocol: Option<string>,
    compress: Option<bool>)

  /** Parsing returns true or false, or a conversion throws. */
  datatype Verdict = Accepted | Rejected | Threw

  // ----- the fields of one entry -----

  /** value_to<int>: exact conversions to a 32-bit integer only. */
  function ToInt(j: Json): Option<int> {
    if j.Number? && j.number == j.number.Floor as real
       && -0x8000_0000 <= j.number.Floor < 0x8000_0000
    then Some(j.number.Floor)
    else None
  }

  function Lookup(obj: Members, key: string, alternative: string): Option<Json> {
    if key in obj then Some(obj[key])
    else if alternative in obj then Some(obj[alternative])
    else None
  }

  function Text(obj: Members, key: string): Verdict {
    if key in obj && obj[key].Str? then Accepted else Rejected
  }

  /** A number field, if there is one, must convert and lie in [lo, hi]. */
  function InRange(field: Option<Json>, lo: int, hi: int): Verdict {
    match field
    case None => Accepted
    case Some(j) =>
      if !j.Number? then Rejected
      else match ToInt(j)
           case None => Threw
           case Some(v) => if lo <= v <= hi then Accepted else Rejected
  }

  function IntOr(field: Option<Json>, default: int): int {
    match field
    case None => default
    case Some(j) => match ToInt(j) case Some(v) => v case None => default
  }

  datatype Kind = Flag | Int | Word

  /** An optional signaling field throws when its value has another type. */
  function OfKind(obj: Members, key: string, kind: Kind): Verdict {
    if key !in obj then Accepted
    else if (match kind
             case Flag => obj[key].Bool?
             case Int => ToInt(obj[key]).Some?
             case Word => obj[key].Str?)
    then Accepted
    else Threw
  }

  function SizeMin(obj: Members): Option<Json> {
    Lookup(obj, "size-min", "size_min")
  }

  function SizeMax(obj: Members): Option<Json> {
    Lookup(obj, "size-max", "size_max")
  }

  /** The first check that does not accept decides. */
  function Then(first: Verdict, second: Verdict): Verdict {
    if first.Accepted? then second else first
  }

  /** The checks on one entry, in the order in which they are made. */
  function EntryVerdict(j: Json): Verdict {
    if !j.Object? then Rejected else
    var obj := j.members;
    Then(Text(obj, "label"),
    Then(Text(obj, "direction"),
    Then(InRange(Lookup(obj, "interval", "interval"), 1, 0x7fff_ffff),
    Then(InRange(SizeMin(obj), MESSAGE_SIZE_MIN, MESSAGE_SIZE_MAX),
    Then(InRange(SizeMax(obj), MESSAGE_SIZE_MIN, MESSAGE_SIZE_MAX),
         OptionsVerdict(obj))))))
  }

  function OptionsVerdict(obj: Members): Verdict {
    Then(OfKind(obj, "ordered", Flag),
    Then(OfKind(obj, "max_packet_life_time", Int),
    Then(OfKind(obj, "max_retransmits", Int),
    Then(OfKind(obj, "protocol", Word),
         OfKind(obj, "compress", Flag)))))
  }

  predicate Acceptable(j: Json) {
    EntryVerdict(j).Accepted?
  }

  function ChannelOf(obj: Members): Channel
    requires Text(obj, "label").Accepted?
  {
    var lo := IntOr(SizeMin(obj), MESSAGE_SIZE_MIN);
    var hi := IntOr(SizeMax(obj), MESSAGE_SIZE_MIN);
    Channel(obj["label"].text,
            IntOr(Lookup(obj, "interval", "interval"), DEFAULT_INTERVAL),
            lo,
            if lo > hi then lo else hi)
  }

  predicate Sending(obj: Members)
    requires Text(obj, "direction").Accepted?
  {
    obj["direction"].text == "sendonly" || obj["direction"].text == "sendrecv"
  }

  function FlagField(obj: Members, key: string): Option<bool> {
    if key in obj && obj[key].Bool? then Some(obj[key].flag) else None
  }

  function IntField(obj: Members, key: string): Option<int> {
    if key in obj then ToInt(obj[key]) else None
  }

  function WordField(obj: Members, key: string): Option<string> {
    if key in obj && obj[key].Str? then Some(obj[key].text) else None
  }

  function WithOptions(sch: SignalingChannel, obj: Members): SignalingChannel {
    sch.(ordered := FlagField(obj, "ordered"),
         maxPacketLifeTime := IntField(obj, "max_packet_life_time"),
         maxRetransmits := IntField(obj, "max_retransmits"),
         protocol := WordField(obj, "protocol"),
         compress := FlagField(obj, "compress"))
  }

  function SignalingOf(obj: Members): SignalingChannel
    requires Text(obj, "label").Accepted? && Text(obj, "direction").Accepted?
  {
    WithOptions(SignalingChannel(obj["label"].text, obj["direction"].text,
                                 None, None, None, None, None), obj)
  }

  lemma AcceptableHasTexts(j: Json)
    requires Acceptable(j)
    ensures j.Object? && Text(j.members, "label").Accepted?
         && Text(j.members, "direction").Accepted?
  {
  }

  // ----- the whole value -----

  predicate AllAcceptable(items: seq<Json>) {
    forall k :: 0 <= k < |items| ==> Acceptable(items[k])
  }

  function SentChannels(items: seq<Json>): seq<Channel>
    requires AllAcceptable(items)
  {
    if items == [] then [] else
    var last := items[|items| - 1];
    AcceptableHasTexts(last);
    SentChannels(items[..|items| - 1])
    + (if Sending(last.members) then [ChannelOf(last.members)] else [])
  }

  function AllSignaling(items: seq<Json>): (r: seq<SignalingChannel>)
    requires AllAcceptable(items)
    ensures |r| == |items|
  {
    seq(|items|, k requires 0 <= k < |items| =>
      AcceptableHasTexts(items[k]); SignalingOf(items[k].members))
  }

  /** Reads an optional number into `v`, which keeps its default if there is none. */
  method ParseInt(obj: Members, key: string, alternative: string, default: int, lo: int, hi: int)
    returns (verdict: Verdict, v: int, rest: Members)
    ensures verdict == InRange(Lookup(obj, key, alternative), lo, hi)
    ensures verdict.Accepted? ==> v == IntOr(Lookup(obj, key, alternative), default)
    ensures rest.Keys <= obj.Keys && forall k :: k in rest ==> rest[k] == obj[k]
    ensures obj.Keys <= rest.Keys + {key, alternative}
  {
    verdict, v, rest := Accepted, default, obj;
    var k := if key in obj then key else alternative;
    if k in obj {
      if !obj[k].Number? {
        return Rejected, v, rest;
      }
      match ToInt(obj[k]) {
        case None =>
          return Threw, v, rest;
        case Some(n) =>
          v := n;
      }
      if v < lo || v > hi {
        return Rejected, v, rest;
      }
      rest := obj - {k};
    }
  }

  /** One entry of the array: the fields are checked, and the sizes erased, one after the other. */
  method ParseEntry(j: Json) returns (v: Verdict, ch: Channel, sch: SignalingChannel, send: bool)
    ensures v == EntryVerdict(j)
    ensures v.Accepted? ==>
              && (AcceptableHasTexts(j); ch == ChannelOf(j.members))
              && (AcceptableHasTexts(j); sch == SignalingOf(j.members))
              && (AcceptableHasTexts(j); send == Sending(j.members))
  {
    ch := Channel("", DEFAULT_INTERVAL, MESSAGE_SIZE_MIN, MESSAGE_SIZE_MIN);
    sch := SignalingChannel("", "", None, None, None, None, None);
    send := false;
    if !j.Object? {
      return Rejected, ch, sch, send;
    }
    var obj := j.members;
    if "label" !in obj || !obj["label"].Str? {
      return Rejected, ch, sch, send;
    }
    ch, sch := ch.(name := obj["label"].text), sch.(name := obj["label"].text);
    if "direction" !in obj || !obj["direction"].Str? {
      return Rejected, ch, sch, send;
    }
    var direction := obj["direction"].text;
    sch := sch.(direction := direction);
    var n, rest;
    v, n, rest := ParseInt(obj, "interval", "interval", ch.interval, 1, 0x7fff_ffff);
    if !v.Accepted? {
      return;
    }
    ch := ch.(interval := n);
    v, n, obj := ParseInt(obj, "size-min", "size_min", ch.sizeMin, MESSAGE_SIZE_MIN, MESSAGE_SIZE_MAX);
    if !v.Accepted? {
      return;
    }
    ch := ch.(sizeMin := n);
    assert Lookup(obj, "size-max", "size_max") == SizeMax(j.members);
    v, n, obj := ParseInt(obj, "size-max", "size_max", ch.sizeMax, MESSAGE_SIZE_MIN, MESSAGE_SIZE_MAX);
    if !v.Accepted? {
      return;
    }
    ch := ch.(sizeMax := n);
    if ch.sizeMin > ch.sizeMax {
      ch := ch.(sizeMax := ch.sizeMin);
    }
    v, sch := ParseOptions(obj, sch);
    OptionsUnaffected(obj, j.members);
    if v.Accepted? {
      send := direction == "sendonly" || direction == "sendrecv";
    }
  }

  method ParseOptions(obj: Members, base: SignalingChannel)
    returns (v: Verdict, sch: SignalingChannel)
    requires base == SignalingChannel(base.name, base.direction, None, None, None, None, None)
    ensures v == OptionsVerdict(obj)
    ensures v.Accepted? ==> sch == WithOptions(base, obj)
  {
    sch := base;
    if "ordered" in obj {
      if !obj["ordered"].Bool? {
        return Threw, sch;
      }
      sch := sch.(ordered := Some(obj["ordered"].flag));
    }
    if "max_packet_life_time" in obj {
      if ToInt(obj["max_packet_life_time"]).None? {
        return Threw, sch;
      }
      sch := sch.(maxPacketLifeTime := ToInt(obj["max_packet_life_time"]));
    }
    if "max_retransmits" in obj {
      if ToInt(obj["max_retransmits"]).None? {
        return Threw, sch;
      }
      sch := sch.(maxRetransmits := ToInt(obj["max_retransmits"]));
    }
    if "protocol" in obj {
      if !obj["protocol"].Str? {
        return Threw, sch;
      }
      sch := sch.(protocol := Some(obj["protocol"].text));
    }
    if "compress" in obj {
      if !obj["compress"].Bool? {
        return Threw, sch;
      }
      sch := sch.(compress := Some(obj["compress"].flag));
    }
    v := Accepted;
  }

  lemma OptionsUnaffected(rest: Members, obj: Members)
    requires rest.Keys <= obj.Keys && forall k :: k in rest ==> rest[k] == obj[k]
    requires obj.Keys <= rest.Keys + {"size-min", "size_min", "size-max", "size_max"}
    ensures OptionsVerdict(rest) == OptionsVerdict(obj)
    ensures forall base :: WithOptions(base, rest) == WithOptions(base, obj)
  {
    SameOption(rest, obj, "ordered");
    SameOption(rest, obj, "max_packet_life_time");
    SameOption(rest, obj, "max_retransmits");
    SameOption(rest, obj, "protocol");
    SameOption(rest, obj, "compress");
  }

  lemma SameOption(rest: Members, obj: Members, key: string)
    requires rest.Keys <= obj.Keys && forall k :: k in rest ==> rest[k] == obj[k]
    requires obj.Keys <= rest.Keys + {"size-min", "size_min", "size-max", "size_max"}
    requires key !in {"size-min", "size_min", "size-max", "size_max"}
    ensures key in obj <==> key in rest
    ensures key in obj ==> rest[key] == obj[key]
  {
    assert key in obj.Keys ==> key in rest.Keys;
  }

  /** The first entry that is not acceptable decides. */
  function ItemsVerdict(items: seq<Json>): Verdict {
    if items == [] then Accepted else Then(EntryVerdict(items[0]), ItemsVerdict(items[1..]))
  }

  /** Entry k throws, and all entries before it are acceptable. */
  predicate ThrowsAt(items: seq<Json>, k: nat) {
    && k < |items| && EntryVerdict(items[k]).Threw?
    && forall i :: 0 <= i < k ==> Acceptable(items[i])
  }

  ghost predicate ThrowsFirst(items: seq<Json>) {
    exists k: nat :: ThrowsAt(items, k)
  }

  lemma {:induction false} AcceptsMeans(items: seq<Json>)
    ensures ItemsVerdict(items).Accepted? <==> AllAcceptable(items)
  {
    if items != [] {
      AcceptsMeans(items[1..]);
      assert items == [items[0]] + items[1..];
    }
  }

  lemma {:induction false} ThrowsMeans(items: seq<Json>)
    ensures ItemsVerdict(items).Threw? <==> ThrowsFirst(items)
  {
    if items != [] {
      ThrowsMeans(items[1..]);
      ThrowsLater(items[0], items[1..]);
      assert items == [items[0]] + items[1..];
    }
  }

  lemma ThrowsLater(first: Json, rest: seq<Json>)
    ensures ThrowsFirst([first] + rest)
       <==> EntryVerdict(first).Threw? || (Acceptable(first) && ThrowsFirst(rest))
  {
    var items := [first] + rest;
    if EntryVerdict(first).Threw? {
      assert ThrowsAt(items, 0);
    }
    if Acceptable(first) && ThrowsFirst(rest) {
      var k: nat :| ThrowsAt(rest, k);
      ThrowsShift(first, rest, k);
    }
    if ThrowsFirst(items) && !EntryVerdict(first).Threw? {
      var k: nat :| ThrowsAt(items, k);
      assert k > 0 && Acceptable(items[0]);
      ThrowsShift(first, rest, k - 1);
    }
  }

  lemma ThrowsShift(first: Json, rest: seq<Json>, k: nat)
    requires Acceptable(first)
    ensures ThrowsAt([first] + rest, k + 1) <==> ThrowsAt(rest, k)
  {
    var items := [first] + rest;
    assert forall i :: 0 <= i < |rest| ==> items[i + 1] == rest[i];
    if ThrowsAt(items, k + 1) {
      forall i | 0 <= i < k
        ensures Acceptable(rest[i])
      {
        assert rest[i] == items[i + 1];
      }
    }
  }

  /** What one more acceptable entry adds. */
  lemma OneMore(items: seq<Json>, i: nat)
    requires i < |items| && AllAcceptable(items[..i]) && Acceptable(items[i])
    ensures AllAcceptable(items[..i + 1])
    ensures (AcceptableHasTexts(items[i]);
             && SentChannels(items[..i + 1])
                == SentChannels(items[..i])
                   + (if Sending(items[i].members) then [ChannelOf(items[i].members)] else [])
             && AllSignaling(items[..i + 1])
                == AllSignaling(items[..i]) + [SignalingOf(items[i].members)])
  {
    assert items[..i + 1] == items[..i] + [items[i]];
    assert items[..i + 1][..i] == items[..i];
  }

  lemma VerdictStep(items: seq<Json>, i: nat)
    requires i < |items|
    ensures ItemsVerdict(items[i..]) == Then(EntryVerdict(items[i]), ItemsVerdict(items[i + 1..]))
  {
    assert items[i..][1..] == items[i + 1..];
  }

  /** A value is rejected exactly when it is neither accepted nor makes a conversion throw. */
  method ParseDataChannels(dcs: Json)
    returns (v: Verdict, channels: seq<Channel>, schannels: seq<SignalingChannel>)
    ensures v.Accepted? <==> dcs.Array? && AllAcceptable(dcs.items)
    ensures v.Accepted? ==>
              channels == SentChannels(dcs.items) && schannels == AllSignaling(dcs.items)
    ensures v.Threw? <==> dcs.Array? && ThrowsFirst(dcs.items)
  {
    channels, schannels := [], [];
    if !dcs.Array? {
      return Rejected, channels, schannels;
    }
    var items := dcs.items;
    AcceptsMeans(items);
    ThrowsMeans(items);
    for i := 0 to |items|
      invariant AllAcceptable(items[..i])
      invariant channels == SentChannels(items[..i])
      invariant schannels == AllSignaling(items[..i])
      invariant ItemsVerdict(items) == ItemsVerdict(items[i..])
    {
      var ch, sch, send;
      v, ch, sch, send := ParseEntry(items[i]);
      VerdictStep(items, i);
      if !v.Accepted? {
        return;
      }
      OneMore(items, i);
      if send {
        channels := channels + [ch];
      }
      schannels := schannels + [sch];
    }
    assert items[..|items|] == items;
    v := Accepted;
  }

  /** A configuration of channels that the message builder can serve. */
  predicate Servable(ch: Channel) {
    0 < ch.interval && MESSAGE_SIZE_MIN <= ch.sizeMin <= ch.sizeMax <= MESSAGE_SIZE_MAX
  }

  /** Every accepted channel has a positive interval and sizes that fit the message header. */
  lemma {:induction false} AcceptedChannelsAreServable(items: seq<Json>)
    requires AllAcceptable(items)
    ensures forall ch :: ch in SentChannels(items) ==> Servable(ch)
  {
    if items != [] {
      var last := items[|items| - 1];
      AcceptedChannelsAreServable(items[..|items| - 1]);
      AcceptableHasTexts(last);
    }
  }
}
