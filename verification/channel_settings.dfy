/**
 * What the --sora-data-channels value means: settings written as JSON, and what becomes of them
 * (ParseDataChannels in src/zakuro.cpp).
 */
module ChannelSettings {
  import opened Base
  import opened DataChannels

  /** The settings of one channel. */
  datatype Setting = Setting(
    name: string,
    direction: string,
    interval: Option<int>,
    sizeMin: Option<int>,
    sizeMax: Option<int>,
    ordered: Option<bool>,
    lifeTime: Option<int>,
    retransmits: Option<int>,
    protocol: Option<string>,
    compress: Option<bool>)

  // ----- settings in JSON -----

  predicate SaysText(obj: Members, key: string, text: string) {
    key in obj && obj[key] == Str(text)
  }

  predicate SaysInt(obj: Members, key: string, n: Option<int>) {
    match n
    case None => key !in obj
    case Some(v) => key in obj && obj[key] == Number(v as real)
  }

  /** Under the first key if it is there, and else under the second. */
  predicate SaysSize(obj: Members, key: string, other: string, n: Option<int>) {
    if key in obj then n.Some? && obj[key] == Number(n.value as real) else SaysInt(obj, other, n)
  }

  predicate SaysFlag(obj: Members, key: string, flag: Option<bool>) {
    match flag
    case None => key !in obj
    case Some(b) => key in obj && obj[key] == Bool(b)
  }

  predicate SaysWord(obj: Members, key: string, word: Option<string>) {
    match word
    case None => key !in obj
    case Some(w) => SaysText(obj, key, w)
  }

  /** An object that holds these settings, and perhaps more members. */
  predicate Says(j: Json, s: Setting) {
    && j.Object?
    && var obj := j.members;
       && SaysText(obj, "label", s.name)
       && SaysText(obj, "direction", s.direction)
       && SaysInt(obj, "interval", s.interval)
       && SaysSize(obj, "size-min", "size_min", s.sizeMin)
       && SaysSize(obj, "size-max", "size_max", s.sizeMax)
       && SaysFlag(obj, "ordered", s.ordered)
       && SaysInt(obj, "max_packet_life_time", s.lifeTime)
       && SaysInt(obj, "max_retransmits", s.retransmits)
       && SaysWord(obj, "protocol", s.protocol)
       && SaysFlag(obj, "compress", s.compress)
  }

  predicate Within(n: Option<int>, lo: int, hi: int) {
    n.Some? ==> lo <= n.value <= hi
  }

  /** Settings that are allowed. */
  predicate Allowed(s: Setting) {
    && Within(s.interval, 1, 0x7fff_ffff)
    && Within(s.sizeMin, 48, 256000) && Within(s.sizeMax, 48, 256000)
    && Within(s.lifeTime, -0x8000_0000, 0x7fff_ffff)
    && Within(s.retransmits, -0x8000_0000, 0x7fff_ffff)
  }

  /** A JSON value that holds a list of settings. */
  ghost predicate Describes(items: seq<Json>, settings: seq<Setting>) {
    && |items| == |settings|
    && forall k :: 0 <= k < |items| ==> Says(items[k], settings[k]) && Allowed(settings[k])
  }

  // ----- what they mean -----

  function Or(n: Option<int>, default: int): int {
    if n.Some? then n.value else default
  }

  /** A channel that is sent on. */
  function ToSend(s: Setting): Channel {
    var least, most := Or(s.sizeMin, 48), Or(s.sizeMax, 48);
    Channel(s.name, Or(s.interval, 500), least, if most < least then least else most)
  }

  /** The channels that are sent on: those that this side sends on, in order. */
  function Wanted(settings: seq<Setting>): seq<Channel> {
    if settings == [] then [] else
    var last := settings[|settings| - 1];
    Wanted(settings[..|settings| - 1])
    + (if last.direction == "sendonly" || last.direction == "sendrecv" then [ToSend(last)] else [])
  }

  /** What the server is told of each channel. */
  function ToAnnounce(s: Setting): SignalingChannel {
    SignalingChannel(s.name, s.direction, s.ordered, s.lifeTime, s.retransmits, s.protocol,
                     s.compress)
  }

  // ----- one entry -----

  lemma IntIsTaken(n: int)
    requires -0x8000_0000 <= n < 0x8000_0000
    ensures ToInt(Number(n as real)) == Some(n)
  {
  }

  lemma TakesInt(field: Option<Json>, n: Option<int>, lo: int, hi: int, default: int)
    requires -0x8000_0000 <= lo && hi < 0x8000_0000 && Within(n, lo, hi)
    requires field == if n.Some? then Some(Number(n.value as real)) else None
    ensures InRange(field, lo, hi).Accepted? && IntOr(field, default) == Or(n, default)
  {
    if n.Some? {
      IntIsTaken(n.value);
    }
  }

  lemma TakesOption(obj: Members, key: string, n: Option<int>)
    requires SaysInt(obj, key, n) && Within(n, -0x8000_0000, 0x7fff_ffff)
    ensures OfKind(obj, key, Int).Accepted? && IntField(obj, key) == n
  {
    if n.Some? {
      IntIsTaken(n.value);
    }
  }

  lemma OptionsAreTaken(j: Json, s: Setting)
    requires Says(j, s) && Allowed(s)
    ensures OptionsVerdict(j.members).Accepted?
    ensures forall base :: WithOptions(base, j.members)
              == base.(ordered := s.ordered, maxPacketLifeTime := s.lifeTime,
                       maxRetransmits := s.retransmits, protocol := s.protocol,
                       compress := s.compress)
  {
    TakesOption(j.members, "max_packet_life_time", s.lifeTime);
    TakesOption(j.members, "max_retransmits", s.retransmits);
  }

  lemma EntryIsTaken(j: Json, s: Setting)
    requires Says(j, s) && Allowed(s)
    ensures Acceptable(j) && j.Object?
    ensures Text(j.members, "label").Accepted? && Text(j.members, "direction").Accepted?
    ensures ChannelOf(j.members) == ToSend(s) && SignalingOf(j.members) == ToAnnounce(s)
    ensures Sending(j.members) <==> s.direction == "sendonly" || s.direction == "sendrecv"
  {
    var obj := j.members;
    TakesInt(Lookup(obj, "interval", "interval"), s.interval, 1, 0x7fff_ffff, 500);
    TakesInt(SizeMin(obj), s.sizeMin, 48, 256000, 48);
    TakesInt(SizeMax(obj), s.sizeMax, 48, 256000, 48);
    OptionsAreTaken(j, s);
  }

  /**
   * Every list of allowed settings, in JSON, is accepted: each entry of direction sendonly or
   * sendrecv gives one channel to send on, in order, with its label, its interval or 500, and its
   * sizes or 48 with the largest raised to the smallest; and every entry is announced under its
   * label and direction with its five options.
   */
  lemma {:induction false} SettingsAreTaken(items: seq<Json>, settings: seq<Setting>)
    requires Describes(items, settings)
    ensures AllAcceptable(items) && SentChannels(items) == Wanted(settings)
    ensures forall k :: 0 <= k < |items| ==> AllSignaling(items)[k] == ToAnnounce(settings[k])
  {
    forall k | 0 <= k < |items|
      ensures Acceptable(items[k]) && IsAnnounced(items[k], settings[k])
    {
      EntryIsTaken(items[k], settings[k]);
    }
    if items != [] {
      var n := |items| - 1;
      EntryIsTaken(items[n], settings[n]);
      SettingsAreTaken(items[..n], settings[..n]);
    }
  }

  predicate IsAnnounced(j: Json, s: Setting) {
    && j.Object? && Text(j.members, "label").Accepted? && Text(j.members, "direction").Accepted?
    && SignalingOf(j.members) == ToAnnounce(s)
  }

  // ----- all settings can be written -----

  function IntJson(n: Option<int>): Option<Json> {
    if n.Some? then Some(Number(n.value as real)) else None
  }

  function FlagJson(b: Option<bool>): Option<Json> {
    if b.Some? then Some(Bool(b.value)) else None
  }

  function WordJson(w: Option<string>): Option<Json> {
    if w.Some? then Some(Str(w.value)) else None
  }

  const NAMES := {"label", "direction", "interval", "size-min", "size_min", "size-max", "size_max",
                  "ordered", "max_packet_life_time", "max_retransmits", "protocol", "compress"}

  /** What a member of this name says, if there is one. */
  function Member(s: Setting, dashes: bool, name: string): Option<Json> {
    match name
    case "label" => Some(Str(s.name))
    case "direction" => Some(Str(s.direction))
    case "interval" => IntJson(s.interval)
    case "size-min" => if dashes then IntJson(s.sizeMin) else None
    case "size_min" => if dashes then None else IntJson(s.sizeMin)
    case "size-max" => if dashes then IntJson(s.sizeMax) else None
    case "size_max" => if dashes then None else IntJson(s.sizeMax)
    case "ordered" => FlagJson(s.ordered)
    case "max_packet_life_time" => IntJson(s.lifeTime)
    case "max_retransmits" => IntJson(s.retransmits)
    case "protocol" => WordJson(s.protocol)
    case "compress" => FlagJson(s.compress)
    case _ => None
  }

  /** Settings as an object, with dashes or underscores in the names of the sizes. */
  function Written(s: Setting, dashes: bool): Json {
    Object(map name | name in NAMES && Member(s, dashes, name).Some? ::
             Member(s, dashes, name).value)
  }

  lemma WrittenSays(s: Setting, dashes: bool)
    ensures Says(Written(s, dashes), s)
  {
    var obj := Written(s, dashes).members;
    assert forall name :: name in NAMES ==>
      match Member(s, dashes, name)
      case None => name !in obj
      case Some(j) => name in obj && obj[name] == j;
  }

  /** Writing settings and reading them back. */
  lemma RoundTrip(settings: seq<Setting>, dashes: bool)
    requires forall k :: 0 <= k < |settings| ==> Allowed(settings[k])
    ensures var items := seq(|settings|, k requires 0 <= k < |settings| => Written(settings[k], dashes));
            && AllAcceptable(items) && SentChannels(items) == Wanted(settings)
            && forall k :: 0 <= k < |items| ==> AllSignaling(items)[k] == ToAnnounce(settings[k])
  {
    var items := seq(|settings|, k requires 0 <= k < |settings| => Written(settings[k], dashes));
    forall k | 0 <= k < |settings|
      ensures Says(items[k], settings[k])
    {
      WrittenSays(settings[k], dashes);
    }
    SettingsAreTaken(items, settings);
  }

  // ----- nothing else is accepted -----

  function Read(j: Json): Setting
    requires Acceptable(j)
  {
    AcceptableHasTexts(j);
    var obj := j.members;
    Setting(obj["label"].text, obj["direction"].text, IntField(obj, "interval"),
            IntField(obj, if "size-min" in obj then "size-min" else "size_min"),
            IntField(obj, if "size-max" in obj then "size-max" else "size_max"),
            FlagField(obj, "ordered"), IntField(obj, "max_packet_life_time"),
            IntField(obj, "max_retransmits"), WordField(obj, "protocol"), FlagField(obj, "compress"))
  }

  lemma ReadNumber(obj: Members, key: string, other: string, lo: int, hi: int)
    requires InRange(Lookup(obj, key, other), lo, hi).Accepted?
    ensures var n := IntField(obj, if key in obj then key else other);
            SaysSize(obj, key, other, n) && Within(n, lo, hi)
  {
  }

  lemma ReadOption(obj: Members, key: string)
    requires OfKind(obj, key, Int).Accepted?
    ensures var n := IntField(obj, key);
            SaysInt(obj, key, n) && Within(n, -0x8000_0000, 0x7fff_ffff)
  {
  }

  lemma AcceptableSays(j: Json)
    requires Acceptable(j)
    ensures Says(j, Read(j)) && Allowed(Read(j))
  {
    AcceptableHasTexts(j);
    ReadNumber(j.members, "interval", "interval", 1, 0x7fff_ffff);
    ReadNumber(j.members, "size-min", "size_min", 48, 256000);
    ReadNumber(j.members, "size-max", "size_max", 48, 256000);
    ReadOption(j.members, "max_packet_life_time");
    ReadOption(j.members, "max_retransmits");
  }

  /** Exactly the arrays that describe allowed settings are accepted. */
  lemma AcceptedIffDescribed(items: seq<Json>)
    ensures AllAcceptable(items) <==> exists settings :: Describes(items, settings)
  {
    if AllAcceptable(items) {
      var settings := seq(|items|, k requires 0 <= k < |items| => Read(items[k]));
      forall k | 0 <= k < |items|
        ensures Says(items[k], settings[k]) && Allowed(settings[k])
      {
        AcceptableSays(items[k]);
      }
      assert Describes(items, settings);
    }
    if settings :| Describes(items, settings) {
      SettingsAreTaken(items, settings);
    }
  }

  // ----- what throws -----

  predicate IsInt(j: Json, n: int) {
    j == Number(n as real)
  }

  ghost predicate IsInt32(j: Json) {
    exists n: int :: -0x8000_0000 <= n < 0x8000_0000 && IsInt(j, n)
  }

  /** A numeric option that is absent, or a number from lo to hi. */
  ghost predicate Fine(field: Option<Json>, lo: int, hi: int) {
    field.None? || exists n: int :: lo <= n <= hi && IsInt(field.value, n)
  }

  /** A number that is no 32-bit integer. */
  ghost predicate Misconverts(field: Option<Json>) {
    field.Some? && field.value.Number? && !IsInt32(field.value)
  }

  /** A member that is found under the one name or under the other. */
  function Found(obj: Members, key: string, other: string): Option<Json> {
    if key in obj then Some(obj[key]) else if other in obj then Some(obj[other]) else None
  }

  ghost predicate BadOption(obj: Members) {
    || ("ordered" in obj && !obj["ordered"].Bool?)
    || ("max_packet_life_time" in obj && !IsInt32(obj["max_packet_life_time"]))
    || ("max_retransmits" in obj && !IsInt32(obj["max_retransmits"]))
    || ("protocol" in obj && !obj["protocol"].Str?)
    || ("compress" in obj && !obj["compress"].Bool?)
  }

  /** An entry behind whose texts the first thing that is wrong does not convert. */
  ghost predicate Throws(obj: Members) {
    var interval := Found(obj, "interval", "interval");
    var least, most := Found(obj, "size-min", "size_min"), Found(obj, "size-max", "size_max");
    && "label" in obj && obj["label"].Str? && "direction" in obj && obj["direction"].Str?
    && (Misconverts(interval)
        || (Fine(interval, 1, 0x7fff_ffff)
            && (Misconverts(least)
                || (Fine(least, 48, 256000)
                    && (Misconverts(most) || (Fine(most, 48, 256000) && BadOption(obj)))))))
  }

  lemma NumberVerdict(field: Option<Json>, lo: int, hi: int)
    requires -0x8000_0000 <= lo && hi < 0x8000_0000
    ensures InRange(field, lo, hi).Threw? <==> Misconverts(field)
    ensures InRange(field, lo, hi).Accepted? <==> Fine(field, lo, hi)
  {
    if field.Some? && field.value.Number? {
      Converts(field.value);
      if ToInt(field.value).Some? {
        assert IsInt(field.value, ToInt(field.value).value);
      }
    }
  }

  lemma Converts(j: Json)
    ensures ToInt(j).Some? <==> IsInt32(j)
  {
    if ToInt(j).Some? {
      assert IsInt(j, ToInt(j).value);
    }
  }

  lemma OptionsThrow(obj: Members)
    ensures OptionsVerdict(obj) == if BadOption(obj) then Threw else Accepted
  {
    if "max_packet_life_time" in obj {
      Converts(obj["max_packet_life_time"]);
    }
    if "max_retransmits" in obj {
      Converts(obj["max_retransmits"]);
    }
  }

  lemma EntryThrowsExactly(j: Json)
    ensures EntryVerdict(j).Threw? <==> j.Object? && Throws(j.members)
  {
    if j.Object? {
      var obj := j.members;
      NumberVerdict(Lookup(obj, "interval", "interval"), 1, 0x7fff_ffff);
      NumberVerdict(SizeMin(obj), 48, 256000);
      NumberVerdict(SizeMax(obj), 48, 256000);
      OptionsThrow(obj);
    }
  }
}
