/** longpoll.Decode: positional update arrays to events. */
module Decoder {
  import opened Common
  import T = Text

  const MAX64: int := 0x7fff_ffff_ffff_ffff
  const MIN64: int := -0x8000_0000_0000_0000

  type Int64 = x: int | MIN64 <= x <= MAX64

  /** What int64 arithmetic makes of an exact result. */
  function Wrap(x: int): (r: Int64)
    ensures MIN64 <= x <= MAX64 ==> r == x
  {
    (x - MIN64) % 0x1_0000_0000_0000_0000 + MIN64
  }

  /**
   A JSON value. text is its source text. float is the int64 that converting the
   value's float64 reading gives, if its text is a JSON number with such a reading;
   the conversion is the platform's and is not modelled further.
   */
  datatype Json =
    | Null
    | Bool(b: bool)
    | Num(text: string, float: Option<Int64>)
    | Str(s: string, float: Option<Int64>)
    | Arr(items: seq<Json>, text: string)
    | Obj(members: map<string, Json>, text: string)

  // Integers as text

  predicate IsDigit(c: char) { '0' <= c <= '9' }

  predicate AllDigits(s: string) { forall i :: 0 <= i < |s| ==> IsDigit(s[i]) }

  function Value(s: string): nat
    requires AllDigits(s)
    decreases |s|
  {
    if s == "" then 0 else 10 * Value(s[..|s| - 1]) + (s[|s| - 1] - '0') as nat
  }

  function Signed(negative: bool, digits: string): int
    requires AllDigits(digits)
  {
    if negative then 0 - Value(digits) else Value(digits)
  }

  /** What strconv.ParseInt(s, 10, 64) makes of an optional sign and at least one digit,
      before the range check. */
  function Integer(s: string): Option<int> {
    var signed := s != "" && (s[0] == '-' || s[0] == '+');
    var digits := if signed then s[1..] else s;
    if digits == "" || !AllDigits(digits) then None
    else Some(Signed(signed && s[0] == '-', digits))
  }

  /** ParseInt with its error checked. */
  function ParseInt(s: string): Option<Int64> {
    match Integer(s)
    case Some(v) => if MIN64 <= v <= MAX64 then Some(v) else None
    case None => None
  }

  /** ParseInt with its error ignored: 0 for a syntax error, the nearest bound when out
      of range. */
  function ParseAnyway(s: string): Int64 {
    match Integer(s)
    case Some(v) => if v > MAX64 then MAX64 else if v < MIN64 then MIN64 else v
    case None => 0
  }

  // Elements

  /** Numbers, and strings that read as numbers. */
  function IntOf(j: Json): Option<Int64> {
    match j
    case Num(t, f) => if ParseInt(t).Some? then ParseInt(t) else f
    case Str(s, f) => if ParseInt(s).Some? then ParseInt(s) else f
    case _ => None
  }

  function RawText(j: Json): string {
    match j
    case Null => "null"
    case Bool(b) => if b then "true" else "false"
    case Str(s, _) => "\"" + s + "\""
    case _ => j.text
  }

  /** A string's value, "" for null, else the source text. */
  function StringOf(j: Json): string {
    match j
    case Str(s, _) => s
    case Null => ""
    case _ => RawText(j)
  }

  /** strings.Trim of double quotes. */
  function TrimQuotes(s: string): string
    decreases |s|
  {
    if s != "" && s[0] == '"' then TrimQuotes(s[1..])
    else if s != "" && s[|s| - 1] == '"' then TrimQuotes(s[..|s| - 1])
    else s
  }

  function IntsOf(items: seq<Json>): seq<Int64>
    decreases |items|
  {
    if items == [] then []
    else IntsOf(items[..|items| - 1]) + (match IntOf(items[|items| - 1]) case Some(v) => [v] case None => [])
  }

  function ObjectOf(members: map<string, Json>): map<string, string> {
    map k | k in members :: StringOf(members[k])
  }

  /** The loop of update.ints. */
  method ReadInts(items: seq<Json>) returns (out: seq<Int64>)
    ensures out == IntsOf(items)
  {
    out := [];
    for i := 0 to |items|
      invariant out == IntsOf(items[..i])
    {
      assert items[..i + 1][..i] == items[..i];
      var v := IntOf(items[i]);
      if v.Some? { out := out + [v.value]; }
    }
    assert items[..|items|] == items;
  }

  /** The loop of update.object, over the keys in any order. */
  method ReadObject(members: map<string, Json>) returns (out: map<string, string>)
    ensures out == ObjectOf(members)
  {
    out := map[];
    var todo := members.Keys;
    while todo != {}
      invariant todo <= members.Keys
      invariant out.Keys == members.Keys - todo
      invariant forall k :: k in out ==> out[k] == StringOf(members[k])
      decreases |todo|
    {
      var k :| k in todo;
      todo := todo - {k};
      out := out[k := StringOf(members[k])];
    }
  }

  // Positions; a missing element reads as nothing

  function Int(u: seq<Json>, i: nat): Option<Int64> { if i < |u| then IntOf(u[i]) else None }

  function IntOr0(u: seq<Json>, i: nat): Int64 { match Int(u, i) case Some(v) => v case None => 0 }

  function String(u: seq<Json>, i: nat): string {
    if i >= |u| then ""
    else if u[i].Str? || u[i].Null? then StringOf(u[i])
    else TrimQuotes(RawText(u[i]))
  }

  function Ints(u: seq<Json>, i: nat): seq<Int64> {
    if i < |u| && u[i].Arr? then IntsOf(u[i].items) else []
  }

  /** The empty map stands for the nil map: no other empty map is produced. */
  function Object(u: seq<Json>, i: nat): map<string, string> {
    if i < |u| && u[i].Obj? then ObjectOf(u[i].members) else map[]
  }

  // Events

  /** Zero is the zero time.Time, Now the moment of decoding. */
  datatype Time = Zero | Unix(sec: Int64) | Now

  datatype FlagsOp = Replace | Set | Reset

  datatype Event =
    | RawUpdate(code: Int64, raw: seq<Json>)
    | Message(id: Int64, flags: Int64, peer: Int64, date: Time, text: string, randomID: Int64,
              extra: map<string, string>, attachments: map<string, string>, sender: Int64, outgoing: bool)
    | MessageEdit(id: Int64, flags: Int64, peer: Int64, date: Time, text: string, attachments: map<string, string>)
    | MessageFlags(op: FlagsOp, id: Int64, flags: Int64, peer: Int64, date: Time, text: string,
                   extra: map<string, string>, attachments: map<string, string>)
    | ReadInbox(peer: Int64, localID: Int64)
    | ReadOutbox(peer: Int64, localID: Int64)
    | UserOnline(user: Int64, platform: Int64, date: Time)
    | UserOffline(user: Int64, timeout: bool, date: Time)
    | DialogFlags(op: FlagsOp, peer: Int64, flags: Int64)
    | MessagesDeleted(peer: Int64, localID: Int64)
    | MessagesRestored(peer: Int64, localID: Int64)
    | ConversationOrder(peer: Int64, major: Int64, minor: Int64)
    | ChatChanged(chat: Int64, self: bool)
    | ChatInfo(typeID: Int64, peer: Int64, info: Int64)
    | Typing(peer: Int64, users: seq<Int64>, voice: bool, total: Int64, date: Time)
    | Call(user: Int64, call: Int64)
    | Counter(count: Int64)
    | NotificationSettings(peer: Int64, sound: bool, until: Int64)

  const CHAT_OFFSET := 2_000_000_000

  predicate Outgoing(flags: Int64) { flags / 2 % 2 == 1 }

  function Lookup(m: map<string, string>, k: string): string { if k in m then m[k] else "" }

  /** From: extra["from"] if it is a number other than 0, else the peer of an incoming
      private message, else 0. */
  function Sender(extra: map<string, string>, peer: Int64, outgoing: bool): Int64 {
    var from := ParseInt(Lookup(extra, "from"));
    if from.Some? && from.value != 0 then from.value
    else if !outgoing && peer < CHAT_OFFSET then peer
    else 0
  }

  function DecodeMessage(u: seq<Json>): Option<Event> {
    var id, flags, peer := Int(u, 1), Int(u, 2), Int(u, 3);
    if id.None? || flags.None? || peer.None? then None
    else
      var extra := Object(u, 6);
      var outgoing := Outgoing(flags.value);
      Some(Message(
        id.value, flags.value, peer.value, Unix(IntOr0(u, 4)), T.Text(String(u, 5)), IntOr0(u, 8),
        extra, Object(u, 7), Sender(extra, peer.value, outgoing), outgoing))
  }

  function DecodeFlags(op: FlagsOp, u: seq<Json>): Option<Event> {
    var id, flags := Int(u, 1), Int(u, 2);
    if id.None? || flags.None? then None
    else
      var date := if Int(u, 4).Some? then Unix(Int(u, 4).value) else Zero;
      var full := |u| > 5;
      Some(MessageFlags(
        op, id.value, flags.value, IntOr0(u, 3), date,
        if full then T.Text(String(u, 5)) else "",
        if full then Object(u, 6) else map[],
        if full then Object(u, 7) else map[]))
  }

  function DecodeEdit(u: seq<Json>): Option<Event> {
    var id, peer := Int(u, 1), Int(u, 3);
    if id.None? || peer.None? then None
    else Some(MessageEdit(
      id.value, IntOr0(u, 2), peer.value, Unix(IntOr0(u, 4)), T.Text(String(u, 5)), Object(u, 6)))
  }

  /** The events made of two integers. */
  function DecodePair(code: Int64, a: Int64, b: Int64, u: seq<Json>): Option<Event> {
    match code
    case 6 => Some(ReadInbox(a, b))
    case 7 => Some(ReadOutbox(a, b))
    case 10 => Some(DialogFlags(Reset, a, b))
    case 11 => Some(DialogFlags(Replace, a, b))
    case 12 => Some(DialogFlags(Set, a, b))
    case 13 => Some(MessagesDeleted(a, b))
    case 14 => Some(MessagesRestored(a, b))
    case 20 => Some(ConversationOrder(a, b, 0))
    case 21 => Some(ConversationOrder(a, 0, b))
    case 52 => Some(ChatInfo(a, b, IntOr0(u, 3)))
    case 62 => Some(Typing(Wrap(CHAT_OFFSET + b), [a], false, 0, Now))
    case _ => None
  }

  /** The events that need one integer. */
  function DecodeOne(code: Int64, a: Int64, u: seq<Json>): Option<Event> {
    match code
    case 8 => Some(UserOnline(Wrap(0 - a), IntOr0(u, 2) % 256, Unix(IntOr0(u, 3))))
    case 9 => Some(UserOffline(Wrap(0 - a), IntOr0(u, 2) == 1, Unix(IntOr0(u, 3))))
    case 51 => Some(ChatChanged(a, IntOr0(u, 2) == 1))
    case 61 => Some(Typing(a, [a], false, 0, Now))
    case 70 => Some(Call(a, IntOr0(u, 2)))
    case 80 => Some(Counter(a))
    case _ => None
  }

  function DecodeTyping(voice: bool, u: seq<Json>): Option<Event> {
    var peer, ts := Int(u, 2), IntOr0(u, 4);
    if peer.None? then None
    else Some(Typing(peer.value, Ints(u, 1), voice, IntOr0(u, 3), if ts > 0 then Unix(ts) else Now))
  }

  function DecodeSettings(u: seq<Json>): Option<Event> {
    var obj := Object(u, 1);
    if obj == map[] then None
    else Some(NotificationSettings(
      ParseAnyway(Lookup(obj, "peer_id")), ParseAnyway(Lookup(obj, "sound")) == 1, ParseAnyway(Lookup(obj, "disabled_until"))))
  }

  function DecodeCode(code: Int64, u: seq<Json>): Option<Event> {
    if code == 1 then DecodeFlags(Replace, u)
    else if code == 2 then DecodeFlags(Set, u)
    else if code == 3 then DecodeFlags(Reset, u)
    else if code == 4 then DecodeMessage(u)
    else if code == 5 then DecodeEdit(u)
    else if code == 63 || code == 64 then DecodeTyping(code == 64, u)
    else if code == 114 then DecodeSettings(u)
    else
      match Int(u, 1)
      case None => None
      case Some(a) =>
        if code in {8, 9, 51, 61, 70, 80} then DecodeOne(code, a, u)
        else match Int(u, 2)
          case None => None
          case Some(b) => DecodePair(code, a, b, u)
  }

  function Decode(j: Json): Event {
    var u := if j.Arr? then j.items else [];
    match Int(u, 0)
    case None => RawUpdate(0, u)
    case Some(code) =>
      match DecodeCode(code, u)
      case Some(e) => e
      case None => RawUpdate(code, u)
  }
}
