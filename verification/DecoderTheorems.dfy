/** Which updates decode to typed events, and which events decoding can give. */
module DecoderTheorems {
  import opened Common
  import opened Decoder
  import T = Text

  // Which updates are typed

  /** The positions that must hold integers, for the codes that are known. */
  function Needs(code: Int64): Option<set<nat>> {
    if code in {4} then Some({1, 2, 3})
    else if code in {5} then Some({1, 3})
    else if code in {63, 64} then Some({2})
    else if code in {8, 9, 51, 61, 70, 80} then Some({1})
    else if code in {1, 2, 3, 6, 7, 10, 11, 12, 13, 14, 20, 21, 52, 62} then Some({1, 2})
    else None
  }

  predicate FitsCode(code: Int64, u: seq<Json>) {
    if code == 114 then 1 < |u| && u[1].Obj? && u[1].members != map[]
    else Needs(code).Some? && forall p :: p in Needs(code).value ==> Int(u, p).Some?
  }

  predicate WellFormed(u: seq<Json>) { Int(u, 0).Some? && FitsCode(Int(u, 0).value, u) }

  function Items(j: Json): seq<Json> { if j.Arr? then j.items else [] }

  lemma {:induction false} ObjectEmpty(members: map<string, Json>)
    ensures ObjectOf(members) == map[] <==> members == map[]
  {
    if members != map[] {
      var k :| k in members;
      assert k in ObjectOf(members);
    }
  }

  lemma {:induction false} TypedIffFits(code: Int64, u: seq<Json>)
    ensures DecodeCode(code, u).Some? <==> FitsCode(code, u)
  {
    if 1 < |u| && u[1].Obj? { ObjectEmpty(u[1].members); }
    hide IntOf, ObjectOf, IntsOf, StringOf, String, T.Text, Sender, Outgoing, ParseAnyway, Wrap;
  }

  lemma {:induction false} TypedIsNotRaw(code: Int64, u: seq<Json>)
    ensures DecodeCode(code, u).Some? ==> !DecodeCode(code, u).value.RawUpdate?
  {
    hide Int, Ints, Object, String, T.Text, Sender, Outgoing, ParseAnyway, Wrap;
  }

  /** Totality: an update is typed exactly if it is well formed, and anything else comes
      back whole as a RawUpdate with the code that was read. */
  lemma {:induction false} TypedIffWellFormed(j: Json)
    ensures Decode(j).RawUpdate? <==> !WellFormed(Items(j))
    ensures Decode(j).RawUpdate? ==> Decode(j) == RawUpdate(IntOr0(Items(j), 0), Items(j))
  {
    var u := Items(j);
    if Int(u, 0).Some? {
      TypedIffFits(Int(u, 0).value, u);
      TypedIsNotRaw(Int(u, 0).value, u);
    }
    hide DecodeCode, FitsCode;
  }

  // The printer

  function Digits(n: nat): string {
    if n < 10 then [('0' as int + n) as char] else Digits(n / 10) + [('0' as int + n % 10) as char]
  }

  function Format(v: Int64): string { if v < 0 then "-" + Digits(0 - v) else Digits(v) }

  lemma {:induction false} DigitsRead(n: nat)
    ensures Digits(n) != "" && AllDigits(Digits(n)) && Value(Digits(n)) == n
  {
    if n >= 10 { DigitsRead(n / 10); }
  }

  lemma {:induction false} FormatReads(v: Int64)
    ensures Integer(Format(v)) == Some(v)
    ensures ParseInt(Format(v)) == Some(v) && ParseAnyway(Format(v)) == v
  {
    DigitsRead(if v < 0 then 0 - v else v);
  }

  function N(v: Int64): Json { Num(Format(v), None) }

  function Flag(b: bool): Json { N(if b then 1 else 0) }

  /** Escaped, with newlines as breaks. */
  function Escaped(text: string): Json { Str(T.Breaks(T.Escape(text)), None) }

  function Members(m: map<string, string>): Json { Obj(map k | k in m :: Str(m[k], None), "") }

  function Numbers(vs: seq<Int64>): seq<Json>
    decreases |vs|
  {
    if vs == [] then [] else Numbers(vs[..|vs| - 1]) + [N(vs[|vs| - 1])]
  }

  function Moment(t: Time): Json { match t case Unix(s) => N(s) case _ => Null }

  function Settings(peer: Int64, sound: bool, until: Int64): map<string, string> {
    map["peer_id" := Format(peer), "sound" := Format(if sound then 1 else 0), "disabled_until" := Format(until)]
  }

  function OpCode(op: FlagsOp, replace: Int64, set_: Int64, reset: Int64): Int64 {
    match op case Replace => replace case Set => set_ case Reset => reset
  }

  /** The positional update an event is read from. */
  function Update(e: Event): seq<Json> {
    match e
    case RawUpdate(_, raw) => raw
    case Message(id, flags, peer, date, text, randomID, extra, attachments, _, _) =>
      [N(4), N(id), N(flags), N(peer), Moment(date), Escaped(text), Members(extra), Members(attachments), N(randomID)]
    case MessageEdit(id, flags, peer, date, text, attachments) =>
      [N(5), N(id), N(flags), N(peer), Moment(date), Escaped(text), Members(attachments)]
    case MessageFlags(op, id, flags, peer, date, text, extra, attachments) =>
      [N(OpCode(op, 1, 2, 3)), N(id), N(flags), N(peer), Moment(date), Escaped(text), Members(extra), Members(attachments)]
    case ReadInbox(peer, localID) => [N(6), N(peer), N(localID)]
    case ReadOutbox(peer, localID) => [N(7), N(peer), N(localID)]
    case UserOnline(user, platform, date) => [N(8), N(Wrap(0 - user)), N(platform), Moment(date)]
    case UserOffline(user, timeout, date) => [N(9), N(Wrap(0 - user)), Flag(timeout), Moment(date)]
    case DialogFlags(op, peer, flags) => [N(OpCode(op, 11, 12, 10)), N(peer), N(flags)]
    case MessagesDeleted(peer, localID) => [N(13), N(peer), N(localID)]
    case MessagesRestored(peer, localID) => [N(14), N(peer), N(localID)]
    case ConversationOrder(peer, major, minor) =>
      if minor == 0 then [N(20), N(peer), N(major)] else [N(21), N(peer), N(minor)]
    case ChatChanged(chat, self) => [N(51), N(chat), Flag(self)]
    case ChatInfo(typeID, peer, info) => [N(52), N(typeID), N(peer), N(info)]
    case Typing(peer, users, voice, total, date) =>
      [N(if voice then 64 else 63), Arr(Numbers(users), ""), N(peer), N(total), Moment(date)]
    case Call(user, call) => [N(70), N(user), N(call)]
    case Counter(count) => [N(80), N(count)]
    case NotificationSettings(peer, sound, until) => [N(114), Members(Settings(peer, sound, until))]
  }

  function Encode(e: Event): Json { Arr(Update(e), "") }

  /** The events an update can decode to. */
  predicate Canonical(e: Event) {
    match e
    case RawUpdate(code, raw) => !WellFormed(raw) && code == IntOr0(raw, 0)
    case Message(_, flags, peer, date, _, _, extra, _, sender, outgoing) =>
      date.Unix? && outgoing == Outgoing(flags) && sender == Sender(extra, peer, outgoing)
    case MessageEdit(_, _, _, date, _, _) => date.Unix?
    case MessageFlags(_, _, _, _, date, _, _, _) => !date.Now?
    case UserOnline(_, platform, date) => 0 <= platform < 256 && date.Unix?
    case UserOffline(_, _, date) => date.Unix?
    case ConversationOrder(_, major, minor) => major == 0 || minor == 0
    case Typing(_, _, _, _, date) => date.Now? || (date.Unix? && date.sec > 0)
    case _ => true
  }

  lemma {:induction false} TypedIsCanonical(code: Int64, u: seq<Json>)
    requires DecodeCode(code, u).Some?
    ensures Canonical(DecodeCode(code, u).value)
  {
    TypedIsNotRaw(code, u);
    hide WellFormed, Int, Ints, Object, String, T.Text, Sender, Outgoing, ParseAnyway, Wrap;
  }

  /** Decoding gives canonical events only. */
  lemma {:induction false} DecodedIsCanonical(j: Json)
    ensures Canonical(Decode(j))
  {
    TypedIffWellFormed(j);
    var u := Items(j);
    if WellFormed(u) {
      TypedIffFits(Int(u, 0).value, u);
      TypedIsCanonical(Int(u, 0).value, u);
    }
    hide DecodeCode, FitsCode, Int;
  }

  // The round trip

  lemma {:induction false} NumbersRead()
    ensures forall v: Int64 :: IntOf(N(v)) == Some(v)
    ensures IntOf(Null).None?
  {
    forall v: Int64 ensures IntOf(N(v)) == Some(v) { FormatReads(v); }
  }

  lemma {:induction false} IntsOfSnoc(items: seq<Json>, v: Int64)
    ensures IntsOf(items + [N(v)]) == IntsOf(items) + [v]
  {
    FormatReads(v);
    assert (items + [N(v)])[..|items|] == items;
    assert IntOf(N(v)) == Some(v);
    hide IntOf, N;
  }

  lemma {:induction false} NoNumbers()
    ensures IntsOf(Numbers([])) == []
  {
    assert Numbers([]) == [];
  }

  lemma {:induction false} NumbersSnoc(vs: seq<Int64>, v: Int64)
    ensures Numbers(vs + [v]) == Numbers(vs) + [N(v)]
  {
    hide N;
    assert (vs + [v])[..|vs|] == vs;
  }

  lemma {:induction false} IntsRead(vs: seq<Int64>)
    ensures IntsOf(Numbers(vs)) == vs
    decreases |vs|
  {
    hide *;
    if vs == [] {
      NoNumbers();
    } else {
      var n := |vs| - 1;
      IntsRead(vs[..n]);
      NumbersSnoc(vs[..n], vs[n]);
      IntsOfSnoc(Numbers(vs[..n]), vs[n]);
      assert vs[..n] + [vs[n]] == vs;
    }
  }

  lemma {:induction false} MembersRead()
    ensures forall m: map<string, string> :: ObjectOf(Members(m).members) == m
  {
    forall m: map<string, string> ensures ObjectOf(Members(m).members) == m {}
  }

  lemma {:induction false} TextsRead()
    ensures forall s :: T.Text(Escaped(s).s) == s
  {
    forall s ensures T.Text(Escaped(s).s) == s { T.TextUndoesEscape(s); }
  }

  /** Past its code, an update is read by DecodeCode. */
  lemma {:induction false} ReadBy(e: Event, code: Int64)
    requires !e.RawUpdate? && Update(e)[0] == N(code)
    requires DecodeCode(code, Update(e)) == Some(e)
    ensures Decode(Encode(e)) == e
  {
    hide DecodeCode, Integer, Digits, Value;
    FormatReads(code);
    assert Int(Update(e), 0) == Some(code);
    hide Update, IntOf, N;
  }

  lemma {:induction false} MessageRoundTrip(e: Event)
    requires Canonical(e) && e.Message?
    ensures Decode(Encode(e)) == e
  {
    hide Numbers;
    NumbersRead();
    MembersRead();
    TextsRead();
    hide IntOf, N, Sender, Outgoing, T.Text;
    var u := Update(e);
    assert DecodeMessage(u) == Some(e);
    hide DecodeMessage, DecodeEdit, DecodeFlags;
    ReadBy(e, 4);
  }

  lemma {:induction false} EditRoundTrip(e: Event)
    requires Canonical(e) && e.MessageEdit?
    ensures Decode(Encode(e)) == e
  {
    hide Numbers;
    NumbersRead();
    MembersRead();
    TextsRead();
    hide IntOf, N, Sender, Outgoing, T.Text;
    var u := Update(e);
    assert DecodeEdit(u) == Some(e);
    hide DecodeMessage, DecodeEdit, DecodeFlags;
    ReadBy(e, 5);
  }

  lemma {:induction false} FlagsRoundTrip(e: Event)
    requires Canonical(e) && e.MessageFlags?
    ensures Decode(Encode(e)) == e
  {
    hide Numbers;
    NumbersRead();
    MembersRead();
    TextsRead();
    hide IntOf, N, Sender, Outgoing, T.Text;
    var u := Update(e);
    assert DecodeFlags(e.op, u) == Some(e);
    hide DecodeMessage, DecodeEdit, DecodeFlags;
    ReadBy(e, OpCode(e.op, 1, 2, 3));
  }

  lemma {:induction false} SettingsRead(peer: Int64, sound: bool, until: Int64)
    ensures var obj := Settings(peer, sound, until);
      && obj != map[]
      && ParseAnyway(Lookup(obj, "peer_id")) == peer
      && ParseAnyway(Lookup(obj, "sound")) == (if sound then 1 else 0)
      && ParseAnyway(Lookup(obj, "disabled_until")) == until
  {
    FormatReads(peer);
    FormatReads(if sound then 1 else 0);
    FormatReads(until);
    hide Format, ParseAnyway;
    assert |"peer_id"| == 7 && |"sound"| == 5 && |"disabled_until"| == 14;
    assert "peer_id" in Settings(peer, sound, until);
  }

  lemma {:induction false} SettingsRoundTrip(e: Event)
    requires e.NotificationSettings?
    ensures Decode(Encode(e)) == e
  {
    hide Numbers, ParseAnyway, Settings, Lookup;
    SettingsRead(e.peer, e.sound, e.until);
    MembersRead();
    assert DecodeSettings(Update(e)) == Some(e);
    hide DecodeSettings;
    ReadBy(e, 114);
  }

  lemma {:induction false} TypingRoundTrip(e: Event)
    requires Canonical(e) && e.Typing?
    ensures Decode(Encode(e)) == e
  {
    hide Numbers, IntsOf, Digits, Format, Wrap, Members, Escaped, Settings;
    NumbersRead();
    IntsRead(e.users);
    hide IntOf, N;
    assert DecodeTyping(e.voice, Update(e)) == Some(e);
    ReadBy(e, if e.voice then 64 else 63);
  }

  lemma {:induction false} OneRoundTrip(e: Event)
    requires Canonical(e) && (e.UserOnline? || e.UserOffline? || e.ChatChanged? || e.Call? || e.Counter?)
    ensures Decode(Encode(e)) == e
  {
    NumbersRead();
    hide IntOf, N;
    var code := if e.UserOnline? then 8 else if e.UserOffline? then 9 else if e.ChatChanged? then 51 else if e.Call? then 70 else 80;
    assert DecodeOne(code, Int(Update(e), 1).value, Update(e)) == Some(e);
    ReadBy(e, code);
  }

  lemma {:induction false} PairRoundTrip(e: Event)
    requires Canonical(e)
    requires e.ReadInbox? || e.ReadOutbox? || e.DialogFlags? || e.MessagesDeleted? || e.MessagesRestored?
      || e.ConversationOrder? || e.ChatInfo?
    ensures Decode(Encode(e)) == e
  {
    NumbersRead();
    hide IntOf, N, Numbers, Members, Escaped;
    var code :=
      if e.ReadInbox? then 6 else if e.ReadOutbox? then 7 else if e.DialogFlags? then OpCode(e.op, 11, 12, 10)
      else if e.MessagesDeleted? then 13 else if e.MessagesRestored? then 14
      else if e.ConversationOrder? then (if e.minor == 0 then 20 else 21) else 52;
    var u := Update(e);
    assert DecodePair(code, Int(u, 1).value, Int(u, 2).value, u) == Some(e);
    ReadBy(e, code);
  }

  lemma {:induction false} RoundTrip(e: Event)
    requires Canonical(e)
    ensures Decode(Encode(e)) == e
  {
    if e.RawUpdate? {
      TypedIffWellFormed(Encode(e));
    } else if e.Message? {
      MessageRoundTrip(e);
    } else if e.MessageEdit? {
      EditRoundTrip(e);
    } else if e.MessageFlags? {
      FlagsRoundTrip(e);
    } else if e.NotificationSettings? {
      SettingsRoundTrip(e);
    } else if e.Typing? {
      TypingRoundTrip(e);
    } else if e.UserOnline? || e.UserOffline? || e.ChatChanged? || e.Call? || e.Counter? {
      hide *;
      OneRoundTrip(e);
    } else {
      PairRoundTrip(e);
    }
  }

  /** Decoding, printing and decoding again changes nothing. */
  lemma {:induction false} NormalForm(j: Json)
    ensures Decode(Encode(Decode(j))) == Decode(j)
  {
    DecodedIsCanonical(j);
    RoundTrip(Decode(j));
  }

  // Missing elements

  /** v is u up to position k: what is read before k is the same, past it nothing is. */
  ghost predicate ReadsUpTo(u: seq<Json>, v: seq<Json>, k: nat) {
    && (forall i: nat :: Int(v, i) == if i < k then Int(u, i) else None)
    && (forall i: nat :: String(v, i) == if i < k then String(u, i) else "")
    && (forall i: nat :: Ints(v, i) == if i < k then Ints(u, i) else [])
    && (forall i: nat :: Object(v, i) == if i < k then Object(u, i) else map[])
  }

  lemma {:induction false} PrefixReads(u: seq<Json>, k: nat)
    requires k <= |u|
    ensures ReadsUpTo(u, u[..k], k)
  {
    hide IntOf, StringOf, TrimQuotes, RawText, IntsOf, ObjectOf;
  }

  lemma {:induction false} PaddedReads(u: seq<Json>, n: nat)
    ensures ReadsUpTo(u + Nulls(n), u, |u|) && ReadsUpTo(u, u + Nulls(n), |u|)
  {
    var v := u + Nulls(n);
    forall i: nat | i < |v| ensures v[i] == if i < |u| then u[i] else Null {}
    assert IntOf(Null).None?;
    hide IntOf, TrimQuotes, RawText, IntsOf, ObjectOf;
  }

  function Nulls(n: nat): seq<Json> { seq(n, _ => Null) }

  /** e without what is read at position k and after: those fields have their defaults. A
      message loses its sender with its extra fields. */
  function Without(e: Event, k: nat): Event {
    match e
    case Message(id, flags, peer, date, text, randomID, extra, attachments, _, outgoing) =>
      var kept := if k <= 6 then map[] else extra;
      Message(
        id, flags, peer, if k <= 4 then Unix(0) else date, if k <= 5 then "" else text, if k <= 8 then 0 else randomID,
        kept, if k <= 7 then map[] else attachments, Sender(kept, peer, outgoing), outgoing)
    case MessageEdit(id, flags, peer, date, text, attachments) =>
      MessageEdit(
        id, flags, peer, if k <= 4 then Unix(0) else date, if k <= 5 then "" else text,
        if k <= 6 then map[] else attachments)
    case MessageFlags(op, id, flags, peer, date, text, extra, attachments) =>
      MessageFlags(
        op, id, flags, if k <= 3 then 0 else peer, if k <= 4 then Zero else date, if k <= 5 then "" else text,
        if k <= 6 then map[] else extra, if k <= 7 then map[] else attachments)
    case UserOnline(user, platform, date) =>
      UserOnline(user, if k <= 2 then 0 else platform, if k <= 3 then Unix(0) else date)
    case UserOffline(user, timeout, date) =>
      UserOffline(user, if k <= 2 then false else timeout, if k <= 3 then Unix(0) else date)
    case ChatChanged(chat, self) => ChatChanged(chat, if k <= 2 then false else self)
    case ChatInfo(typeID, peer, info) => ChatInfo(typeID, peer, if k <= 3 then 0 else info)
    case Typing(peer, users, voice, total, date) =>
      Typing(peer, users, voice, if k <= 3 then 0 else total, if k <= 4 then Now else date)
    case Call(user, call) => Call(user, if k <= 2 then 0 else call)
    case _ => e
  }

  /** How many elements an update with this code needs. */
  function Least(code: Int64): nat {
    if code in {4, 5} then 4
    else if code in {8, 9, 51, 61, 70, 80, 114} then 2
    else 3
  }

  lemma {:induction false} FitsPrefix(code: Int64, u: seq<Json>, k: nat)
    requires FitsCode(code, u) && 1 <= k <= |u|
    ensures FitsCode(code, u[..k]) <==> Least(code) <= k
  {
    hide IntOf;
  }

  // Reading fewer positions resets the rest, code by code

  lemma {:induction false} ResetsMessage(code: Int64, u: seq<Json>, v: seq<Json>, k: nat)
    requires ReadsUpTo(u, v, k) && code in {4, 5} && FitsCode(code, u) && Least(code) <= k
    ensures DecodeCode(code, u).Some? && DecodeCode(code, v) == Some(Without(DecodeCode(code, u).value, k))
  {
    TypedIffFits(code, u);
    assert T.Text("") == "";
    hide Int, String, Ints, Object, T.Text, Sender, Outgoing, ParseInt, DecodeFlags, DecodeOne, DecodePair, DecodeTyping, DecodeSettings;
  }

  lemma {:induction false} FlagsReset(op: FlagsOp, u: seq<Json>, v: seq<Json>, k: nat)
    requires ReadsUpTo(u, v, k) && DecodeFlags(op, u).Some? && 3 <= k
    ensures DecodeFlags(op, v) == Some(Without(DecodeFlags(op, u).value, k))
  {
    assert T.Text("") == "";
    assert |u| <= 5 ==> String(u, 5) == "" && Object(u, 6) == map[] && Object(u, 7) == map[];
    assert |v| <= 5 ==> String(v, 5) == "" && Object(v, 6) == map[] && Object(v, 7) == map[];
    hide Int, String, Ints, Object, T.Text;
  }

  lemma {:induction false} ResetsFlags(code: Int64, u: seq<Json>, v: seq<Json>, k: nat)
    requires ReadsUpTo(u, v, k) && code in {1, 2, 3} && FitsCode(code, u) && Least(code) <= k
    ensures DecodeCode(code, u).Some? && DecodeCode(code, v) == Some(Without(DecodeCode(code, u).value, k))
  {
    TypedIffFits(code, u);
    var op := if code == 1 then Replace else if code == 2 then Set else Reset;
    assert DecodeCode(code, u) == DecodeFlags(op, u) && DecodeCode(code, v) == DecodeFlags(op, v);
    hide ReadsUpTo, DecodeFlags, DecodeCode;
    FlagsReset(op, u, v, k);
  }

  lemma {:induction false} ResetsTyping(code: Int64, u: seq<Json>, v: seq<Json>, k: nat)
    requires ReadsUpTo(u, v, k) && code in {63, 64} && FitsCode(code, u) && Least(code) <= k
    ensures DecodeCode(code, u).Some? && DecodeCode(code, v) == Some(Without(DecodeCode(code, u).value, k))
  {
    TypedIffFits(code, u);
    hide Int, String, Ints, Object, T.Text, Sender, Outgoing, ParseInt, ParseAnyway, FitsCode, DecodeMessage, DecodeEdit, DecodeOne, DecodePair, DecodeFlags, DecodeSettings;
  }

  lemma {:induction false} ResetsOne(code: Int64, u: seq<Json>, v: seq<Json>, k: nat)
    requires ReadsUpTo(u, v, k) && code in {8, 9, 51, 61, 70, 80} && FitsCode(code, u) && Least(code) <= k
    ensures DecodeCode(code, u).Some? && DecodeCode(code, v) == Some(Without(DecodeCode(code, u).value, k))
  {
    TypedIffFits(code, u);
    hide Int, String, Ints, Object, T.Text, Sender, Outgoing, ParseInt, ParseAnyway, FitsCode, DecodeMessage, DecodeEdit, DecodePair, DecodeTyping, DecodeFlags, DecodeSettings;
  }

  lemma {:induction false} ResetsPair(code: Int64, u: seq<Json>, v: seq<Json>, k: nat)
    requires ReadsUpTo(u, v, k) && code in {6, 7, 10, 11, 12, 13, 14, 20, 21, 52, 62} && FitsCode(code, u) && Least(code) <= k
    ensures DecodeCode(code, u).Some? && DecodeCode(code, v) == Some(Without(DecodeCode(code, u).value, k))
  {
    TypedIffFits(code, u);
    hide Int, String, Ints, Object, T.Text, Sender, Outgoing, ParseInt, ParseAnyway, FitsCode, DecodeMessage, DecodeEdit, DecodeOne, DecodeTyping, DecodeFlags, DecodeSettings;
  }

  lemma {:induction false} ResetsSettings(code: Int64, u: seq<Json>, v: seq<Json>, k: nat)
    requires ReadsUpTo(u, v, k) && code in {114} && FitsCode(code, u) && Least(code) <= k
    ensures DecodeCode(code, u).Some? && DecodeCode(code, v) == Some(Without(DecodeCode(code, u).value, k))
  {
    TypedIffFits(code, u);
    hide Int, String, Ints, Object, T.Text, Sender, Outgoing, ParseInt, ParseAnyway, FitsCode, DecodeMessage, DecodeEdit, DecodeOne, DecodePair, DecodeTyping, DecodeFlags;
  }

  lemma {:induction false} ResetsCode(code: Int64, u: seq<Json>, v: seq<Json>, k: nat)
    requires ReadsUpTo(u, v, k) && FitsCode(code, u) && Least(code) <= k
    ensures DecodeCode(code, u).Some? && DecodeCode(code, v) == Some(Without(DecodeCode(code, u).value, k))
  {
    hide ReadsUpTo, DecodeCode, Without, Least;
    assert code == 114 || Needs(code).Some?;
    hide FitsCode;
    if code in {4, 5} { ResetsMessage(code, u, v, k); }
    else if code in {1, 2, 3} { ResetsFlags(code, u, v, k); }
    else if code in {63, 64} { ResetsTyping(code, u, v, k); }
    else if code in {8, 9, 51, 61, 70, 80} { ResetsOne(code, u, v, k); }
    else if code == 114 { ResetsSettings(code, u, v, k); }
    else { ResetsPair(code, u, v, k); }
  }

  /** Dropping elements off the end of a typed update leaves it typed exactly while what
      its code needs is there, and then only resets the fields read from what was
      dropped. */
  lemma {:induction false} DroppingResets(u: seq<Json>, k: nat, text: string)
    requires WellFormed(u) && 1 <= k <= |u|
    ensures WellFormed(u[..k]) <==> Least(Int(u, 0).value) <= k
    ensures WellFormed(u[..k]) ==> Decode(Arr(u[..k], text)) == Without(Decode(Arr(u, text)), k)
  {
    var code := Int(u, 0).value;
    PrefixReads(u, k);
    FitsPrefix(code, u, k);
    if Least(code) <= k { ResetsCode(code, u, u[..k], k); }
    hide DecodeCode, FitsCode, Without, Least;
  }

  /** So the encoding of an event, cut at k, decodes to the event without those fields. */
  lemma {:induction false} CutEncodingResets(e: Event, k: nat, text: string)
    requires Canonical(e) && !e.RawUpdate? && 1 <= k <= |Update(e)| && WellFormed(Update(e)[..k])
    ensures Decode(Arr(Update(e)[..k], text)) == Without(e, k)
  {
    RoundTrip(e);
    TypedIffWellFormed(Encode(e));
    DroppingResets(Update(e), k, text);
    assert Decode(Arr(Update(e), text)) == Decode(Encode(e));
    hide Without, Update, WellFormed;
  }

  /** Of a typed update, trailing elements that are null and trailing elements that are
      not there are the same. */
  lemma {:induction false} NullIsMissing(u: seq<Json>, n: nat, text: string)
    requires WellFormed(u)
    ensures Decode(Arr(u + Nulls(n), text)) == Decode(Arr(u, text))
  {
    var code := Int(u, 0).value;
    PaddedReads(u, n);
    assert ReadsUpTo(u, u, |u|);
    assert u[..|u|] == u;
    FitsPrefix(code, u, |u|);
    ResetsCode(code, u, u, |u|);
    ResetsCode(code, u, u + Nulls(n), |u|);
    hide DecodeCode, FitsCode, Without, Least;
  }
}
