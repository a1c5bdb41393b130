/** How updates that no event is printed as are read: integers in any spelling, a message's
    sender, and the fields that only some values set. */
module DecoderReads {
  import opened Common
  import opened Decoder
  import opened DecoderTheorems
  import T = Text

  // Integers in any spelling

  function Zeros(z: nat): string { seq(z, _ => '0') }

  function Sign(minus: bool, plus: bool): string { if minus then "-" else if plus then "+" else "" }

  /** t is an optional sign, any zeros and the decimal digits of v. */
  predicate SpelledAs(t: string, v: int, minus: bool, plus: bool, z: nat) {
    (if minus then v <= 0 else v >= 0) && t == Sign(minus, plus) + Zeros(z) + Digits(if v < 0 then 0 - v else v)
  }

  ghost predicate Spells(t: string, v: int) { exists minus, plus, z :: SpelledAs(t, v, minus, plus, z) }

  lemma {:induction false} ZerosDoNotCount(z: nat, s: string)
    requires AllDigits(s)
    ensures AllDigits(Zeros(z) + s) && Value(Zeros(z) + s) == Value(s)
    decreases z + |s|
  {
    var t := Zeros(z) + s;
    if s != "" {
      assert t[..|t| - 1] == Zeros(z) + s[..|s| - 1];
      ZerosDoNotCount(z, s[..|s| - 1]);
    } else if z > 0 {
      assert t[..|t| - 1] == Zeros(z - 1) + "";
      ZerosDoNotCount(z - 1, "");
    }
  }

  function DigitChar(d: nat): char
    requires d < 10
  {
    ('0' as int + d) as char
  }

  lemma DigitsSnoc(n: nat, d: nat)
    requires d < 10
    ensures Digits(10 * n + d) == if n == 0 then [DigitChar(d)] else Digits(n) + [DigitChar(d)]
  {
    assert (10 * n + d) / 10 == n && (10 * n + d) % 10 == d;
  }

  lemma ValueSnoc(p: string, d: nat)
    requires AllDigits(p) && d < 10
    ensures AllDigits(p + [DigitChar(d)]) && Value(p + [DigitChar(d)]) == 10 * Value(p) + d
  {
    assert (p + [DigitChar(d)])[..|p|] == p;
  }

  lemma NoValue()
    ensures Value("") == 0 && Digits(0) == "0"
  {
  }

  lemma MoreZeros(z: nat)
    ensures Zeros(z) + "0" == Zeros(z + 1) && Zeros(0) == ""
  {
  }

  /** Every string of digits is the digits of its value after some zeros. */
  lemma {:induction false} DigitsAfterZeros(s: string) returns (z: nat)
    requires AllDigits(s) && s != ""
    ensures s == Zeros(z) + Digits(Value(s))
    decreases |s|
  {
    hide Digits, Value, Zeros;
    var last := |s| - 1;
    var p, d := s[..last], (s[last] - '0') as nat;
    assert s == p + [DigitChar(d)];
    ValueSnoc(p, d);
    DigitsSnoc(Value(p), d);
    MoreZeros(0);
    NoValue();
    if p == "" {
      z := 0;
    } else {
      z := DigitsAfterZeros(p);
      if Value(p) == 0 {
        MoreZeros(z);
        z := z + 1;
      }
    }
  }

  lemma SignedIsInteger(minus: bool, plus: bool, digits: string)
    requires AllDigits(digits) && digits != ""
    ensures Integer(Sign(minus, plus) + digits) == Some(Signed(minus, digits))
  {
    hide Value, Signed;
    var t := Sign(minus, plus) + digits;
    assert IsDigit(digits[0]);
    if minus || plus { assert t[1..] == digits; } else { assert t == digits; }
  }

  lemma IntegerIsSigned(t: string) returns (minus: bool, plus: bool, digits: string)
    requires Integer(t).Some?
    ensures AllDigits(digits) && digits != "" && t == Sign(minus, plus) + digits && Integer(t).value == Signed(minus, digits)
  {
    hide Value, Signed;
    minus, plus := t[0] == '-', t[0] == '+';
    digits := if minus || plus then t[1..] else t;
    assert t == Sign(minus, plus) + digits;
  }

  lemma SpelledIsInteger(t: string, v: int, minus: bool, plus: bool, z: nat)
    requires SpelledAs(t, v, minus, plus, z)
    ensures Integer(t) == Some(v)
  {
    hide Digits, Value, Integer, Zeros, Sign, AllDigits;
    var n := if v < 0 then 0 - v else v;
    var digits := Zeros(z) + Digits(n);
    DigitsRead(n);
    ZerosDoNotCount(z, Digits(n));
    SignedIsInteger(minus, plus, digits);
    assert t == Sign(minus, plus) + digits;
  }

  lemma IntegerIsSpelled(t: string)
    requires Integer(t).Some?
    ensures Spells(t, Integer(t).value)
  {
    hide Integer, Digits, Value, Zeros, Sign, Spells, AllDigits;
    var minus, plus, digits := IntegerIsSigned(t);
    var z := DigitsAfterZeros(digits);
    assert Sign(minus, plus) + (Zeros(z) + Digits(Value(digits))) == Sign(minus, plus) + Zeros(z) + Digits(Value(digits));
    assert SpelledAs(t, Integer(t).value, minus, plus, z);
    SpelledSo(t, Integer(t).value, minus, plus, z);
  }

  lemma SpelledSo(t: string, v: int, minus: bool, plus: bool, z: nat)
    requires SpelledAs(t, v, minus, plus, z)
    ensures Spells(t, v)
  {
    hide SpelledAs;
  }

  /** A text is read as v exactly if it spells v. */
  lemma IntegerIff(t: string, v: int)
    ensures Integer(t) == Some(v) <==> Spells(t, v)
  {
    hide SpelledAs, Integer;
    if Integer(t).Some? { IntegerIsSpelled(t); }
    if Spells(t, v) {
      var minus, plus, z :| SpelledAs(t, v, minus, plus, z);
      SpelledIsInteger(t, v, minus, plus, z);
    }
  }

  /** An element reads as an integer exactly if it is a number or a string, and either
      spells one of 64 bits or is a number of another form with a float64 reading. */
  lemma IntOfIff(j: Json, v: Int64)
    ensures IntOf(j) == Some(v) <==>
      match j
      case Num(t, f) => Spells(t, v) || ((forall w: Int64 :: !Spells(t, w)) && f == Some(v))
      case Str(t, f) => Spells(t, v) || ((forall w: Int64 :: !Spells(t, w)) && f == Some(v))
      case _ => false
  {
    if j.Num? || j.Str? {
      var t := if j.Num? then j.text else j.s;
      ParseIntIff(t);
      hide ParseInt, Spells;
    }
  }

  lemma ParseIntIff(t: string)
    ensures forall v: Int64 :: ParseInt(t) == Some(v) <==> Spells(t, v)
  {
    hide Integer, Spells;
    forall v: Int64 ensures ParseInt(t) == Some(v) <==> Spells(t, v) { IntegerIff(t, v); }
  }

  /** With its error ignored a text reads as the number it spells, taken to the nearest
      64-bit bound, and as 0 if it spells none. */
  lemma ParseAnywayIs(t: string)
    ensures forall v: int :: Spells(t, v) ==> ParseAnyway(t) == (if v > MAX64 then MAX64 else if v < MIN64 then MIN64 else v)
    ensures (forall v: int :: !Spells(t, v)) ==> ParseAnyway(t) == 0
  {
    hide Integer, Spells;
    forall v: int ensures Integer(t) == Some(v) <==> Spells(t, v) { IntegerIff(t, v); }
    if Integer(t).Some? { assert Spells(t, Integer(t).value); }
  }

  // Texts and members

  /** What a member, or an element where a string is expected, comes to. */
  function Plain(j: Json): string {
    match j
    case Null => ""
    case Bool(b) => if b then "true" else "false"
    case Num(t, _) => t
    case Str(s, _) => s
    case Arr(_, t) => t
    case Obj(_, t) => t
  }

  lemma {:induction false} NoQuotesToTrim(t: string)
    requires t == "" || (t[0] != '"' && t[|t| - 1] != '"')
    ensures TrimQuotes(t) == t
  {
  }

  /** A text is the string itself, the source text of anything else, and empty for null and
      for an element that is not there. */
  lemma StringIs(u: seq<Json>, i: nat)
    requires i < |u| && !u[i].Str? ==> var t := Plain(u[i]); t == "" || (t[0] != '"' && t[|t| - 1] != '"')
    ensures String(u, i) == if i < |u| then Plain(u[i]) else ""
  {
    if i < |u| && !u[i].Str? && !u[i].Null? { NoQuotesToTrim(Plain(u[i])); }
    hide TrimQuotes;
  }

  /** The members of an object are kept, each as its plain text. */
  lemma ObjectIs(u: seq<Json>, i: nat)
    ensures i < |u| && u[i].Obj? ==> Object(u, i).Keys == u[i].members.Keys
    ensures i < |u| && u[i].Obj? ==> forall k :: k in u[i].members ==> Object(u, i)[k] == Plain(u[i].members[k])
    ensures !(i < |u| && u[i].Obj?) ==> Object(u, i) == map[]
  {
  }

  lemma IntsOfOne(j: Json)
    ensures IntsOf([j]) == match IntOf(j) case Some(v) => [v] case None => []
  {
    assert [j][..0] == [];
  }

  lemma IntsSnoc(items: seq<Json>, j: Json)
    ensures IntsOf(items + [j]) == IntsOf(items) + match IntOf(j) case Some(v) => [v] case None => []
  {
    hide IntOf;
    assert (items + [j])[..|items|] == items;
  }

  /** Lists of integers are read element by element, and what is none is skipped. */
  lemma {:induction false} IntsJoin(xs: seq<Json>, ys: seq<Json>)
    ensures IntsOf(xs + ys) == IntsOf(xs) + IntsOf(ys)
    decreases |ys|
  {
    if ys == [] {
      NoInts();
      assert xs + ys == xs;
    } else {
      hide IntsOf, IntOf;
      var n := |ys| - 1;
      assert xs + ys == (xs + ys[..n]) + [ys[n]] && ys == ys[..n] + [ys[n]];
      IntsJoin(xs, ys[..n]);
      IntsSnoc(xs + ys[..n], ys[n]);
      IntsSnoc(ys[..n], ys[n]);
    }
  }

  lemma NoInts()
    ensures IntsOf([]) == []
  {
  }

  // The sender of a message

  /** The extra fields name v as the sender. */
  ghost predicate FromSpells(u: seq<Json>, v: int) {
    6 < |u| && u[6].Obj? && "from" in u[6].members && Spells(Plain(u[6].members["from"]), v)
  }

  lemma SenderIs(u: seq<Json>, peer: Int64, outgoing: bool)
    ensures var s := Sender(Object(u, 6), peer, outgoing);
      && (forall v: Int64 :: v != 0 && FromSpells(u, v) ==> s == v)
      && ((forall v: Int64 :: v != 0 ==> !FromSpells(u, v)) ==> s == if !outgoing && peer < 2_000_000_000 then peer else 0)
  {
    ObjectIs(u, 6);
    var t := Lookup(Object(u, 6), "from");
    NothingSpelled();
    ParseIntIff(t);
    hide Object, Spells, ParseInt;
    if 6 < |u| && u[6].Obj? && "from" in u[6].members {
      assert forall v: Int64 :: FromSpells(u, v) <==> Spells(t, v);
      hide FromSpells;
      var from := ParseInt(t);
      if from.Some? { assert Spells(t, from.value); }
    }
  }

  lemma NothingSpelled()
    ensures ParseInt("") == None && ParseAnyway("") == 0
  {
  }

  lemma OutgoingIs(flags: Int64)
    ensures Outgoing(flags) <==> flags % 4 >= 2
  {
  }

  lemma MessageIs(u: seq<Json>, text: string)
    requires WellFormed(u) && Int(u, 0) == Some(4)
    ensures var m, flags, peer := Decode(Arr(u, text)), Int(u, 2).value, Int(u, 3).value;
      && m.Message? && m.flags == flags && m.peer == peer && m.outgoing == Outgoing(flags)
      && m.sender == Sender(Object(u, 6), peer, m.outgoing)
  {
    TypedIffWellFormed(Arr(u, text));
    hide Sender, Object, String, T.Text, IntOf, Outgoing;
  }

  /** The sender of a message is the one its extra fields name; if they name none, or 0, it
      is the peer of an incoming message that is not from a chat, and else 0. A message is
      outgoing if the second bit of its flags is set. */
  lemma MessageSender(u: seq<Json>, text: string)
    requires WellFormed(u) && Int(u, 0) == Some(4)
    ensures var m, flags, peer := Decode(Arr(u, text)), Int(u, 2).value, Int(u, 3).value;
      && m.Message? && m.flags == flags && m.peer == peer && (m.outgoing <==> flags % 4 >= 2)
      && (forall v: Int64 :: v != 0 && FromSpells(u, v) ==> m.sender == v)
      && ((forall v: Int64 :: v != 0 ==> !FromSpells(u, v)) ==> m.sender == if flags % 4 < 2 && peer < 2_000_000_000 then peer else 0)
  {
    MessageIs(u, text);
    OutgoingIs(Int(u, 2).value);
    SenderIs(u, Int(u, 3).value, Outgoing(Int(u, 2).value));
    hide FromSpells, Sender, Object, Decode, Outgoing, WellFormed;
  }

  // Fields that only some values set

  /** Online and offline times, flags and counts of updates as they come. */
  lemma ReadsOnline(u: seq<Json>, text: string)
    requires WellFormed(u) && Int(u, 0) == Some(8)
    ensures var e := Decode(Arr(u, text));
      && e.UserOnline? && 0 <= e.platform < 256 && (IntOr0(u, 2) - e.platform) % 256 == 0
      && (Int(u, 1) != Some(MIN64) ==> e.user == 0 - Int(u, 1).value) && (Int(u, 1) == Some(MIN64) ==> e.user == MIN64)
      && e.date == Unix(IntOr0(u, 3))
  {
    TypedIffWellFormed(Arr(u, text));
    hide IntOf;
  }

  lemma ReadsOffline(u: seq<Json>, text: string)
    requires WellFormed(u) && Int(u, 0) == Some(9)
    ensures var e := Decode(Arr(u, text));
      && e.UserOffline? && (e.timeout <==> Int(u, 2) == Some(1))
      && (Int(u, 1) != Some(MIN64) ==> e.user == 0 - Int(u, 1).value) && (Int(u, 1) == Some(MIN64) ==> e.user == MIN64)
      && e.date == Unix(IntOr0(u, 3))
  {
    TypedIffWellFormed(Arr(u, text));
    hide IntOf;
  }

  lemma ReadsChat(u: seq<Json>, text: string)
    requires WellFormed(u) && Int(u, 0) == Some(51)
    ensures var e := Decode(Arr(u, text));
      e.ChatChanged? && e.chat == Int(u, 1).value && (e.self <==> Int(u, 2) == Some(1))
  {
    TypedIffWellFormed(Arr(u, text));
    hide IntOf;
  }

  /** Typing in a private conversation, in a chat given by its number, and in a conversation
      with a list of users. The first two are of the moment, and the last is without a time. */
  lemma ReadsTyping(u: seq<Json>, text: string)
    requires WellFormed(u) && Int(u, 0).value in {61, 62, 63, 64}
    ensures var e, code := Decode(Arr(u, text)), Int(u, 0).value;
      && e.Typing? && (e.voice <==> code == 64)
      && (code == 61 ==> e.peer == Int(u, 1).value && e.users == [Int(u, 1).value] && e.total == 0 && e.date == Now)
      && (code == 62 ==> e.users == [Int(u, 1).value] && e.total == 0 && e.date == Now)
      && (code == 62 && Int(u, 2).value <= MAX64 - 2_000_000_000 ==> e.peer == 2_000_000_000 + Int(u, 2).value)
      && (code >= 63 ==> e.peer == Int(u, 2).value && e.total == IntOr0(u, 3))
      && (code >= 63 ==> e.date == if IntOr0(u, 4) > 0 then Unix(IntOr0(u, 4)) else Now)
      && (code >= 63 ==> e.users == if 1 < |u| && u[1].Arr? then IntsOf(u[1].items) else [])
  {
    TypedIffWellFormed(Arr(u, text));
    hide IntOf, IntsOf;
  }

  /** Notification settings are read from members that are numbers or strings alike; what is
      missing reads as 0. */
  lemma ReadsSettings(u: seq<Json>, text: string)
    requires WellFormed(u) && Int(u, 0) == Some(114)
    ensures var e := Decode(Arr(u, text));
      && e.NotificationSettings?
      && (forall v: Int64 :: MemberSpells(u, "peer_id", v) ==> e.peer == v)
      && (forall v: Int64 :: MemberSpells(u, "disabled_until", v) ==> e.until == v)
      && (forall v: Int64 :: MemberSpells(u, "sound", v) ==> (e.sound <==> v == 1))
      && ((forall v: int :: !MemberSpells(u, "peer_id", v)) ==> e.peer == 0)
      && ((forall v: int :: !MemberSpells(u, "disabled_until", v)) ==> e.until == 0)
      && ((forall v: int :: !MemberSpells(u, "sound", v)) ==> !e.sound)
  {
    TypedIffWellFormed(Arr(u, text));
    MemberIs(u, "peer_id");
    MemberIs(u, "disabled_until");
    MemberIs(u, "sound");
    hide MemberSpells, Object, ParseAnyway, IntOf, Lookup;
  }

  ghost predicate MemberSpells(u: seq<Json>, key: string, v: int) {
    1 < |u| && u[1].Obj? && key in u[1].members && Spells(Plain(u[1].members[key]), v)
  }

  lemma MemberIs(u: seq<Json>, key: string)
    ensures forall v: Int64 :: MemberSpells(u, key, v) ==> ParseAnyway(Lookup(Object(u, 1), key)) == v
    ensures (forall v: int :: !MemberSpells(u, key, v)) ==> ParseAnyway(Lookup(Object(u, 1), key)) == 0
  {
    ObjectIs(u, 1);
    NothingSpelled();
    var t := Lookup(Object(u, 1), key);
    ParseAnywayIs(t);
    hide Object, Spells;
    if 1 < |u| && u[1].Obj? && key in u[1].members {
      assert forall v: int :: MemberSpells(u, key, v) <==> Spells(t, v);
      hide MemberSpells, ParseAnyway;
    }
  }
}
