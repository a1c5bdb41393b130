/** longpoll.Text and the escaping it undoes, vkid.htmlEscape. */
module Text {
  import opened Common

  const BREAK := "<br>"

  // The printer

  function EscapeChar(c: char): string {
    match c
    case '<' => "&lt;"
    case '>' => "&gt;"
    case '&' => "&amp;"
    case '"' => "&quot;"
    case _ => [c]
  }

  function Escape(s: string): string {
    if s == "" then "" else EscapeChar(s[0]) + Escape(s[1..])
  }

  /** strings.ReplaceAll(s, "\n", "<br>"), as a server writes newlines. */
  function Breaks(s: string): string {
    if s == "" then "" else (if s[0] == '\n' then BREAK else [s[0]]) + Breaks(s[1..])
  }

  lemma EscapeStep(out: string, s: string, i: nat)
    requires i < |s|
    ensures out + Escape(s[i..]) == (out + EscapeChar(s[i])) + Escape(s[i + 1..])
  {
    assert s[i..][1..] == s[i + 1..];
  }

  method HtmlEscape(s: string) returns (out: string)
    ensures out == Escape(s)
  {
    out := "";
    assert s[0..] == s && s[|s|..] == "" && Escape("") == "";
    hide Escape;
    for i := 0 to |s|
      invariant Escape(s) == out + Escape(s[i..])
    {
      EscapeStep(out, s, i);
      ghost var was := out;
      match s[i] {
        case '<' => out := out + "&lt;";
        case '>' => out := out + "&gt;";
        case '&' => out := out + "&amp;";
        case '"' => out := out + "&quot;";
        case _ => out := out + [s[i]];
      }
      assert out == was + EscapeChar(s[i]);
    }
  }

  // The parser

  predicate StartsWith(s: string, p: string) { |p| <= |s| && s[..|p|] == p }

  /** strings.ReplaceAll(s, "<br>", "\n"). */
  function Unbreak(s: string): string {
    if s == "" then ""
    else if StartsWith(s, BREAK) then "\n" + Unbreak(s[4..])
    else [s[0]] + Unbreak(s[1..])
  }

  /** The entity s starts with, as (its length, the character). */
  function Entity(s: string): Option<(nat, char)> {
    if StartsWith(s, "&lt;") then Some((4, '<'))
    else if StartsWith(s, "&gt;") then Some((4, '>'))
    else if StartsWith(s, "&amp;") then Some((5, '&'))
    else if StartsWith(s, "&quot;") then Some((6, '"'))
    else None
  }

  /** html.UnescapeString on the entities above: one pass, left to right. */
  function Unescape(s: string): string {
    if s == "" then ""
    else if Entity(s).Some? then [Entity(s).value.1] + Unescape(s[Entity(s).value.0..])
    else [s[0]] + Unescape(s[1..])
  }

  function Text(s: string): string { Unescape(Unbreak(s)) }

  // The round trip

  predicate Plain(s: string) { forall i :: 0 <= i < |s| ==> s[i] != '<' }

  lemma BreakHead(s: string)
    requires StartsWith(s, BREAK)
    ensures s[0] == '<'
  {
    assert s[0] == s[..4][0];
  }

  lemma EntityOfEscaped(c: char, t: string)
    ensures var head := EscapeChar(c);
      Entity(head + t) == if |head| > 1 then Some((|head|, c)) else None
  {
    var s := EscapeChar(c) + t;
    if |EscapeChar(c)| > 1 {
      assert s[..|EscapeChar(c)|] == EscapeChar(c);
      assert StartsWith(s, "&lt;") ==> s[..4][1] == 'l';
      assert StartsWith(s, "&gt;") ==> s[..4][1] == 'g';
      assert StartsWith(s, "&amp;") ==> s[..5][1] == 'a';
    } else {
      assert s[0] == c;
    }
  }

  lemma UnescapeStep(c: char, t: string)
    ensures Unescape(EscapeChar(c) + t) == [c] + Unescape(t)
  {
    var head := EscapeChar(c);
    EntityOfEscaped(c, t);
    assert |head| == 1 ==> head == [c];
    hide Entity, EscapeChar;
    assert (head + t)[|head|..] == t;
  }

  lemma {:induction false} UnescapeEscape(s: string)
    ensures Unescape(Escape(s)) == s
  {
    if s != "" {
      UnescapeEscape(s[1..]);
      UnescapeStep(s[0], Escape(s[1..]));
    }
  }

  lemma {:induction false} EscapeIsPlain(s: string)
    ensures Plain(Escape(s))
  {
    if s != "" { EscapeIsPlain(s[1..]); }
  }

  lemma {:induction false} UnbreakPlain(s: string)
    requires Plain(s)
    ensures Unbreak(s) == s
  {
    if s != "" {
      if StartsWith(s, BREAK) { BreakHead(s); }
      UnbreakPlain(s[1..]);
    }
  }

  lemma {:induction false} UnbreakBreaks(s: string)
    requires Plain(s)
    ensures Unbreak(Breaks(s)) == s
  {
    if s != "" {
      UnbreakBreaks(s[1..]);
      if s[0] == '\n' {
        assert Breaks(s)[..4] == BREAK && Breaks(s)[4..] == Breaks(s[1..]);
      } else {
        assert Breaks(s)[1..] == Breaks(s[1..]);
        if StartsWith(Breaks(s), BREAK) { BreakHead(Breaks(s)); }
      }
    }
  }

  /** Text gives back every escaped string, with its newlines written either way. */
  lemma TextUndoesEscape(s: string)
    ensures Text(Escape(s)) == s
    ensures Text(Breaks(Escape(s))) == s
  {
    EscapeIsPlain(s);
    UnbreakPlain(Escape(s));
    UnbreakBreaks(Escape(s));
    UnescapeEscape(s);
  }

  // Why the order matters, and why the entity table does not

  predicate HasBreak(s: string) { exists i :: 0 <= i <= |s| && StartsWith(s[i..], BREAK) }

  lemma HasBreakTail(s: string)
    requires s != ""
    ensures HasBreak(s) <==> StartsWith(s, BREAK) || HasBreak(s[1..])
  {
    assert s[0..] == s;
    forall i | 1 <= i <= |s| ensures s[1..][i - 1..] == s[i..] {}
    if i: nat :| i <= |s| && StartsWith(s[i..], BREAK) {
      assert i > 0 ==> StartsWith(s[1..][i - 1..], BREAK);
    }
    if i: nat :| i <= |s[1..]| && StartsWith(s[1..][i..], BREAK) {
      assert StartsWith(s[i + 1..], BREAK);
    }
  }

  lemma {:induction false} UnbreakLength(s: string)
    ensures |Unbreak(s)| <= |s|
    ensures Unbreak(s) == s <==> !HasBreak(s)
  {
    if s == "" {
      assert !StartsWith(s[0..], BREAK);
    } else {
      HasBreakTail(s);
      hide HasBreak;
      if StartsWith(s, BREAK) {
        UnbreakLength(s[4..]);
      } else {
        UnbreakLength(s[1..]);
        assert Unbreak(s)[1..] == Unbreak(s[1..]);
        assert [s[0]] + s[1..] == s;
      }
    }
  }

  /** Unescaping first and replacing breaks after gives the string back exactly when it
      has no "<br>" of its own. */
  lemma {:induction false} OtherOrderIff(s: string)
    ensures Unbreak(Unescape(Escape(s))) == s <==> !HasBreak(s)
  {
    UnescapeEscape(s);
    UnbreakLength(s);
  }

  /** Every ampersand of an escaped string starts one of the four entities, so a larger
      entity table reads an escaped string the same way. */
  lemma {:induction false} AmpersandsAreEntities(s: string, i: nat)
    requires i < |Escape(s)| && Escape(s)[i] == '&'
    ensures Entity(Escape(s)[i..]).Some?
  {
    var head, rest := EscapeChar(s[0]), Escape(s[1..]);
    assert Escape(s) == head + rest;
    if i >= |head| {
      AmpersandsAreEntities(s[1..], i - |head|);
      assert Escape(s)[i..] == rest[i - |head|..];
    } else {
      assert i == 0;
      assert Escape(s)[..|head|] == head && Escape(s)[0..] == Escape(s);
    }
  }

  // What the two directions leave behind

  /** An escaped string has no character that HTML could take for markup. */
  lemma {:induction false} EscapedIsInert(s: string, i: nat)
    requires i < |Escape(s)|
    ensures Escape(s)[i] !in {'<', '>', '"'}
  {
    var head, rest := EscapeChar(s[0]), Escape(s[1..]);
    assert Escape(s) == head + rest;
    if i >= |head| { EscapedIsInert(s[1..], i - |head|); }
  }

  /** The parts with sep between them. */
  function Join(parts: seq<string>, sep: string): string
    requires parts != []
  {
    if |parts| == 1 then parts[0] else parts[0] + sep + Join(parts[1..], sep)
  }

  lemma {:induction false} UnbreakAfter(part: string, rest: string)
    requires !HasBreak(part) && (rest == "" || StartsWith(rest, BREAK))
    ensures Unbreak(part + rest) == part + Unbreak(rest)
    decreases |part|
  {
    var s := part + rest;
    if part == "" {
      assert s == rest;
    } else {
      HasBreakTail(part);
      assert s[1..] == part[1..] + rest;
      UnbreakAfter(part[1..], rest);
      if rest == "" {
        assert s == part;
      } else if |part| < 4 {
        NoBreakAcross(part, rest);
      } else {
        assert s[..4] == part[..4];
      }
    }
  }

  /** No break straddles the end of part, since only its first character is '<'. */
  lemma NoBreakAcross(part: string, rest: string)
    requires 0 < |part| < 4 && StartsWith(rest, BREAK)
    ensures !StartsWith(part + rest, BREAK)
  {
    BreakHead(rest);
    assert (part + rest)[..4][|part|] == '<';
    assert BREAK[|part|] != '<';
  }

  /** Every break becomes a newline and nothing else changes. */
  lemma {:induction false} UnbreakJoins(parts: seq<string>)
    requires parts != [] && forall i :: 0 <= i < |parts| ==> !HasBreak(parts[i])
    ensures Unbreak(Join(parts, BREAK)) == Join(parts, "\n")
  {
    if |parts| == 1 {
      UnbreakAfter(parts[0], "");
      assert parts[0] + "" == parts[0];
    } else {
      var rest := Join(parts[1..], BREAK);
      assert forall i :: 0 <= i < |parts[1..]| ==> parts[1..][i] == parts[i + 1];
      UnbreakJoins(parts[1..]);
      assert (BREAK + rest)[..4] == BREAK && (BREAK + rest)[4..] == rest;
      assert Join(parts, BREAK) == parts[0] + (BREAK + rest);
      UnbreakAfter(parts[0], BREAK + rest);
    }
  }

  predicate HasEntity(s: string) { exists i :: 0 <= i <= |s| && Entity(s[i..]).Some? }

  lemma HasEntityTail(s: string)
    requires s != ""
    ensures HasEntity(s) <==> Entity(s).Some? || HasEntity(s[1..])
  {
    hide Entity;
    assert s[0..] == s;
    forall i | 1 <= i <= |s| ensures s[1..][i - 1..] == s[i..] {}
    if i: nat :| i <= |s| && Entity(s[i..]).Some? {
      assert i > 0 ==> Entity(s[1..][i - 1..]).Some?;
    }
    if i: nat :| i <= |s[1..]| && Entity(s[1..][i..]).Some? {
      assert Entity(s[i + 1..]).Some?;
    }
  }

  /** Unescaping changes a string exactly if it has one of the entities. */
  lemma {:induction false} UnescapeKeepsIff(s: string)
    ensures |Unescape(s)| <= |s|
    ensures Unescape(s) == s <==> !HasEntity(s)
  {
    if s == "" {
      assert Entity(s[0..]).None?;
    } else {
      HasEntityTail(s);
      EntityShrinks(s);
      hide HasEntity, Entity;
      if Entity(s).Some? {
        UnescapeKeepsIff(s[Entity(s).value.0..]);
      } else {
        UnescapeKeepsIff(s[1..]);
        assert Unescape(s)[1..] == Unescape(s[1..]);
        assert [s[0]] + s[1..] == s;
      }
    }
  }

  lemma EntityShrinks(s: string)
    ensures Entity(s).Some? ==> 2 <= Entity(s).value.0 <= |s|
  {
  }

  /** The entities are exactly the escapes of the four characters. */
  lemma EntitiesAreEscapes(s: string, n: nat, c: char)
    ensures Entity(s) == Some((n, c)) <==> n == |EscapeChar(c)| > 1 && StartsWith(s, EscapeChar(c))
  {
    if |EscapeChar(c)| > 1 && StartsWith(s, EscapeChar(c)) {
      var t := s[|EscapeChar(c)|..];
      assert s == EscapeChar(c) + t;
      EntityOfEscaped(c, t);
    }
  }
}
