/**
 The rewrite of escaped line separators in canonical JSON
 (go-domain/domainops/canonical.go:11-41; strings as in section 7 of RFC 8259).
 */
module JsonEscapes {
  import opened Prelude

  const LS: char := '\U{2028}'
  const PS: char := '\U{2029}'

  /** The text goes on with the escape of a line or paragraph separator. */
  predicate Separator(s: string) {
    |s| >= 6 && s[0] == '\\' && s[1] == 'u' && s[2] == '2' && s[3] == '0' && s[4] == '2' && (s[5] == '8' || s[5] == '9')
  }

  function Literal(digit: char): char {
    if digit == '8' then LS else PS
  }

  /** Escape by escape from the left, each escaped separator becomes the character itself. */
  function Rewritten(s: string): string {
    if s == [] then []
    else if s[0] != '\\' then [s[0]] + Rewritten(s[1..])
    else if Separator(s) then [Literal(s[5])] + Rewritten(s[6..])
    else if |s| >= 2 then s[..2] + Rewritten(s[2..])
    else s
  }

  // ---------- the loop over runs of backslashes ----------

  function Slashes(n: nat): (r: string)
    ensures |r| == n && forall i | 0 <= i < n :: r[i] == '\\'
  {
    seq(n, _ => '\\')
  }

  lemma TwoMore(n: nat, rest: string)
    requires n >= 2
    ensures Slashes(n) + rest == Slashes(2) + (Slashes(n - 2) + rest)
  {}

  lemma PairStays(rest: string)
    ensures Rewritten(Slashes(2) + rest) == Slashes(2) + Rewritten(rest)
  {
    var s := Slashes(2) + rest;
    assert s[1] == '\\' && s[..2] == Slashes(2) && s[2..] == rest;
  }

  /** Pairs of backslashes are escapes of their own. */
  lemma {:induction false} PairsStay(n: nat, rest: string)
    requires n % 2 == 0
    ensures Rewritten(Slashes(n) + rest) == Slashes(n) + Rewritten(rest)
  {
    if n == 0 {
      assert Slashes(0) + rest == rest && Slashes(0) + Rewritten(rest) == Rewritten(rest);
    } else {
      TwoMore(n, rest);
      PairStays(Slashes(n - 2) + rest);
      PairsStay(n - 2, rest);
      TwoMore(n, Rewritten(rest));
    }
  }

  /** A lone backslash that opens no separator escape can be copied alone. */
  lemma LoneBackslash(rest: string)
    requires rest == [] || rest[0] != '\\'
    requires !Separator(['\\'] + rest)
    ensures Rewritten(['\\'] + rest) == ['\\'] + Rewritten(rest)
  {
    var s := ['\\'] + rest;
    if rest != [] {
      HeadOfPair(rest);
      Regroup(['\\'], [rest[0]], Rewritten(rest[1..]));
    } else {
      assert s == ['\\'] && ['\\'] + Rewritten(rest) == ['\\'];
    }
  }

  lemma HeadOfPair(rest: string)
    requires rest != [] && rest[0] != '\\' && !Separator(['\\'] + rest)
    ensures Rewritten(['\\'] + rest) == (['\\'] + [rest[0]]) + Rewritten(rest[1..])
    ensures Rewritten(rest) == [rest[0]] + Rewritten(rest[1..])
  {
    var s := ['\\'] + rest;
    assert s[..2] == ['\\'] + [rest[0]];
    assert s[2..] == rest[1..];
  }

  lemma OddRun(n: nat, rest: string)
    requires n % 2 == 1
    ensures Rewritten(Slashes(n) + rest) == Slashes(n - 1) + Rewritten(['\\'] + rest)
  {
    assert Slashes(n) + rest == Slashes(n - 1) + (['\\'] + rest);
    PairsStay(n - 1, ['\\'] + rest);
  }

  lemma OpensSeparator(rest: string)
    requires Separator(['\\'] + rest)
    ensures Rewritten(['\\'] + rest) == [Literal(rest[4])] + Rewritten(rest[5..])
  {
    var s := ['\\'] + rest;
    assert s[6..] == rest[5..] && s[5] == rest[4];
  }

  lemma RunOpens(n: nat, rest: string)
    requires n % 2 == 1 && Separator(['\\'] + rest)
    ensures Rewritten(Slashes(n) + rest) == Slashes(n - 1) + [Literal(rest[4])] + Rewritten(rest[5..])
  {
    OddRun(n, rest);
    OpensSeparator(rest);
    Regroup(Slashes(n - 1), [Literal(rest[4])], Rewritten(rest[5..]));
  }

  lemma RunStays(n: nat, rest: string)
    requires n % 2 == 1 && (rest == [] || rest[0] != '\\') && !Separator(['\\'] + rest)
    ensures Rewritten(Slashes(n) + rest) == Slashes(n) + Rewritten(rest)
  {
    OddRun(n, rest);
    LoneBackslash(rest);
    assert Slashes(n) == Slashes(n - 1) + ['\\'];
    Regroup(Slashes(n - 1), ['\\'], Rewritten(rest));
  }

  /** A whole run of backslashes: only an odd one can open an escape of what follows. */
  lemma RunSpelled(n: nat, rest: string)
    requires rest == [] || rest[0] != '\\'
    ensures n % 2 == 1 && Separator(['\\'] + rest) ==>
              Rewritten(Slashes(n) + rest) == Slashes(n - 1) + [Literal(rest[4])] + Rewritten(rest[5..])
    ensures n % 2 == 0 || !Separator(['\\'] + rest) ==> Rewritten(Slashes(n) + rest) == Slashes(n) + Rewritten(rest)
  {
    if n % 2 == 0 {
      PairsStay(n, rest);
    } else if Separator(['\\'] + rest) {
      RunOpens(n, rest);
    } else {
      RunStays(n, rest);
    }
  }

  predicate IsRun(text: string, start: nat, end: nat) {
    && start < end <= |text| && (forall k | start <= k < end :: text[k] == '\\')
    && (end < |text| ==> text[end] != '\\')
  }

  predicate OpensAt(text: string, start: nat, end: nat) {
    (end - start) % 2 == 1 && end + 5 <= |text| && (text[end..end + 5] == "u2028" || text[end..end + 5] == "u2029")
  }

  /** One turn of the loop at a run of backslashes. */
  lemma RunStep(text: string, start: nat, end: nat)
    requires IsRun(text, start, end)
    ensures OpensAt(text, start, end) ==>
              Rewritten(text[start..]) == text[start..end - 1] + [Literal(text[end + 4])] + Rewritten(text[end + 5..])
    ensures !OpensAt(text, start, end) ==> Rewritten(text[start..]) == text[start..end] + Rewritten(text[end..])
  {
    var n, rest := end - start, text[end..];
    assert text[start..] == Slashes(n) + rest && text[start..end] == Slashes(n);
    assert text[start..end - 1] == Slashes(n - 1);
    assert |rest| >= 5 ==> rest[..5] == text[end..end + 5] && rest[5..] == text[end + 5..] && rest[4] == text[end + 4];
    SeparatorSpelled(rest);
    RunSpelled(n, rest);
  }

  method RunEnd(text: string, start: nat) returns (end: nat)
    requires start < |text| && text[start] == '\\'
    ensures IsRun(text, start, end)
  {
    end := start;
    while end < |text| && text[end] == '\\'
      invariant start <= end <= |text| && forall k | start <= k < end :: text[k] == '\\'
    {
      end := end + 1;
    }
  }

  lemma PlainTurn(text: string, i: nat)
    requires i < |text| && text[i] != '\\'
    ensures Rewritten(text[i..]) == [text[i]] + Rewritten(text[i + 1..])
  {
    assert text[i..][1..] == text[i + 1..];
  }

  /** One turn of the loop: what it writes, and where it goes on. */
  method Turn(encoded: string, i: nat) returns (piece: string, next: nat)
    requires i < |encoded|
    ensures i < next <= |encoded| && Rewritten(encoded[i..]) == piece + Rewritten(encoded[next..])
  {
    if encoded[i] != '\\' {
      PlainTurn(encoded, i);
      return [encoded[i]], i + 1;
    }
    var end := RunEnd(encoded, i);
    RunStep(encoded, i, end);
    if OpensAt(encoded, i, end) {
      return encoded[i..end - 1] + [if encoded[end + 4] == '8' then LS else PS], end + 5;
    }
    return encoded[i..end], end;
  }

  lemma Regroup(a: string, b: string, c: string)
    ensures a + (b + c) == (a + b) + c
  {}

  method Rewrite(encoded: string) returns (out: string)
    ensures out == Rewritten(encoded)
  {
    out := [];
    var i := 0;
    while i < |encoded|
      invariant 0 <= i <= |encoded| && out + Rewritten(encoded[i..]) == Rewritten(encoded)
    {
      var piece, next := Turn(encoded, i);
      Regroup(out, piece, Rewritten(encoded[next..]));
      out, i := out + piece, next;
    }
  }

  lemma SeparatorSpelled(rest: string)
    ensures Separator(['\\'] + rest) <==> |rest| >= 5 && (rest[..5] == "u2028" || rest[..5] == "u2029")
  {
    if |rest| >= 5 {
      assert rest[..5] == [rest[0], rest[1], rest[2], rest[3], rest[4]];
    }
  }

  // ---------- what the text means ----------

  /** The structure of the text, and the UTF-16 code units of its strings. */
  datatype Item = Syntax(c: char) | Unit(code: int)

  function Hex(c: char): Option<int> {
    if '0' <= c <= '9' then Some(c as int - '0' as int)
    else if 'a' <= c <= 'f' then Some(c as int - 'a' as int + 10)
    else if 'A' <= c <= 'F' then Some(c as int - 'A' as int + 10)
    else None
  }

  function Hex4(a: char, b: char, c: char, d: char): Option<int> {
    if Hex(a).None? || Hex(b).None? || Hex(c).None? || Hex(d).None? then None
    else Some(((Hex(a).value * 16 + Hex(b).value) * 16 + Hex(c).value) * 16 + Hex(d).value)
  }

  function Simple(c: char): Option<int> {
    match c
    case '"' => Some(0x22) case '\\' => Some(0x5C) case '/' => Some(0x2F) case 'b' => Some(8)
    case 'f' => Some(12) case 'n' => Some(10) case 'r' => Some(13) case 't' => Some(9)
    case _ => None
  }

  function Units(c: char): seq<Item> {
    var n := c as int;
    if n <= 0xFFFF then [Unit(n)] else [Unit(0xD800 + (n - 0x10000) / 0x400), Unit(0xDC00 + (n - 0x10000) % 0x400)]
  }

  function Then(items: seq<Item>, rest: Option<seq<Item>>): Option<seq<Item>> {
    if rest.None? then None else Some(items + rest.value)
  }

  /** Decodes a text from inside or outside a string; `None` where it is ill-formed. */
  function Denote(s: string, inside: bool): Option<seq<Item>> {
    if s == [] then if inside then None else Some([])
    else if s[0] == '"' then Then([Syntax('"')], Denote(s[1..], !inside))
    else if !inside then if s[0] == '\\' then None else Then([Syntax(s[0])], Denote(s[1..], false))
    else if s[0] != '\\' then if s[0] as int < 0x20 then None else Then(Units(s[0]), Denote(s[1..], true))
    else if |s| < 2 then None
    else if s[1] == 'u' then
      if |s| < 6 || Hex4(s[2], s[3], s[4], s[5]).None? then None
      else Then([Unit(Hex4(s[2], s[3], s[4], s[5]).value)], Denote(s[6..], true))
    else if Simple(s[1]).None? then None
    else Then([Unit(Simple(s[1]).value)], Denote(s[2..], true))
  }

  lemma SeparatorMeans(s: string)
    requires Separator(s)
    ensures Denote(s, true) == Then(Units(Literal(s[5])), Denote(s[6..], true))
  {
    assert Hex4(s[2], s[3], s[4], s[5]) == Some(Literal(s[5]) as int);
  }

  /** The four digits of another escape are no backslashes, so that they stay. */
  lemma DigitsStay(s: string)
    requires |s| >= 4 && forall k | 0 <= k < 4 :: s[k] != '\\'
    ensures Rewritten(s) == s[..4] + Rewritten(s[4..])
  {
    PlainStays(s, 4);
  }

  lemma {:induction false} PlainStays(s: string, n: nat)
    requires n <= |s| && forall k | 0 <= k < n :: s[k] != '\\'
    ensures Rewritten(s) == s[..n] + Rewritten(s[n..])
  {
    if n == 0 {
      assert s[..0] + Rewritten(s[0..]) == Rewritten(s);
    } else {
      PlainStays(s[1..], n - 1);
      assert s[1..][n - 1..] == s[n..] && [s[0]] + s[1..][..n - 1] == s[..n];
      Regroup([s[0]], s[1..][..n - 1], Rewritten(s[n..]));
    }
  }

  lemma OtherUnicodeStays(s: string)
    requires |s| >= 6 && s[0] == '\\' && s[1] == 'u' && Hex4(s[2], s[3], s[4], s[5]).Some? && !Separator(s)
    ensures Rewritten(s) == s[..6] + Rewritten(s[6..])
  {
    DigitsStay(s[2..]);
    assert s[2..][4..] == s[6..] && s[..2] + s[2..][..4] == s[..6];
    Regroup(s[..2], s[2..][..4], Rewritten(s[6..]));
  }

  /** For every well-formed text the rewrite changes neither its structure nor any of its strings. */
  lemma {:induction false} MeaningKept(s: string, inside: bool)
    requires Denote(s, inside).Some?
    ensures Denote(Rewritten(s), inside) == Denote(s, inside)
    decreases |s|
  {
    if s == [] {
    } else if s[0] != '\\' {
      MeaningKept(s[1..], if s[0] == '"' then !inside else inside);
      assert Rewritten(s)[1..] == Rewritten(s[1..]);
    } else if Separator(s) {
      SeparatorMeans(s);
      MeaningKept(s[6..], true);
      assert Rewritten(s)[0] == Literal(s[5]) && Rewritten(s)[1..] == Rewritten(s[6..]);
    } else if s[1] == 'u' {
      OtherUnicodeStays(s);
      MeaningKept(s[6..], true);
      assert Rewritten(s)[6..] == Rewritten(s[6..]);
    } else {
      MeaningKept(s[2..], true);
      assert Rewritten(s)[2..] == Rewritten(s[2..]);
    }
  }

  // ---------- nothing left to rewrite ----------

  /** Some escape of the text, read from the left, is that of a separator. */
  predicate Escapes(s: string) {
    if s == [] then false
    else if s[0] != '\\' then Escapes(s[1..])
    else Separator(s) || (|s| >= 2 && Escapes(s[2..]))
  }

  /** A character that is no backslash and no separator comes from the same place of the input. */
  lemma PlainComesFrom(s: string)
    requires Rewritten(s) != [] && Rewritten(s)[0] != '\\' && Rewritten(s)[0] != LS && Rewritten(s)[0] != PS
    ensures s != [] && s[0] == Rewritten(s)[0] && Rewritten(s)[1..] == Rewritten(s[1..])
  {}

  lemma SeparatorComesFrom(s: string)
    requires |s| >= 2 && s[0] == '\\' && Separator(s[..2] + Rewritten(s[2..]))
    ensures Separator(s)
  {
    var a := s[2..];
    var whole := s[..2] + Rewritten(a);
    assert whole[2..] == Rewritten(a) && Rewritten(a)[0] == whole[2] && Rewritten(a)[1] == whole[3];
    assert Rewritten(a)[2] == whole[4] && Rewritten(a)[3] == whole[5];
    PlainComesFrom(a);
    PlainComesFrom(a[1..]);
    PlainComesFrom(a[1..][1..]);
    PlainComesFrom(a[1..][1..][1..]);
    assert a[1..][1..] == s[4..] && s[4..][1..] == s[5..];
  }

  /** No escape of a separator is left, and so a second rewrite changes nothing. */
  lemma {:induction false} NoEscapeLeft(s: string)
    ensures !Escapes(Rewritten(s)) && Rewritten(Rewritten(s)) == Rewritten(s)
    decreases |s|
  {
    var r := Rewritten(s);
    if s == [] {
    } else if s[0] != '\\' {
      NoEscapeLeft(s[1..]);
      assert r[1..] == Rewritten(s[1..]);
    } else if Separator(s) {
      NoEscapeLeft(s[6..]);
      assert r[0] == Literal(s[5]) && r[1..] == Rewritten(s[6..]);
    } else if |s| >= 2 {
      NoEscapeLeft(s[2..]);
      assert r[2..] == Rewritten(s[2..]) && r[..2] == s[..2];
      if Separator(r) { SeparatorComesFrom(s); }
    }
  }

  /** An escaped backslash in front of "u2028" is left alone. */
  lemma EscapedBackslashStays(rest: string)
    ensures Rewritten(Slashes(2) + "u2028" + rest) == Slashes(2) + "u2028" + Rewritten(rest)
  {
    Regroup(Slashes(2), "u2028", rest);
    PairStays("u2028" + rest);
    PlainPrefix("u2028", rest);
    Regroup(Slashes(2), "u2028", Rewritten(rest));
  }

  lemma PlainPrefix(text: string, rest: string)
    requires forall k | 0 <= k < |text| :: text[k] != '\\'
    ensures Rewritten(text + rest) == text + Rewritten(rest)
  {
    PlainStays(text + rest, |text|);
    assert (text + rest)[..|text|] == text && (text + rest)[|text|..] == rest;
  }
}
