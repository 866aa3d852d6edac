/** The few Python string operations the modelled code relies on: `str(int)`, `int(str)`,
    `str.split()`, `" ".join` and the substring test `in`. */
module PythonText {
  import opened Wrappers

  /** The characters `str.split()` and `str.strip()` treat as white space. */
  predicate IsSpace(c: char) {
    var n := c as int;
    || 9 <= n <= 13 || 28 <= n <= 32 || n == 0x85 || n == 0xA0 || n == 0x1680 || 0x2000 <= n <= 0x200A
    || n == 0x2028 || n == 0x2029 || n == 0x202F || n == 0x205F || n == 0x3000
  }

  /** `sub in text`. */
  predicate Contains(text: string, sub: string) {
    exists i | 0 <= i <= |text| :: OccursAt(text, i, sub)
  }

  predicate OccursAt(text: string, i: nat, sub: string)
    requires i <= |text|
  {
    i + |sub| <= |text| && text[i..i + |sub|] == sub
  }

  /** Cutting a text short cannot make it contain something new. */
  lemma PrefixContains(text: string, keep: nat, sub: string)
    requires keep <= |text| && Contains(text[..keep], sub)
    ensures Contains(text, sub)
  {
    var i :| 0 <= i <= keep && OccursAt(text[..keep], i, sub);
    assert text[i..i + |sub|] == text[..keep][i..i + |sub|];
    assert OccursAt(text, i, sub);
  }

  /** `in` means that the text can be cut around the substring. */
  lemma ContainsExactly(text: string, sub: string)
    ensures Contains(text, sub) <==> exists a, b :: text == a + sub + b
  {
    if Contains(text, sub) {
      var i :| 0 <= i <= |text| && OccursAt(text, i, sub);
      assert text == text[..i] + sub + text[i + |sub|..];
    }
    if a, b :| text == a + sub + b {
      assert text[|a|..|a| + |sub|] == sub && OccursAt(text, |a|, sub);
    }
  }

  /** A substring without blanks lies on one side of a blank. */
  lemma ContainsAround(a: string, b: string, sub: string)
    requires sub != "" && ' ' !in sub
    ensures Contains(a + " " + b, sub) <==> Contains(a, sub) || Contains(b, sub)
  {
    var s := a + " " + b;
    if Contains(s, sub) {
      var i :| 0 <= i <= |s| && OccursAt(s, i, sub);
      OneSide(a, b, sub, i);
    }
    if Contains(a, sub) {
      var i :| 0 <= i <= |a| && OccursAt(a, i, sub);
      assert s[i..i + |sub|] == a[i..i + |sub|] && OccursAt(s, i, sub);
    }
    if Contains(b, sub) {
      var i :| 0 <= i <= |b| && OccursAt(b, i, sub);
      var j := |a| + 1 + i;
      assert s[j..j + |sub|] == b[i..i + |sub|] && OccursAt(s, j, sub);
    }
  }

  lemma InsideOccurrence(text: string, sub: string, i: nat, k: nat)
    requires i <= k < i + |sub| && i <= |text| && OccursAt(text, i, sub)
    ensures text[k] in sub
  {
    assert text[i..i + |sub|][k - i] == text[k];
  }

  lemma OneSide(a: string, b: string, sub: string, i: nat)
    requires sub != "" && ' ' !in sub && i <= |a| + 1 + |b| && OccursAt(a + " " + b, i, sub)
    ensures Contains(a, sub) || Contains(b, sub)
  {
    var s := a + " " + b;
    if i + |sub| <= |a| {
      assert s[i..i + |sub|] == a[i..i + |sub|] && OccursAt(a, i, sub);
    } else if i <= |a| {
      InsideOccurrence(s, sub, i, |a|);
    } else {
      var j := i - |a| - 1;
      assert s[i..i + |sub|] == b[j..j + |sub|] && OccursAt(b, j, sub);
    }
  }

  function LowerChar(c: char): char {
    if 'A' <= c <= 'Z' then (c as int + 32) as char else c
  }

  /** `str.lower` on ASCII letters. */
  function Lower(s: string): (r: string)
    ensures |r| == |s| && forall i :: 0 <= i < |s| ==> r[i] == LowerChar(s[i])
  {
    if s == "" then "" else [LowerChar(s[0])] + Lower(s[1..])
  }

  /** The same letter, small or capital. */
  predicate SameLetter(c: char, d: char) {
    c == d || ('a' <= c <= 'z' && c as int - d as int == 32) || ('a' <= d <= 'z' && d as int - c as int == 32)
  }

  /** Lower case is the same exactly for texts that differ in the case of letters only. */
  lemma SameLetters(s: string, t: string)
    ensures Lower(s) == Lower(t) <==> |s| == |t| && forall i :: 0 <= i < |s| ==> SameLetter(s[i], t[i])
  {
    var a, b := Lower(s), Lower(t);
    if |s| == |t| {
      forall i | 0 <= i < |s| ensures a[i] == b[i] <==> SameLetter(s[i], t[i]) {
        SameLetterLower(s[i], t[i]);
      }
    }
  }

  lemma SameLetterLower(c: char, d: char)
    ensures LowerChar(c) == LowerChar(d) <==> SameLetter(c, d)
  {
  }

  // ---------------------------------------------------------------------------
  // Decimal integers
  // ---------------------------------------------------------------------------

  predicate IsDigit(c: char) { '0' <= c <= '9' }

  function Digits(n: nat): (s: string)
    ensures s != "" && forall i :: 0 <= i < |s| ==> IsDigit(s[i])
  {
    if n < 10 then [(n + '0' as int) as char] else Digits(n / 10) + [(n % 10 + '0' as int) as char]
  }

  /** `str(n)`. */
  function Decimal(n: int): (s: string)
    ensures s != "" && (IsDigit(s[0]) || s[0] == '-')
    ensures forall i :: 0 < i < |s| ==> IsDigit(s[i])
  {
    if n < 0 then "-" + Digits(-n) else Digits(n)
  }

  /** Digits with single underscores between them, as `int` accepts them. */
  function DigitRun(s: string, value: nat, afterDigit: bool): Option<nat> {
    if s == "" then
      if afterDigit then Some(value) else None
    else if IsDigit(s[0]) then DigitRun(s[1..], 10 * value + (s[0] as int - '0' as int), true)
    else if s[0] == '_' && afterDigit then DigitRun(s[1..], value, false)
    else None
  }

  function StripLeft(s: string): string {
    if s != "" && IsSpace(s[0]) then StripLeft(s[1..]) else s
  }

  function StripRight(s: string): string {
    if s != "" && IsSpace(s[|s| - 1]) then StripRight(s[..|s| - 1]) else s
  }

  /** `int(text)`, with `None` for the `ValueError`. */
  function ParseInt(text: string): Option<int> {
    var t := StripRight(StripLeft(text));
    if t == "" then None
    else if t[0] == '-' then
      var magnitude := DigitRun(t[1..], 0, false);
      if magnitude.Some? then Some(-(magnitude.value as int)) else None
    else if t[0] == '+' then DigitRun(t[1..], 0, false)
    else DigitRun(t, 0, false)
  }

  lemma {:induction false} DigitRunSnoc(s: string, value: nat, afterDigit: bool, d: char)
    requires forall i :: 0 <= i < |s| ==> IsDigit(s[i])
    requires IsDigit(d) && s != ""
    requires DigitRun(s, value, afterDigit).Some?
    ensures DigitRun(s + [d], value, afterDigit)
         == Some(10 * DigitRun(s, value, afterDigit).value + (d as int - '0' as int))
  {
    assert (s + [d])[0] == s[0] && (s + [d])[1..] == s[1..] + [d];
    var next := 10 * value + (s[0] as int - '0' as int);
    if |s| == 1 {
      assert s[1..] == "" && s[1..] + [d] == [d];
      assert [d][1..] == "";
      assert DigitRun([d], next, true) == DigitRun("", 10 * next + (d as int - '0' as int), true);
    } else {
      DigitRunSnoc(s[1..], next, true, d);
    }
  }

  lemma {:induction false} DigitsParse(n: nat)
    ensures DigitRun(Digits(n), 0, false) == Some(n)
  {
    if n < 10 {
      var s := Digits(n);
      assert s[1..] == "";
      assert DigitRun(s, 0, false) == DigitRun("", n, true);
    } else {
      DigitsParse(n / 10);
      DigitRunSnoc(Digits(n / 10), 0, false, (n % 10 + '0' as int) as char);
    }
  }

  /** `int(str(n)) == n` for every integer. */
  lemma DecimalRoundTrip(n: int)
    ensures ParseInt(Decimal(n)) == Some(n)
  {
    var s := Decimal(n);
    assert StripLeft(s) == s && StripRight(s) == s;
    if n < 0 {
      assert s[1..] == Digits(-n);
      DigitsParse(-n);
    } else {
      DigitsParse(n);
    }
  }

  /** Different integers print differently. */
  lemma DecimalInjective(m: int, n: int)
    requires Decimal(m) == Decimal(n)
    ensures m == n
  {
    DecimalRoundTrip(m);
    DecimalRoundTrip(n);
  }

  // ---------------------------------------------------------------------------
  // Words
  // ---------------------------------------------------------------------------

  function WordsFrom(s: string, word: string): seq<string> {
    if s == "" then Flush(word)
    else if IsSpace(s[0]) then Flush(word) + WordsFrom(s[1..], "")
    else WordsFrom(s[1..], word + [s[0]])
  }

  function Flush(word: string): seq<string> {
    if word == "" then [] else [word]
  }

  /** `s.split()`. */
  function Words(s: string): seq<string> {
    WordsFrom(s, "")
  }

  /** `" ".join(words)`. */
  function JoinWords(words: seq<string>): string {
    if words == [] then ""
    else if |words| == 1 then words[0]
    else words[0] + " " + JoinWords(words[1..])
  }

  /** A piece of a word. */
  predicate Solid(s: string) {
    s != "" && forall i :: 0 <= i < |s| ==> !IsSpace(s[i])
  }

  lemma {:induction false} WordsSolid(s: string, word: string)
    requires word == "" || Solid(word)
    ensures forall w :: w in WordsFrom(s, word) ==> Solid(w)
  {
    if s != "" {
      if IsSpace(s[0]) {
        WordsSolid(s[1..], "");
      } else {
        assert Solid(word + [s[0]]);
        WordsSolid(s[1..], word + [s[0]]);
      }
    }
  }

  /** A piece of a word is in a joined text exactly when it is in one of the joined. */
  lemma {:induction false} JoinContains(parts: seq<string>, sub: string)
    requires Solid(sub)
    ensures Contains(Lower(JoinWords(parts)), sub) <==> exists i :: 0 <= i < |parts| && Contains(Lower(parts[i]), sub)
  {
    if |parts| > 1 {
      var a, b := parts[0], JoinWords(parts[1..]);
      assert Lower(a + " " + b) == Lower(a) + " " + Lower(b);
      ContainsAround(Lower(a), Lower(b), sub);
      JoinContains(parts[1..], sub);
      if i :| 0 <= i < |parts[1..]| && Contains(Lower(parts[1..][i]), sub) {
        assert parts[i + 1] == parts[1..][i];
      }
      if i :| 0 <= i < |parts| && Contains(Lower(parts[i]), sub) {
        assert i > 0 ==> parts[1..][i - 1] == parts[i];
      }
    }
  }

  /** White space between two texts separates their words and adds none. */
  lemma {:induction false} WordsOfJoined(a: string, gap: char, b: string, word: string)
    requires IsSpace(gap)
    ensures WordsFrom(a + [gap] + b, word) == WordsFrom(a, word) + Words(b)
  {
    var s := a + [gap] + b;
    if a == "" {
      assert s[0] == gap && s[1..] == b;
    } else {
      assert s[0] == a[0] && s[1..] == a[1..] + [gap] + b;
      WordsOfJoined(a[1..], gap, b, if IsSpace(a[0]) then "" else word + [a[0]]);
      if IsSpace(a[0]) {
        assert Flush(word) + (WordsFrom(a[1..], "") + Words(b)) == Flush(word) + WordsFrom(a[1..], "") + Words(b);
      }
    }
  }
}
