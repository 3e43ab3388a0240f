/**
 Strings as sequences of characters, with the few operations of Go's `strings`
 package the modelled code relies on.  Case folding covers ASCII only.
 */
module Text {

  datatype Option<+T> = None | Some(value: T)

  predicate IsWideSpace(c: char) {
    || c == '\U{85}' || c == '\U{A0}' || c == '\U{1680}' || '\U{2000}' <= c <= '\U{200A}'
    || c == '\U{2028}' || c == '\U{2029}' || c == '\U{202F}' || c == '\U{205F}' || c == '\U{3000}'
  }

  /** The white space Go's `strings.TrimSpace` removes. */
  predicate IsSpace(c: char) {
    if c < '\U{80}' then c == ' ' || '\t' <= c <= '\r' else IsWideSpace(c)
  }

  const SPACES := {'\t', '\n', '\U{B}', '\U{C}', '\r', ' ', '\U{85}', '\U{A0}', '\U{1680}', '\U{2000}', '\U{2001}', '\U{2002}', '\U{2003}',
                   '\U{2004}', '\U{2005}', '\U{2006}', '\U{2007}', '\U{2008}', '\U{2009}', '\U{200A}', '\U{2028}', '\U{2029}', '\U{202F}',
                   '\U{205F}', '\U{3000}'}

  /** These are all the characters with the White_Space property of Unicode. */
  lemma SpacesAre(c: char)
    ensures IsSpace(c) <==> c in SPACES
  {
  }

  predicate Trimmed(s: string) {
    |s| == 0 || (!IsSpace(s[0]) && !IsSpace(s[|s| - 1]))
  }

  function TrimLeft(s: string): string {
    if |s| > 0 && IsSpace(s[0]) then TrimLeft(s[1..]) else s
  }

  function TrimRight(s: string): string {
    if |s| > 0 && IsSpace(s[|s| - 1]) then TrimRight(s[..|s| - 1]) else s
  }

  function Trim(s: string): string {
    TrimRight(TrimLeft(s))
  }

  function LowerChar(c: char): char {
    if 'A' <= c <= 'Z' then (c as int + 32) as char else c
  }

  function ToLower(s: string): string {
    seq(|s|, i requires 0 <= i < |s| => LowerChar(s[i]))
  }

  /** `strings.ToLower(strings.TrimSpace(s))`: how identifiers are compared. */
  function Key(s: string): string {
    ToLower(Trim(s))
  }

  lemma {:induction false} TrimLeftEnds(s: string)
    ensures |TrimLeft(s)| > 0 ==> !IsSpace(TrimLeft(s)[0])
    ensures |s| > 0 && !IsSpace(s[|s| - 1]) ==> |TrimLeft(s)| > 0 && TrimLeft(s)[|TrimLeft(s)| - 1] == s[|s| - 1]
  {
    if |s| > 0 && IsSpace(s[0]) {
      TrimLeftEnds(s[1..]);
    }
  }

  lemma {:induction false} TrimRightEnds(s: string)
    ensures TrimRight(s) <= s
    ensures |TrimRight(s)| > 0 ==> !IsSpace(TrimRight(s)[|TrimRight(s)| - 1])
  {
    if |s| > 0 && IsSpace(s[|s| - 1]) {
      TrimRightEnds(s[..|s| - 1]);
    }
  }

  lemma TrimIsTrimmed(s: string)
    ensures Trimmed(Trim(s))
  {
    TrimLeftEnds(s);
    TrimRightEnds(TrimLeft(s));
  }

  lemma TrimOfTrimmed(s: string)
    requires Trimmed(s)
    ensures Trim(s) == s
  {
  }

  lemma TrimIdempotent(s: string)
    ensures Trim(Trim(s)) == Trim(s)
  {
    TrimIsTrimmed(s);
    TrimOfTrimmed(Trim(s));
  }

  lemma KeyIsTrimmed(s: string)
    ensures Trimmed(Key(s)) && Trim(Key(s)) == Key(s)
  {
    TrimIsTrimmed(s);
    TrimOfTrimmed(Key(s));
  }

  lemma KeyIdempotent(s: string)
    ensures Key(Key(s)) == Key(s)
  {
    KeyIsTrimmed(s);
    assert ToLower(Key(s)) == Key(s);
  }

  lemma KeyOfClean(s: string)
    requires Trimmed(s) && forall i :: 0 <= i < |s| ==> !('A' <= s[i] <= 'Z')
    ensures Key(s) == s
  {
    TrimOfTrimmed(s);
  }

  predicate Contains(s: string, t: string) {
    |t| <= |s| && (t == s[..|t|] || (|s| > 0 && Contains(s[1..], t)))
  }

  predicate FoundAt(s: string, t: string, i: nat) {
    i + |t| <= |s| && s[i..i + |t|] == t
  }

  /** `strings.Contains`: the text is found somewhere. */
  lemma {:induction false} ContainsIsSubstring(s: string, t: string)
    ensures Contains(s, t) <==> exists i: nat :: FoundAt(s, t, i)
  {
    if |t| <= |s| {
      if t == s[..|t|] {
        assert FoundAt(s, t, 0);
      } else if |s| > 0 {
        ContainsIsSubstring(s[1..], t);
        if i: nat :| FoundAt(s, t, i) {
          assert i > 0;
          assert FoundAt(s[1..], t, i - 1);
        }
        if i: nat :| FoundAt(s[1..], t, i) {
          assert FoundAt(s, t, i + 1);
        }
      }
    }
  }

  predicate AllSpace(s: string) {
    forall i :: 0 <= i < |s| ==> IsSpace(s[i])
  }

  lemma {:induction false} TrimLeftDrops(s: string) returns (a: string)
    ensures s == a + TrimLeft(s) && AllSpace(a)
  {
    if |s| > 0 && IsSpace(s[0]) {
      a := TrimLeftDrops(s[1..]);
      a := [s[0]] + a;
    } else {
      a := "";
    }
  }

  lemma {:induction false} TrimRightDrops(s: string) returns (b: string)
    ensures s == TrimRight(s) + b && AllSpace(b)
  {
    if |s| > 0 && IsSpace(s[|s| - 1]) {
      b := TrimRightDrops(s[..|s| - 1]);
      b := b + [s[|s| - 1]];
    } else {
      b := "";
    }
  }

  /** Trimming drops the white space around a text and nothing else. */
  lemma TrimDropsSpaceOnly(s: string)
    ensures Trimmed(Trim(s)) && exists a, b :: AllSpace(a) && AllSpace(b) && s == a + Trim(s) + b
  {
    TrimIsTrimmed(s);
    var a := TrimLeftDrops(s);
    var b := TrimRightDrops(TrimLeft(s));
    assert s == a + Trim(s) + b;
  }

  lemma {:induction false} TrimRightOfSum(s: string, b: string)
    requires Trimmed(s) && AllSpace(b)
    ensures TrimRight(s + b) == s
    decreases |b|
  {
    if b == "" {
      assert s + b == s;
    } else {
      assert (s + b)[..|s + b| - 1] == s + b[..|b| - 1];
      TrimRightOfSum(s, b[..|b| - 1]);
    }
  }

  /** White space after a text is trimmed away. */
  lemma TrimOfSum(s: string, b: string)
    requires Trimmed(s) && s != "" && AllSpace(b)
    ensures Trim(s + b) == s
  {
    TrimRightOfSum(s, b);
    assert (s + b)[0] == s[0];
  }

  // -------------------------------------------------------------- case

  /** The characters differ in case at most. */
  predicate SameButCase(c: char, d: char) {
    c == d || ('A' <= c <= 'Z' && d as int == c as int + 32) || ('A' <= d <= 'Z' && c as int == d as int + 32)
  }

  predicate AlikeButCase(s: string, t: string) {
    |s| == |t| && forall i :: 0 <= i < |s| ==> SameButCase(s[i], t[i])
  }

  lemma {:induction false} TrimLeftAlike(s: string, t: string)
    requires AlikeButCase(s, t)
    ensures AlikeButCase(TrimLeft(s), TrimLeft(t))
  {
    if |s| > 0 {
      assert SameButCase(s[0], t[0]);
      if IsSpace(s[0]) {
        TrimLeftAlike(s[1..], t[1..]);
      }
    }
  }

  lemma {:induction false} TrimRightAlike(s: string, t: string)
    requires AlikeButCase(s, t)
    ensures AlikeButCase(TrimRight(s), TrimRight(t))
  {
    if |s| > 0 {
      assert SameButCase(s[|s| - 1], t[|t| - 1]);
      if IsSpace(s[|s| - 1]) {
        TrimRightAlike(s[..|s| - 1], t[..|t| - 1]);
      }
    }
  }

  /** Identifiers that differ in the case of their letters are the same. */
  lemma KeyIgnoresCase(s: string, t: string)
    requires AlikeButCase(s, t)
    ensures Key(s) == Key(t)
  {
    TrimLeftAlike(s, t);
    TrimRightAlike(TrimLeft(s), TrimLeft(t));
    var a, b := Trim(s), Trim(t);
    assert forall i :: 0 <= i < |a| ==> SameButCase(a[i], b[i]) && LowerChar(a[i]) == LowerChar(b[i]);
    assert ToLower(a) == ToLower(b);
  }

  predicate EndsWith(s: string, c: char) {
    |s| > 0 && s[|s| - 1] == c
  }

  // ------------------------------------------------------ decimal numerals

  function Digit(d: nat): char
    requires d < 10
  {
    ('0' as int + d) as char
  }

  predicate IsDigit(c: char) {
    '0' <= c <= '9'
  }

  /** What `%d` prints for a non-negative number. */
  function Decimal(n: nat): (s: string)
    ensures |s| > 0 && forall i :: 0 <= i < |s| ==> IsDigit(s[i])
  {
    if n < 10 then [Digit(n)] else Decimal(n / 10) + [Digit(n % 10)]
  }

  function DecimalValue(s: string): nat
    requires forall i :: 0 <= i < |s| ==> IsDigit(s[i])
  {
    if s == "" then 0
    else
      assert IsDigit(s[|s| - 1]);
      10 * DecimalValue(s[..|s| - 1]) + (s[|s| - 1] as int - '0' as int)
  }

  lemma {:induction false} ValueOfDecimal(n: nat)
    ensures DecimalValue(Decimal(n)) == n
  {
    if n < 10 {
      assert Decimal(n)[..0] == "";
    } else {
      ValueOfDecimal(n / 10);
      assert Decimal(n)[..|Decimal(n)| - 1] == Decimal(n / 10);
    }
  }

  lemma DecimalIsInjective(m: nat, n: nat)
    requires Decimal(m) == Decimal(n)
    ensures m == n
  {
    ValueOfDecimal(m);
    ValueOfDecimal(n);
  }

  /** A numbered identifier is clean, and different numbers give different identifiers. */
  lemma NumberedIsTrimmed(prefix: string, n: nat)
    requires prefix != "" && !IsSpace(prefix[0])
    ensures Trimmed(prefix + Decimal(n)) && Trim(prefix + Decimal(n)) == prefix + Decimal(n)
  {
    var s := prefix + Decimal(n);
    assert s[|s| - 1] == Decimal(n)[|Decimal(n)| - 1];
    TrimOfTrimmed(s);
  }

  lemma NumberedIsInjective(prefix: string, m: nat, n: nat)
    requires prefix + Decimal(m) == prefix + Decimal(n)
    ensures m == n
  {
    assert (prefix + Decimal(m))[|prefix|..] == Decimal(m);
    assert (prefix + Decimal(n))[|prefix|..] == Decimal(n);
    DecimalIsInjective(m, n);
  }
}
