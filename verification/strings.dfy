/** Splitting, joining and number formatting on strings (`seq<char>`). */
module Strings {

  /** True when no part of `parts` contains the separator `sep`. */
  predicate NoSeparator(parts: seq<string>, sep: char) {
    forall i :: 0 <= i < |parts| ==> sep !in parts[i]
  }

  /** True when every part of `parts` is a non-empty string. */
  predicate NonEmptyParts(parts: seq<string>) {
    forall i :: 0 <= i < |parts| ==> parts[i] != ""
  }

  /** Python's `s.split(sep)`: the maximal separator-free pieces, in order. */
  function Split(s: string, sep: char): (r: seq<string>)
    ensures |r| >= 1
    ensures NoSeparator(r, sep)
    ensures sep !in s ==> r == [s]
  {
    if s == [] then [""]
    else
      var rest := Split(s[1..], sep);
      if s[0] == sep then [""] + rest
      else
        assert sep !in [s[0]] + rest[0];
        assert s == [s[0]] + s[1..];
        [[s[0]] + rest[0]] + rest[1..]
  }

  /** Python's `sep.join(parts)`. */
  function Join(parts: seq<string>, sep: char): string
  {
    if |parts| == 0 then ""
    else if |parts| == 1 then parts[0]
    else parts[0] + [sep] + Join(parts[1..], sep)
  }

  /** Joining what was split gives back the original string. */
  lemma {:induction false} JoinSplit(s: string, sep: char)
    ensures Join(Split(s, sep), sep) == s
  {
    if s != [] {
      JoinSplit(s[1..], sep);
      var rest := Split(s[1..], sep);
      assert s == [s[0]] + s[1..];
      if s[0] == sep {
        assert Split(s, sep) == [""] + rest;
        JoinEmptyHead(rest, sep);
      } else {
        assert Split(s, sep) == [[s[0]] + rest[0]] + rest[1..];
        JoinExtendFirst(s[0], rest, sep);
      }
    }
  }

  /** A leading empty part contributes one separator. */
  lemma JoinEmptyHead(rest: seq<string>, sep: char)
    requires |rest| >= 1
    ensures Join([""] + rest, sep) == [sep] + Join(rest, sep)
  {
    assert ([""] + rest)[1..] == rest;
  }

  /** Prefixing the first part with `c` prefixes the joined string with `c`. */
  lemma JoinExtendFirst(c: char, rest: seq<string>, sep: char)
    requires |rest| >= 1
    ensures Join([[c] + rest[0]] + rest[1..], sep) == [c] + Join(rest, sep)
  {
    var r := [[c] + rest[0]] + rest[1..];
    assert r[0] == [c] + rest[0] && r[1..] == rest[1..];
    if |rest| > 1 {
      AppendAssoc([c], rest[0], [sep]);
      AppendAssoc([c], rest[0] + [sep], Join(rest[1..], sep));
    }
  }

  /** Splitting `p + sep + t` where `p` holds no separator peels off `p`. */
  lemma {:induction false} SplitCons(p: string, t: string, sep: char)
    requires sep !in p
    ensures Split(p + [sep] + t, sep) == [p] + Split(t, sep)
  {
    if p == [] {
      assert p + [sep] + t == [sep] + t;
      assert ([sep] + t)[1..] == t;
    } else {
      SplitCons(p[1..], t, sep);
      assert (p + [sep] + t)[1..] == p[1..] + [sep] + t;
      assert [p[0]] + p[1..] == p;
    }
  }

  /** Splitting at one separator between `a` and `b` splits each side on its own. */
  lemma SplitConcat(a: string, b: string, sep: char)
    ensures Split(a + [sep] + b, sep) == Split(a, sep) + Split(b, sep)
  {
    var pa, pb := Split(a, sep), Split(b, sep);
    JoinSplit(a, sep);
    JoinSplit(b, sep);
    JoinConcat(pa, pb, sep);
    assert NoSeparator(pa + pb, sep) by {
      forall i | 0 <= i < |pa + pb| ensures sep !in (pa + pb)[i] {
        if i >= |pa| { assert (pa + pb)[i] == pb[i - |pa|]; }
      }
    }
    SplitJoin(pa + pb, sep);
  }

  /** Splitting what was joined gives back the separator-free parts. */
  lemma {:induction false} SplitJoin(parts: seq<string>, sep: char)
    requires |parts| >= 1
    requires NoSeparator(parts, sep)
    ensures Split(Join(parts, sep), sep) == parts
  {
    if |parts| > 1 {
      SplitJoin(parts[1..], sep);
      SplitCons(parts[0], Join(parts[1..], sep), sep);
      assert [parts[0]] + parts[1..] == parts;
    }
  }

  /** Joining two non-empty lists puts one separator between their joins. */
  lemma {:induction false} JoinConcat(a: seq<string>, b: seq<string>, sep: char)
    requires |a| >= 1 && |b| >= 1
    ensures Join(a + b, sep) == Join(a, sep) + [sep] + Join(b, sep)
  {
    if |a| == 1 {
      assert (a + b)[1..] == b;
    } else {
      JoinConcat(a[1..], b, sep);
      assert (a + b)[1..] == a[1..] + b;
    }
  }

  /** Extending the last part extends the joined string. */
  lemma {:induction false} JoinExtendLast(a: seq<string>, x: string, sep: char)
    requires |a| >= 1
    ensures Join(a[..|a| - 1] + [a[|a| - 1] + x], sep) == Join(a, sep) + x
  {
    if |a| > 1 {
      var a' := a[..|a| - 1] + [a[|a| - 1] + x];
      JoinExtendLast(a[1..], x, sep);
      assert a'[1..] == a[1..][..|a[1..]| - 1] + [a[1..][|a[1..]| - 1] + x];
    }
  }

  /** Position of the first `c` in `s`. */
  function IndexOf(s: string, c: char): (r: nat)
    requires c in s
    ensures r < |s| && s[r] == c && c !in s[..r]
  {
    if s[0] == c then 0
    else
      assert c in s[1..] by { assert s == [s[0]] + s[1..]; }
      1 + IndexOf(s[1..], c)
  }

  /** The first `c` in `p + [c] + q` is the one right after `p`. */
  lemma {:induction false} IndexOfAfter(p: string, q: string, c: char)
    requires c !in p
    ensures IndexOf(p + [c] + q, c) == |p|
  {
    if p != [] {
      IndexOfAfter(p[1..], q, c);
      assert (p + [c] + q)[1..] == p[1..] + [c] + q;
    }
  }

  predicate IsDigit(c: char) { '0' <= c <= '9' }

  predicate IsLower(c: char) { 'a' <= c <= 'z' }

  predicate IsLetter(c: char) { 'a' <= c <= 'z' || 'A' <= c <= 'Z' }

  predicate AllDigits(s: string) {
    forall i :: 0 <= i < |s| ==> IsDigit(s[i])
  }

  /** The ASCII upper-case form of a letter; other characters are unchanged. */
  function Upper(c: char): (r: char)
    ensures IsLower(c) ==> 'A' <= r <= 'Z' && r as int - c as int == 'A' as int - 'a' as int
    ensures !IsLower(c) ==> r == c
  {
    if IsLower(c) then (c as int - 'a' as int + 'A' as int) as char else c
  }

  predicate IsUpper(c: char) { 'A' <= c <= 'Z' }

  /** The ASCII lower-case form of a letter; other characters are unchanged. */
  function Lower(c: char): (r: char)
    ensures IsUpper(c) ==> IsLower(r) && c as int - r as int == 'A' as int - 'a' as int
    ensures !IsUpper(c) ==> r == c
  {
    if IsUpper(c) then (c as int - 'A' as int + 'a' as int) as char else c
  }

  /**
   * The first character upper-cased, the rest left as they are. On a word
   * already in lower case, such as a structural kind name, this is what
   * Python's `s.capitalize()` gives (see `CapitalizeLowerWord`).
   */
  function Capitalize(s: string): (r: string)
    ensures |r| == |s|
    ensures |s| > 0 ==> r[0] == Upper(s[0]) && r[1..] == s[1..]
  {
    if s == [] then [] else [Upper(s[0])] + s[1..]
  }

  /** True when the letter at `i` starts a word: nothing, or a non-letter, comes before it. */
  predicate StartsWord(s: string, i: nat)
    requires i < |s|
  {
    i == 0 || !IsLetter(s[i - 1])
  }

  /**
   * Python's `s.title()` restricted to ASCII: a letter that starts a word is
   * upper-cased, every other letter lower-cased, and other characters kept.
   */
  function TitleCase(s: string): (r: string)
    ensures |r| == |s|
    ensures forall i :: 0 <= i < |s| ==> Lower(r[i]) == Lower(s[i])
    ensures forall i :: 0 <= i < |s| ==> (IsLetter(r[i]) <==> IsLetter(s[i]))
    ensures forall i :: 0 <= i < |s| && IsLetter(s[i]) ==> (IsUpper(r[i]) <==> StartsWord(s, i))
  {
    seq(|s|, i requires 0 <= i < |s| =>
      if !IsLetter(s[i]) then s[i] else if StartsWord(s, i) then Upper(Lower(s[i])) else Lower(s[i]))
  }

  /** On a lower-case word, capitalising and title-casing agree: Python's `capitalize()` and `title()` coincide there. */
  lemma CapitalizeLowerWord(s: string)
    requires forall i :: 0 <= i < |s| ==> IsLower(s[i])
    ensures Capitalize(s) == TitleCase(s)
  {
    var c, t := Capitalize(s), TitleCase(s);
    forall i | 0 <= i < |s| ensures c[i] == t[i] {
      if i > 0 { assert c[i] == s[1..][i - 1] == s[i]; }
    }
  }

  /** Python's `s.rstrip(c)`: every trailing `c` removed. */
  function StripTrailing(s: string, c: char): (r: string)
    ensures |r| <= |s| && r == s[..|r|]
    ensures r == [] || r[|r| - 1] != c
    ensures forall i :: |r| <= i < |s| ==> s[i] == c
  {
    if s == [] then []
    else if s[|s| - 1] == c then StripTrailing(s[..|s| - 1], c)
    else s
  }

  function DigitChar(d: nat): (c: char)
    requires d < 10
    ensures IsDigit(c)
  {
    ('0' as int + d) as char
  }

  /** Python's `str(n)` for a non-negative integer. */
  function NatToString(n: nat): (r: string)
    ensures |r| >= 1 && AllDigits(r)
  {
    if n < 10 then [DigitChar(n)]
    else NatToString(n / 10) + [DigitChar(n % 10)]
  }

  /** Python's `int(s)` on a string of decimal digits. */
  function DigitsValue(s: string): nat
    requires AllDigits(s)
  {
    if s == [] then 0
    else 10 * DigitsValue(s[..|s| - 1]) + (s[|s| - 1] as int - '0' as int)
  }

  /** Reading back a formatted number gives the number. */
  lemma {:induction false} NatToStringRoundTrip(n: nat)
    ensures DigitsValue(NatToString(n)) == n
  {
    if n >= 10 {
      NatToStringRoundTrip(n / 10);
      var s := NatToString(n);
      assert s[..|s| - 1] == NatToString(n / 10);
    }
  }

  /** Different numbers are formatted differently. */
  lemma NatToStringInjective(m: nat, n: nat)
    requires NatToString(m) == NatToString(n)
    ensures m == n
  {
    NatToStringRoundTrip(m);
    NatToStringRoundTrip(n);
  }

  /** Concatenation regroups freely. */
  lemma AppendAssoc<T>(x: seq<T>, y: seq<T>, z: seq<T>)
    ensures x + (y + z) == (x + y) + z
  {
  }
}
