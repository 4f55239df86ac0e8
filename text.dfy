/** Text primitives shared by the query builder, the record scanners and the
    calendar: character classes as Python's `re` module sees them, decimal
    digit runs, a leftmost-match search (what `re.search` and
    `Series.str.extract` do with an anchored matcher) and `str.split`. */
module Text {

  datatype Option<+T> = None | Some(value: T)

  datatype Result<+T, +E> = Ok(value: T) | Err(error: E)

  /** `\d` and `[0-9]`, restricted to ASCII digits. */
  predicate IsDigit(c: char) {
    '0' <= c <= '9'
  }

  predicate AllDigits(s: string) {
    forall i :: 0 <= i < |s| ==> IsDigit(s[i])
  }

  /** `\s` in a `str` pattern: exactly the characters for which Python's
      `str.isspace()` holds. */
  predicate IsSpace(c: char) {
    || c == ' '
    || '\t' <= c <= '\r'
    || '\U{1C}' <= c <= '\U{1F}'
    || c == '\U{85}' || c == '\U{A0}' || c == '\U{1680}'
    || '\U{2000}' <= c <= '\U{200A}'
    || c == '\U{2028}' || c == '\U{2029}' || c == '\U{202F}'
    || c == '\U{205F}' || c == '\U{3000}'
  }

  function DigitValue(c: char): (n: nat)
    requires IsDigit(c)
    ensures n < 10
  {
    c as int - '0' as int
  }

  function DigitChar(n: nat): (c: char)
    requires n < 10
    ensures IsDigit(c) && DigitValue(c) == n
  {
    ('0' as int + n) as char
  }

  /** The value of a run of decimal digits, as `int(...)` reads it. */
  function DigitsValue(s: string): nat
    requires AllDigits(s)
  {
    if s == [] then 0 else 10 * DigitsValue(s[..|s| - 1]) + DigitValue(s[|s| - 1])
  }

  /** The shortest decimal spelling of `n`, as `str(n)` writes it. */
  function Decimal(n: nat): (s: string)
    ensures |s| > 0 && AllDigits(s)
    ensures DigitsValue(s) == n
    ensures s[0] != '0' || n == 0
    decreases n
  {
    if n < 10 then [DigitChar(n)]
    else
      var s := Decimal(n / 10) + [DigitChar(n % 10)];
      assert s[..|s| - 1] == Decimal(n / 10);
      s
  }

  function Pow10(k: nat): (p: nat)
    ensures p >= 1
  {
    if k == 0 then 1 else 10 * Pow10(k - 1)
  }

  /** Below `10^k`, the decimal spelling takes at most `k` digits. */
  lemma {:induction false} DecimalWidth(n: nat, k: nat)
    ensures k >= 1 && n < Pow10(k) ==> |Decimal(n)| <= k
    decreases k
  {
    if n >= 10 && k > 1 {
      assert Pow10(k) == 10 * Pow10(k - 1);
      assert 10 * (n / 10) <= n;
      DecimalWidth(n / 10, k - 1);
    }
  }

  /** `s` preceded by enough zeros to reach `width` characters. */
  function ZeroPad(s: string, width: nat): (r: string)
    ensures |r| == if |s| < width then width else |s|
    ensures r[|r| - |s|..] == s
    ensures forall i :: 0 <= i < |r| - |s| ==> r[i] == '0'
  {
    Zeros(if |s| < width then width - |s| else 0) + s
  }

  function Zeros(n: nat): (z: string)
    ensures |z| == n && forall i :: 0 <= i < n ==> z[i] == '0'
  {
    if n == 0 then [] else ['0'] + Zeros(n - 1)
  }

  /** Reading back a zero-padded decimal gives the number. */
  lemma ZeroPadValue(s: string, width: nat)
    requires AllDigits(s)
    ensures AllDigits(ZeroPad(s, width)) && DigitsValue(ZeroPad(s, width)) == DigitsValue(s)
  {
    ZerosValue(if |s| < width then width - |s| else 0, s);
  }

  lemma {:induction false} ZerosValue(n: nat, s: string)
    requires AllDigits(s)
    ensures AllDigits(Zeros(n) + s) && DigitsValue(Zeros(n) + s) == DigitsValue(s)
    decreases n
  {
    if n > 0 {
      assert Zeros(n) + s == Zeros(n - 1) + (['0'] + s);
      LeadingZeroValue(s);
      ZerosValue(n - 1, ['0'] + s);
    } else {
      assert Zeros(n) + s == s;
    }
  }

  lemma {:induction false} LeadingZeroValue(s: string)
    requires AllDigits(s)
    ensures AllDigits(['0'] + s) && DigitsValue(['0'] + s) == DigitsValue(s)
    decreases |s|
  {
    if s != [] {
      var t := ['0'] + s;
      assert t[..|t| - 1] == ['0'] + s[..|s| - 1];
      LeadingZeroValue(s[..|s| - 1]);
    }
  }

  /** End of the maximal run of digits that starts at `i`. */
  function DigitRunEnd(s: string, i: nat): (j: nat)
    requires i <= |s|
    ensures i <= j <= |s| && AllDigits(s[i..j])
    ensures j < |s| ==> !IsDigit(s[j])
    decreases |s| - i
  {
    if i < |s| && IsDigit(s[i]) then DigitRunEnd(s, i + 1) else i
  }

  /** End of the maximal run of `\s` characters that starts at `i`. */
  function SpaceRunEnd(s: string, i: nat): (j: nat)
    requires i <= |s|
    ensures i <= j <= |s| && forall k :: i <= k < j ==> IsSpace(s[k])
    ensures j < |s| ==> !IsSpace(s[j])
    decreases |s| - i
  {
    if i < |s| && IsSpace(s[i]) then SpaceRunEnd(s, i + 1) else i
  }

  /** End of what `.*` matches from `i`: everything up to the next newline. */
  function LineEnd(s: string, i: nat): (j: nat)
    requires i <= |s|
    ensures i <= j <= |s| && forall k :: i <= k < j ==> s[k] != '\n'
    ensures j < |s| ==> s[j] == '\n'
    decreases |s| - i
  {
    if i < |s| && s[i] != '\n' then LineEnd(s, i + 1) else i
  }

  /** `lit` occurs in `s` at position `i`. */
  predicate LitAt(s: string, i: nat, lit: string) {
    i + |lit| <= |s| && s[i..i + |lit|] == lit
  }

  predicate Contains(s: string, lit: string) {
    exists i: nat | i <= |s| :: LitAt(s, i, lit)
  }

  /** A non-empty sequence is its front followed by its last element. */
  lemma Snoc<T>(s: seq<T>)
    requires s != []
    ensures s[..|s| - 1] + [s[|s| - 1]] == s
  {
  }

  /** `x` occurs in `a + x + b` right after `a`. */
  lemma LitIn(a: string, x: string, b: string)
    ensures LitAt(a + x + b, |a|, x)
  {
    assert (a + x + b)[|a|..|a| + |x|] == x;
  }

  /** An occurrence of `lit` found in `s + t` that starts and ends inside `s`
      is an occurrence in `s`. */
  lemma PrefixLit(s: string, t: string, i: nat, lit: string)
    requires i + |lit| <= |s|
    ensures LitAt(s + t, i, lit) == LitAt(s, i, lit)
  {
    assert (s + t)[i..i + |lit|] == s[i..i + |lit|];
  }

  /** An occurrence inside `m` is an occurrence inside `a + m`. */
  lemma ContainsPrepend(a: string, m: string, x: string)
    requires Contains(m, x)
    ensures Contains(a + m, x)
  {
    var i: nat :| i <= |m| && LitAt(m, i, x);
    assert (a + m)[|a| + i..|a| + i + |x|] == m[i..i + |x|];
    assert LitAt(a + m, |a| + i, x);
  }

  /** An occurrence inside `m` is an occurrence inside `m + b`. */
  lemma ContainsAppend(m: string, b: string, x: string)
    requires Contains(m, x)
    ensures Contains(m + b, x)
  {
    var i: nat :| i <= |m| && LitAt(m, i, x);
    assert (m + b)[i..i + |x|] == m[i..i + |x|];
    assert LitAt(m + b, i, x);
  }

  /** Leftmost search: the first position in `i..n` at which the anchored
      matcher `at` succeeds, with what it matched. A regular expression search
      tries the positions of the subject from left to right in exactly this
      way and reports the first one where the pattern matches. */
  function Search<T>(n: nat, i: nat, at: nat -> Option<T>): (r: Option<(nat, T)>)
    requires i <= n
    ensures r.Some? ==> i <= r.value.0 <= n && at(r.value.0) == Some(r.value.1)
    ensures r.Some? ==> forall j :: i <= j < r.value.0 ==> at(j).None?
    ensures r.None? ==> forall j :: i <= j <= n ==> at(j).None?
    decreases n - i
  {
    match at(i)
    case Some(v) => Some((i, v))
    case None => if i == n then None else Search(n, i + 1, at)
  }

  /** The search reports the first position where the matcher succeeds. */
  lemma {:induction false} SearchFinds<T>(n: nat, i: nat, at: nat -> Option<T>, k: nat)
    requires i <= k <= n && at(k).Some?
    requires forall j :: i <= j < k ==> at(j).None?
    ensures Search(n, i, at) == Some((k, at(k).value))
    decreases k - i
  {
    if i < k {
      SearchFinds(n, i + 1, at, k);
    }
  }

  /** Python's `s.split(sep)` for a non-empty separator: the pieces between
      the non-overlapping occurrences of `sep`, found from the left. */
  function Split(s: string, sep: string): (parts: seq<string>)
    requires |sep| > 0
    ensures |parts| >= 1
    decreases |s|
  {
    match Search(|s|, 0, SepMatcher(s, sep))
    case None => [s]
    case Some((j, _)) => [s[..j]] + Split(s[j + |sep|..], sep)
  }

  /** Anchored matcher for a literal separator. */
  function SepMatcher(s: string, sep: string): nat -> Option<nat> {
    j => if LitAt(s, j, sep) then Some(j) else None
  }

  /** Python's `sep.join(parts)`. */
  function Join(parts: seq<string>, sep: string): string
    requires |parts| >= 1
  {
    if |parts| == 1 then parts[0] else parts[0] + sep + Join(parts[1..], sep)
  }

  /** Splitting loses nothing: joining the pieces back restores the text, and
      no piece contains the separator. */
  lemma SplitJoin(s: string, sep: string)
    requires |sep| > 0
    ensures Join(Split(s, sep), sep) == s
    ensures forall k :: 0 <= k < |Split(s, sep)| ==> !Contains(Split(s, sep)[k], sep)
  {
    JoinSplit(s, sep);
    PiecesFree(s, sep);
  }

  lemma {:induction false} JoinSplit(s: string, sep: string)
    requires |sep| > 0
    ensures Join(Split(s, sep), sep) == s
    decreases |s|
  {
    var at := SepMatcher(s, sep);
    match Search(|s|, 0, at)
    case None =>
    case Some((j, _)) =>
      assert at(j).Some?;
      var rest := s[j + |sep|..];
      JoinSplit(rest, sep);
      assert Split(s, sep) == [s[..j]] + Split(rest, sep);
      JoinCons(s[..j], Split(rest, sep), sep);
      Around(s, j, sep);
  }

  lemma JoinCons(a: string, parts: seq<string>, sep: string)
    requires |parts| >= 1
    ensures Join([a] + parts, sep) == a + sep + Join(parts, sep)
  {
    assert ([a] + parts)[1..] == parts;
  }

  /** A text is what comes before an occurrence, the occurrence, and what follows. */
  lemma Around(s: string, j: nat, sep: string)
    requires LitAt(s, j, sep)
    ensures s == s[..j] + sep + s[j + |sep|..]
  {
    assert s[j..j + |sep|] == sep;
    assert s == s[..j] + s[j..j + |sep|] + s[j + |sep|..];
  }

  lemma {:induction false} PiecesFree(s: string, sep: string)
    requires |sep| > 0
    ensures forall k :: 0 <= k < |Split(s, sep)| ==> !Contains(Split(s, sep)[k], sep)
    decreases |s|
  {
    var at := SepMatcher(s, sep);
    match Search(|s|, 0, at)
    case None =>
      BeforeFirst(s, sep, |s|);
      assert s[..|s|] == s;
    case Some((j, _)) =>
      var rest := s[j + |sep|..];
      PiecesFree(rest, sep);
      BeforeFirst(s, sep, j);
      assert Split(s, sep) == [s[..j]] + Split(rest, sep);
      PiecesCons(s[..j], Split(rest, sep), sep);
  }

  /** No occurrence is found before `n`, so `s[..n]` holds none. */
  lemma BeforeFirst(s: string, sep: string, n: nat)
    requires n <= |s| && |sep| > 0
    requires forall i :: 0 <= i < n ==> SepMatcher(s, sep)(i).None?
    ensures !Contains(s[..n], sep)
  {
    forall i | 0 <= i < n
      ensures !LitAt(s, i, sep)
    {
      assert SepMatcher(s, sep)(i).None?;
    }
    NoOccurrence(s, sep, n);
  }

  lemma PiecesCons(a: string, parts: seq<string>, sep: string)
    requires !Contains(a, sep)
    requires forall k :: 0 <= k < |parts| ==> !Contains(parts[k], sep)
    ensures forall k :: 0 <= k < |[a] + parts| ==> !Contains(([a] + parts)[k], sep)
  {
  }

  /** A prefix `s[..j]` holds no occurrence of `sep` when none starts before `j`. */
  lemma NoOccurrence(s: string, sep: string, j: nat)
    requires j <= |s| && |sep| > 0
    requires forall i :: 0 <= i < j ==> !LitAt(s, i, sep)
    ensures !Contains(s[..j], sep)
  {
    forall i: nat | i <= j
      ensures !LitAt(s[..j], i, sep)
    {
      if i + |sep| <= j {
        assert !LitAt(s, i, sep);
        assert s[..j][i..i + |sep|] == s[i..i + |sep|];
      }
    }
  }

  /** `a + sep + b` splits into exactly `[a, b]` when the first occurrence of
      `sep` in `a + sep` is the one placed between the two, and `b` holds none. */
  lemma SplitPair(a: string, sep: string, b: string)
    requires |sep| > 0
    requires forall i :: 0 <= i < |a| ==> !LitAt(a + sep, i, sep)
    requires !Contains(b, sep)
    ensures Split(a + sep + b, sep) == [a, b]
  {
    var s := a + sep + b;
    var at := SepMatcher(s, sep);
    forall i | 0 <= i < |a|
      ensures at(i).None?
    {
      PrefixLit(a + sep, b, i, sep);
    }
    assert s[|a|..|a| + |sep|] == sep;
    assert at(|a|) == Some(|a|);
    var r := Search(|s|, 0, at);
    assert r == Some((|a|, |a|));
    assert s[|a| + |sep|..] == b;
    assert s[..|a|] == a;
    SplitNone(b, sep);
  }

  lemma SplitNone(s: string, sep: string)
    requires |sep| > 0
    requires !Contains(s, sep)
    ensures Split(s, sep) == [s]
  {
    var at := SepMatcher(s, sep);
    forall i | 0 <= i <= |s|
      ensures at(i).None?
    {
      assert !LitAt(s, i, sep);
    }
  }
}
