/** The regular expressions the record normalisers hand to
    `Series.str.extract`, each written out as a scanner over the comment text
    (misc/data_utils.py:87-90, 98-102; misc/test.py:108-111, 120-124).
    `str.extract` reports the first capture group of the leftmost match, or a
    missing value when the pattern matches nowhere; each scanner below returns
    `Some(capture)` or `None` in the same way. */
module Patterns {
  import opened Text

  // ----- `REL: (\d+)`, `Accepted: (\d+)`, `Out of: (\d+)` -----

  const RelTag: string := "REL: "
  const AcceptedTag: string := "Accepted: "
  const OutOfTag: string := "Out of: "

  /** The pattern `tag(\d+)` anchored at `i`: the tag, then the longest run of
      at least one digit. A shorter run cannot be chosen, since nothing
      follows the group in the pattern. */
  function TagAt(s: string, tag: string): nat -> Option<string> {
    (i: nat) =>
      if LitAt(s, i, tag) && i + |tag| < |s| && IsDigit(s[i + |tag|])
      then Some(s[i + |tag|..DigitRunEnd(s, i + |tag|)])
      else None
  }

  /** `re.search(tag + r'(\d+)', s)`'s group. */
  function TagNumber(s: string, tag: string): (r: Option<string>)
    ensures r.Some? ==> |r.value| > 0 && AllDigits(r.value)
  {
    match Search(|s|, 0, TagAt(s, tag))
    case None => None
    case Some((_, d)) => Some(d)
  }

  /** The reference the scanner is measured against: after a prefix in which
      the tag never starts, the tag followed by the decimal spelling of `n`
      and anything that does not begin with a digit yields exactly that
      spelling, which `int()` reads back as `n`. */
  lemma TagNumberOf(a: string, tag: string, n: nat, b: string)
    requires |tag| > 0
    requires forall i :: 0 <= i < |a| ==> !LitAt(a + tag, i, tag)
    requires b == [] || !IsDigit(b[0])
    ensures TagNumber(a + tag + Decimal(n) + b, tag) == Some(Decimal(n))
    ensures DigitsValue(TagNumber(a + tag + Decimal(n) + b, tag).value) == n
  {
    var d := Decimal(n);
    var s := a + tag + d + b;
    var at := TagAt(s, tag);
    forall i | 0 <= i < |a|
      ensures at(i).None?
    {
      PrefixLit(a + tag, d + b, i, tag);
      assert s == (a + tag) + (d + b);
    }
    assert s[|a|..|a| + |tag|] == tag;
    assert s[|a| + |tag|] == d[0];
    DigitRunOf(a + tag, d, b);
    assert at(|a|) == Some(d);
    SearchFinds(|s|, 0, at, |a|);
  }

  /** A digit run placed after `p` and before a non-digit ends where it was
      placed. */
  lemma DigitRunOf(p: string, d: string, b: string)
    requires |d| > 0 && AllDigits(d)
    requires b == [] || !IsDigit(b[0])
    ensures DigitRunEnd(p + d + b, |p|) == |p| + |d|
    ensures (p + d + b)[|p|..|p| + |d|] == d
  {
    var s := p + d + b;
    assert s == p + (d + b);
    assert s[|p|..|p| + |d|] == d;
    var k := |p|;
    while k < |p| + |d|
      invariant |p| <= k <= |p| + |d|
      invariant DigitRunEnd(s, |p|) == DigitRunEnd(s, k)
    {
      assert s[k] == d[k - |p|];
      k := k + 1;
    }
    assert k == |s| || s[k] == b[0];
  }

  // ----- `sampling not enough for: (.*?);?\)` -----

  const ProgramTag: string := "sampling not enough for: "

  /** `;?\)` at `e`: a closing parenthesis, or a semicolon directly before one. */
  predicate CloseAt(s: string, e: nat) {
    e < |s| && (s[e] == ')' || (s[e] == ';' && e + 1 < |s| && s[e + 1] == ')'))
  }

  /** The lazy `(.*?)` from `k`: the first end `e` at which `;?\)` matches,
      trying ends in order and never passing a newline, which `.` does not
      match. */
  function LazyEnd(s: string, k: nat, e: nat): (r: Option<nat>)
    requires k <= e <= |s|
    requires forall j :: k <= j < e ==> s[j] != '\n' && !CloseAt(s, j)
    ensures r.Some? ==> e <= r.value < |s| && CloseAt(s, r.value)
    ensures r.Some? ==> forall j :: k <= j < r.value ==> s[j] != '\n' && !CloseAt(s, j)
    decreases |s| - e
  {
    if CloseAt(s, e) then Some(e)
    else if e == |s| || s[e] == '\n' then None
    else LazyEnd(s, k, e + 1)
  }

  /** The pattern anchored at `i`. */
  function ProgramAt(s: string): nat -> Option<string> {
    (i: nat) =>
      if LitAt(s, i, ProgramTag) then
        match LazyEnd(s, i + |ProgramTag|, i + |ProgramTag|)
        case None => None
        case Some(e) => Some(s[i + |ProgramTag|..e])
      else None
  }

  /** The PROGRAM group of an IB comment. */
  function Program(s: string): (r: Option<string>)
  {
    match Search(|s|, 0, ProgramAt(s))
    case None => None
    case Some((_, p)) => Some(p)
  }

  /** What the shortest match promises: the program never holds a closing
      parenthesis or a newline, and in the comment it is followed by `)` or
      by `;)`, so a `;` directly before the `)` is never part of it. */
  lemma ProgramShape(s: string)
    requires Program(s).Some?
    ensures var p := Program(s).value;
      && (forall j :: 0 <= j < |p| ==> p[j] != ')' && p[j] != '\n')
      && exists i :: 0 <= i && i + |ProgramTag| + |p| <= |s|
                     && LitAt(s, i, ProgramTag) && s[i + |ProgramTag|..i + |ProgramTag| + |p|] == p
                     && CloseAt(s, i + |ProgramTag| + |p|)
  {
    var at := ProgramAt(s);
    var r := Search(|s|, 0, at);
    var i := r.value.0;
    var k := i + |ProgramTag|;
    var e := LazyEnd(s, k, k).value;
    var p := s[k..e];
    assert Program(s).value == p;
    forall j | 0 <= j < |p|
      ensures p[j] != ')' && p[j] != '\n'
    {
      assert p[j] == s[k + j];
      assert !CloseAt(s, k + j);
    }
  }

  /** The reference: a program name free of `)` and newlines, not ending in
      `;`, written after the tag and closed by `)` (or `;)`) is recovered
      exactly. */
  lemma ProgramOf(a: string, p: string, close: string, b: string)
    requires forall i :: 0 <= i < |a| ==> !LitAt(a + ProgramTag, i, ProgramTag)
    requires forall j :: 0 <= j < |p| ==> p[j] != ')' && p[j] != '\n'
    requires p == [] || p[|p| - 1] != ';'
    requires close == ")" || close == ";)"
    ensures Program(a + ProgramTag + p + close + b) == Some(p)
  {
    var s := a + ProgramTag + p + close + b;
    var at := ProgramAt(s);
    assert s == (a + ProgramTag) + (p + close + b);
    forall i | 0 <= i < |a|
      ensures at(i).None?
    {
      PrefixLit(a + ProgramTag, p + close + b, i, ProgramTag);
    }
    var k := |a| + |ProgramTag|;
    assert s[|a|..k] == ProgramTag;
    assert s[k..k + |p|] == p;
    forall j | k <= j < k + |p|
      ensures s[j] != '\n' && !CloseAt(s, j)
    {
      assert s[j] == p[j - k];
      if j + 1 < k + |p| {
        assert s[j + 1] == p[j + 1 - k];
      } else {
        assert s[j + 1] == close[0];
      }
    }
    assert s[k + |p|] == close[0];
    if close == ";)" {
      assert s[k + |p| + 1] == ')';
    }
    assert CloseAt(s, k + |p|);
    assert LazyEnd(s, k, k) == Some(k + |p|) by {
      LazyEndFirst(s, k, k, k + |p|);
    }
    assert at(|a|) == Some(p);
    SearchFinds(|s|, 0, at, |a|);
  }

  /** The lazy scan stops at the first close it reaches. */
  lemma {:induction false} LazyEndFirst(s: string, k: nat, e: nat, c: nat)
    requires k <= e <= c < |s| && CloseAt(s, c)
    requires forall j :: k <= j < c ==> s[j] != '\n' && !CloseAt(s, j)
    ensures LazyEnd(s, k, e) == Some(c)
    decreases c - e
  {
    if e < c {
      LazyEndFirst(s, k, e + 1, c);
    }
  }

  // ----- `^(\d+)` and `^\d+\s*-\s*(.*)` -----

  /** OP: the leading run of digits, when the description starts with one. */
  function LeadingDigits(s: string): (r: Option<string>)
    ensures r.Some? <==> |s| > 0 && IsDigit(s[0])
    ensures r.Some? ==> |r.value| > 0 && AllDigits(r.value) && r.value <= s
    ensures r.Some? ==> |r.value| == |s| || !IsDigit(s[|r.value|])
  {
    if |s| > 0 && IsDigit(s[0]) then Some(s[..DigitRunEnd(s, 0)]) else None
  }

  /** OP_DESC: after the leading digits, optional whitespace, a dash and
      optional whitespace, the rest of the line. Giving back digits or
      whitespace never lets the dash match, so the first attempt with every
      run taken whole is the only one. */
  function OpDesc(s: string): (r: Option<string>)
  {
    var j := DigitRunEnd(s, 0);
    var k := SpaceRunEnd(s, j);
    if j > 0 && k < |s| && s[k] == '-' then
      var m := SpaceRunEnd(s, k + 1);
      Some(s[m..LineEnd(s, m)])
    else None
  }

  /** A description is only found where an OP is. */
  lemma OpDescNeedsOp(s: string)
    ensures OpDesc(s).Some? ==> LeadingDigits(s).Some?
  {
  }

  /** The reference for both: digits, whitespace, a dash, whitespace and a
      one-line description that does not start with whitespace give back the
      digits as OP and the description as OP_DESC. */
  lemma OpFieldsOf(d: string, sp1: string, sp2: string, desc: string)
    requires |d| > 0 && AllDigits(d)
    requires forall j :: 0 <= j < |sp1| ==> IsSpace(sp1[j])
    requires forall j :: 0 <= j < |sp2| ==> IsSpace(sp2[j])
    requires desc == [] || !IsSpace(desc[0])
    requires forall j :: 0 <= j < |desc| ==> desc[j] != '\n'
    ensures LeadingDigits(d + sp1 + "-" + sp2 + desc) == Some(d)
    ensures OpDesc(d + sp1 + "-" + sp2 + desc) == Some(desc)
  {
    var b := sp1 + ("-" + (sp2 + desc));
    assert d + sp1 + "-" + sp2 + desc == d + b;
    assert b == [] || !IsDigit(b[0]) by {
      if sp1 == [] {
        assert b[0] == '-';
      } else {
        assert b[0] == sp1[0];
      }
    }
    LeadRun(d, b);
    OpDescAfter(d + b, |d|, sp1, sp2, desc);
  }

  /** The dash, the whitespace around it and the description, after the
      digits that end at `j`. */
  lemma OpDescAfter(s: string, j: nat, sp1: string, sp2: string, desc: string)
    requires 0 < j <= |s| && DigitRunEnd(s, 0) == j
    requires s[j..] == sp1 + ("-" + (sp2 + desc))
    requires forall i :: 0 <= i < |sp1| ==> IsSpace(sp1[i])
    requires forall i :: 0 <= i < |sp2| ==> IsSpace(sp2[i])
    requires desc == [] || !IsSpace(desc[0])
    requires forall i :: 0 <= i < |desc| ==> desc[i] != '\n'
    ensures OpDesc(s) == Some(desc)
  {
    var k := SpaceRun(s, j, sp1, "-" + (sp2 + desc));
    assert s[k] == '-';
    assert s[k + 1..] == sp2 + desc;
    var m := SpaceRun(s, k + 1, sp2, desc);
    OneLine(s, m, desc);
    OpDescAt(s, j, k, m);
  }

  /** OP_DESC once the three runs are located. */
  lemma OpDescAt(s: string, j: nat, k: nat, m: nat)
    requires 0 < j <= |s| && DigitRunEnd(s, 0) == j && SpaceRunEnd(s, j) == k
    requires k < |s| && s[k] == '-' && SpaceRunEnd(s, k + 1) == m
    ensures OpDesc(s) == Some(s[m..LineEnd(s, m)])
  {
  }

  /** A digit run at the very start of `d + b` ends where `d` does. */
  lemma LeadRun(d: string, b: string)
    requires |d| > 0 && AllDigits(d)
    requires b == [] || !IsDigit(b[0])
    ensures DigitRunEnd(d + b, 0) == |d| && (d + b)[..|d|] == d
  {
    DigitRunOf([], d, b);
    assert [] + d + b == d + b;
  }

  /** `.*` from `m` takes everything when no newline follows. */
  lemma OneLine(s: string, m: nat, rest: string)
    requires m <= |s| && s[m..] == rest
    requires forall j :: 0 <= j < |rest| ==> rest[j] != '\n'
    ensures LineEnd(s, m) == |s| && s[m..LineEnd(s, m)] == rest
  {
  }

  /** A whitespace run placed at `i` and followed by a non-space ends where it
      was placed; the helper returns that end. */
  lemma SpaceRun(s: string, i: nat, sp: string, rest: string) returns (k: nat)
    requires i + |sp| + |rest| == |s| && s[i..] == sp + rest
    requires forall j :: 0 <= j < |sp| ==> IsSpace(sp[j])
    requires rest == [] || !IsSpace(rest[0])
    ensures k == i + |sp| && SpaceRunEnd(s, i) == k && s[k..] == rest
  {
    k := i;
    while k < i + |sp|
      invariant i <= k <= i + |sp|
      invariant SpaceRunEnd(s, i) == SpaceRunEnd(s, k)
    {
      assert s[k] == s[i..][k - i] == sp[k - i];
      k := k + 1;
    }
    assert s[k..] == s[i..][|sp|..] == rest;
    if k < |s| {
      assert s[k] == rest[0];
    }
  }

  /** The worked example of an operation description. */
  lemma OpFieldsExample()
    ensures LeadingDigits("12 - Final Grind - Inspect") == Some("12")
    ensures OpDesc("12 - Final Grind - Inspect") == Some("Final Grind - Inspect")
  {
    var desc := "Final Grind - Inspect";
    assert "12 - Final Grind - Inspect" == "12" + " " + "-" + " " + desc;
    assert desc[0] == 'F';
    assert forall j :: 0 <= j < |desc| ==> desc[j] != '\n';
    OpFieldsOf("12", " ", " ", desc);
  }

  // ----- `VANE: (\d+) - LOOP CNT: (\d+) - REQRD FEATURES: (\d+) - TOTAL: (\d+)` -----

  /** The literal text before each of the four groups. */
  const VaneLabel: string := "VANE: "
  const LoopLabel: string := " - LOOP CNT: "
  const ReqdLabel: string := " - REQRD FEATURES: "
  const TotalLabel: string := " - TOTAL: "

  /** `tag(\d+)` anchored at `i`: the group and where the match ends. The
      run is taken whole: every tag after the first starts with a space,
      so giving back a digit never lets the next tag match. */
  function FieldAt(s: string, i: nat, tag: string): (r: Option<(string, nat)>)
    ensures r.Some? ==> |r.value.0| > 0 && AllDigits(r.value.0) && r.value.1 <= |s|
  {
    if LitAt(s, i, tag) && i + |tag| < |s| && IsDigit(s[i + |tag|]) then
      var j := DigitRunEnd(s, i + |tag|);
      Some((s[i + |tag|..j], j))
    else None
  }

  /** Four `tag(\d+)` fields in a row, anchored at `i`. */
  function FourAt(s: string, i: nat, t1: string, t2: string, t3: string, t4: string): Option<seq<string>> {
    match FieldAt(s, i, t1)
    case None => None
    case Some((d1, j1)) =>
      match FieldAt(s, j1, t2)
      case None => None
      case Some((d2, j2)) =>
        match FieldAt(s, j2, t3)
        case None => None
        case Some((d3, j3)) =>
          match FieldAt(s, j3, t4)
          case None => None
          case Some((d4, _)) => Some([d1, d2, d3, d4])
  }

  /** The four-field pattern anchored at `i`. */
  function FeatureAt(s: string): nat -> Option<seq<string>> {
    (i: nat) => FourAt(s, i, VaneLabel, LoopLabel, ReqdLabel, TotalLabel)
  }

  /** The four feature counts: all four groups, or none. */
  function Features(s: string): (r: Option<seq<string>>)
    ensures r.Some? ==> |r.value| == 4
    ensures r.Some? ==> forall k :: 0 <= k < 4 ==> |r.value[k]| > 0 && AllDigits(r.value[k])
  {
    match Search(|s|, 0, FeatureAt(s))
    case None => None
    case Some((_, v)) => Some(v)
  }

  /** A CURRENT_FEATURE_COUNT record with these four numbers, followed by `b`. */
  function FeatureText(vane: nat, loop: nat, reqd: nat, total: nat, b: string): string {
    VaneLabel + (Decimal(vane) + (LoopLabel + (Decimal(loop)
      + (ReqdLabel + (Decimal(reqd) + (TotalLabel + (Decimal(total) + b)))))))
  }

  /** One field, found where it was written; what follows it is `after`. */
  lemma FieldOf(s: string, i: nat, tag: string, d: string, after: string) returns (e: nat)
    requires |d| > 0 && AllDigits(d)
    requires after == [] || !IsDigit(after[0])
    requires i <= |s| && s[i..] == tag + (d + after)
    ensures e == i + |tag| + |d| && e <= |s|
    ensures FieldAt(s, i, tag) == Some((d, e))
    ensures s[e..] == after
  {
    e := i + |tag| + |d|;
    var j := i + |tag|;
    assert s[i..j] == s[i..][..|tag|] == tag;
    assert s[j..] == s[i..][|tag|..] == d + after;
    assert s[j..e] == s[j..][..|d|] == d;
    assert s[e..] == s[j..][|d|..] == after;
    assert s[j] == d[0];
    if e < |s| {
      assert s[e] == after[0];
    }
    DigitRunAt(s, j, d);
  }

  /** A digit run found at `j` in `s` and followed by a non-digit ends where
      it was found to end. */
  lemma DigitRunAt(s: string, j: nat, d: string)
    requires j + |d| <= |s| && s[j..j + |d|] == d && AllDigits(d)
    requires j + |d| == |s| || !IsDigit(s[j + |d|])
    ensures DigitRunEnd(s, j) == j + |d|
  {
    var k := j;
    while k < j + |d|
      invariant j <= k <= j + |d|
      invariant DigitRunEnd(s, j) == DigitRunEnd(s, k)
    {
      assert s[k] == d[k - j];
      k := k + 1;
    }
  }

  /** Four fields written one after another at `i` are found in order. */
  lemma FourOf(s: string, i: nat, t1: string, t2: string, t3: string, t4: string,
               d1: string, d2: string, d3: string, d4: string, b: string)
    requires |d1| > 0 && AllDigits(d1) && |d2| > 0 && AllDigits(d2)
    requires |d3| > 0 && AllDigits(d3) && |d4| > 0 && AllDigits(d4)
    requires |t2| > 0 && !IsDigit(t2[0]) && |t3| > 0 && !IsDigit(t3[0])
    requires |t4| > 0 && !IsDigit(t4[0]) && (b == [] || !IsDigit(b[0]))
    requires i <= |s| && s[i..] == t1 + (d1 + (t2 + (d2 + (t3 + (d3 + (t4 + (d4 + b)))))))
    ensures FourAt(s, i, t1, t2, t3, t4) == Some([d1, d2, d3, d4])
  {
    var j1, j2, j3, j4 := FieldsOf(s, i, t1, t2, t3, t4, d1, d2, d3, d4, b);
    FourFound(s, i, t1, t2, t3, t4, d1, d2, d3, d4, j1, j2, j3, j4);
  }

  /** Where each of four consecutive fields is found. */
  lemma FieldsOf(s: string, i: nat, t1: string, t2: string, t3: string, t4: string,
                 d1: string, d2: string, d3: string, d4: string, b: string) returns (j1: nat, j2: nat, j3: nat, j4: nat)
    requires |d1| > 0 && AllDigits(d1) && |d2| > 0 && AllDigits(d2)
    requires |d3| > 0 && AllDigits(d3) && |d4| > 0 && AllDigits(d4)
    requires |t2| > 0 && !IsDigit(t2[0]) && |t3| > 0 && !IsDigit(t3[0])
    requires |t4| > 0 && !IsDigit(t4[0]) && (b == [] || !IsDigit(b[0]))
    requires i <= |s| && s[i..] == t1 + (d1 + (t2 + (d2 + (t3 + (d3 + (t4 + (d4 + b)))))))
    ensures FieldAt(s, i, t1) == Some((d1, j1)) && FieldAt(s, j1, t2) == Some((d2, j2))
    ensures FieldAt(s, j2, t3) == Some((d3, j3)) && FieldAt(s, j3, t4) == Some((d4, j4))
  {
    var x4 := t4 + (d4 + b);
    var x3 := t3 + (d3 + x4);
    var x2 := t2 + (d2 + x3);
    j1 := FieldOf(s, i, t1, d1, x2);
    j2 := FieldOf(s, j1, t2, d2, x3);
    j3 := FieldOf(s, j2, t3, d3, x4);
    j4 := FieldOf(s, j3, t4, d4, b);
  }

  /** Four fields found one after another make the record. */
  lemma FourFound(s: string, i: nat, t1: string, t2: string, t3: string, t4: string,
                  d1: string, d2: string, d3: string, d4: string, j1: nat, j2: nat, j3: nat, j4: nat)
    requires FieldAt(s, i, t1) == Some((d1, j1)) && FieldAt(s, j1, t2) == Some((d2, j2))
    requires FieldAt(s, j2, t3) == Some((d3, j3)) && FieldAt(s, j3, t4) == Some((d4, j4))
    ensures FourAt(s, i, t1, t2, t3, t4) == Some([d1, d2, d3, d4])
  {
  }

  /** The reference for the feature scanner: a feature record after a prefix
      where "VANE: " never starts, followed by anything that does not begin
      with a digit, yields its four numbers in order. */
  lemma FeaturesOf(a: string, vane: nat, loop: nat, reqd: nat, total: nat, b: string)
    requires forall i :: 0 <= i < |a| ==> !LitAt(a + VaneLabel, i, VaneLabel)
    requires b == [] || !IsDigit(b[0])
    ensures Features(a + FeatureText(vane, loop, reqd, total, b))
      == Some([Decimal(vane), Decimal(loop), Decimal(reqd), Decimal(total)])
  {
    var d1, d2, d3, d4 := Decimal(vane), Decimal(loop), Decimal(reqd), Decimal(total);
    var rest := d1 + (LoopLabel + (d2 + (ReqdLabel + (d3 + (TotalLabel + (d4 + b))))));
    var s := a + (VaneLabel + rest);
    assert s == a + FeatureText(vane, loop, reqd, total, b);
    RecordAt(s, |a|, d1, d2, d3, d4, b);
    NoRecordBefore(a, rest);
    SearchFinds(|s|, 0, FeatureAt(s), |a|);
  }

  /** The record written at `i` is the one the anchored pattern finds there. */
  lemma RecordAt(s: string, i: nat, d1: string, d2: string, d3: string, d4: string, b: string)
    requires |d1| > 0 && AllDigits(d1) && |d2| > 0 && AllDigits(d2)
    requires |d3| > 0 && AllDigits(d3) && |d4| > 0 && AllDigits(d4)
    requires b == [] || !IsDigit(b[0])
    requires i <= |s|
    requires s[i..] == VaneLabel + (d1 + (LoopLabel + (d2 + (ReqdLabel + (d3 + (TotalLabel + (d4 + b)))))))
    ensures FeatureAt(s)(i) == Some([d1, d2, d3, d4])
  {
    assert LoopLabel[0] == ' ' && ReqdLabel[0] == ' ' && TotalLabel[0] == ' ';
    FourOf(s, i, VaneLabel, LoopLabel, ReqdLabel, TotalLabel, d1, d2, d3, d4, b);
  }

  /** Where "VANE: " never starts, the pattern cannot match. */
  lemma NoRecordBefore(a: string, rest: string)
    requires forall i :: 0 <= i < |a| ==> !LitAt(a + VaneLabel, i, VaneLabel)
    ensures forall i :: 0 <= i < |a| ==> FeatureAt(a + (VaneLabel + rest))(i).None?
  {
    var s := a + (VaneLabel + rest);
    assert s == (a + VaneLabel) + rest;
    forall i | 0 <= i < |a|
      ensures FeatureAt(s)(i).None?
    {
      PrefixLit(a + VaneLabel, rest, i, VaneLabel);
    }
  }

  /** The worked example of a feature record,
      "VANE: 3 - LOOP CNT: 2 - REQRD FEATURES: 10 - TOTAL: 15". */
  const FeatureExample: string :=
    VaneLabel + "3" + LoopLabel + "2" + ReqdLabel + "10" + TotalLabel + "15"

  lemma FeaturesExample()
    ensures Features(FeatureExample) == Some(["3", "2", "10", "15"])
  {
    assert Decimal(3) == "3" && Decimal(2) == "2";
    assert Decimal(10) == "10" && Decimal(15) == "15";
    Nest8(VaneLabel, "3", LoopLabel, "2", ReqdLabel, "10", TotalLabel, "15");
    FeaturesOf([], 3, 2, 10, 15, []);
  }

  lemma Nest8(x1: string, x2: string, x3: string, x4: string, x5: string, x6: string, x7: string, x8: string)
    ensures x1 + x2 + x3 + x4 + x5 + x6 + x7 + x8
      == [] + (x1 + (x2 + (x3 + (x4 + (x5 + (x6 + (x7 + (x8 + []))))))))
  {
  }

  // ----- An abbreviated ship-release comment -----

  /** A ship-release comment that abbreviates the accepted count, in pieces:
      "REL: 4521 PRINTED (Acc: 8 Out of: 10; sampling not enough for: PROG_A;)".
      It abbreviates the accepted count as "Acc: ", so it has no
      "Accepted: " field. */
  const Piece3: string := " PRINTED ("
  const Piece4: string := "Acc: 8 "
  const Piece7: string := "; "
  const AbbreviatedComment: string :=
    RelTag + "4521" + Piece3 + Piece4 + OutOfTag + "10" + Piece7 + ProgramTag + "PROG_A" + ";)"

  /** Its release number, total and program are found, but its accepted count
      is not, so the normaliser's integer conversion fails on it. */
  lemma AbbreviatedCommentFields()
    ensures TagNumber(AbbreviatedComment, RelTag) == Some("4521")
    ensures TagNumber(AbbreviatedComment, AcceptedTag) == None
    ensures TagNumber(AbbreviatedComment, OutOfTag) == Some("10")
    ensures Program(AbbreviatedComment) == Some("PROG_A")
  {
    var k1, k2, k3, k4, k5 := RelTag, "4521", Piece3, Piece4, OutOfTag;
    var k6, k7, k8, k9, k10 := "10", Piece7, ProgramTag, "PROG_A", ";)";
    Regroup10(k1, k2, k3, k4, k5, k6, k7, k8, k9, k10);
    AbbreviatedRel(k3 + k4 + k5 + k6 + k7 + k8 + k9 + k10);
    AbbreviatedOutOf(k1 + k2 + k3 + k4, k7 + k8 + k9 + k10);
    NoAccepted(k1 + k2 + k3, k4 + k5 + k6 + k7, k8 + k9 + k10);
    AbbreviatedProgram(k1 + k2 + k3 + k4 + k5 + k6 + k7);
  }

  lemma AbbreviatedRel(tail: string)
    requires |tail| > 0 && tail[0] == ' '
    ensures TagNumber([] + RelTag + "4521" + tail, RelTag) == Some("4521")
  {
    assert Decimal(4521) == "4521";
    TagNumberOf([], RelTag, 4521, tail);
  }

  lemma AbbreviatedOutOf(head: string, tail: string)
    requires head == RelTag + "4521" + Piece3 + Piece4 && |tail| > 0 && tail[0] == ';'
    ensures TagNumber(head + OutOfTag + "10" + tail, OutOfTag) == Some("10")
  {
    assert Decimal(10) == "10";
    NoCharIn(head, 'O');
    TagNumberOf(head, OutOfTag, 10, tail);
  }

  lemma AbbreviatedProgram(pre: string)
    requires pre == RelTag + "4521" + Piece3 + Piece4 + OutOfTag + "10" + Piece7
    ensures Program(pre + ProgramTag + "PROG_A" + ";)" + []) == Some("PROG_A")
  {
    NoCharIn(pre, 's');
    ProgramOf(pre, "PROG_A", ";)", []);
  }

  /** Pieces regrouped around the field each use looks at. */
  lemma Regroup10(k1: string, k2: string, k3: string, k4: string, k5: string,
                  k6: string, k7: string, k8: string, k9: string, k10: string)
    ensures var s := k1 + k2 + k3 + k4 + k5 + k6 + k7 + k8 + k9 + k10;
      && s == [] + k1 + k2 + (k3 + k4 + k5 + k6 + k7 + k8 + k9 + k10)
      && s == (k1 + k2 + k3 + k4) + k5 + k6 + (k7 + k8 + k9 + k10)
      && s == (k1 + k2 + k3 + k4 + k5 + k6 + k7) + k8 + k9 + k10 + []
      && s == (k1 + k2 + k3) + (k4 + k5 + k6 + k7) + (k8 + k9 + k10)
  {
  }

  /** A tag whose first character never occurs in `a` cannot start in `a`. */
  lemma NoCharIn(a: string, c: char)
    requires c !in a
    ensures forall t :: |t| > 0 && t[0] == c ==> forall i :: 0 <= i < |a| ==> !LitAt(a + t, i, t)
  {
  }

  /** No "Accepted: " starts anywhere in the abbreviated comment: its only
      capital A's are the one of "Acc: ", which is followed by ':' where
      "Accepted" has 'e', and the one of "PROG_A", too near the end. */
  lemma NoAccepted(c1: string, c2: string, c3: string)
    requires c1 == RelTag + "4521" + Piece3 && c2 == Piece4 + OutOfTag + "10" + Piece7
    requires c3 == ProgramTag + "PROG_A" + ";)"
    ensures TagNumber(c1 + c2 + c3, AcceptedTag) == None
  {
    var s := c1 + c2 + c3;
    ChunkFacts(c1, c2, c3);
    forall j | 0 <= j <= |s|
      ensures !LitAt(s, j, AcceptedTag)
    {
      LitChar(s, j, AcceptedTag, 0);
      LitChar(s, j, AcceptedTag, 3);
      if j < |c1| {
        assert s[j] == c1[j];
      } else if j == |c1| {
        assert s[j + 3] == c2[3];
      } else if j < |c1| + |c2| {
        assert s[j] == c2[j - |c1|];
      } else if j < |s| {
        assert s[j] == c3[j - |c1| - |c2|];
      }
    }
    var at := TagAt(s, AcceptedTag);
    assert forall j :: 0 <= j <= |s| ==> at(j).None?;
  }

  /** A character of an occurrence. */
  lemma LitChar(s: string, i: nat, lit: string, k: nat)
    ensures LitAt(s, i, lit) && k < |lit| ==> s[i + k] == lit[k]
  {
    if LitAt(s, i, lit) && k < |lit| {
      assert s[i..i + |lit|][k] == lit[k];
    }
  }

  lemma ChunkFacts(c1: string, c2: string, c3: string)
    requires c1 == RelTag + "4521" + Piece3 && c2 == Piece4 + OutOfTag + "10" + Piece7
    requires c3 == ProgramTag + "PROG_A" + ";)"
    ensures 'A' !in c1
    ensures forall k :: 1 <= k < |c2| ==> c2[k] != 'A'
    ensures |c2| > 3 && c2[0] == 'A' && c2[3] == ':' && |c3| == 33
    ensures forall k :: 0 <= k < 30 ==> c3[k] != 'A'
  {
  }
}
