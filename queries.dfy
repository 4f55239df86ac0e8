/** The three SELECT statements the dashboard sends to the database, and the
    `str.format` step the trend fetch applies to them.

    Every query is a triple-quoted f-string: a newline, then each line of the
    statement preceded by the indentation of the surrounding Python code and
    followed by a newline, then that indentation once more before the closing
    quotes. One of its lines holds `BETWEEN TO_DATE('<start>', 'DD-MON-YYYY')`
    and the next `AND TO_DATE('<end>', 'DD-MON-YYYY')`; everything else is
    fixed text. A `Shape` records that fixed text, so one shape serves the
    copies in misc/data_utils.py (indented four spaces), Home.py (not
    indented) and misc/test.py (indented eight spaces), which differ only in
    indentation. */
module Queries {
  import opened Text
  import opened Calendar
  import opened SqlText

  /** Each line, indented and terminated by a newline. */
  function Lines(indent: string, ls: seq<string>): string {
    if ls == [] then [] else indent + ls[0] + "\n" + Lines(indent, ls[1..])
  }

  const Between: string := "BETWEEN TO_DATE('"
  const AndTo: string := "AND TO_DATE('"
  const Mask: string := "', 'DD-MON-YYYY')"

  /** The text before the `BETWEEN` clause. */
  function Prefix(sh: Shape, indent: string): string {
    "\n" + Lines(indent, sh.head) + indent + sh.lead
  }

  /** The text between the `BETWEEN` clause and the `AND` clause. */
  function Gap(sh: Shape, indent: string): string {
    sh.trail + "\n" + indent + sh.gap
  }

  /** The text after the `AND` clause. */
  function Suffix(sh: Shape, indent: string): string {
    "\n" + Lines(indent, sh.tail) + indent
  }

  function StartClause(start: string): string {
    Between + start + Mask
  }

  function EndClause(end: string): string {
    AndTo + end + Mask
  }

  /** The f-string with both dates interpolated. */
  function Fill(sh: Shape, indent: string, start: string, end: string): string {
    Prefix(sh, indent) + StartClause(start) + Gap(sh, indent) + EndClause(end) + Suffix(sh, indent)
  }

  /** The fixed text before the start date, between the dates, and after the
      end date. */
  function Before(sh: Shape, indent: string): string {
    Prefix(sh, indent) + Between
  }

  function Middle(sh: Shape, indent: string): string {
    Mask + Gap(sh, indent) + AndTo
  }

  function After(sh: Shape, indent: string): string {
    Mask + Suffix(sh, indent)
  }

  /** A filled query is the fixed text with the two dates placed in it. */
  lemma FillSplit(sh: Shape, indent: string, start: string, end: string)
    ensures Fill(sh, indent, start, end)
      == Before(sh, indent) + start + Middle(sh, indent) + end + After(sh, indent)
  {
    Regroup(Prefix(sh, indent), Between, start, Mask, Gap(sh, indent), AndTo, end, Suffix(sh, indent));
  }

  lemma Regroup(p: string, bt: string, s: string, m: string, g: string, at: string, e: string, z: string)
    ensures p + (bt + s + m) + g + (at + e + m) + z == (p + bt) + s + (m + g + at) + e + (m + z)
  {
  }

  datatype QuerySet = QuerySet(ia: string, ib: string, mmf: string)

  /** `build_queries(start_date_str, end_date_str)` of misc/data_utils.py. */
  function BuildQueries(start: string, end: string): QuerySet {
    QuerySet(Fill(IA, "    ", start, end), Fill(IB, "    ", start, end), Fill(MMF, "    ", start, end))
  }

  /** The module-level queries of Home.py:55-110. */
  function HomeQueries(start: string, end: string): QuerySet {
    QuerySet(Fill(IA, "", start, end), Fill(IB, "", start, end), Fill(MMF, "", start, end))
  }

  /** The queries of the test script, misc/test.py:21-50. */
  function ScriptQueries(start: string, end: string): QuerySet {
    QuerySet(Fill(IA, "        ", start, end), Fill(IBOlder, "        ", start, end), Fill(MMF, "        ", start, end))
  }

  // ----- What every filled query says -----

  /** The start date sits verbatim in a `BETWEEN TO_DATE('<start>', ...)`
      clause and the end date in an `AND TO_DATE('<end>', ...)` clause after
      it, whatever the two strings are. */
  lemma DatesEmbedded(sh: Shape, indent: string, start: string, end: string)
    ensures exists i: nat, j: nat ::
      && i < j
      && LitAt(Fill(sh, indent, start, end), i, Between + start + Mask)
      && LitAt(Fill(sh, indent, start, end), j, AndTo + end + Mask)
  {
    var p, x, g, y, z := Prefix(sh, indent), StartClause(start), Gap(sh, indent), EndClause(end), Suffix(sh, indent);
    PiecesAt(p, x, g, y, z);
    assert LitAt(Fill(sh, indent, start, end), |p|, x);
    assert LitAt(Fill(sh, indent, start, end), |p| + |x| + |g|, y);
  }

  lemma PiecesAt(p: string, x: string, g: string, y: string, z: string)
    ensures LitAt(p + x + g + y + z, |p|, x)
    ensures LitAt(p + x + g + y + z, |p| + |x| + |g|, y)
  {
    assert (p + x + g + y + z)[|p|..|p| + |x|] == x;
    assert (p + x + g + y + z)[|p| + |x| + |g|..|p| + |x| + |g| + |y|] == y;
  }

  /** Every line of the head and tail appears, whatever the dates. */
  lemma HasLine(sh: Shape, indent: string, start: string, end: string, line: string)
    requires line in sh.head || line in sh.tail
    ensures Contains(Fill(sh, indent, start, end), line)
  {
    var x, g, y := StartClause(start), Gap(sh, indent), EndClause(end);
    if line in sh.head {
      var l := Lines(indent, sh.head);
      LinesContain(indent, sh.head, line);
      ContainsPrepend("\n", l, line);
      ContainsAppend("\n" + l, indent, line);
      ContainsAppend("\n" + l + indent, sh.lead, line);
      var p := Prefix(sh, indent);
      ContainsAppend(p, x, line);
      ContainsAppend(p + x, g, line);
      ContainsAppend(p + x + g, y, line);
      ContainsAppend(p + x + g + y, Suffix(sh, indent), line);
    } else {
      var l := Lines(indent, sh.tail);
      LinesContain(indent, sh.tail, line);
      ContainsPrepend("\n", l, line);
      ContainsAppend("\n" + l, indent, line);
      ContainsPrepend(Prefix(sh, indent) + x + g + y, Suffix(sh, indent), line);
    }
  }

  lemma {:induction false} LinesContain(indent: string, ls: seq<string>, line: string)
    requires line in ls
    ensures Contains(Lines(indent, ls), line)
    decreases |ls|
  {
    var rest := Lines(indent, ls[1..]);
    if line == ls[0] {
      LitIn(indent, line, "\n" + rest);
      assert indent + line + ("\n" + rest) == Lines(indent, ls);
    } else {
      LinesContain(indent, ls[1..], line);
      ContainsPrepend(indent + ls[0] + "\n", rest, line);
    }
  }

  /** The inspection query keeps its DEPARTMENT machine sub-select. */
  lemma IAFilters(indent: string, start: string, end: string)
    ensures Contains(Fill(IA, indent, start, end), "AND insp_mach_id IN (")
    ensures Contains(Fill(IA, indent, start, end), "    SELECT m.machine_id FROM " + "mpcs.machine m")
    ensures Contains(Fill(IA, indent, start, end), "    WHERE NVL(machine_type, " + "'x') = 'DEPARTMENT'")
  {
    HasLine(IA, indent, start, end, IA.tail[0]);
    HasLine(IA, indent, start, end, IA.tail[1]);
    HasLine(IA, indent, start, end, IA.tail[2]);
  }

  /** The ship-release query keeps its comment filter and its first-ranked
      ship row rule. */
  lemma IBFilters(indent: string, start: string, end: string)
    ensures Contains(Fill(IB, indent, start, end),
      "        ROW_NUMBER() OVER " + "(PARTITION BY s.release_no " + "ORDER BY s.lot_no) AS rn")
    ensures Contains(Fill(IB, indent, start, end), "AND l.log_comment LIKE " + "'REL%PRINTED%(Acc%)'")
    ensures Contains(Fill(IB, indent, start, end), "AND r.rn = 1")
  {
    HasLine(IB, indent, start, end, IB.head[7]);
    HasLine(IB, indent, start, end, IB.tail[2]);
    HasLine(IB, indent, start, end, IB.tail[3]);
  }

  /** Whatever two quote-free date strings it is given, `build_queries`
      returns three queries that each carry exactly those two dates, start
      first, and its IA and IB queries keep their fixed filters. */
  lemma BuildQueriesCarry(start: string, end: string)
    requires NoQuote(start) && NoQuote(end)
    ensures Unfill(IA, "    ", BuildQueries(start, end).ia) == Some((start, end))
    ensures Unfill(IB, "    ", BuildQueries(start, end).ib) == Some((start, end))
    ensures Unfill(MMF, "    ", BuildQueries(start, end).mmf) == Some((start, end))
    ensures Contains(BuildQueries(start, end).ia, "    WHERE NVL(machine_type, " + "'x') = 'DEPARTMENT'")
    ensures Contains(BuildQueries(start, end).ib, "AND l.log_comment LIKE " + "'REL%PRINTED%(Acc%)'")
    ensures Contains(BuildQueries(start, end).ib, "AND r.rn = 1")
  {
    FillUnfill(IA, "    ", start, end);
    FillUnfill(IB, "    ", start, end);
    FillUnfill(MMF, "    ", start, end);
    IAFilters("    ", start, end);
    IBFilters("    ", start, end);
  }

  /** The picked days travel intact: the texts `strftime` writes for them are
      the ones the three queries carry, start first, and `TO_DATE` reads each
      back as the day picked. */
  lemma PickedDaysQueried(start: Date, end: Date)
    requires Valid(start) && Valid(end) && start.year <= 9999 && end.year <= 9999
    ensures var qs := BuildQueries(FormatDay(start), FormatDay(end));
      && Unfill(IA, "    ", qs.ia) == Some((FormatDay(start), FormatDay(end)))
      && Unfill(IB, "    ", qs.ib) == Some((FormatDay(start), FormatDay(end)))
      && Unfill(MMF, "    ", qs.mmf) == Some((FormatDay(start), FormatDay(end)))
    ensures ParseDay(FormatDay(start)) == Some(start) && ParseDay(FormatDay(end)) == Some(end)
  {
    DayTextPlain(start);
    DayTextPlain(end);
    FormatDayRoundTrip(start);
    FormatDayRoundTrip(end);
    var s, e := FormatDay(start), FormatDay(end);
    FillUnfill(IA, "    ", s, e);
    FillUnfill(IB, "    ", s, e);
    FillUnfill(MMF, "    ", s, e);
  }

  /** The same holds of the module-level queries of the home page, which
      differ from `build_queries` only in indentation. */
  lemma HomeQueriesCarry(start: string, end: string)
    requires NoQuote(start) && NoQuote(end)
    ensures Unfill(IA, "", HomeQueries(start, end).ia) == Some((start, end))
    ensures Unfill(IB, "", HomeQueries(start, end).ib) == Some((start, end))
    ensures Unfill(MMF, "", HomeQueries(start, end).mmf) == Some((start, end))
    ensures Contains(HomeQueries(start, end).ia, "    WHERE NVL(machine_type, " + "'x') = 'DEPARTMENT'")
    ensures Contains(HomeQueries(start, end).ib, "AND l.log_comment LIKE " + "'REL%PRINTED%(Acc%)'")
    ensures Contains(HomeQueries(start, end).ib, "AND r.rn = 1")
  {
    FillUnfill(IA, "", start, end);
    FillUnfill(IB, "", start, end);
    FillUnfill(MMF, "", start, end);
    IAFilters("", start, end);
    IBFilters("", start, end);
  }

  /** The test script's queries carry the dates the same way; its IB query
      is the older one. */
  lemma ScriptQueriesCarry(start: string, end: string)
    requires NoQuote(start) && NoQuote(end)
    ensures Unfill(IA, "        ", ScriptQueries(start, end).ia) == Some((start, end))
    ensures Unfill(IBOlder, "        ", ScriptQueries(start, end).ib) == Some((start, end))
    ensures Unfill(MMF, "        ", ScriptQueries(start, end).mmf) == Some((start, end))
  {
    FillUnfill(IA, "        ", start, end);
    FillUnfill(IBOlder, "        ", start, end);
    FillUnfill(MMF, "        ", start, end);
  }

  // ----- Reading the dates back -----

  predicate NoQuote(s: string) {
    forall i :: 0 <= i < |s| ==> s[i] != '\''
  }

  /** The first quote at or after `i`, if any. */
  function QuoteFrom(s: string, i: nat): (k: Option<nat>)
    requires i <= |s|
    ensures k.Some? ==> i <= k.value < |s| && s[k.value] == '\'' && NoQuote(s[i..k.value])
    ensures k.None? ==> NoQuote(s[i..])
    decreases |s| - i
  {
    if i == |s| then None
    else if s[i] == '\'' then Some(i)
    else
      var r := QuoteFrom(s, i + 1);
      assert r.Some? ==> s[i..r.value] == [s[i]] + s[i + 1..r.value];
      assert r.None? ==> s[i..] == [s[i]] + s[i + 1..];
      r
  }

  /** The dates a filled query carries: the text up to the first quote after
      the fixed prefix, and the text up to the first quote after the fixed
      middle, provided the fixed parts are where the shape puts them. */
  function Unfill(sh: Shape, indent: string, q: string): (r: Option<(string, string)>)
    ensures r.Some? ==> NoQuote(r.value.0) && NoQuote(r.value.1)
  {
    var b := Before(sh, indent);
    var m := Middle(sh, indent);
    var a := After(sh, indent);
    if |b| <= |q| && q[..|b|] == b then
      match QuoteFrom(q, |b|)
      case None => None
      case Some(k) =>
        if k + |m| <= |q| && q[k..k + |m|] == m then
          match QuoteFrom(q, k + |m|)
          case None => None
          case Some(k2) =>
            if q[k2..] == a then Some((q[|b|..k], q[k + |m|..k2])) else None
        else None
    else None
  }

  /** Every quote-free pair of dates is read back from the query it fills. */
  lemma FillUnfill(sh: Shape, indent: string, start: string, end: string)
    requires NoQuote(start) && NoQuote(end)
    ensures Unfill(sh, indent, Fill(sh, indent, start, end)) == Some((start, end))
  {
    var b, m, a := Before(sh, indent), Middle(sh, indent), After(sh, indent);
    FillSplit(sh, indent, start, end);
    var q := Fill(sh, indent, start, end);
    Slices(b, start, m, end, a);
    var k := |b| + |start|;
    var k2 := k + |m| + |end|;
    assert m[0] == '\'' && a[0] == '\'';
    FirstQuote(q, |b|, k);
    FirstQuote(q, k + |m|, k2);
    UnfillOf(sh, indent, q, k, k2);
  }

  /** Unfill succeeds on a text whose fixed parts sit where the two quotes
      it finds put them. */
  lemma UnfillOf(sh: Shape, indent: string, q: string, k: nat, k2: nat)
    requires |Before(sh, indent)| <= |q| && q[..|Before(sh, indent)|] == Before(sh, indent)
    requires QuoteFrom(q, |Before(sh, indent)|) == Some(k)
    requires k + |Middle(sh, indent)| <= |q| && q[k..k + |Middle(sh, indent)|] == Middle(sh, indent)
    requires QuoteFrom(q, k + |Middle(sh, indent)|) == Some(k2)
    requires q[k2..] == After(sh, indent)
    ensures Unfill(sh, indent, q) == Some((q[|Before(sh, indent)|..k], q[k + |Middle(sh, indent)|..k2]))
  {
  }

  lemma Slices(b: string, s: string, m: string, e: string, a: string)
    requires |m| > 0 && |a| > 0
    ensures var q := b + s + m + e + a;
      && q[..|b|] == b && q[|b|..|b| + |s|] == s
      && q[|b| + |s|] == m[0] && q[|b| + |s|..|b| + |s| + |m|] == m
      && q[|b| + |s| + |m|..|b| + |s| + |m| + |e|] == e
      && q[|b| + |s| + |m| + |e|] == a[0] && q[|b| + |s| + |m| + |e|..] == a
  {
  }

  /** Whatever Unfill accepts is exactly the query those dates fill. */
  lemma UnfillFill(sh: Shape, indent: string, q: string)
    requires Unfill(sh, indent, q).Some?
    ensures q == Fill(sh, indent, Unfill(sh, indent, q).value.0, Unfill(sh, indent, q).value.1)
  {
    var b, m, a := Before(sh, indent), Middle(sh, indent), After(sh, indent);
    var k, k2 := UnfillParts(sh, indent, q);
    Rejoin(q, b, m, a, k, k2);
    FillSplit(sh, indent, q[|b|..k], q[k + |m|..k2]);
  }

  /** Where Unfill succeeds, the positions of the two quotes it found. */
  lemma UnfillParts(sh: Shape, indent: string, q: string) returns (k: nat, k2: nat)
    requires Unfill(sh, indent, q).Some?
    ensures |Before(sh, indent)| <= k && k + |Middle(sh, indent)| <= k2 <= |q|
    ensures q[..|Before(sh, indent)|] == Before(sh, indent)
    ensures q[k..k + |Middle(sh, indent)|] == Middle(sh, indent)
    ensures q[k2..] == After(sh, indent)
    ensures Unfill(sh, indent, q).value == (q[|Before(sh, indent)|..k], q[k + |Middle(sh, indent)|..k2])
  {
    k := QuoteFrom(q, |Before(sh, indent)|).value;
    k2 := QuoteFrom(q, k + |Middle(sh, indent)|).value;
  }

  lemma Rejoin(q: string, b: string, m: string, a: string, k: nat, k2: nat)
    requires |b| <= k && k + |m| <= k2 <= |q|
    requires q[..|b|] == b && q[k..k + |m|] == m && q[k2..] == a
    ensures q == b + q[|b|..k] + m + q[k + |m|..k2] + a
  {
    assert q == q[..|b|] + q[|b|..k] + q[k..k + |m|] + q[k + |m|..k2] + q[k2..];
  }

  /** Different quote-free dates give different queries. */
  lemma FillInjective(sh: Shape, indent: string, s1: string, e1: string, s2: string, e2: string)
    requires NoQuote(s1) && NoQuote(e1) && NoQuote(s2) && NoQuote(e2)
    requires Fill(sh, indent, s1, e1) == Fill(sh, indent, s2, e2)
    ensures s1 == s2 && e1 == e2
  {
    FillUnfill(sh, indent, s1, e1);
    FillUnfill(sh, indent, s2, e2);
  }

  lemma {:induction false} FirstQuote(q: string, i: nat, k: nat)
    requires i <= k < |q| && q[k] == '\'' && NoQuote(q[i..k])
    ensures QuoteFrom(q, i) == Some(k)
    decreases k - i
  {
    if i < k {
      assert q[i] == q[i..k][0];
      assert q[i + 1..k] == q[i..k][1..];
      FirstQuote(q, i + 1, k);
    }
  }

  // ----- `str.format` -----

  datatype FormatError =
    | SingleOpen       // a `{` with no `}` after it
    | SingleClose      // a `}` that is neither doubled nor closing a field
    | MissingKey(name: string)  // KeyError: a plain name that is neither keyword argument
    | PositionalField(name: string)  // IndexError: `{}` or `{0}`, and no positional argument is passed
    | UnmodelledField(name: string)  // a conversion, format spec, attribute or index: not modelled

  /** A field that names a keyword argument and nothing more: not empty, not
      a positional index, without the `!`, `:`, `.` or `[` that start a
      conversion, a format spec, an attribute or an index, and without a
      `{`, which Python refuses inside a field name. */
  predicate PlainName(name: string) {
    && |name| > 0 && !AllDigits(name)
    && forall i :: 0 <= i < |name| ==>
         name[i] != '!' && name[i] != ':' && name[i] != '.' && name[i] != '[' && name[i] != '{'
  }

  /** The first `}` at or after `i`, if any. */
  function CloseFrom(t: string, i: nat): (k: Option<nat>)
    requires i <= |t|
    ensures k.Some? ==> i <= k.value < |t| && t[k.value] == '}'
    ensures k.Some? ==> forall j :: i <= j < k.value ==> t[j] != '}'
    ensures k.None? ==> forall j :: i <= j < |t| ==> t[j] != '}'
    decreases |t| - i
  {
    if i == |t| then None else if t[i] == '}' then Some(i) else CloseFrom(t, i + 1)
  }

  function Prepend(p: string, r: Result<string, FormatError>): Result<string, FormatError> {
    match r
    case Ok(v) => Ok(p + v)
    case Err(e) => Err(e)
  }

  /** `t.format(start_date_str=start, end_date_str=end)`: doubled braces stand
      for one brace, `{start_date_str}` and `{end_date_str}` for the values;
      another plain name raises KeyError, an empty or numeric field
      IndexError, and a lone brace ValueError. */
  function Format(t: string, start: string, end: string): Result<string, FormatError>
    decreases |t|
  {
    if t == [] then Ok([])
    else if t[0] == '{' then
      if |t| >= 2 && t[1] == '{' then Prepend("{", Format(t[2..], start, end))
      else
        match CloseFrom(t, 1)
        case None => Err(SingleOpen)
        case Some(k) =>
          var name := t[1..k];
          if name == "start_date_str" then Prepend(start, Format(t[k + 1..], start, end))
          else if name == "end_date_str" then Prepend(end, Format(t[k + 1..], start, end))
          else if AllDigits(name) then Err(PositionalField(name))
          else if PlainName(name) then Err(MissingKey(name))
          else Err(UnmodelledField(name))
    else if t[0] == '}' then
      if |t| >= 2 && t[1] == '}' then Prepend("}", Format(t[2..], start, end))
      else Err(SingleClose)
    else Prepend([t[0]], Format(t[1..], start, end))
  }

  /** Text without braces passes through `format` before any suffix. */
  lemma {:induction false} FormatPlainPrefix(p: string, t: string, start: string, end: string)
    requires NoBraces(p)
    ensures Format(p + t, start, end) == Prepend(p, Format(t, start, end))
    decreases |p|
  {
    if p != [] {
      assert (p + t)[0] == p[0] && (p + t)[1..] == p[1..] + t;
      assert p[0] != '{' && p[0] != '}';
      assert Format(p + t, start, end) == Prepend([p[0]], Format(p[1..] + t, start, end));
      FormatPlainPrefix(p[1..], t, start, end);
      PrependTwice([p[0]], p[1..], Format(t, start, end));
      assert [p[0]] + p[1..] == p;
    } else {
      assert p + t == t;
      var r := Format(t, start, end);
      if r.Ok? {
        assert p + r.value == r.value;
      }
    }
  }

  lemma PrependTwice(a: string, b: string, r: Result<string, FormatError>)
    ensures Prepend(a, Prepend(b, r)) == Prepend(a + b, r)
  {
    if r.Ok? {
      assert a + (b + r.value) == a + b + r.value;
    }
  }

  /** Text without braces is left unchanged by `format`. */
  lemma FormatPlain(t: string, start: string, end: string)
    requires NoBraces(t)
    ensures Format(t, start, end) == Ok(t)
  {
    FormatPlainPrefix(t, [], start, end);
    assert t + [] == t;
  }

  /** The fixed text around the dates holds no braces. */
  lemma ShapePlain(sh: Shape, indent: string)
    requires ShapeNoBraces(sh) && NoBraces(indent)
    ensures NoBraces(Before(sh, indent)) && NoBraces(Middle(sh, indent)) && NoBraces(After(sh, indent))
  {
    LinesPlain(indent, sh.head);
    LinesPlain(indent, sh.tail);
  }

  lemma {:induction false} LinesPlain(indent: string, ls: seq<string>)
    requires NoBraces(indent)
    requires forall k :: 0 <= k < |ls| ==> NoBraces(ls[k])
    ensures NoBraces(Lines(indent, ls))
    decreases |ls|
  {
    if ls != [] {
      LinesPlain(indent, ls[1..]);
    }
  }

  lemma FillPlain(b: string, s: string, m: string, e: string, a: string)
    requires NoBraces(b) && NoBraces(s) && NoBraces(m) && NoBraces(e) && NoBraces(a)
    ensures NoBraces(b + s + m + e + a)
  {
  }

  /** The dates `strftime("%d-%b-%Y")` writes hold neither quotes nor braces. */
  lemma DayTextPlain(d: Date)
    requires Valid(d)
    ensures NoQuote(FormatDay(d)) && NoBraces(FormatDay(d))
  {
    MonthNameLetters(d.month);
    FieldsPlain(Pad2(d.day), MonthName(d.month), Year4(d.year));
  }

  lemma MonthNameLetters(m: int)
    ensures forall i :: 0 <= i < |MonthName(m)| ==> 'A' <= MonthName(m)[i] <= 'z'
  {
  }

  lemma FieldsPlain(day: string, name: string, year: string)
    requires AllDigits(day) && AllDigits(year)
    requires forall i :: 0 <= i < |name| ==> 'A' <= name[i] <= 'z'
    ensures NoQuote(day + "-" + name + "-" + year) && NoBraces(day + "-" + name + "-" + year)
  {
  }

  /** The text `get_data` executes: the query after `format`. */
  function GetData(query: string, start: string, end: string): Result<string, FormatError> {
    Format(query, start, end)
  }

  /** The text with `{start_date_str}` and `{end_date_str}` still in place, as
      a plain (not f-) string would hold it. */
  function Template(sh: Shape, indent: string): string {
    Fill(sh, indent, "{start_date_str}", "{end_date_str}")
  }

  /** As written, `get_data` runs the query already filled with the first
      date range, whatever range it is given, so it never runs the query for
      the trend range unless both ranges agree. */
  lemma GetDataIgnoresRange(sh: Shape, first: (Date, Date), trend: (Date, Date))
    requires ShapeNoBraces(sh)
    requires Valid(first.0) && Valid(first.1) && Valid(trend.0) && Valid(trend.1)
    ensures GetData(Fill(sh, "", FormatDay(first.0), FormatDay(first.1)),
                    FormatDay(trend.0), FormatDay(trend.1))
            == Ok(Fill(sh, "", FormatDay(first.0), FormatDay(first.1)))
    ensures FormatDay(first.0) != FormatDay(trend.0) ==>
      GetData(Fill(sh, "", FormatDay(first.0), FormatDay(first.1)), FormatDay(trend.0), FormatDay(trend.1))
        != Ok(Fill(sh, "", FormatDay(trend.0), FormatDay(trend.1)))
  {
    var s1, e1 := FormatDay(first.0), FormatDay(first.1);
    var s2, e2 := FormatDay(trend.0), FormatDay(trend.1);
    DayTextPlain(first.0);
    DayTextPlain(first.1);
    DayTextPlain(trend.0);
    DayTextPlain(trend.1);
    ShapePlain(sh, "");
    var q := Fill(sh, "", s1, e1);
    FillSplit(sh, "", s1, e1);
    FillPlain(Before(sh, ""), s1, Middle(sh, ""), e1, After(sh, ""));
    FormatPlain(q, s2, e2);
    if s1 != s2 && Fill(sh, "", s1, e1) == Fill(sh, "", s2, e2) {
      FillInjective(sh, "", s1, e1, s2, e2);
    }
  }

  /** Formatting the template instead fills in exactly the dates given. */
  lemma GetDataTemplate(sh: Shape, indent: string, start: string, end: string)
    requires ShapeNoBraces(sh) && NoBraces(indent)
    ensures GetData(Template(sh, indent), start, end) == Ok(Fill(sh, indent, start, end))
  {
    var b, m, a := Before(sh, indent), Middle(sh, indent), After(sh, indent);
    ShapePlain(sh, indent);
    var key1, key2 := "{" + "start_date_str" + "}", "{" + "end_date_str" + "}";
    assert key1 == "{start_date_str}" && key2 == "{end_date_str}";
    FillSplit(sh, indent, key1, key2);
    RightNest(b, key1, m, key2, a);
    FormatPlain(a, start, end);
    KeyFirst("end_date_str", a, start, end);
    FormatPlainPrefix(m, key2 + a, start, end);
    KeyFirst("start_date_str", m + (key2 + a), start, end);
    FormatPlainPrefix(b, key1 + (m + (key2 + a)), start, end);
    FillSplit(sh, indent, start, end);
    RightNest(b, start, m, end, a);
  }

  /** A keyword field at the front is replaced by its value. */
  lemma KeyFirst(name: string, rest: string, start: string, end: string)
    requires name == "start_date_str" || name == "end_date_str"
    ensures Format("{" + name + "}" + rest, start, end)
         == Prepend(if name == "start_date_str" then start else end, Format(rest, start, end))
  {
    KeysPlain();
    FieldFirst(name, rest, start, end);
  }

  lemma KeysPlain()
    ensures NoBraces("start_date_str") && NoBraces("end_date_str")
  {
  }

  lemma RightNest(b: string, x: string, m: string, y: string, a: string)
    ensures b + x + m + y + a == b + (x + (m + (y + a)))
  {
  }

  /** A replacement field at the front is looked up by its name: the two
      keyword arguments are substituted, any other plain name raises
      KeyError, and an empty or numeric field raises IndexError, since no
      positional argument is passed. */
  lemma FieldFirst(name: string, rest: string, start: string, end: string)
    requires NoBraces(name)
    ensures name == "start_date_str" ==>
      Format("{" + name + "}" + rest, start, end) == Prepend(start, Format(rest, start, end))
    ensures name == "end_date_str" ==>
      Format("{" + name + "}" + rest, start, end) == Prepend(end, Format(rest, start, end))
    ensures PlainName(name) && name != "start_date_str" && name != "end_date_str" ==>
      Format("{" + name + "}" + rest, start, end) == Err(MissingKey(name))
    ensures AllDigits(name) ==> Format("{" + name + "}" + rest, start, end) == Err(PositionalField(name))
  {
    var t := "{" + name + "}" + rest;
    var k := |name| + 1;
    assert t[0] == '{' && t[k] == '}';
    assert forall j :: 1 <= j < k ==> t[j] == name[j - 1];
    assert CloseFrom(t, 1) == Some(k);
    assert t[1..k] == name;
    assert t[k + 1..] == rest;
  }
}
