/** The missing-feature chart of the script (misc/test.py:141-204): count the
    cleaned MMF rows per (PROCESS_PLAN_ID, OP) pair, keep the twenty largest
    counts, label each bar `"<plan> - OP <op>"`, and on a selection split the
    label back and filter the frame to the chosen pair. */
module Ranking {
  import opened Text

  /** One row of the cleaned MMF frame as the chart reads it: its
      PROCESS_PLAN_ID and OP cells, text or missing. */
  datatype Row = Row(plan: Option<string>, op: Option<string>)

  /** A (PROCESS_PLAN_ID, OP) pair. */
  datatype Key = Key(plan: string, op: string)

  /** One line of `size().reset_index(name='Count')`. */
  datatype Group = Group(key: Key, count: nat)

  /** The number of bars `head` keeps. */
  const TopN: nat := 20

  /** `groupby` leaves out a row whose plan or OP is missing. */
  function KeyOf(r: Row): Option<Key> {
    if r.plan.Some? && r.op.Some? then Some(Key(r.plan.value, r.op.value)) else None
  }

  /** The number of rows whose pair is `k`. */
  function Count(rows: seq<Row>, k: Key): nat
  {
    if rows == [] then 0
    else Count(rows[..|rows| - 1], k) + (if KeyOf(rows[|rows| - 1]) == Some(k) then 1 else 0)
  }

  /** The number of rows that have a pair at all. */
  function Keyed(rows: seq<Row>): (n: nat)
    ensures n <= |rows|
  {
    if rows == [] then 0
    else Keyed(rows[..|rows| - 1]) + (if KeyOf(rows[|rows| - 1]).Some? then 1 else 0)
  }

  predicate DistinctKeys(ks: seq<Key>) {
    forall i, j :: 0 <= i < j < |ks| ==> ks[i] != ks[j]
  }

  /** The observed pairs, each once, in the order they first occur. */
  function Keys(rows: seq<Row>): (ks: seq<Key>)
    ensures DistinctKeys(ks)
    ensures forall k :: k in ks <==> Count(rows, k) > 0
  {
    if rows == [] then []
    else
      var ks := Keys(rows[..|rows| - 1]);
      match KeyOf(rows[|rows| - 1])
      case Some(k) => if k in ks then ks else ks + [k]
      case None => ks
  }

  /** One group per pair of `ks`, with its row count. */
  function GroupsOf(ks: seq<Key>, rows: seq<Row>): (gs: seq<Group>)
    ensures |gs| == |ks|
    ensures forall i :: 0 <= i < |ks| ==> gs[i] == Group(ks[i], Count(rows, ks[i]))
  {
    if ks == [] then []
    else GroupsOf(ks[..|ks| - 1], rows) + [Group(ks[|ks| - 1], Count(rows, ks[|ks| - 1]))]
  }

  /** `df_MMF.groupby(['PROCESS_PLAN_ID', 'OP'], observed=True).size()`. */
  function GroupCounts(rows: seq<Row>): seq<Group> {
    GroupsOf(Keys(rows), rows)
  }

  /** The sum of the counts. */
  function Total(gs: seq<Group>): nat {
    if gs == [] then 0 else Total(gs[..|gs| - 1]) + gs[|gs| - 1].count
  }

  predicate NonIncreasing(gs: seq<Group>) {
    forall i, j :: 0 <= i < j < |gs| ==> gs[i].count >= gs[j].count
  }

  /** Place `g` in front of the first group whose count is not larger. */
  function Insert(g: Group, gs: seq<Group>): (r: seq<Group>)
    ensures |r| == |gs| + 1
  {
    if gs == [] || gs[0].count <= g.count then [g] + gs
    else [gs[0]] + Insert(g, gs[1..])
  }

  /** `sort_values(by='Count', ascending=False)`. */
  function SortDesc(gs: seq<Group>): (r: seq<Group>)
    ensures |r| == |gs|
  {
    if gs == [] then [] else Insert(gs[0], SortDesc(gs[1..]))
  }

  /** `head(n)`. */
  function Head(gs: seq<Group>, n: nat): (r: seq<Group>)
    ensures |r| == if |gs| < n then |gs| else n
    ensures r == gs[..|r|]
  {
    if |gs| < n then gs else gs[..n]
  }

  /** `df_top10`: the counted pairs, largest counts first, at most twenty. */
  function Top(rows: seq<Row>): seq<Group> {
    Head(SortDesc(GroupCounts(rows)), TopN)
  }

  // ----- The bar labels and the drill-down -----

  const Sep: string := " - OP "

  /** `PROCESS_PLAN_ID.astype(str) + " - OP " + OP.astype(str)`. */
  function Label(k: Key): string {
    k.plan + Sep + k.op
  }

  /** The PLAN_OP column added to `df_top10`, one label per bar. */
  function PlanOp(top: seq<Group>): (labels: seq<string>)
    ensures |labels| == |top|
    ensures forall i :: 0 <= i < |top| ==> labels[i] == Label(top[i].key)
  {
    if top == [] then [] else PlanOp(top[..|top| - 1]) + [Label(top[|top| - 1].key)]
  }

  /** The two ways the selection handler raises: the label does not split
      into exactly two pieces, or the second piece is not an integer. Both
      are caught and shown as an error message. */
  datatype DrillError = UnpackError | IntError

  /** The text without the leading and trailing whitespace `int()` ignores. */
  function Strip(s: string): (r: string)
    ensures |r| <= |s|
    decreases |s|
  {
    if s != [] && IsSpace(s[0]) then Strip(s[1..])
    else if s != [] && IsSpace(s[|s| - 1]) then Strip(s[..|s| - 1])
    else s
  }

  /** `int(s)` for a text: optional surrounding whitespace, an optional sign
      and a run of decimal digits. */
  function PyInt(s: string): Option<int> {
    var t := Strip(s);
    if |t| > 1 && (t[0] == '+' || t[0] == '-') && AllDigits(t[1..]) then
      var v: int := DigitsValue(t[1..]);
      Some(if t[0] == '-' then -v else v)
    else if |t| > 0 && AllDigits(t) then Some(DigitsValue(t))
    else None
  }

  /** `selected_plan_id, selected_op = selected_plan_op.split(" - OP ")`. */
  function Pieces(s: string): Result<(string, string), DrillError> {
    var parts := Split(s, Sep);
    if |parts| == 2 then Ok((parts[0], parts[1])) else Err(UnpackError)
  }

  /** The unpack followed by `selected_op = int(selected_op)`. */
  function ParseSelection(s: string): Result<(string, int), DrillError> {
    match Pieces(s)
    case Err(e) => Err(e)
    case Ok((plan, op)) =>
      match PyInt(op)
      case None => Err(IntError)
      case Some(n) => Ok((plan, n))
  }

  /** The rows whose pair is (`plan`, `op`), in frame order. */
  function Matching(rows: seq<Row>, plan: string, op: string): seq<Row>
  {
    if rows == [] then []
    else
      var r := rows[|rows| - 1];
      Matching(rows[..|rows| - 1], plan, op) + (if r.plan == Some(plan) && r.op == Some(op) then [r] else [])
  }

  /** `df_MMF['OP'] == selected_op` for one row. OP is a category column of
      digit text and `selected_op` an int; an int is never one of the text
      categories, so pandas answers False for every row. */
  function OpEqualsInt(op: Option<string>, n: int): bool {
    false
  }

  /** The rows `df_MMF[(PROCESS_PLAN_ID == plan) & (OP == n)]` keeps, with
      the comparison as written. */
  function MatchingInt(rows: seq<Row>, plan: string, n: int): seq<Row>
  {
    if rows == [] then []
    else
      var r := rows[|rows| - 1];
      MatchingInt(rows[..|rows| - 1], plan, n) + (if r.plan == Some(plan) && OpEqualsInt(r.op, n) then [r] else [])
  }

  /** The selection handler as written: `filtered_df`, or the error it
      reports. */
  function DrillDownAsWritten(rows: seq<Row>, selected: string): Result<seq<Row>, DrillError> {
    match ParseSelection(selected)
    case Err(e) => Err(e)
    case Ok((plan, n)) => Ok(MatchingInt(rows, plan, n))
  }

  /** The selection handler with OP compared as the text it is; the split and
      the `int()` check, and so the errors, are unchanged. */
  function DrillDown(rows: seq<Row>, selected: string): Result<seq<Row>, DrillError> {
    match Pieces(selected)
    case Err(e) => Err(e)
    case Ok((plan, op)) =>
      if PyInt(op).None? then Err(IntError) else Ok(Matching(rows, plan, op))
  }

  // ----- What the counts promise -----

  /** Every counted pair was observed, with exactly its number of rows, and
      every observed pair is counted once. */
  lemma GroupsObserved(rows: seq<Row>)
    ensures forall g :: g in GroupCounts(rows) ==> g.count == Count(rows, g.key) && g.count >= 1
    ensures forall k :: Count(rows, k) > 0 ==> Group(k, Count(rows, k)) in GroupCounts(rows)
    ensures forall i, j :: 0 <= i < j < |GroupCounts(rows)| ==> GroupCounts(rows)[i].key != GroupCounts(rows)[j].key
  {
    var ks := Keys(rows);
    var gs := GroupCounts(rows);
    forall k | Count(rows, k) > 0
      ensures Group(k, Count(rows, k)) in gs
    {
      var i :| 0 <= i < |ks| && ks[i] == k;
      assert gs[i] == Group(k, Count(rows, k));
    }
  }

  /** A pair is observed exactly when some row carries it. */
  lemma {:induction false} CountObserved(rows: seq<Row>, k: Key)
    ensures Count(rows, k) > 0 <==> exists i :: 0 <= i < |rows| && KeyOf(rows[i]) == Some(k)
    decreases |rows|
  {
    if rows != [] {
      var init := rows[..|rows| - 1];
      CountObserved(init, k);
      if exists i :: 0 <= i < |init| && KeyOf(init[i]) == Some(k) {
        var i :| 0 <= i < |init| && KeyOf(init[i]) == Some(k);
        assert rows[i] == init[i];
      }
      if exists i :: 0 <= i < |rows| && KeyOf(rows[i]) == Some(k) {
        var i :| 0 <= i < |rows| && KeyOf(rows[i]) == Some(k);
        if i < |init| {
          assert init[i] == rows[i];
        }
      }
    }
  }

  /** The counts add up to the number of rows that have both a plan and an
      OP, which is at most the number of rows. */
  lemma {:induction false} GroupsSum(rows: seq<Row>)
    ensures Total(GroupCounts(rows)) == Keyed(rows) <= |rows|
    decreases |rows|
  {
    if rows != [] {
      var init, r := rows[..|rows| - 1], rows[|rows| - 1];
      var ks := Keys(init);
      Snoc(rows);
      GroupsSum(init);
      RowAdded(ks, init, r);
      var before := Total(GroupsOf(ks, rows));
      assert before == Keyed(init) + (if KeyOf(r).Some? && KeyOf(r).value in ks then 1 else 0);
      match KeyOf(r)
      case None =>
        assert Keys(rows) == ks;
      case Some(k) =>
        if k in ks {
          assert Keys(rows) == ks;
        } else {
          assert Keys(rows) == ks + [k];
          assert Count(init, k) == 0;
          GroupsAppend(ks, k, rows);
        }
    }
  }

  /** Counting one more row adds one to the total of the pairs of `ks` when
      its pair is among them. */
  lemma {:induction false} RowAdded(ks: seq<Key>, rows: seq<Row>, r: Row)
    requires DistinctKeys(ks)
    ensures Total(GroupsOf(ks, rows + [r])) ==
      Total(GroupsOf(ks, rows)) + (if KeyOf(r).Some? && KeyOf(r).value in ks then 1 else 0)
    decreases |ks|
  {
    if ks != [] {
      var init, k := ks[..|ks| - 1], ks[|ks| - 1];
      assert (rows + [r])[..|rows|] == rows;
      RowAdded(init, rows, r);
      assert GroupsOf(ks, rows + [r])[..|init|] == GroupsOf(init, rows + [r]);
      assert GroupsOf(ks, rows)[..|init|] == GroupsOf(init, rows);
      Snoc(ks);
      assert k !in init;
    }
  }

  /** A new pair adds its count to the total. */
  lemma GroupsAppend(ks: seq<Key>, k: Key, rows: seq<Row>)
    ensures Total(GroupsOf(ks + [k], rows)) == Total(GroupsOf(ks, rows)) + Count(rows, k)
  {
    assert (ks + [k])[..|ks|] == ks;
    assert GroupsOf(ks + [k], rows)[..|ks|] == GroupsOf(ks, rows);
  }

  // ----- What the sort promises -----

  /** Inserting adds `g` and loses nothing. */
  lemma {:induction false} InsertPerm(g: Group, gs: seq<Group>)
    ensures multiset(Insert(g, gs)) == multiset(gs) + multiset{g}
    decreases |gs|
  {
    if gs != [] && gs[0].count > g.count {
      InsertPerm(g, gs[1..]);
      assert gs == [gs[0]] + gs[1..];
    }
  }

  /** Inserting into a list of non-increasing counts keeps it so; the new
      first group is `g` or the old first. */
  lemma {:induction false} InsertSorted(g: Group, gs: seq<Group>)
    requires NonIncreasing(gs)
    ensures NonIncreasing(Insert(g, gs))
    ensures Insert(g, gs)[0] == g || (gs != [] && Insert(g, gs)[0] == gs[0])
    decreases |gs|
  {
    if gs != [] && gs[0].count > g.count {
      var rest := gs[1..];
      InsertSorted(g, rest);
      var r := Insert(g, gs);
      assert r == [gs[0]] + Insert(g, rest);
      forall i, j | 0 <= i < j < |r|
        ensures r[i].count >= r[j].count
      {
        if i == 0 {
          if j == 1 {
            assert r[1] == Insert(g, rest)[0];
          } else {
            assert r[j] == Insert(g, rest)[j - 1];
            assert Insert(g, rest)[0].count >= r[j].count;
            assert r[1] == Insert(g, rest)[0];
          }
        } else {
          assert r[i] == Insert(g, rest)[i - 1] && r[j] == Insert(g, rest)[j - 1];
        }
      }
    }
  }

  /** The sort is a permutation into non-increasing order of counts. */
  lemma {:induction false} SortDescSorted(gs: seq<Group>)
    ensures multiset(SortDesc(gs)) == multiset(gs)
    ensures NonIncreasing(SortDesc(gs))
    decreases |gs|
  {
    if gs != [] {
      SortDescSorted(gs[1..]);
      InsertPerm(gs[0], SortDesc(gs[1..]));
      InsertSorted(gs[0], SortDesc(gs[1..]));
      assert gs == [gs[0]] + gs[1..];
    }
  }

  // ----- What the ranking promises -----

  /** At most twenty bars, largest counts first, each an observed pair with
      its count, each pair once; a pair left out has no larger count than
      the smallest bar, and none is left out when fewer than twenty bars are
      shown. */
  lemma TopRanked(rows: seq<Row>)
    ensures |Top(rows)| <= TopN
    ensures NonIncreasing(Top(rows))
    ensures forall g :: g in Top(rows) ==> g.count == Count(rows, g.key) && g.count >= 1
    ensures forall i, j :: 0 <= i < j < |Top(rows)| ==> Top(rows)[i].key != Top(rows)[j].key
    ensures forall g :: g in GroupCounts(rows) && g !in Top(rows) ==>
      |Top(rows)| == TopN && g.count <= Top(rows)[TopN - 1].count
  {
    var gs := GroupCounts(rows);
    var sorted := SortDesc(gs);
    SortDescSorted(gs);
    GroupsObserved(rows);
    TopFromGroups(gs, sorted, rows);
    TopDistinct(gs, sorted, rows);
    TopMaximal(gs, sorted);
  }

  /** Every group of a permutation of the counts is a group of the counts. */
  lemma TopFromGroups(gs: seq<Group>, sorted: seq<Group>, rows: seq<Row>)
    requires multiset(sorted) == multiset(gs)
    requires forall g :: g in gs ==> g.count == Count(rows, g.key) && g.count >= 1
    ensures forall g :: g in Head(sorted, TopN) ==> g.count == Count(rows, g.key) && g.count >= 1
  {
    forall g | g in Head(sorted, TopN)
      ensures g in gs
    {
      assert g in multiset(sorted);
    }
  }

  /** A permutation of the counts repeats no pair. */
  lemma TopDistinct(gs: seq<Group>, sorted: seq<Group>, rows: seq<Row>)
    requires gs == GroupCounts(rows) && multiset(sorted) == multiset(gs)
    requires forall g :: g in gs ==> g.count == Count(rows, g.key)
    ensures forall i, j :: 0 <= i < j < |Head(sorted, TopN)| ==> Head(sorted, TopN)[i].key != Head(sorted, TopN)[j].key
  {
    var top := Head(sorted, TopN);
    forall i, j | 0 <= i < j < |top|
      ensures top[i].key != top[j].key
    {
      assert top[i] == sorted[i] && top[j] == sorted[j];
      assert top[i] in multiset(sorted) && top[j] in multiset(sorted);
      if top[i].key == top[j].key {
        SameKeySameGroup(gs, rows, top[i], top[j]);
        TwiceInSorted(sorted, i, j);
        OnceInDistinct(gs, rows, top[i]);
      }
    }
  }

  /** A group the first twenty of a sorted permutation leave out is behind
      all twenty, so no larger than the twentieth. */
  lemma TopMaximal(gs: seq<Group>, sorted: seq<Group>)
    requires multiset(sorted) == multiset(gs) && NonIncreasing(sorted)
    ensures forall g :: g in gs && g !in Head(sorted, TopN) ==>
      |Head(sorted, TopN)| == TopN && g.count <= Head(sorted, TopN)[TopN - 1].count
  {
    var top := Head(sorted, TopN);
    forall g | g in gs && g !in top
      ensures |top| == TopN && g.count <= top[TopN - 1].count
    {
      assert g in multiset(gs);
      assert g in sorted;
      var p :| 0 <= p < |sorted| && sorted[p] == g;
      if p < |top| {
        assert top[p] == g;
      }
    }
  }

  /** Two groups with the same pair are the same group. */
  lemma SameKeySameGroup(gs: seq<Group>, rows: seq<Row>, a: Group, b: Group)
    requires forall g :: g in gs ==> g.count == Count(rows, g.key)
    requires a in gs && b in gs && a.key == b.key
    ensures a == b
  {
  }

  /** An element at two places of a sequence occurs at least twice. */
  lemma TwiceInSorted(s: seq<Group>, i: nat, j: nat)
    requires i < j < |s| && s[i] == s[j]
    ensures multiset(s)[s[i]] >= 2
  {
    assert s == s[..j] + s[j..];
    assert s[i] in s[..j] && s[j] in s[j..];
  }

  /** In the counts each group occurs once. */
  lemma OnceInDistinct(gs: seq<Group>, rows: seq<Row>, g: Group)
    requires gs == GroupCounts(rows)
    ensures multiset(gs)[g] <= 1
  {
    GroupsObserved(rows);
    DistinctOnce(gs, g);
  }

  lemma {:induction false} DistinctOnce(gs: seq<Group>, g: Group)
    requires forall i, j :: 0 <= i < j < |gs| ==> gs[i].key != gs[j].key
    ensures multiset(gs)[g] <= 1
    decreases |gs|
  {
    if gs != [] {
      var init := gs[..|gs| - 1];
      Snoc(gs);
      DistinctOnce(init, g);
      if gs[|gs| - 1] == g {
        assert g !in init;
      }
    }
  }

  // ----- What the labels and the drill-down promise -----

  /** The plan text places no occurrence of the separator before the one
      the label puts after it. */
  predicate SepFree(plan: string) {
    forall i :: 0 <= i < |plan| ==> !LitAt(plan + Sep, i, Sep)
  }

  predicate DigitText(s: string) {
    |s| > 0 && AllDigits(s)
  }

  /** Splitting a bar label gives back its plan and OP exactly when the plan
      places no occurrence of `" - OP "` before the one the label adds;
      otherwise the handler reports an error. A plan that contains
      `" - OP "` splits into too many pieces; one that ends in `" - OP"`
      splits in the wrong place and leaves a piece `int()` refuses. */
  lemma {:induction false} LabelRoundTrip(k: Key)
    requires DigitText(k.op)
    ensures ParseSelection(Label(k)).Ok? <==> SepFree(k.plan)
    ensures SepFree(k.plan) ==> Pieces(Label(k)) == Ok((k.plan, k.op))
    ensures SepFree(k.plan) ==> ParseSelection(Label(k)) == Ok((k.plan, DigitsValue(k.op)))
  {
    NoSepInDigits(k.op);
    if SepFree(k.plan) {
      SplitPair(k.plan, Sep, k.op);
      DigitsInt(k.op);
    } else {
      var i :| 0 <= i < |k.plan| && LitAt(k.plan + Sep, i, Sep);
      LabelMisSplit(k, i);
    }
  }

  /** Digit text holds no `" - OP "`, whose first character is a space. */
  lemma NoSepInDigits(s: string)
    requires AllDigits(s)
    ensures !Contains(s, Sep)
  {
    forall i: nat | i <= |s|
      ensures !LitAt(s, i, Sep)
    {
      if i + |Sep| <= |s| {
        assert s[i..i + |Sep|][0] == s[i];
      }
    }
  }

  /** `int()` reads digit text as its value. */
  lemma DigitsInt(s: string)
    requires DigitText(s)
    ensures PyInt(s) == Some(DigitsValue(s))
  {
    assert !IsSpace(s[0]) && !IsSpace(s[|s| - 1]);
    assert Strip(s) == s;
  }

  /** A label whose plan places an occurrence of the separator at `i` fails
      to parse. */
  lemma LabelMisSplit(k: Key, i: nat)
    requires DigitText(k.op)
    requires i < |k.plan| && LitAt(k.plan + Sep, i, Sep)
    ensures ParseSelection(Label(k)).Err?
  {
    var s := Label(k);
    PrefixLit(k.plan + Sep, k.op, i, Sep);
    var j := FirstSep(s, i);
    var rest := s[j + |Sep|..];
    LitIn(k.plan, Sep, k.op);
    if j + |Sep| <= |k.plan| {
      LitShift(s, j + |Sep|, |k.plan|);
      SplitMore(rest);
    } else {
      SepOverlap(s, j, |k.plan|);
      OverlapRest(k, j);
      if |Split(rest, Sep)| == 1 {
        SplitJoin(rest, Sep);
        NotInt(rest);
      }
    }
  }

  /** The first occurrence of the separator, where `split` cuts first. */
  lemma FirstSep(s: string, i: nat) returns (j: nat)
    requires LitAt(s, i, Sep)
    ensures j <= i && LitAt(s, j, Sep) && j + |Sep| <= |s|
    ensures Split(s, Sep) == [s[..j]] + Split(s[j + |Sep|..], Sep)
  {
    var at := SepMatcher(s, Sep);
    assert at(i).Some?;
    var found := Search(|s|, 0, at);
    j := found.value.0;
  }

  /** An occurrence after `a` is one in `s[a..]`. */
  lemma LitShift(s: string, a: nat, b: nat)
    requires a <= b && LitAt(s, b, Sep)
    ensures LitAt(s[a..], b - a, Sep)
  {
    assert s[a..][b - a..b - a + |Sep|] == s[b..b + |Sep|];
  }

  /** What follows an occurrence that starts five characters before the
      separator the label adds. */
  lemma OverlapRest(k: Key, j: nat)
    requires DigitText(k.op) && j + 5 == |k.plan|
    ensures var rest := Label(k)[j + |Sep|..];
      |rest| > 2 && rest[0] == '-' && rest[1] == ' ' && IsDigit(rest[|rest| - 1])
  {
    var s := Label(k);
    assert s[j + |Sep|..] == Sep[1..] + k.op;
  }

  /** A text that holds the separator splits into at least two pieces. */
  lemma SplitMore(s: string)
    requires exists i: nat :: i <= |s| && LitAt(s, i, Sep)
    ensures |Split(s, Sep)| >= 2
  {
    var i: nat :| i <= |s| && LitAt(s, i, Sep);
    assert SepMatcher(s, Sep)(i).Some?;
  }

  /** `" - OP "` overlaps itself only in its one-space border: an
      occurrence that starts inside the plan but runs into the separator
      the label adds starts five characters before it. */
  lemma SepOverlap(s: string, j: nat, p: nat)
    requires j < p && p < j + |Sep| && p + |Sep| <= |s|
    requires LitAt(s, j, Sep) && LitAt(s, p, Sep)
    ensures j + 5 == p
  {
    var m := p - j;
    assert s[j + m] == Sep[m] && s[p] == Sep[0];
    assert s[j + 3] == Sep[3] && s[p + 1] == Sep[1];
  }

  /** `"- OP <digits>"` is not an integer. */
  lemma NotInt(s: string)
    requires |s| > 2 && s[0] == '-' && s[1] == ' ' && IsDigit(s[|s| - 1])
    ensures PyInt(s) == None
  {
    assert !IsSpace(s[0]) && !IsSpace(s[|s| - 1]);
    assert Strip(s) == s;
  }

  // ----- What the drill-down promises -----

  /** Every OP of the frame is the digit text the MMF cleaner extracts. */
  predicate OpsAreDigits(rows: seq<Row>) {
    forall i :: 0 <= i < |rows| && rows[i].op.Some? ==> DigitText(rows[i].op.value)
  }

  /** The rows matched by text are the rows of the frame carrying the pair,
      as many as the pair's count. */
  lemma {:induction false} MatchingCount(rows: seq<Row>, k: Key)
    ensures |Matching(rows, k.plan, k.op)| == Count(rows, k)
    ensures forall r :: r in Matching(rows, k.plan, k.op) ==> r in rows && KeyOf(r) == Some(k)
    decreases |rows|
  {
    if rows != [] {
      var init := rows[..|rows| - 1];
      MatchingCount(init, k);
      forall r | r in Matching(init, k.plan, k.op)
        ensures r in rows
      {
        var i :| 0 <= i < |init| && init[i] == r;
        assert rows[i] == r;
      }
    }
  }

  /** Comparing OP with an int matches no row at all. */
  lemma {:induction false} MatchingIntEmpty(rows: seq<Row>, plan: string, n: int)
    ensures MatchingInt(rows, plan, n) == []
    decreases |rows|
  {
    if rows != [] {
      MatchingIntEmpty(rows[..|rows| - 1], plan, n);
    }
  }

  /** The handler as written fails on exactly the selections the corrected
      one fails on, with the same error, and otherwise shows no rows. */
  lemma AsWrittenEmpty(rows: seq<Row>, selected: string)
    ensures DrillDownAsWritten(rows, selected).Ok? <==> DrillDown(rows, selected).Ok?
    ensures DrillDownAsWritten(rows, selected).Err? ==> DrillDownAsWritten(rows, selected) == DrillDown(rows, selected)
    ensures DrillDownAsWritten(rows, selected).Ok? ==> DrillDownAsWritten(rows, selected).value == []
  {
    if ParseSelection(selected).Ok? {
      MatchingIntEmpty(rows, ParseSelection(selected).value.0, ParseSelection(selected).value.1);
    }
  }

  /** Selecting a bar whose plan is separator-free: the corrected handler
      shows exactly the bar's rows, as many as the bar's height; the handler
      as written shows none. */
  lemma BarDrillDown(rows: seq<Row>, i: nat)
    requires OpsAreDigits(rows)
    requires i < |Top(rows)| && SepFree(Top(rows)[i].key.plan)
    ensures DrillDown(rows, PlanOp(Top(rows))[i]) == Ok(Matching(rows, Top(rows)[i].key.plan, Top(rows)[i].key.op))
    ensures |Matching(rows, Top(rows)[i].key.plan, Top(rows)[i].key.op)| == Top(rows)[i].count >= 1
    ensures forall r :: r in Matching(rows, Top(rows)[i].key.plan, Top(rows)[i].key.op) ==>
      r in rows && KeyOf(r) == Some(Top(rows)[i].key)
    ensures DrillDownAsWritten(rows, PlanOp(Top(rows))[i]) == Ok([])
  {
    var g := Top(rows)[i];
    TopRanked(rows);
    assert g in Top(rows);
    CountObserved(rows, g.key);
    var j :| 0 <= j < |rows| && KeyOf(rows[j]) == Some(g.key);
    assert DigitText(g.key.op);
    LabelRoundTrip(g.key);
    DigitsInt(g.key.op);
    MatchingCount(rows, g.key);
    AsWrittenEmpty(rows, Label(g.key));
  }

  /** One cleaned MMF row, plan `P1` and OP `12`: one bar of height one,
      which the handler as written drills down to no rows while the
      corrected one shows the row. */
  lemma DrillDownExample()
    ensures Top([Row(Some("P1"), Some("12"))]) == [Group(Key("P1", "12"), 1)]
    ensures PlanOp(Top([Row(Some("P1"), Some("12"))])) == ["P1 - OP 12"]
    ensures DrillDownAsWritten([Row(Some("P1"), Some("12"))], "P1 - OP 12") == Ok([])
    ensures DrillDown([Row(Some("P1"), Some("12"))], "P1 - OP 12") == Ok([Row(Some("P1"), Some("12"))])
  {
    var rows := [Row(Some("P1"), Some("12"))];
    var k := Key("P1", "12");
    ExampleCounts(rows, k);
    ExampleSepFree(k.plan);
    assert Label(k) == "P1 - OP 12";
    assert OpsAreDigits(rows);
    BarDrillDown(rows, 0);
  }

  /** The counts of a one-row frame. */
  lemma ExampleCounts(rows: seq<Row>, k: Key)
    requires rows == [Row(Some(k.plan), Some(k.op))]
    ensures Top(rows) == [Group(k, 1)]
    ensures Matching(rows, k.plan, k.op) == rows
  {
    ExampleGroups(rows, k);
    SingleTop(rows, Group(k, 1));
  }

  lemma ExampleGroups(rows: seq<Row>, k: Key)
    requires rows == [Row(Some(k.plan), Some(k.op))]
    ensures GroupCounts(rows) == [Group(k, 1)]
    ensures Matching(rows, k.plan, k.op) == rows
  {
    assert rows[..0] == [];
    assert KeyOf(rows[0]) == Some(k);
    assert Keys(rows[..0]) == [];
    assert Keys(rows) == [k];
    assert Matching(rows[..0], k.plan, k.op) == [];
    assert Count(rows[..0], k) == 0;
    assert Count(rows, k) == 1;
    assert GroupCounts(rows)[0] == Group(k, 1);
  }

  lemma SingleTop(rows: seq<Row>, g: Group)
    requires GroupCounts(rows) == [g]
    ensures Top(rows) == [g]
  {
    var gs := GroupCounts(rows);
    assert gs[1..] == [];
    assert SortDesc(gs) == Insert(g, []);
  }

  /** `P1` holds no space, so no separator starts inside it. */
  lemma ExampleSepFree(plan: string)
    requires plan == "P1"
    ensures SepFree(plan)
  {
    forall i | 0 <= i < |plan|
      ensures !LitAt(plan + Sep, i, Sep)
    {
      assert (plan + Sep)[i] != ' ';
      if i + |Sep| <= |plan + Sep| {
        assert (plan + Sep)[i..i + |Sep|][0] == (plan + Sep)[i];
      }
    }
  }
}
