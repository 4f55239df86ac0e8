/** The `ranked_ships` sub-query of the ship-release statement and its
    `r.rn = 1` filter (misc/data_utils.py:22-31, 52; Home.py:69-78, 99):
    `ROW_NUMBER() OVER (PARTITION BY s.release_no ORDER BY s.lot_no)` numbers
    the ship rows of each release 1, 2, ... in lot order, and only the rows
    numbered 1 are joined to the log. Oracle numbers rows with equal lot
    numbers in no particular order, so the model states what holds for every
    numbering it may choose. */
module Ships {

  datatype Ship = Ship(release: string, lot: int, serial: string, resourceNo: string, resourceType: string)

  /** The positions of the rows of release `rel`. */
  function Partition(rows: seq<Ship>, rel: string): set<nat> {
    set i: nat | i < |rows| && rows[i].release == rel
  }

  /** `rn` is a numbering ROW_NUMBER may produce: within each release the
      numbers are distinct, run from 1 to the size of the release, and never
      put a higher lot number before a lower one. */
  predicate RowNumbering(rows: seq<Ship>, rn: seq<int>) {
    && |rn| == |rows|
    && (forall i :: 0 <= i < |rows| ==> 1 <= rn[i] <= |Partition(rows, rows[i].release)|)
    && (forall i, j :: 0 <= i < |rows| && 0 <= j < |rows| && i != j && rows[i].release == rows[j].release
          ==> rn[i] != rn[j])
    && (forall i, j :: 0 <= i < |rows| && 0 <= j < |rows| && rows[i].release == rows[j].release && rn[i] < rn[j]
          ==> rows[i].lot <= rows[j].lot)
  }

  /** `WHERE r.rn = 1`: the positions of the ship rows numbered first. */
  function Kept(rows: seq<Ship>, rn: seq<int>): set<nat>
    requires |rn| == |rows|
  {
    set i: nat | i < |rows| && rn[i] == 1
  }

  /** The row numbered first in a release has that release's least lot
      number. */
  lemma FirstHasLeastLot(rows: seq<Ship>, rn: seq<int>, i: nat)
    requires RowNumbering(rows, rn) && i < |rows| && rn[i] == 1
    ensures forall j :: 0 <= j < |rows| && rows[j].release == rows[i].release ==> rows[i].lot <= rows[j].lot
  {
    forall j | 0 <= j < |rows| && rows[j].release == rows[i].release
      ensures rows[i].lot <= rows[j].lot
    {
      if j != i {
        assert rn[j] != 1;
      }
    }
  }

  /** No release has two rows numbered first. */
  lemma FirstIsUnique(rows: seq<Ship>, rn: seq<int>, i: nat, j: nat)
    requires RowNumbering(rows, rn) && i < |rows| && j < |rows|
    requires rn[i] == 1 && rn[j] == 1 && rows[i].release == rows[j].release
    ensures i == j
  {
  }

  /** Every release that has ship rows has one numbered first. */
  lemma FirstExists(rows: seq<Ship>, rn: seq<int>, i: nat)
    requires RowNumbering(rows, rn) && i < |rows|
    ensures exists j :: 0 <= j < |rows| && rows[j].release == rows[i].release && rn[j] == 1
  {
    var rel := rows[i].release;
    var p := Partition(rows, rel);
    if forall j :: 0 <= j < |rows| && rows[j].release == rel ==> rn[j] != 1 {
      var range := Range(2, |p| + 1);
      forall j | j in p ensures rn[j] in range {
        assert rn[j] != 1;
      }
      InjectionSize(p, rn, range);
      assert false;
    }
  }

  /** What the join sees: a release has a kept ship row exactly when it has
      ship rows at all, never more than one, and the kept row carries the
      release's least lot number. */
  lemma KeptPerRelease(rows: seq<Ship>, rn: seq<int>, rel: string)
    requires RowNumbering(rows, rn)
    ensures (exists i :: 0 <= i < |rows| && rows[i].release == rel)
      <==> (exists i :: i in Kept(rows, rn) && rows[i].release == rel)
    ensures forall i, j :: i in Kept(rows, rn) && j in Kept(rows, rn) && rows[i].release == rel && rows[j].release == rel
              ==> i == j
    ensures forall i, j :: i in Kept(rows, rn) && rows[i].release == rel && 0 <= j < |rows| && rows[j].release == rel
              ==> rows[i].lot <= rows[j].lot
  {
    KeptExists(rows, rn, rel);
    KeptOnce(rows, rn, rel);
    KeptLeast(rows, rn, rel);
  }

  lemma KeptExists(rows: seq<Ship>, rn: seq<int>, rel: string)
    requires RowNumbering(rows, rn)
    ensures (exists i :: 0 <= i < |rows| && rows[i].release == rel)
      <==> (exists i :: i in Kept(rows, rn) && rows[i].release == rel)
  {
    if exists i :: 0 <= i < |rows| && rows[i].release == rel {
      var i :| 0 <= i < |rows| && rows[i].release == rel;
      FirstExists(rows, rn, i);
      var j :| 0 <= j < |rows| && rows[j].release == rel && rn[j] == 1;
      assert j in Kept(rows, rn);
    }
  }

  lemma KeptOnce(rows: seq<Ship>, rn: seq<int>, rel: string)
    requires RowNumbering(rows, rn)
    ensures forall i, j :: i in Kept(rows, rn) && j in Kept(rows, rn) && rows[i].release == rel && rows[j].release == rel
              ==> i == j
  {
    forall i, j | i in Kept(rows, rn) && j in Kept(rows, rn) && rows[i].release == rel && rows[j].release == rel
      ensures i == j
    {
      FirstIsUnique(rows, rn, i, j);
    }
  }

  lemma KeptLeast(rows: seq<Ship>, rn: seq<int>, rel: string)
    requires RowNumbering(rows, rn)
    ensures forall i, j :: i in Kept(rows, rn) && rows[i].release == rel && 0 <= j < |rows| && rows[j].release == rel
              ==> rows[i].lot <= rows[j].lot
  {
    forall i | i in Kept(rows, rn) && rows[i].release == rel
      ensures forall j :: 0 <= j < |rows| && rows[j].release == rel ==> rows[i].lot <= rows[j].lot
    {
      FirstHasLeastLot(rows, rn, i);
    }
  }

  /** A map that is one-to-one on `a` and sends it into `b` needs `b` at
      least as large as `a`. */
  lemma {:induction false} InjectionSize(a: set<nat>, f: seq<int>, b: set<int>)
    requires forall x :: x in a ==> x < |f| && f[x] in b
    requires forall x, y :: x in a && y in a && f[x] == f[y] ==> x == y
    ensures |a| <= |b|
    decreases |a|
  {
    if a != {} {
      var x :| x in a;
      InjectionSize(a - {x}, f, b - {f[x]});
    }
  }

  /** The integers from `lo` up to but excluding `hi`. */
  function Range(lo: int, hi: int): (r: set<int>)
    ensures forall x :: x in r <==> lo <= x < hi
    ensures lo <= hi ==> |r| == hi - lo
    decreases hi - lo
  {
    if lo >= hi then {} else {lo} + Range(lo + 1, hi)
  }

  // ----- A numbering Oracle may produce -----

  /** Row `j` comes before row `i` of the same release when its lot number
      is lower, or equal and it is earlier in the input. */
  predicate Ahead(rows: seq<Ship>, j: nat, i: nat)
    requires j < |rows| && i < |rows|
  {
    rows[j].release == rows[i].release
    && (rows[j].lot < rows[i].lot || (rows[j].lot == rows[i].lot && j < i))
  }

  function AheadOf(rows: seq<Ship>, i: nat): set<nat>
    requires i < |rows|
  {
    set j: nat | j < |rows| && Ahead(rows, j, i)
  }

  /** Numbering each row one more than the rows ahead of it. */
  function Numbering(rows: seq<Ship>): (rn: seq<int>)
    ensures |rn| == |rows|
  {
    seq(|rows|, i requires 0 <= i < |rows| => 1 + |AheadOf(rows, i)|)
  }

  /** The numbering that breaks lot ties by input order is one ROW_NUMBER may
      produce, so the rule above constrains real results. */
  lemma NumberingIsRowNumbering(rows: seq<Ship>)
    ensures RowNumbering(rows, Numbering(rows))
  {
    var rn := Numbering(rows);
    forall i | 0 <= i < |rows|
      ensures 1 <= rn[i] <= |Partition(rows, rows[i].release)|
    {
      var p := Partition(rows, rows[i].release);
      assert AheadOf(rows, i) <= p - {i};
      SubsetSize(AheadOf(rows, i), p - {i});
    }
    forall i, j | 0 <= i < |rows| && 0 <= j < |rows| && i != j && rows[i].release == rows[j].release
      ensures rn[i] != rn[j]
    {
      if Ahead(rows, j, i) {
        AheadSmaller(rows, j, i);
      } else {
        AheadSmaller(rows, i, j);
      }
    }
    forall i, j | 0 <= i < |rows| && 0 <= j < |rows| && rows[i].release == rows[j].release && rn[i] < rn[j]
      ensures rows[i].lot <= rows[j].lot
    {
      if rows[j].lot < rows[i].lot {
        AheadSmaller(rows, j, i);
      }
    }
  }

  /** A row ahead of another has a smaller number. */
  lemma AheadSmaller(rows: seq<Ship>, j: nat, i: nat)
    requires j < |rows| && i < |rows| && Ahead(rows, j, i)
    ensures |AheadOf(rows, j)| < |AheadOf(rows, i)|
  {
    assert AheadOf(rows, j) <= AheadOf(rows, i) - {j};
    SubsetSize(AheadOf(rows, j), AheadOf(rows, i) - {j});
  }

  lemma SubsetSize(a: set<nat>, b: set<nat>)
    requires a <= b
    ensures |a| <= |b|
  {
    assert b == a + (b - a);
  }
}
