/** The part of a pandas DataFrame the normalisers touch: named columns of
    equal length, kept in insertion order. Assigning to `df[name]` replaces a
    column in place or appends a new one at the end; `drop(columns=...)`
    refuses the whole call when any label is missing. The same operations
    appear twice: as functions on the value `Table`, which the lemmas speak
    about, and as methods of the mutable `Frame`, which update its fields in
    place and are proved to agree with the functions. */
module Frames {
  import opened Text
  import opened Calendar

  /** A cell: text, a whole number, a timestamp, or missing (`None`, `NaN`,
      `NaT`). */
  datatype Value = Null | Str(text: string) | Num(n: int) | Stamp(t: DateTime)

  datatype FrameError =
    | KeyError(name: string)      // a column label that is not there
    | CastError(name: string)     // `astype(int)` met a missing or too large value
    | ParseError(name: string)    // `pd.to_datetime` met a text it cannot read

  datatype Table = Table(names: seq<string>, cols: map<string, seq<Value>>, height: nat)

  predicate Distinct(names: seq<string>) {
    forall i, j :: 0 <= i < j < |names| ==> names[i] != names[j]
  }

  /** Every label names one column, every column has a label, and all
      columns are as long as the frame. */
  predicate WellFormed(t: Table) {
    && Distinct(t.names)
    && t.cols.Keys == (set n | n in t.names)
    && (forall n :: n in t.cols ==> |t.cols[n]| == t.height)
  }

  /** `df[name] = col`. */
  function SetColumn(t: Table, name: string, col: seq<Value>): (r: Table)
    ensures r.height == t.height && name in r.cols && r.cols[name] == col
    ensures forall n :: n in r.cols <==> n in t.cols || n == name
    ensures forall n :: n in t.cols && n != name ==> r.cols[n] == t.cols[n]
    ensures name in t.cols ==> r.names == t.names
    ensures name !in t.cols ==> r.names == t.names + [name]
  {
    Table(if name in t.cols then t.names else t.names + [name], t.cols[name := col], t.height)
  }

  /** The labels of `names` that are not in `gone`, in order. */
  function Without(names: seq<string>, gone: set<string>): (r: seq<string>)
    ensures forall n :: n in r <==> n in names && n !in gone
    ensures |r| <= |names|
  {
    if names == [] then []
    else (if names[0] in gone then [] else [names[0]]) + Without(names[1..], gone)
  }

  /** The first label of `labels` the table does not have. */
  function FirstMissing(t: Table, labels: seq<string>): (r: Option<string>)
    ensures r.Some? <==> exists n :: n in labels && n !in t.cols
    ensures r.Some? ==> r.value in labels && r.value !in t.cols
  {
    if labels == [] then None
    else if labels[0] !in t.cols then Some(labels[0])
    else FirstMissing(t, labels[1..])
  }

  /** `df.drop(columns=labels)`. */
  function DropColumns(t: Table, labels: seq<string>): (r: Result<Table, FrameError>)
  {
    match FirstMissing(t, labels)
    case Some(n) => Err(KeyError(n))
    case None => Ok(Remove(t, set n | n in labels))
  }

  /** The table without the columns in `gone`. */
  function Remove(t: Table, gone: set<string>): (r: Table)
    ensures r.height == t.height && r.names == Without(t.names, gone)
    ensures forall n :: n in r.cols <==> n in t.cols && n !in gone
    ensures forall n :: n in r.cols ==> r.cols[n] == t.cols[n]
  {
    Table(Without(t.names, gone), t.cols - gone, t.height)
  }

  /** Assigning a column of the frame's height keeps the table well formed. */
  lemma SetColumnKeeps(t: Table, name: string, col: seq<Value>)
    requires WellFormed(t) && |col| == t.height
    ensures WellFormed(SetColumn(t, name, col))
  {
  }

  /** Removing columns keeps the table well formed. */
  lemma RemoveKeeps(t: Table, gone: set<string>)
    requires WellFormed(t)
    ensures WellFormed(Remove(t, gone))
  {
    WithoutDistinct(t.names, gone);
  }

  /** `df[labels]` as a check: it fails on the first missing label. The
      normalisers only read such a selection back after a representation
      cast, which changes no value. */
  function Require(t: Table, labels: seq<string>): (r: Result<(), FrameError>)
    ensures r.Ok? <==> forall n :: n in labels ==> n in t.cols
  {
    match FirstMissing(t, labels)
    case Some(n) => Err(KeyError(n))
    case None => Ok(())
  }

  // ----- What the table operations keep -----

  lemma {:induction false} WithoutDistinct(names: seq<string>, gone: set<string>)
    ensures Distinct(names) ==> Distinct(Without(names, gone))
    decreases |names|
  {
    if names != [] && Distinct(names) {
      assert Distinct(names[1..]);
      WithoutDistinct(names[1..], gone);
      var rest := Without(names[1..], gone);
      forall n | n in rest
        ensures n != names[0]
      {
        assert n in names[1..];
      }
    }
  }

  /** Filtering a concatenation filters each part. */
  lemma {:induction false} WithoutAppend(a: seq<string>, b: seq<string>, gone: set<string>)
    ensures Without(a + b, gone) == Without(a, gone) + Without(b, gone)
    decreases |a|
  {
    if a != [] {
      assert (a + b)[1..] == a[1..] + b;
      WithoutAppend(a[1..], b, gone);
    } else {
      assert a + b == b;
    }
  }

  /** Filtering out labels that do not occur changes nothing. */
  lemma {:induction false} WithoutNone(names: seq<string>, gone: set<string>)
    requires forall i :: 0 <= i < |names| ==> names[i] !in gone
    ensures Without(names, gone) == names
    decreases |names|
  {
    if names != [] {
      WithoutNone(names[1..], gone);
    }
  }

  /** Dropping the second of two labels leaves the first. */
  lemma WithoutLast(a: string, g: string)
    requires a != g
    ensures Without([a, g], {g}) == [a]
  {
    assert [a, g][1..] == [g];
    assert Without([g], {g}) == [];
  }

  lemma PrependFour(a: string, b: string, c: string, d: string, e: string)
    ensures [a] + [b, c, d, e] == [a, b, c, d, e]
  {
  }

  /** Assigning a column its own contents changes nothing. */
  lemma SetSame(t: Table, name: string)
    requires name in t.cols
    ensures SetColumn(t, name, t.cols[name]) == t
  {
    assert t.cols[name := t.cols[name]] == t.cols;
  }

  /** Dropping columns keeps the table well formed, removes exactly the
      dropped labels and fails exactly when one of them is missing. */
  lemma DropColumnsKeeps(t: Table, labels: seq<string>)
    requires WellFormed(t)
    ensures DropColumns(t, labels).Ok? <==> forall n :: n in labels ==> n in t.cols
    ensures DropColumns(t, labels).Err? ==> DropColumns(t, labels).error.KeyError?
    ensures DropColumns(t, labels).Ok? ==>
      var r := DropColumns(t, labels).value;
      && WellFormed(r) && r.height == t.height
      && (forall n :: n in r.cols <==> n in t.cols && n !in labels)
      && (forall n :: n in r.cols ==> r.cols[n] == t.cols[n])
  {
    if forall n :: n in labels ==> n in t.cols {
      RemoveKeeps(t, set n | n in labels);
    }
  }

  /** Dropping labels that are all there removes exactly them. */
  lemma DropPresent(t: Table, labels: seq<string>)
    requires WellFormed(t) && forall n :: n in labels ==> n in t.cols
    ensures DropColumns(t, labels) == Ok(Remove(t, set n | n in labels))
  {
  }

  /** Assigning column `a` again after three other columns gives the frame
      that assigning the final value first would have given. */
  lemma Reassigned(t: Table, a: string, x: seq<Value>, y: seq<Value>,
                   b: string, cb: seq<Value>, c: string, cc: seq<Value>, d: string, cd: seq<Value>)
    requires a != b && a != c && a != d
    ensures SetColumn(SetColumn(SetColumn(SetColumn(SetColumn(t, a, x), b, cb), c, cc), d, cd), a, y)
         == SetColumn(SetColumn(SetColumn(SetColumn(t, a, y), b, cb), c, cc), d, cd)
  {
    var l := SetColumn(SetColumn(SetColumn(SetColumn(SetColumn(t, a, x), b, cb), c, cc), d, cd), a, y);
    var r := SetColumn(SetColumn(SetColumn(SetColumn(t, a, y), b, cb), c, cc), d, cd);
    assert l.cols == r.cols;
  }

  /** Four new columns are appended in the order they are assigned. */
  lemma AssignedLast(t: Table, a: string, ca: seq<Value>, b: string, cb: seq<Value>,
                     c: string, cc: seq<Value>, d: string, cd: seq<Value>)
    requires a !in t.cols && b !in t.cols && c !in t.cols && d !in t.cols
    requires a != b && a != c && a != d && b != c && b != d && c != d
    ensures SetColumn(SetColumn(SetColumn(SetColumn(t, a, ca), b, cb), c, cc), d, cd).names == t.names + [a, b, c, d]
  {
  }

  /** Appending four new columns and then dropping another leaves the
      surviving old columns first and the four new ones last, in order. */
  lemma AssignedThenRemoved(t: Table, a: string, ca: seq<Value>, b: string, cb: seq<Value>,
                            c: string, cc: seq<Value>, d: string, cd: seq<Value>, g: string)
    requires a !in t.cols && b !in t.cols && c !in t.cols && d !in t.cols
    requires a != b && a != c && a != d && b != c && b != d && c != d
    requires g != a && g != b && g != c && g != d
    ensures Remove(SetColumn(SetColumn(SetColumn(SetColumn(t, a, ca), b, cb), c, cc), d, cd), {g}).names
         == Without(t.names, {g}) + [a, b, c, d]
  {
    AssignedLast(t, a, ca, b, cb, c, cc, d, cd);
    RemovedAfter(SetColumn(SetColumn(SetColumn(SetColumn(t, a, ca), b, cb), c, cc), d, cd), t.names, [a, b, c, d], g);
  }

  /** Dropping a label that is not among the trailing ones keeps them last. */
  lemma RemovedAfter(t: Table, front: seq<string>, back: seq<string>, g: string)
    requires t.names == front + back
    requires forall i :: 0 <= i < |back| ==> back[i] != g
    ensures Remove(t, {g}).names == Without(front, {g}) + back
  {
    WithoutAppend(front, back, {g});
    WithoutNone(back, {g});
  }

  /** The label set of a one- or two-label `columns=` list. */
  /** Dropping one label the table has removes just that column. */
  lemma DropOne(t: Table, a: string)
    requires a in t.cols
    ensures DropColumns(t, [a]) == Ok(Remove(t, {a}))
  {
    LabelSet(a, a);
  }

  lemma LabelSet(a: string, b: string)
    ensures (set n | n in [a]) == {a}
    ensures (set n | n in [a, b]) == {a, b}
  {
  }

  // ----- The mutable frame -----

  /** A DataFrame object that the normalisers change in place. */
  class Frame {
    var names: seq<string>
    var cols: map<string, seq<Value>>
    var height: nat

    /** What the frame holds right now. */
    function Snapshot(): Table
      reads this
    {
      Table(names, cols, height)
    }

    predicate Valid()
      reads this
    {
      WellFormed(Snapshot())
    }

    constructor (t: Table)
      requires WellFormed(t)
      ensures Snapshot() == t && Valid()
    {
      names := t.names;
      cols := t.cols;
      height := t.height;
    }

    /** `df[name]`, or nothing when there is no such column. */
    function Column(name: string): (c: Option<seq<Value>>)
      reads this
      ensures c.Some? <==> name in cols
      ensures c.Some? ==> c.value == cols[name]
    {
      if name in cols then Some(cols[name]) else None
    }

    /** `df[name] = col`. */
    method Assign(name: string, col: seq<Value>)
      requires Valid() && |col| == height
      modifies this
      ensures Snapshot() == SetColumn(old(Snapshot()), name, col)
      ensures Valid()
    {
      if name !in cols {
        names := names + [name];
      }
      cols := cols[name := col];
      SetColumnKeeps(old(Snapshot()), name, col);
    }

    /** `df.drop(columns=labels, inplace=True)`: nothing changes when a label
      is missing. */
    method Drop(labels: seq<string>) returns (r: Result<(), FrameError>)
      requires Valid()
      modifies this
      ensures var d := DropColumns(old(Snapshot()), labels);
        && (d.Ok? ==> r == Ok(()) && Snapshot() == d.value)
        && (d.Err? ==> r == Err(d.error) && Snapshot() == old(Snapshot()))
      ensures Valid()
    {
      DropColumnsKeeps(Snapshot(), labels);
      var d := DropColumns(Snapshot(), labels);
      if d.Ok? { RemoveKeeps(Snapshot(), set n | n in labels); }
      if d.Err? {
        return Err(d.error);
      }
      names, cols := d.value.names, d.value.cols;
      return Ok(());
    }
  }

  /** `df.drop(columns=labels)` without `inplace`: a new frame, the old one
      untouched. */
  method Dropped(f: Frame, labels: seq<string>) returns (r: Result<Frame, FrameError>)
    requires f.Valid()
    ensures var d := DropColumns(f.Snapshot(), labels);
      && (d.Ok? <==> r.Ok?)
      && (d.Ok? ==> fresh(r.value) && r.value.Snapshot() == d.value && r.value.Valid())
      && (d.Err? ==> r == Err(d.error))
  {
    DropColumnsKeeps(f.Snapshot(), labels);
    var d := DropColumns(f.Snapshot(), labels);
    if d.Err? {
      return Err(d.error);
    }
    var g := new Frame(d.value);
    return Ok(g);
  }
}
