/** The record normalisers (misc/data_utils.py:76-111) and the older script
    block that does the same work (misc/test.py:97-139). Each takes the frame
    a query returned and changes it in place: it adds columns parsed out of
    the free-text ones, drops the free-text columns and retypes the rest. An
    exception stops the normaliser where it is raised, so the frame keeps the
    changes made before it; the outcome functions below say what the frame
    holds afterwards and whether the call raised. The casts to `category` and
    `object` change representation only: they are modelled as the lookup
    they perform, which raises `KeyError` on a missing column. */
module Cleaning {
  import opened Text
  import opened Calendar
  import opened Patterns
  import opened Frames

  datatype Outcome = Outcome(table: Table, status: Result<(), FrameError>)

  // ----- Cell conversions -----

  /** `Series.str.extract` with a one-group pattern: the scanner's capture for
      a text cell, missing for a non-text or missing cell or when the pattern
      does not match. */
  function Found(v: Value, scan: string -> Option<string>): Value {
    match v
    case Str(s) => (match scan(s) case Some(x) => Str(x) case None => Null)
    case _ => Null
  }

  function Extract(col: seq<Value>, scan: string -> Option<string>): (r: seq<Value>)
    ensures |r| == |col|
    ensures forall i :: 0 <= i < |col| ==> r[i] == Found(col[i], scan)
  {
    seq(|col|, i requires 0 <= i < |col| => Found(col[i], scan))
  }

  /** The largest value `astype(int)` can hold: a signed 64-bit integer. */
  const IntMax: int := 0x7FFF_FFFF_FFFF_FFFF

  /** `astype(int)` of one cell: decimal text or a number within 64 bits;
      a missing value cannot be converted. */
  function IntCell(v: Value): Option<int> {
    match v
    case Str(d) => if |d| > 0 && AllDigits(d) && DigitsValue(d) <= IntMax then Some(DigitsValue(d)) else None
    case Num(n) => if -IntMax - 1 <= n <= IntMax then Some(n) else None
    case _ => None
  }

  /** `astype(int)` of a column: every cell converts, or the call raises. */
  function AsInt(col: seq<Value>, name: string): (r: Result<seq<Value>, FrameError>)
    ensures r.Ok? <==> forall i :: 0 <= i < |col| ==> IntCell(col[i]).Some?
    ensures r.Ok? ==> |r.value| == |col| && forall i :: 0 <= i < |col| ==> r.value[i] == Num(IntCell(col[i]).value)
    ensures r.Err? ==> r.error == CastError(name)
  {
    if forall i :: 0 <= i < |col| ==> IntCell(col[i]).Some?
    then Ok(seq(|col|, i requires 0 <= i < |col| => Num(IntCell(col[i]).value)))
    else Err(CastError(name))
  }

  /** `pd.to_numeric` of one cell that `str.extract` produced: digit text
      becomes its number, a missing value stays missing. */
  function Numeric(v: Value): Value {
    match v
    case Str(d) => if |d| > 0 && AllDigits(d) then Num(DigitsValue(d)) else v
    case _ => v
  }

  function NumericColumn(col: seq<Value>): (r: seq<Value>)
    ensures |r| == |col| && forall i :: 0 <= i < |col| ==> r[i] == Numeric(col[i])
  {
    seq(|col|, i requires 0 <= i < |col| => Numeric(col[i]))
  }

  /** `pd.to_datetime` of one cell: the `TO_CHAR` text the queries produce,
      a timestamp already converted, or a missing value. */
  function StampCell(v: Value): Option<Value> {
    match v
    case Str(s) => (match ParseStamp(s) case Some(t) => Some(Stamp(t)) case None => None)
    case Stamp(t) => Some(v)
    case Null => Some(Null)
    case Num(_) => None
  }

  /** `pd.to_datetime` of a whole column: every cell converts, or the call
      raises. */
  function StampColumn(col: seq<Value>): (r: Option<seq<Value>>)
    ensures r.Some? <==> forall i :: 0 <= i < |col| ==> StampCell(col[i]).Some?
    ensures r.Some? ==> |r.value| == |col| && forall i :: 0 <= i < |col| ==> r.value[i] == StampCell(col[i]).value
  {
    if forall i :: 0 <= i < |col| ==> StampCell(col[i]).Some?
    then Some(seq(|col|, i requires 0 <= i < |col| => StampCell(col[i]).value))
    else None
  }

  /** `df[[name]] = df[[name]].apply(pd.to_datetime, format="mixed")`. */
  function ConvertStamps(t: Table, name: string): (r: Result<Table, FrameError>)
  {
    if name !in t.cols then Err(KeyError(name))
    else
      match StampColumn(t.cols[name])
      case None => Err(ParseError(name))
      case Some(c) => Ok(SetColumn(t, name, c))
  }

  // ----- Scanners as the normalisers apply them -----

  function RelScan(): string -> Option<string> { s => TagNumber(s, RelTag) }
  function AcceptedScan(): string -> Option<string> { s => TagNumber(s, AcceptedTag) }
  function OutOfScan(): string -> Option<string> { s => TagNumber(s, OutOfTag) }
  function ProgramScan(): string -> Option<string> { s => Program(s) }
  function OpScan(): string -> Option<string> { s => LeadingDigits(s) }
  function OpDescScan(): string -> Option<string> { s => OpDesc(s) }

  /** The `k`-th group of the feature pattern. */
  function FeatureScan(k: nat): string -> Option<string>
    requires k < 4
  {
    s => match Features(s) case Some(v) => Some(v[k]) case None => None
  }

  // ----- Column lists -----

  const IACategories: seq<string> :=
    ["PROCESS_PLAN_ID", "INSPECT_TYPE", "INSPECTION_ID", "SERIAL_NO", "INSP_EMP_ID", "PART_PROGRAM"]
  const IBCategories: seq<string> := ["RECORD_USER", "RELEASE_NUMBER", "PROGRAM"]
  const MMFCategories: seq<string> :=
    ["PROCESS_PLAN_ID", "PROCESS_STEP_ID", "LOT_NO", "SERIAL_NO", "ACCEPT_EMP_ID", "CURRENT_PART_PROGRAM", "OP"]
  const FeatureNames: seq<string> := ["VANE", "LOOP_CNT", "REQD_FEATURES", "TOTAL"]
  const IBAdded: seq<string> := ["RELEASE_NUMBER", "ACCEPTED", "TOTAL", "PROGRAM"]

  // ----- clean_df_IA -----

  /** What `clean_df_IA` leaves in the frame and whether it raised. */
  function IAOutcome(t: Table): Outcome
  {
    Retype(t, IACategories, ["ACCEPT_COMMENT"])
  }

  /** The closing casts both IA and MMF make: `category` on `cats`,
      `pd.to_datetime` on DATE_TIME, `object` on `objects`. */
  function Retype(t: Table, cats: seq<string>, objects: seq<string>): Outcome
  {
    match Require(t, cats)
    case Err(e) => Outcome(t, Err(e))
    case Ok(_) =>
      match ConvertStamps(t, "DATE_TIME")
      case Err(e) => Outcome(t, Err(e))
      case Ok(t1) => Outcome(t1, Require(t1, objects))
  }

  // ----- clean_df_IB -----

  /** What `clean_df_IB` leaves in the frame and whether it raised. */
  function IBOutcome(t: Table): Outcome
  {
    if "LOG_COMMENT" !in t.cols then Outcome(t, Err(KeyError("LOG_COMMENT")))
    else
      var c := t.cols["LOG_COMMENT"];
      match AsInt(Extract(c, RelScan()), "RELEASE_NUMBER")
      case Err(e) => Outcome(t, Err(e))
      case Ok(rel) =>
        var t1 := SetColumn(t, "RELEASE_NUMBER", rel);
        match AsInt(Extract(c, AcceptedScan()), "ACCEPTED")
        case Err(e) => Outcome(t1, Err(e))
        case Ok(acc) =>
          var t2 := SetColumn(t1, "ACCEPTED", acc);
          match AsInt(Extract(c, OutOfScan()), "TOTAL")
          case Err(e) => Outcome(t2, Err(e))
          case Ok(tot) =>
            var t5 := IBStored(t, rel, acc, tot);
            Outcome(t5, Require(t5, IBCategories))
  }

  /** The frame once all four columns are stored and LOG_COMMENT is gone. */
  function IBStored(t: Table, rel: seq<Value>, acc: seq<Value>, tot: seq<Value>): (r: Table)
    requires "LOG_COMMENT" in t.cols
    ensures r.height == t.height
    ensures forall n :: n in r.cols <==> (n in t.cols || n in IBAdded) && n != "LOG_COMMENT"
    ensures forall n :: n in t.cols && n !in IBAdded && n != "LOG_COMMENT" ==> r.cols[n] == t.cols[n]
    ensures "RELEASE_NUMBER" in r.cols && "ACCEPTED" in r.cols && "TOTAL" in r.cols && "PROGRAM" in r.cols
    ensures r.cols["RELEASE_NUMBER"] == rel && r.cols["ACCEPTED"] == acc && r.cols["TOTAL"] == tot
    ensures r.cols["PROGRAM"] == Extract(t.cols["LOG_COMMENT"], ProgramScan())
  {
    var t1 := SetColumn(t, "RELEASE_NUMBER", rel);
    var t2 := SetColumn(t1, "ACCEPTED", acc);
    var t3 := SetColumn(t2, "TOTAL", tot);
    var t4 := SetColumn(t3, "PROGRAM", Extract(t.cols["LOG_COMMENT"], ProgramScan()));
    assert t3.cols["RELEASE_NUMBER"] == rel && t3.cols["ACCEPTED"] == acc && t3.cols["TOTAL"] == tot;
    assert forall n :: n in t4.cols <==> n in t.cols || n in IBAdded;
    assert forall n :: n in t.cols && n !in IBAdded ==> t4.cols[n] == t.cols[n];
    assert "LOG_COMMENT" !in IBAdded;
    Remove(t4, {"LOG_COMMENT"})
  }

  /** The four assignments of `clean_df_IB` followed by the drop give the
      stored frame. */
  lemma StoredChain(t: Table, t1: Table, t2: Table, t3: Table, t4: Table, rel: seq<Value>, acc: seq<Value>, tot: seq<Value>)
    requires "LOG_COMMENT" in t.cols
    requires t1 == SetColumn(t, "RELEASE_NUMBER", rel) && t2 == SetColumn(t1, "ACCEPTED", acc)
    requires t3 == SetColumn(t2, "TOTAL", tot)
    requires t4 == SetColumn(t3, "PROGRAM", Extract(t.cols["LOG_COMMENT"], ProgramScan()))
    ensures Remove(t4, {"LOG_COMMENT"}) == IBStored(t, rel, acc, tot)
  {
  }

  // ----- The older script block for IB (misc/test.py:108-118) -----

  /** What the script's IB block leaves in `df_IB` and whether it raised. The
      release number is first stored as text and converted last; the drop is
      not in place, so from then on `df_IB` names a new frame. */
  function ScriptIBOutcome(t: Table): Outcome
  {
    if "LOG_COMMENT" !in t.cols then Outcome(t, Err(KeyError("LOG_COMMENT")))
    else
      var c := t.cols["LOG_COMMENT"];
      var t1 := SetColumn(t, "RELEASE_NUMBER", Extract(c, RelScan()));
      match AsInt(Extract(c, AcceptedScan()), "ACCEPTED")
      case Err(e) => Outcome(t1, Err(e))
      case Ok(acc) =>
        var t2 := SetColumn(t1, "ACCEPTED", acc);
        match AsInt(Extract(c, OutOfScan()), "TOTAL")
        case Err(e) => Outcome(t2, Err(e))
        case Ok(tot) =>
          var t3 := SetColumn(t2, "TOTAL", tot);
          var t4 := SetColumn(t3, "PROGRAM", Extract(c, ProgramScan()));
          match AsInt(t4.cols["RELEASE_NUMBER"], "RELEASE_NUMBER")
          case Err(e) => Outcome(t4, Err(e))
          case Ok(rel) =>
            var t5 := SetColumn(t4, "RELEASE_NUMBER", rel);
            var t6 := Remove(t5, {"LOG_COMMENT"});
            Outcome(t6, Require(t6, IBCategories))
  }

  // ----- clean_df_MMF -----

  /** OP and OP_DESC, both split from the operation text `d`. */
  function AddOp(t: Table, d: seq<Value>): (r: Table)
    ensures r.height == t.height
    ensures forall n :: n in r.cols <==> n in t.cols || n == "OP" || n == "OP_DESC"
    ensures forall n :: n in t.cols && n != "OP" && n != "OP_DESC" ==> r.cols[n] == t.cols[n]
  {
    var t1 := SetColumn(t, "OP", Extract(d, OpScan()));
    SetColumn(t1, "OP_DESC", Extract(d, OpDescScan()))
  }

  /** The four feature columns, each filled from its group. */
  function AddFeatures(t: Table, c: seq<Value>): (r: Table)
    ensures r.height == t.height
    ensures forall n :: n in r.cols <==> n in t.cols || n in FeatureNames
    ensures forall n :: n in t.cols && n !in FeatureNames ==> r.cols[n] == t.cols[n]
    ensures HasFeatures(r)
    ensures r.cols["VANE"] == Extract(c, FeatureScan(0)) && r.cols["LOOP_CNT"] == Extract(c, FeatureScan(1))
    ensures r.cols["REQD_FEATURES"] == Extract(c, FeatureScan(2)) && r.cols["TOTAL"] == Extract(c, FeatureScan(3))
  {
    var t1 := SetColumn(t, "VANE", Extract(c, FeatureScan(0)));
    var t2 := SetColumn(t1, "LOOP_CNT", Extract(c, FeatureScan(1)));
    var t3 := SetColumn(t2, "REQD_FEATURES", Extract(c, FeatureScan(2)));
    assert t2.cols["VANE"] == Extract(c, FeatureScan(0));
    assert t3.cols["VANE"] == Extract(c, FeatureScan(0)) && t3.cols["LOOP_CNT"] == Extract(c, FeatureScan(1));
    assert forall n :: n in t3.cols <==> n in t.cols || n == "VANE" || n == "LOOP_CNT" || n == "REQD_FEATURES";
    SetColumn(t3, "TOTAL", Extract(c, FeatureScan(3)))
  }

  /** The four feature-count columns are there. */
  predicate HasFeatures(t: Table) {
    "VANE" in t.cols && "LOOP_CNT" in t.cols && "REQD_FEATURES" in t.cols && "TOTAL" in t.cols
  }

  /** `to_numeric` over the four feature columns. */
  function NumericFeatures(t: Table): (r: Table)
    requires HasFeatures(t)
    ensures r.height == t.height && r.names == t.names && HasFeatures(r)
    ensures forall n :: n in r.cols <==> n in t.cols
    ensures forall n :: n in t.cols && n !in FeatureNames ==> r.cols[n] == t.cols[n]
    ensures r.cols["VANE"] == NumericColumn(t.cols["VANE"]) && r.cols["LOOP_CNT"] == NumericColumn(t.cols["LOOP_CNT"])
    ensures r.cols["REQD_FEATURES"] == NumericColumn(t.cols["REQD_FEATURES"]) && r.cols["TOTAL"] == NumericColumn(t.cols["TOTAL"])
  {
    var t1 := SetColumn(t, "VANE", NumericColumn(t.cols["VANE"]));
    var t2 := SetColumn(t1, "LOOP_CNT", NumericColumn(t1.cols["LOOP_CNT"]));
    var t3 := SetColumn(t2, "REQD_FEATURES", NumericColumn(t2.cols["REQD_FEATURES"]));
    SetColumn(t3, "TOTAL", NumericColumn(t3.cols["TOTAL"]))
  }

  /** What `clean_df_MMF` leaves in the frame and whether it raised. */
  function MMFOutcome(t: Table): Outcome
  {
    if "CURRENT_OPER_DESC" !in t.cols then Outcome(t, Err(KeyError("CURRENT_OPER_DESC")))
    else if "CURRENT_FEATURE_COUNT" !in t.cols then
      Outcome(AddOp(t, t.cols["CURRENT_OPER_DESC"]), Err(KeyError("CURRENT_FEATURE_COUNT")))
    else Retype(MMFStage(t, 4), MMFCategories, ["ACCEPT_COMMENTS", "OP_DESC"])
  }

  const MMFAdded: seq<string> := ["OP", "OP_DESC", "VANE", "LOOP_CNT", "REQD_FEATURES", "TOTAL"]

  /** The frame after the first `k` statements of `clean_df_MMF` that
      change it: 1 stores OP and OP_DESC, 2 the four feature groups, 3
      converts them with `to_numeric`, 4 drops the two source columns. */
  function MMFStage(t: Table, k: nat): (r: Table)
    requires "CURRENT_OPER_DESC" in t.cols && "CURRENT_FEATURE_COUNT" in t.cols && 1 <= k <= 4
    ensures r.height == t.height
    ensures k < 4 ==> "CURRENT_OPER_DESC" in r.cols && "CURRENT_FEATURE_COUNT" in r.cols
    ensures k < 4 ==> r.cols["CURRENT_FEATURE_COUNT"] == t.cols["CURRENT_FEATURE_COUNT"]
    ensures 2 <= k < 4 ==> HasFeatures(r)
    decreases k
  {
    if k == 1 then AddOp(t, t.cols["CURRENT_OPER_DESC"])
    else
      var p := MMFStage(t, k - 1);
      if k == 2 then AddFeatures(p, p.cols["CURRENT_FEATURE_COUNT"])
      else if k == 3 then NumericFeatures(p)
      else Remove(p, {"CURRENT_OPER_DESC", "CURRENT_FEATURE_COUNT"})
  }

  // ----- The normalisers as they run on a frame -----

  /** `df[[name]] = df[[name]].apply(pd.to_datetime, format="mixed")` on the
      frame itself. */
  method StampsInPlace(f: Frame, name: string) returns (status: Result<(), FrameError>)
    requires f.Valid()
    modifies f
    ensures f.Valid()
    ensures var r := ConvertStamps(old(f.Snapshot()), name);
      && (r.Ok? ==> status == Ok(()) && f.Snapshot() == r.value)
      && (r.Err? ==> status == Err(r.error) && f.Snapshot() == old(f.Snapshot()))
  {
    var col := f.Column(name);
    if col.None? {
      return Err(KeyError(name));
    }
    var converted := StampColumn(col.value);
    if converted.None? {
      return Err(ParseError(name));
    }
    f.Assign(name, converted.value);
    return Ok(());
  }

  /** The closing casts on the frame itself. */
  method RetypeInPlace(f: Frame, cats: seq<string>, objects: seq<string>) returns (status: Result<(), FrameError>)
    requires f.Valid()
    modifies f
    ensures f.Valid()
    ensures f.Snapshot() == Retype(old(f.Snapshot()), cats, objects).table
    ensures status == Retype(old(f.Snapshot()), cats, objects).status
  {
    status := Require(f.Snapshot(), cats);
    if status.Err? {
      return;
    }
    status := StampsInPlace(f, "DATE_TIME");
    if status.Err? {
      return;
    }
    status := Require(f.Snapshot(), objects);
  }

  /** `clean_df_IA(df)`, and the script's IA block. */
  method CleanIA(f: Frame) returns (status: Result<(), FrameError>)
    requires f.Valid()
    modifies f
    ensures f.Valid()
    ensures f.Snapshot() == IAOutcome(old(f.Snapshot())).table
    ensures status == IAOutcome(old(f.Snapshot())).status
  {
    status := RetypeInPlace(f, IACategories, ["ACCEPT_COMMENT"]);
  }

  /** `clean_df_IB(df)`: each extracted column is stored before the next one
      is computed, so a failed cast leaves the earlier ones in the frame. */
  method CleanIB(f: Frame) returns (status: Result<(), FrameError>)
    requires f.Valid()
    modifies f
    ensures f.Valid()
    ensures f.Snapshot() == IBOutcome(old(f.Snapshot())).table
    ensures status == IBOutcome(old(f.Snapshot())).status
  {
    ghost var t := f.Snapshot();
    var log := f.Column("LOG_COMMENT");
    if log.None? {
      return Err(KeyError("LOG_COMMENT"));
    }
    var c := log.value;
    var rel := AsInt(Extract(c, RelScan()), "RELEASE_NUMBER");
    if rel.Err? {
      return Err(rel.error);
    }
    f.Assign("RELEASE_NUMBER", rel.value);
    ghost var t1 := f.Snapshot();
    var acc := AsInt(Extract(c, AcceptedScan()), "ACCEPTED");
    if acc.Err? {
      return Err(acc.error);
    }
    f.Assign("ACCEPTED", acc.value);
    ghost var t2 := f.Snapshot();
    var tot := AsInt(Extract(c, OutOfScan()), "TOTAL");
    if tot.Err? {
      return Err(tot.error);
    }
    f.Assign("TOTAL", tot.value);
    ghost var t3 := f.Snapshot();
    f.Assign("PROGRAM", Extract(c, ProgramScan()));
    ghost var t4 := f.Snapshot();
    DropOne(t4, "LOG_COMMENT");
    StoredChain(t, t1, t2, t3, t4, rel.value, acc.value, tot.value);
    status := f.Drop(["LOG_COMMENT"]);
    status := Require(f.Snapshot(), IBCategories);
  }

  /** The script's IB block. Up to the drop it changes `f`; the drop makes a
      new frame, which is what `df_IB` names afterwards and is returned as
      `g`. */
  method ScriptCleanIB(f: Frame) returns (g: Frame, status: Result<(), FrameError>)
    requires f.Valid()
    modifies f
    ensures g.Valid()
    ensures g.Snapshot() == ScriptIBOutcome(old(f.Snapshot())).table
    ensures status == ScriptIBOutcome(old(f.Snapshot())).status
    ensures g == f || fresh(g)
  {
    g := f;
    ghost var t := f.Snapshot();
    var log := f.Column("LOG_COMMENT");
    if log.None? {
      return g, Err(KeyError("LOG_COMMENT"));
    }
    var c := log.value;
    f.Assign("RELEASE_NUMBER", Extract(c, RelScan()));
    ghost var t1 := f.Snapshot();
    var acc := AsInt(Extract(c, AcceptedScan()), "ACCEPTED");
    if acc.Err? {
      return g, Err(acc.error);
    }
    f.Assign("ACCEPTED", acc.value);
    ghost var t2 := f.Snapshot();
    var tot := AsInt(Extract(c, OutOfScan()), "TOTAL");
    if tot.Err? {
      return g, Err(tot.error);
    }
    f.Assign("TOTAL", tot.value);
    f.Assign("PROGRAM", Extract(c, ProgramScan()));
    ghost var t4 := f.Snapshot();
    var rel := AsInt(f.cols["RELEASE_NUMBER"], "RELEASE_NUMBER");
    if rel.Err? {
      return g, Err(rel.error);
    }
    f.Assign("RELEASE_NUMBER", rel.value);
    ghost var t5 := f.Snapshot();
    DropOne(t5, "LOG_COMMENT");
    var d := Dropped(f, ["LOG_COMMENT"]);
    g := d.value;
    status := Require(g.Snapshot(), IBCategories);
  }

  /** The OP and OP_DESC assignments. */
  method OpInPlace(f: Frame, d: seq<Value>)
    requires f.Valid() && |d| == f.height
    modifies f
    ensures f.Valid() && f.Snapshot() == AddOp(old(f.Snapshot()), d)
  {
    f.Assign("OP", Extract(d, OpScan()));
    f.Assign("OP_DESC", Extract(d, OpDescScan()));
  }

  /** The four-column assignment from the feature pattern's groups. */
  method FeaturesInPlace(f: Frame, c: seq<Value>)
    requires f.Valid() && |c| == f.height
    modifies f
    ensures f.Valid() && f.Snapshot() == AddFeatures(old(f.Snapshot()), c)
  {
    f.Assign("VANE", Extract(c, FeatureScan(0)));
    f.Assign("LOOP_CNT", Extract(c, FeatureScan(1)));
    f.Assign("REQD_FEATURES", Extract(c, FeatureScan(2)));
    f.Assign("TOTAL", Extract(c, FeatureScan(3)));
  }

  /** The four-column `apply(pd.to_numeric)`. */
  method NumericInPlace(f: Frame)
    requires f.Valid() && HasFeatures(f.Snapshot())
    modifies f
    ensures f.Valid() && f.Snapshot() == NumericFeatures(old(f.Snapshot()))
  {
    f.Assign("VANE", NumericColumn(f.cols["VANE"]));
    f.Assign("LOOP_CNT", NumericColumn(f.cols["LOOP_CNT"]));
    f.Assign("REQD_FEATURES", NumericColumn(f.cols["REQD_FEATURES"]));
    f.Assign("TOTAL", NumericColumn(f.cols["TOTAL"]));
  }

  /** `clean_df_MMF(df)`, and the script's MMF block. */
  method CleanMMF(f: Frame) returns (status: Result<(), FrameError>)
    requires f.Valid()
    modifies f
    ensures f.Valid()
    ensures f.Snapshot() == MMFOutcome(old(f.Snapshot())).table
    ensures status == MMFOutcome(old(f.Snapshot())).status
  {
    var desc := f.Column("CURRENT_OPER_DESC");
    if desc.None? {
      return Err(KeyError("CURRENT_OPER_DESC"));
    }
    ghost var t := f.Snapshot();
    OpInPlace(f, desc.value);
    var count := f.Column("CURRENT_FEATURE_COUNT");
    if count.None? {
      return Err(KeyError("CURRENT_FEATURE_COUNT"));
    }
    assert "CURRENT_FEATURE_COUNT" in t.cols;
    assert f.Snapshot() == MMFStage(t, 1);
    SplitFeaturesInPlace(f, t);
    status := RetypeInPlace(f, MMFCategories, ["ACCEPT_COMMENTS", "OP_DESC"]);
  }

  /** The feature assignment, its conversion and the drop, from the frame
      that holds OP and OP_DESC. */
  method SplitFeaturesInPlace(f: Frame, ghost t: Table)
    requires "CURRENT_OPER_DESC" in t.cols && "CURRENT_FEATURE_COUNT" in t.cols
    requires f.Valid() && f.Snapshot() == MMFStage(t, 1)
    modifies f
    ensures f.Valid() && f.Snapshot() == MMFStage(t, 4)
  {
    FeaturesInPlace(f, f.cols["CURRENT_FEATURE_COUNT"]);
    assert f.Snapshot() == MMFStage(t, 2);
    NumericInPlace(f);
    assert f.Snapshot() == MMFStage(t, 3);
    DropSourcesInPlace(f, t);
  }

  /** `df.drop(columns=['CURRENT_OPER_DESC', 'CURRENT_FEATURE_COUNT'],
      inplace=True)` once the features are converted; both labels are there. */
  method DropSourcesInPlace(f: Frame, ghost t: Table)
    requires "CURRENT_OPER_DESC" in t.cols && "CURRENT_FEATURE_COUNT" in t.cols
    requires f.Valid() && f.Snapshot() == MMFStage(t, 3)
    modifies f
    ensures f.Valid() && f.Snapshot() == MMFStage(t, 4)
  {
    ghost var t3 := f.Snapshot();
    DropPresent(t3, ["CURRENT_OPER_DESC", "CURRENT_FEATURE_COUNT"]);
    LabelSet("CURRENT_OPER_DESC", "CURRENT_FEATURE_COUNT");
    var dropped := f.Drop(["CURRENT_OPER_DESC", "CURRENT_FEATURE_COUNT"]);
    assert f.Snapshot() == Remove(t3, {"CURRENT_OPER_DESC", "CURRENT_FEATURE_COUNT"});
  }

  // ----- What clean_df_IB promises -----

  /** A comment cell with a number after `tag` that `astype(int)` can hold. */
  predicate CountAfter(v: Value, tag: string) {
    v.Str? && TagNumber(v.text, tag).Some? && DigitsValue(TagNumber(v.text, tag).value) <= IntMax
  }

  /** That number. */
  function CountValue(v: Value, tag: string): int
    requires CountAfter(v, tag)
  {
    DigitsValue(TagNumber(v.text, tag).value)
  }

  /** A LOG_COMMENT cell `clean_df_IB` can read: all three counts are there. */
  predicate Readable(v: Value) {
    CountAfter(v, RelTag) && CountAfter(v, AcceptedTag) && CountAfter(v, OutOfTag)
  }

  /** Extracting the number after `tag` and casting it succeeds exactly when
      every cell has one, and then gives those numbers. */
  lemma CastCounts(col: seq<Value>, tag: string, scan: string -> Option<string>, name: string)
    requires forall s :: scan(s) == TagNumber(s, tag)
    ensures var r := AsInt(Extract(col, scan), name);
      && (r.Ok? <==> forall i :: 0 <= i < |col| ==> CountAfter(col[i], tag))
      && (r.Ok? ==> forall i :: 0 <= i < |col| ==> r.value[i] == Num(CountValue(col[i], tag)))
      && (r.Err? ==> r.error == CastError(name))
  {
    var e := Extract(col, scan);
    forall i | 0 <= i < |col|
      ensures IntCell(e[i]).Some? <==> CountAfter(col[i], tag)
      ensures CountAfter(col[i], tag) ==> IntCell(e[i]).value == CountValue(col[i], tag)
    {
      if col[i].Str? {
        assert scan(col[i].text) == TagNumber(col[i].text, tag);
      }
    }
  }

  /** The three counts as the IB normaliser's scanners read them. */
  lemma IBScans(c: seq<Value>)
    ensures var r := AsInt(Extract(c, RelScan()), "RELEASE_NUMBER");
      && (r.Ok? <==> forall i :: 0 <= i < |c| ==> CountAfter(c[i], RelTag))
      && (r.Ok? ==> forall i :: 0 <= i < |c| ==> r.value[i] == Num(CountValue(c[i], RelTag)))
    ensures var r := AsInt(Extract(c, AcceptedScan()), "ACCEPTED");
      && (r.Ok? <==> forall i :: 0 <= i < |c| ==> CountAfter(c[i], AcceptedTag))
      && (r.Ok? ==> forall i :: 0 <= i < |c| ==> r.value[i] == Num(CountValue(c[i], AcceptedTag)))
    ensures var r := AsInt(Extract(c, OutOfScan()), "TOTAL");
      && (r.Ok? <==> forall i :: 0 <= i < |c| ==> CountAfter(c[i], OutOfTag))
      && (r.Ok? ==> forall i :: 0 <= i < |c| ==> r.value[i] == Num(CountValue(c[i], OutOfTag)))
  {
    CastCounts(c, RelTag, RelScan(), "RELEASE_NUMBER");
    CastCounts(c, AcceptedTag, AcceptedScan(), "ACCEPTED");
    CastCounts(c, OutOfTag, OutOfScan(), "TOTAL");
  }

  /** `clean_df_IB` returns normally exactly when LOG_COMMENT and RECORD_USER
      are there and every comment carries all three counts; a missing count
      fails the cast rather than leaving a null. */
  lemma IBSucceeds(t: Table)
    ensures IBOutcome(t).status.Ok? <==>
      && "LOG_COMMENT" in t.cols && "RECORD_USER" in t.cols
      && forall i :: 0 <= i < |t.cols["LOG_COMMENT"]| ==> Readable(t.cols["LOG_COMMENT"][i])
  {
    if "LOG_COMMENT" in t.cols {
      var c := t.cols["LOG_COMMENT"];
      IBScans(c);
      if forall i :: 0 <= i < |c| ==> Readable(c[i]) {
        IBStores(t);
      }
    }
  }

  /** The three casts of `clean_df_IB` on the comment column `c`. */
  function IBCasts(c: seq<Value>): (Result<seq<Value>, FrameError>, Result<seq<Value>, FrameError>, Result<seq<Value>, FrameError>) {
    (AsInt(Extract(c, RelScan()), "RELEASE_NUMBER"),
     AsInt(Extract(c, AcceptedScan()), "ACCEPTED"),
     AsInt(Extract(c, OutOfScan()), "TOTAL"))
  }

  /** Once the three casts pass, the frame holds the stored columns without
      LOG_COMMENT, and the closing lookup needs only RECORD_USER. */
  lemma IBStores(t: Table)
    requires "LOG_COMMENT" in t.cols
    requires var (rel, acc, tot) := IBCasts(t.cols["LOG_COMMENT"]); rel.Ok? && acc.Ok? && tot.Ok?
    ensures var (rel, acc, tot) := IBCasts(t.cols["LOG_COMMENT"]);
      var r := IBStored(t, rel.value, acc.value, tot.value);
      IBOutcome(t) == Outcome(r, Require(r, IBCategories))
    ensures IBOutcome(t).status.Ok? <==> "RECORD_USER" in t.cols
  {
    var (rel, acc, tot) := IBCasts(t.cols["LOG_COMMENT"]);
    var t5 := IBStored(t, rel.value, acc.value, tot.value);
    assert IBOutcome(t) == Outcome(t5, Require(t5, IBCategories));
    NeedsUser(t5, t);
  }

  /** After the stores, RECORD_USER is the only category the lookup can miss. */
  lemma NeedsUser(r: Table, t: Table)
    requires forall n :: n in r.cols <==> (n in t.cols || n in IBAdded) && n != "LOG_COMMENT"
    ensures Require(r, IBCategories).Ok? <==> "RECORD_USER" in t.cols
  {
  }

  /** A normal return means the three casts passed and the stores ran. */
  lemma IBPassed(t: Table)
    requires "LOG_COMMENT" in t.cols && IBOutcome(t).status.Ok?
    ensures var (rel, acc, tot) := IBCasts(t.cols["LOG_COMMENT"]);
      && rel.Ok? && acc.Ok? && tot.Ok?
      && IBOutcome(t).table == IBStored(t, rel.value, acc.value, tot.value)
  {
  }

  /** On success the frame keeps its rows and every column but LOG_COMMENT,
      loses LOG_COMMENT and gains exactly RELEASE_NUMBER, ACCEPTED, TOTAL and
      PROGRAM. */
  lemma IBShape(t: Table)
    requires WellFormed(t) && "LOG_COMMENT" in t.cols && IBOutcome(t).status.Ok?
    ensures var r := IBOutcome(t).table;
      && WellFormed(r) && r.height == t.height
      && (forall n :: n in r.cols <==> (n in t.cols || n in IBAdded) && n != "LOG_COMMENT")
      && (forall n :: n in t.cols && n !in IBAdded && n != "LOG_COMMENT" ==> r.cols[n] == t.cols[n])
  {
    IBPassed(t);
    var (rel, acc, tot) := IBCasts(t.cols["LOG_COMMENT"]);
    StoredKeeps(t, rel.value, acc.value, tot.value);
  }

  /** When the three casts pass, every comment is readable and the casts
      hold its three counts. */
  lemma IBCastValues(c: seq<Value>)
    requires var (rel, acc, tot) := IBCasts(c); rel.Ok? && acc.Ok? && tot.Ok?
    ensures var (rel, acc, tot) := IBCasts(c);
      forall i :: 0 <= i < |c| ==>
        && Readable(c[i])
        && rel.value[i] == Num(CountValue(c[i], RelTag))
        && acc.value[i] == Num(CountValue(c[i], AcceptedTag))
        && tot.value[i] == Num(CountValue(c[i], OutOfTag))
  {
    IBScans(c);
  }

  /** Row by row, the three count columns hold the numbers after the first
      `REL: `, `Accepted: ` and `Out of: ` of the comment. */
  lemma IBCountRows(t: Table)
    requires "LOG_COMMENT" in t.cols && IBOutcome(t).status.Ok?
    ensures var r := IBOutcome(t).table; var c := t.cols["LOG_COMMENT"];
      && "RELEASE_NUMBER" in r.cols && "ACCEPTED" in r.cols && "TOTAL" in r.cols
      && forall i :: 0 <= i < |c| ==>
        && Readable(c[i])
        && r.cols["RELEASE_NUMBER"][i] == Num(CountValue(c[i], RelTag))
        && r.cols["ACCEPTED"][i] == Num(CountValue(c[i], AcceptedTag))
        && r.cols["TOTAL"][i] == Num(CountValue(c[i], OutOfTag))
  {
    IBPassed(t);
    IBCastValues(t.cols["LOG_COMMENT"]);
  }

  /** A text cell's program name, or a missing value when it names none. */
  lemma ProgramCells(c: seq<Value>)
    requires forall i :: 0 <= i < |c| ==> c[i].Str?
    ensures forall i :: 0 <= i < |c| ==>
      Extract(c, ProgramScan())[i] == (if Program(c[i].text).Some? then Str(Program(c[i].text).value) else Null)
  {
    forall i | 0 <= i < |c|
      ensures Extract(c, ProgramScan())[i] == (if Program(c[i].text).Some? then Str(Program(c[i].text).value) else Null)
    {
      assert ProgramScan()(c[i].text) == Program(c[i].text);
    }
  }

  /** Row by row, PROGRAM holds the comment's program name, or a missing
      value when it names none. */
  lemma IBProgramRows(t: Table)
    requires "LOG_COMMENT" in t.cols && IBOutcome(t).status.Ok?
    ensures var r := IBOutcome(t).table; var c := t.cols["LOG_COMMENT"];
      && "PROGRAM" in r.cols
      && forall i :: 0 <= i < |c| ==>
        && c[i].Str?
        && r.cols["PROGRAM"][i] == (if Program(c[i].text).Some? then Str(Program(c[i].text).value) else Null)
  {
    var c := t.cols["LOG_COMMENT"];
    IBPassed(t);
    IBCastValues(c);
    ProgramCells(c);
  }

  /** The stores keep the frame well formed. */
  lemma StoredKeeps(t: Table, rel: seq<Value>, acc: seq<Value>, tot: seq<Value>)
    requires WellFormed(t) && "LOG_COMMENT" in t.cols
    requires |rel| == |acc| == |tot| == t.height
    ensures WellFormed(IBStored(t, rel, acc, tot))
  {
    var c := t.cols["LOG_COMMENT"];
    var t1 := SetColumn(t, "RELEASE_NUMBER", rel);
    var t2 := SetColumn(t1, "ACCEPTED", acc);
    var t3 := SetColumn(t2, "TOTAL", tot);
    SetColumnKeeps(t, "RELEASE_NUMBER", rel);
    SetColumnKeeps(t1, "ACCEPTED", acc);
    SetColumnKeeps(t2, "TOTAL", tot);
    SetColumnKeeps(t3, "PROGRAM", Extract(c, ProgramScan()));
    RemoveKeeps(SetColumn(t3, "PROGRAM", Extract(c, ProgramScan())), {"LOG_COMMENT"});
  }

  /** When none of the four columns existed before, they come last, in the
      order they were assigned. */
  lemma IBColumnOrder(t: Table, rel: seq<Value>, acc: seq<Value>, tot: seq<Value>)
    requires "LOG_COMMENT" in t.cols && forall n :: n in IBAdded ==> n !in t.cols
    ensures IBStored(t, rel, acc, tot).names == Without(t.names, {"LOG_COMMENT"}) + IBAdded
  {
    var c := t.cols["LOG_COMMENT"];
    AssignedThenRemoved(t, "RELEASE_NUMBER", rel, "ACCEPTED", acc, "TOTAL", tot,
      "PROGRAM", Extract(c, ProgramScan()), "LOG_COMMENT");
  }

  // ----- Where clean_df_IB stops when it raises -----

  /** The counts after `tag`, one per comment, once every comment has one. */
  function CountColumn(c: seq<Value>, tag: string): (r: seq<Value>)
    requires forall i :: 0 <= i < |c| ==> CountAfter(c[i], tag)
    ensures |r| == |c|
  {
    seq(|c|, i requires 0 <= i < |c| => Num(CountValue(c[i], tag)))
  }

  /** When every comment has its count, the cast yields exactly those. */
  lemma CountColumnCast(c: seq<Value>, tag: string, scan: string -> Option<string>, name: string)
    requires forall s :: scan(s) == TagNumber(s, tag)
    requires forall i :: 0 <= i < |c| ==> CountAfter(c[i], tag)
    ensures AsInt(Extract(c, scan), name) == Ok(CountColumn(c, tag))
  {
    CastCounts(c, tag, scan, name);
    assert AsInt(Extract(c, scan), name).value == CountColumn(c, tag);
  }

  /** A comment without a readable `REL: ` number fails the first cast, and
      the frame is left as it was. */
  lemma IBFailsAtRelease(t: Table)
    requires "LOG_COMMENT" in t.cols
    requires exists i :: 0 <= i < |t.cols["LOG_COMMENT"]| && !CountAfter(t.cols["LOG_COMMENT"][i], RelTag)
    ensures IBOutcome(t) == Outcome(t, Err(CastError("RELEASE_NUMBER")))
  {
    CastCounts(t.cols["LOG_COMMENT"], RelTag, RelScan(), "RELEASE_NUMBER");
  }

  /** With every release number readable, a comment without a readable
      `Accepted: ` number fails the second cast after RELEASE_NUMBER is
      stored; LOG_COMMENT is still there. */
  lemma IBFailsAtAccepted(t: Table)
    requires "LOG_COMMENT" in t.cols
    requires forall i :: 0 <= i < |t.cols["LOG_COMMENT"]| ==> CountAfter(t.cols["LOG_COMMENT"][i], RelTag)
    requires exists i :: 0 <= i < |t.cols["LOG_COMMENT"]| && !CountAfter(t.cols["LOG_COMMENT"][i], AcceptedTag)
    ensures var c := t.cols["LOG_COMMENT"];
      IBOutcome(t) == Outcome(SetColumn(t, "RELEASE_NUMBER", CountColumn(c, RelTag)), Err(CastError("ACCEPTED")))
  {
    var c := t.cols["LOG_COMMENT"];
    CountColumnCast(c, RelTag, RelScan(), "RELEASE_NUMBER");
    CastCounts(c, AcceptedTag, AcceptedScan(), "ACCEPTED");
  }

  /** With release numbers and accepted counts readable, a comment without a
      readable `Out of: ` number fails the third cast after two columns are
      stored. */
  lemma IBFailsAtTotal(t: Table)
    requires "LOG_COMMENT" in t.cols
    requires forall i :: 0 <= i < |t.cols["LOG_COMMENT"]| ==> CountAfter(t.cols["LOG_COMMENT"][i], RelTag)
    requires forall i :: 0 <= i < |t.cols["LOG_COMMENT"]| ==> CountAfter(t.cols["LOG_COMMENT"][i], AcceptedTag)
    requires exists i :: 0 <= i < |t.cols["LOG_COMMENT"]| && !CountAfter(t.cols["LOG_COMMENT"][i], OutOfTag)
    ensures var c := t.cols["LOG_COMMENT"];
      IBOutcome(t) == Outcome(
        SetColumn(SetColumn(t, "RELEASE_NUMBER", CountColumn(c, RelTag)), "ACCEPTED", CountColumn(c, AcceptedTag)),
        Err(CastError("TOTAL")))
  {
    var c := t.cols["LOG_COMMENT"];
    CountColumnCast(c, RelTag, RelScan(), "RELEASE_NUMBER");
    CountColumnCast(c, AcceptedTag, AcceptedScan(), "ACCEPTED");
    CastCounts(c, OutOfTag, OutOfScan(), "TOTAL");
  }

  /** Without RECORD_USER the closing cast raises only after LOG_COMMENT has
      been dropped and the four columns stored. */
  lemma IBMissingUser(t: Table)
    requires "LOG_COMMENT" in t.cols && "RECORD_USER" !in t.cols
    requires forall i :: 0 <= i < |t.cols["LOG_COMMENT"]| ==> Readable(t.cols["LOG_COMMENT"][i])
    ensures IBOutcome(t).status == Err(KeyError("RECORD_USER"))
    ensures "LOG_COMMENT" !in IBOutcome(t).table.cols
    ensures forall n :: n in IBAdded ==> n in IBOutcome(t).table.cols
  {
    IBScans(t.cols["LOG_COMMENT"]);
    IBStores(t);
  }

  // ----- The script's IB block against clean_df_IB -----

  /** Once the three casts pass, the script ends with the frame the
      normaliser builds: storing the release number as text and overwriting
      it after the other three stores gives the same columns in the same
      order. */
  lemma ScriptStores(t: Table)
    requires "LOG_COMMENT" in t.cols
    requires var (rel, acc, tot) := IBCasts(t.cols["LOG_COMMENT"]); rel.Ok? && acc.Ok? && tot.Ok?
    ensures var (rel, acc, tot) := IBCasts(t.cols["LOG_COMMENT"]);
      var r := IBStored(t, rel.value, acc.value, tot.value);
      ScriptIBOutcome(t) == Outcome(r, Require(r, IBCategories))
  {
    var c := t.cols["LOG_COMMENT"];
    var (rel, acc, tot) := IBCasts(c);
    Reassigned(t, "RELEASE_NUMBER", Extract(c, RelScan()), rel.value,
      "ACCEPTED", acc.value, "TOTAL", tot.value, "PROGRAM", Extract(c, ProgramScan()));
  }

  /** The script's block returns normally on exactly the frames
      `clean_df_IB` accepts, and then leaves the same frame. The two may
      report different errors: the script casts the release number last. */
  lemma ScriptAgrees(t: Table)
    ensures ScriptIBOutcome(t).status.Ok? <==> IBOutcome(t).status.Ok?
    ensures IBOutcome(t).status.Ok? ==> ScriptIBOutcome(t) == IBOutcome(t)
  {
    if "LOG_COMMENT" in t.cols {
      var c := t.cols["LOG_COMMENT"];
      IBScans(c);
      var (rel, acc, tot) := IBCasts(c);
      if rel.Ok? && acc.Ok? && tot.Ok? {
        ScriptStores(t);
        IBStores(t);
      } else {
        ScriptFails(t);
        IBFails(t);
      }
    }
  }

  /** A failed cast makes the script's block raise. */
  lemma ScriptFails(t: Table)
    requires "LOG_COMMENT" in t.cols
    requires var (rel, acc, tot) := IBCasts(t.cols["LOG_COMMENT"]); !(rel.Ok? && acc.Ok? && tot.Ok?)
    ensures ScriptIBOutcome(t).status.Err?
  {
  }

  /** A failed cast makes `clean_df_IB` raise. */
  lemma IBFails(t: Table)
    requires "LOG_COMMENT" in t.cols
    requires var (rel, acc, tot) := IBCasts(t.cols["LOG_COMMENT"]); !(rel.Ok? && acc.Ok? && tot.Ok?)
    ensures IBOutcome(t).status.Err?
  {
  }

  /** The older IB query returns RECORD_USER and LOG_COMMENT only; after the
      script's block the frame holds RECORD_USER and the four extracted
      columns, in that order. */
  lemma OlderQueryColumns(t: Table)
    requires WellFormed(t) && t.names == ["RECORD_USER", "LOG_COMMENT"]
    requires ScriptIBOutcome(t).status.Ok?
    ensures ScriptIBOutcome(t).table.names == ["RECORD_USER", "RELEASE_NUMBER", "ACCEPTED", "TOTAL", "PROGRAM"]
  {
    assert "LOG_COMMENT" in t.names;
    ScriptAgrees(t);
    IBPassed(t);
    var (rel, acc, tot) := IBCasts(t.cols["LOG_COMMENT"]);
    PairStored(t, rel.value, acc.value, tot.value);
  }

  /** From the two-column frame the stores keep RECORD_USER and append the
      four new columns. */
  lemma PairStored(t: Table, rel: seq<Value>, acc: seq<Value>, tot: seq<Value>)
    requires WellFormed(t) && t.names == ["RECORD_USER", "LOG_COMMENT"]
    ensures "LOG_COMMENT" in t.cols
    ensures IBStored(t, rel, acc, tot).names == ["RECORD_USER", "RELEASE_NUMBER", "ACCEPTED", "TOTAL", "PROGRAM"]
  {
    assert "LOG_COMMENT" in t.names;
    forall n | n in IBAdded
      ensures n !in t.cols
    {
      assert n !in t.names;
    }
    IBColumnOrder(t, rel, acc, tot);
    WithoutLast("RECORD_USER", "LOG_COMMENT");
    PrependFour("RECORD_USER", "RELEASE_NUMBER", "ACCEPTED", "TOTAL", "PROGRAM");
  }

  // ----- What the closing casts do -----

  /** The closing casts return normally exactly when every category and
      object column is there and DATE_TIME holds only readable timestamps;
      then DATE_TIME holds the parsed timestamps and nothing else changes. */
  lemma RetypeSucceeds(t: Table, cats: seq<string>, objects: seq<string>)
    ensures Retype(t, cats, objects).status.Ok? <==>
      && (forall n :: n in cats ==> n in t.cols)
      && (forall n :: n in objects ==> n in t.cols)
      && "DATE_TIME" in t.cols
      && (forall i :: 0 <= i < |t.cols["DATE_TIME"]| ==> StampCell(t.cols["DATE_TIME"][i]).Some?)
    ensures Retype(t, cats, objects).status.Ok? ==>
      Retype(t, cats, objects).table == SetColumn(t, "DATE_TIME", StampColumn(t.cols["DATE_TIME"]).value)
  {
  }

  /** `pd.to_datetime` of a converted cell gives it back. */
  lemma StampCellSettled(v: Value)
    requires StampCell(v).Some?
    ensures StampCell(StampCell(v).value) == StampCell(v)
  {
  }

  /** Converting an already converted DATE_TIME column changes nothing. */
  lemma StampsSettled(col: seq<Value>)
    requires StampColumn(col).Some?
    ensures StampColumn(StampColumn(col).value) == StampColumn(col)
  {
    var c := StampColumn(col).value;
    forall i | 0 <= i < |c|
      ensures StampCell(c[i]) == Some(c[i])
    {
      StampCellSettled(col[i]);
    }
    assert StampColumn(c).value == c;
  }

  /** Running the closing casts on their own result changes nothing. */
  lemma RetypeIdempotent(t: Table, cats: seq<string>, objects: seq<string>)
    requires Retype(t, cats, objects).status.Ok?
    ensures Retype(Retype(t, cats, objects).table, cats, objects) == Retype(t, cats, objects)
  {
    RetypeSucceeds(t, cats, objects);
    var col := t.cols["DATE_TIME"];
    var t1 := Retype(t, cats, objects).table;
    StampsSettled(col);
    SetSame(t1, "DATE_TIME");
    RetypeSucceeds(t1, cats, objects);
  }

  /** `clean_df_IA` returns normally exactly when the six category columns,
      ACCEPT_COMMENT and a readable DATE_TIME are there, and cleaning its
      result again changes nothing. */
  lemma IASucceeds(t: Table)
    ensures IAOutcome(t).status.Ok? <==>
      && (forall n :: n in IACategories ==> n in t.cols)
      && "ACCEPT_COMMENT" in t.cols && "DATE_TIME" in t.cols
      && (forall i :: 0 <= i < |t.cols["DATE_TIME"]| ==> StampCell(t.cols["DATE_TIME"][i]).Some?)
    ensures IAOutcome(t).status.Ok? ==> IAOutcome(IAOutcome(t).table) == IAOutcome(t)
  {
    RetypeSucceeds(t, IACategories, ["ACCEPT_COMMENT"]);
    if IAOutcome(t).status.Ok? {
      RetypeIdempotent(t, IACategories, ["ACCEPT_COMMENT"]);
    }
  }

  // ----- What clean_df_MMF promises -----

  /** After OP and OP_DESC are stored. */
  lemma MMFOpStage(t: Table)
    requires "CURRENT_OPER_DESC" in t.cols && "CURRENT_FEATURE_COUNT" in t.cols
    ensures var r := MMFStage(t, 1); var d := t.cols["CURRENT_OPER_DESC"];
      && (forall n :: n in r.cols <==> n in t.cols || n == "OP" || n == "OP_DESC")
      && (forall n :: n in t.cols && n != "OP" && n != "OP_DESC" ==> r.cols[n] == t.cols[n])
      && r.cols["OP"] == Extract(d, OpScan()) && r.cols["OP_DESC"] == Extract(d, OpDescScan())
  {
  }

  /** After the four feature groups are stored. */
  lemma MMFFeatureStage(t: Table)
    requires "CURRENT_OPER_DESC" in t.cols && "CURRENT_FEATURE_COUNT" in t.cols
    ensures var r := MMFStage(t, 2); var d := t.cols["CURRENT_OPER_DESC"]; var c := t.cols["CURRENT_FEATURE_COUNT"];
      && (forall n :: n in r.cols <==> n in t.cols || n in MMFAdded)
      && (forall n :: n in t.cols && n !in MMFAdded ==> r.cols[n] == t.cols[n])
      && r.cols["OP"] == Extract(d, OpScan()) && r.cols["OP_DESC"] == Extract(d, OpDescScan())
      && r.cols["VANE"] == Extract(c, FeatureScan(0)) && r.cols["LOOP_CNT"] == Extract(c, FeatureScan(1))
      && r.cols["REQD_FEATURES"] == Extract(c, FeatureScan(2)) && r.cols["TOTAL"] == Extract(c, FeatureScan(3))
  {
    MMFOpStage(t);
  }

  /** After `to_numeric` turns the feature groups into numbers. */
  lemma MMFNumericStage(t: Table)
    requires "CURRENT_OPER_DESC" in t.cols && "CURRENT_FEATURE_COUNT" in t.cols
    ensures var r := MMFStage(t, 3); var d := t.cols["CURRENT_OPER_DESC"]; var c := t.cols["CURRENT_FEATURE_COUNT"];
      && (forall n :: n in r.cols <==> n in t.cols || n in MMFAdded)
      && (forall n :: n in t.cols && n !in MMFAdded ==> r.cols[n] == t.cols[n])
      && r.cols["OP"] == Extract(d, OpScan()) && r.cols["OP_DESC"] == Extract(d, OpDescScan())
      && r.cols["VANE"] == NumericColumn(Extract(c, FeatureScan(0)))
      && r.cols["LOOP_CNT"] == NumericColumn(Extract(c, FeatureScan(1)))
      && r.cols["REQD_FEATURES"] == NumericColumn(Extract(c, FeatureScan(2)))
      && r.cols["TOTAL"] == NumericColumn(Extract(c, FeatureScan(3)))
  {
    MMFFeatureStage(t);
    var p := MMFStage(t, 2);
    FeaturesAdded();
    NumericTransfer(t, p, MMFStage(t, 3));
  }

  lemma FeaturesAdded()
    ensures forall n :: n in FeatureNames ==> n in MMFAdded
    ensures "OP" !in FeatureNames && "OP_DESC" !in FeatureNames && "OP" in MMFAdded && "OP_DESC" in MMFAdded
  {
  }

  /** What `to_numeric` over the feature columns keeps, as facts about
      plain tables. */
  lemma NumericTransfer(t: Table, p: Table, r: Table)
    requires forall n :: n in FeatureNames ==> n in MMFAdded
    requires "OP" !in FeatureNames && "OP_DESC" !in FeatureNames && "OP" in MMFAdded && "OP_DESC" in MMFAdded
    requires forall n :: n in p.cols <==> n in t.cols || n in MMFAdded
    requires forall n :: n in t.cols && n !in MMFAdded ==> p.cols[n] == t.cols[n]
    requires forall n :: n in r.cols <==> n in p.cols
    requires forall n :: n in p.cols && n !in FeatureNames ==> r.cols[n] == p.cols[n]
    ensures forall n :: n in r.cols <==> n in t.cols || n in MMFAdded
    ensures forall n :: n in t.cols && n !in MMFAdded ==> r.cols[n] == t.cols[n]
    ensures r.cols["OP"] == p.cols["OP"] && r.cols["OP_DESC"] == p.cols["OP_DESC"]
  {
  }

  /** `clean_df_MMF` before its closing casts: the row count is kept, the two
      source columns are gone, OP and OP_DESC hold the split operation text,
      the four feature columns hold the converted groups, and every other
      column is as it was. */
  lemma MMFShape(t: Table)
    requires "CURRENT_OPER_DESC" in t.cols && "CURRENT_FEATURE_COUNT" in t.cols
    ensures var r := MMFStage(t, 4); var d := t.cols["CURRENT_OPER_DESC"]; var c := t.cols["CURRENT_FEATURE_COUNT"];
      && r.height == t.height
      && (forall n :: n in r.cols <==> (n in t.cols || n in MMFAdded) && n != "CURRENT_OPER_DESC" && n != "CURRENT_FEATURE_COUNT")
      && (forall n :: n in t.cols && n !in MMFAdded && n != "CURRENT_OPER_DESC" && n != "CURRENT_FEATURE_COUNT" ==> r.cols[n] == t.cols[n])
      && "OP" in r.cols && r.cols["OP"] == Extract(d, OpScan())
      && "OP_DESC" in r.cols && r.cols["OP_DESC"] == Extract(d, OpDescScan())
      && "VANE" in r.cols && r.cols["VANE"] == NumericColumn(Extract(c, FeatureScan(0)))
      && "LOOP_CNT" in r.cols && r.cols["LOOP_CNT"] == NumericColumn(Extract(c, FeatureScan(1)))
      && "REQD_FEATURES" in r.cols && r.cols["REQD_FEATURES"] == NumericColumn(Extract(c, FeatureScan(2)))
      && "TOTAL" in r.cols && r.cols["TOTAL"] == NumericColumn(Extract(c, FeatureScan(3)))
  {
    MMFNumericStage(t);
    MMFDropStage(t);
    SourcesNotAdded();
    var p, r := MMFStage(t, 3), MMFStage(t, 4);
    DropTransfer(t, p, r);
    DropValuesTransfer(p, r, t.cols["CURRENT_OPER_DESC"], t.cols["CURRENT_FEATURE_COUNT"]);
  }

  /** The last stage is the drop of the two source columns. */
  lemma MMFDropStage(t: Table)
    requires "CURRENT_OPER_DESC" in t.cols && "CURRENT_FEATURE_COUNT" in t.cols
    ensures MMFStage(t, 4) == Remove(MMFStage(t, 3), {"CURRENT_OPER_DESC", "CURRENT_FEATURE_COUNT"})
  {
  }

  lemma SourcesNotAdded()
    ensures "CURRENT_OPER_DESC" !in MMFAdded && "CURRENT_FEATURE_COUNT" !in MMFAdded
    ensures "OP" in MMFAdded && "OP_DESC" in MMFAdded && "VANE" in MMFAdded
    ensures "LOOP_CNT" in MMFAdded && "REQD_FEATURES" in MMFAdded && "TOTAL" in MMFAdded
  {
  }

  /** What dropping the two source columns keeps, as facts about plain
      tables: the column set and the untouched columns. */
  lemma DropTransfer(t: Table, p: Table, r: Table)
    requires "CURRENT_OPER_DESC" !in MMFAdded && "CURRENT_FEATURE_COUNT" !in MMFAdded
    requires forall n :: n in p.cols <==> n in t.cols || n in MMFAdded
    requires forall n :: n in t.cols && n !in MMFAdded ==> p.cols[n] == t.cols[n]
    requires r == Remove(p, {"CURRENT_OPER_DESC", "CURRENT_FEATURE_COUNT"})
    ensures forall n :: n in r.cols <==> (n in t.cols || n in MMFAdded) && n != "CURRENT_OPER_DESC" && n != "CURRENT_FEATURE_COUNT"
    ensures forall n :: n in t.cols && n !in MMFAdded && n != "CURRENT_OPER_DESC" && n != "CURRENT_FEATURE_COUNT" ==> r.cols[n] == t.cols[n]
  {
  }

  /** The same for the six added columns. */
  lemma DropValuesTransfer(p: Table, r: Table, d: seq<Value>, c: seq<Value>)
    requires "OP" in p.cols && "OP_DESC" in p.cols && "VANE" in p.cols
    requires "LOOP_CNT" in p.cols && "REQD_FEATURES" in p.cols && "TOTAL" in p.cols
    requires p.cols["OP"] == Extract(d, OpScan()) && p.cols["OP_DESC"] == Extract(d, OpDescScan())
    requires p.cols["VANE"] == NumericColumn(Extract(c, FeatureScan(0)))
    requires p.cols["LOOP_CNT"] == NumericColumn(Extract(c, FeatureScan(1)))
    requires p.cols["REQD_FEATURES"] == NumericColumn(Extract(c, FeatureScan(2)))
    requires p.cols["TOTAL"] == NumericColumn(Extract(c, FeatureScan(3)))
    requires r == Remove(p, {"CURRENT_OPER_DESC", "CURRENT_FEATURE_COUNT"})
    ensures "OP" in r.cols && r.cols["OP"] == Extract(d, OpScan())
    ensures "OP_DESC" in r.cols && r.cols["OP_DESC"] == Extract(d, OpDescScan())
    ensures "VANE" in r.cols && r.cols["VANE"] == NumericColumn(Extract(c, FeatureScan(0)))
    ensures "LOOP_CNT" in r.cols && r.cols["LOOP_CNT"] == NumericColumn(Extract(c, FeatureScan(1)))
    ensures "REQD_FEATURES" in r.cols && r.cols["REQD_FEATURES"] == NumericColumn(Extract(c, FeatureScan(2)))
    ensures "TOTAL" in r.cols && r.cols["TOTAL"] == NumericColumn(Extract(c, FeatureScan(3)))
  {
  }

  /** `clean_df_MMF` returns normally exactly when both source columns, the
      category columns other than OP, ACCEPT_COMMENTS and a readable
      DATE_TIME are there; then the frame is the converted one with its
      DATE_TIME parsed. */
  lemma MMFSucceeds(t: Table)
    ensures MMFOutcome(t).status.Ok? <==>
      && "CURRENT_OPER_DESC" in t.cols && "CURRENT_FEATURE_COUNT" in t.cols
      && (forall n :: n in MMFCategories && n != "OP" ==> n in t.cols)
      && "ACCEPT_COMMENTS" in t.cols && "DATE_TIME" in t.cols
      && (forall i :: 0 <= i < |t.cols["DATE_TIME"]| ==> StampCell(t.cols["DATE_TIME"][i]).Some?)
    ensures MMFOutcome(t).status.Ok? ==>
      MMFOutcome(t).table == SetColumn(MMFStage(t, 4), "DATE_TIME", StampColumn(t.cols["DATE_TIME"]).value)
  {
    if "CURRENT_OPER_DESC" in t.cols && "CURRENT_FEATURE_COUNT" in t.cols {
      var r := MMFStage(t, 4);
      MMFShape(t);
      KeptByMMF();
      MMFKeepsCategories(t, r);
      MMFKeepsInputs(t, r);
      RetypeSucceeds(r, MMFCategories, ["ACCEPT_COMMENTS", "OP_DESC"]);
    }
  }

  /** The columns the closing casts need are neither added nor dropped
      by the earlier statements, OP and OP_DESC aside. */
  lemma KeptByMMF()
    ensures forall n :: n in MMFCategories && n != "OP" ==>
      n !in MMFAdded && n != "CURRENT_OPER_DESC" && n != "CURRENT_FEATURE_COUNT"
    ensures "ACCEPT_COMMENTS" !in MMFAdded && "DATE_TIME" !in MMFAdded
    ensures "OP" in MMFCategories
  {
  }

  /** What the converted frame holds of the columns the closing casts need,
      as facts about plain tables. */
  lemma MMFKeepsInputs(t: Table, r: Table)
    requires "ACCEPT_COMMENTS" !in MMFAdded && "DATE_TIME" !in MMFAdded
    requires forall n :: n in r.cols <==> (n in t.cols || n in MMFAdded) && n != "CURRENT_OPER_DESC" && n != "CURRENT_FEATURE_COUNT"
    requires forall n :: n in t.cols && n !in MMFAdded && n != "CURRENT_OPER_DESC" && n != "CURRENT_FEATURE_COUNT" ==> r.cols[n] == t.cols[n]
    requires "OP_DESC" in r.cols
    ensures (forall n :: n in ["ACCEPT_COMMENTS", "OP_DESC"] ==> n in r.cols) <==> "ACCEPT_COMMENTS" in t.cols
    ensures "DATE_TIME" in r.cols <==> "DATE_TIME" in t.cols
    ensures "DATE_TIME" in r.cols ==> r.cols["DATE_TIME"] == t.cols["DATE_TIME"]
  {
  }

  lemma MMFKeepsCategories(t: Table, r: Table)
    requires forall n :: n in MMFCategories && n != "OP" ==>
      n !in MMFAdded && n != "CURRENT_OPER_DESC" && n != "CURRENT_FEATURE_COUNT"
    requires "OP" in MMFCategories
    requires forall n :: n in r.cols <==> (n in t.cols || n in MMFAdded) && n != "CURRENT_OPER_DESC" && n != "CURRENT_FEATURE_COUNT"
    requires "OP" in r.cols
    ensures (forall n :: n in MMFCategories ==> n in r.cols) <==> (forall n :: n in MMFCategories && n != "OP" ==> n in t.cols)
  {
  }

  // ----- What clean_df_MMF leaves in each row -----

  /** OP is the maximal run of digits the operation text starts with, and is
      missing exactly when the text does not start with a digit; OP_DESC is
      never present without OP. */
  lemma OpCell(v: Value)
    ensures Found(v, OpScan()).Str? <==> v.Str? && |v.text| > 0 && IsDigit(v.text[0])
    ensures Found(v, OpScan()).Null? <==> !Found(v, OpScan()).Str?
    ensures Found(v, OpScan()).Str? ==>
      var x := Found(v, OpScan()).text;
      |x| > 0 && AllDigits(x) && x <= v.text && (|x| == |v.text| || !IsDigit(v.text[|x|]))
    ensures Found(v, OpDescScan()) != Null ==> Found(v, OpScan()) != Null
  {
    if v.Str? {
      OpDescNeedsOp(v.text);
    }
  }

  /** The four feature cells of a row are all numbers, the four groups of
      the record in order, or all missing: never some of each. */
  lemma FeatureCell(v: Value)
    ensures v.Str? && Features(v.text).Some? ==>
      forall k :: 0 <= k < 4 ==> Numeric(Found(v, FeatureScan(k))) == Num(DigitsValue(Features(v.text).value[k]))
    ensures !(v.Str? && Features(v.text).Some?) ==>
      forall k :: 0 <= k < 4 ==> Numeric(Found(v, FeatureScan(k))) == Null
  {
  }

  /** OpCell for every row of a column. */
  lemma OpRows(d: seq<Value>, op: seq<Value>, desc: seq<Value>)
    requires op == Extract(d, OpScan()) && desc == Extract(d, OpDescScan())
    ensures |op| == |d| && |desc| == |d|
    ensures forall i :: 0 <= i < |d| ==> (op[i].Str? <==> d[i].Str? && |d[i].text| > 0 && IsDigit(d[i].text[0]))
    ensures forall i :: 0 <= i < |d| ==> (op[i].Null? <==> !op[i].Str?)
    ensures forall i :: 0 <= i < |d| && op[i].Str? ==>
      |op[i].text| > 0 && AllDigits(op[i].text) && op[i].text <= d[i].text
      && (|op[i].text| == |d[i].text| || !IsDigit(d[i].text[|op[i].text|]))
    ensures forall i :: 0 <= i < |d| && desc[i] != Null ==> op[i] != Null
  {
    forall i | 0 <= i < |d|
      ensures (op[i].Str? <==> d[i].Str? && |d[i].text| > 0 && IsDigit(d[i].text[0]))
      ensures op[i].Null? <==> !op[i].Str?
      ensures op[i].Str? ==>
        |op[i].text| > 0 && AllDigits(op[i].text) && op[i].text <= d[i].text
        && (|op[i].text| == |d[i].text| || !IsDigit(d[i].text[|op[i].text|]))
      ensures desc[i] != Null ==> op[i] != Null
    {
      OpCell(d[i]);
    }
  }

  /** FeatureCell for every row of a column. */
  lemma FeatureRows(c: seq<Value>, vane: seq<Value>, loop: seq<Value>, reqd: seq<Value>, total: seq<Value>)
    requires vane == NumericColumn(Extract(c, FeatureScan(0))) && loop == NumericColumn(Extract(c, FeatureScan(1)))
    requires reqd == NumericColumn(Extract(c, FeatureScan(2))) && total == NumericColumn(Extract(c, FeatureScan(3)))
    ensures |vane| == |c| && |loop| == |c| && |reqd| == |c| && |total| == |c|
    ensures forall i :: 0 <= i < |c| && c[i].Str? && Features(c[i].text).Some? ==>
      var g := Features(c[i].text).value;
      && vane[i] == Num(DigitsValue(g[0])) && loop[i] == Num(DigitsValue(g[1]))
      && reqd[i] == Num(DigitsValue(g[2])) && total[i] == Num(DigitsValue(g[3]))
    ensures forall i :: 0 <= i < |c| && !(c[i].Str? && Features(c[i].text).Some?) ==>
      vane[i] == Null && loop[i] == Null && reqd[i] == Null && total[i] == Null
  {
    forall i | 0 <= i < |c|
      ensures c[i].Str? && Features(c[i].text).Some? ==>
        var g := Features(c[i].text).value;
        && vane[i] == Num(DigitsValue(g[0])) && loop[i] == Num(DigitsValue(g[1]))
        && reqd[i] == Num(DigitsValue(g[2])) && total[i] == Num(DigitsValue(g[3]))
      ensures !(c[i].Str? && Features(c[i].text).Some?) ==>
        vane[i] == Null && loop[i] == Null && reqd[i] == Null && total[i] == Null
    {
      FeatureCell(c[i]);
    }
  }

  /** After a normal return, OP, OP_DESC and the four feature columns of the
      cleaned frame are the ones split from the source columns, so OpRows and
      FeatureRows describe its rows. */
  lemma MMFCleanColumns(t: Table)
    requires MMFOutcome(t).status.Ok?
    ensures "CURRENT_OPER_DESC" in t.cols && "CURRENT_FEATURE_COUNT" in t.cols
    ensures var r := MMFOutcome(t).table; var d := t.cols["CURRENT_OPER_DESC"]; var c := t.cols["CURRENT_FEATURE_COUNT"];
      && "OP" in r.cols && r.cols["OP"] == Extract(d, OpScan())
      && "OP_DESC" in r.cols && r.cols["OP_DESC"] == Extract(d, OpDescScan())
      && "VANE" in r.cols && r.cols["VANE"] == NumericColumn(Extract(c, FeatureScan(0)))
      && "LOOP_CNT" in r.cols && r.cols["LOOP_CNT"] == NumericColumn(Extract(c, FeatureScan(1)))
      && "REQD_FEATURES" in r.cols && r.cols["REQD_FEATURES"] == NumericColumn(Extract(c, FeatureScan(2)))
      && "TOTAL" in r.cols && r.cols["TOTAL"] == NumericColumn(Extract(c, FeatureScan(3)))
      && "CURRENT_OPER_DESC" !in r.cols && "CURRENT_FEATURE_COUNT" !in r.cols
  {
    MMFSucceeds(t);
    MMFShape(t);
    var p := MMFStage(t, 4);
    StampedKeeps(p, MMFOutcome(t).table, StampColumn(t.cols["DATE_TIME"]).value,
      t.cols["CURRENT_OPER_DESC"], t.cols["CURRENT_FEATURE_COUNT"]);
  }

  /** Parsing DATE_TIME leaves the other columns as they were, as facts about
      plain tables. */
  lemma StampedKeeps(p: Table, r: Table, x: seq<Value>, d: seq<Value>, c: seq<Value>)
    requires r == SetColumn(p, "DATE_TIME", x)
    requires "OP" in p.cols && p.cols["OP"] == Extract(d, OpScan())
    requires "OP_DESC" in p.cols && p.cols["OP_DESC"] == Extract(d, OpDescScan())
    requires "VANE" in p.cols && p.cols["VANE"] == NumericColumn(Extract(c, FeatureScan(0)))
    requires "LOOP_CNT" in p.cols && p.cols["LOOP_CNT"] == NumericColumn(Extract(c, FeatureScan(1)))
    requires "REQD_FEATURES" in p.cols && p.cols["REQD_FEATURES"] == NumericColumn(Extract(c, FeatureScan(2)))
    requires "TOTAL" in p.cols && p.cols["TOTAL"] == NumericColumn(Extract(c, FeatureScan(3)))
    requires "CURRENT_OPER_DESC" !in p.cols && "CURRENT_FEATURE_COUNT" !in p.cols
    ensures "OP" in r.cols && r.cols["OP"] == Extract(d, OpScan())
    ensures "OP_DESC" in r.cols && r.cols["OP_DESC"] == Extract(d, OpDescScan())
    ensures "VANE" in r.cols && r.cols["VANE"] == NumericColumn(Extract(c, FeatureScan(0)))
    ensures "LOOP_CNT" in r.cols && r.cols["LOOP_CNT"] == NumericColumn(Extract(c, FeatureScan(1)))
    ensures "REQD_FEATURES" in r.cols && r.cols["REQD_FEATURES"] == NumericColumn(Extract(c, FeatureScan(2)))
    ensures "TOTAL" in r.cols && r.cols["TOTAL"] == NumericColumn(Extract(c, FeatureScan(3)))
    ensures "CURRENT_OPER_DESC" !in r.cols && "CURRENT_FEATURE_COUNT" !in r.cols
  {
  }

  /** `clean_df_MMF` is not idempotent: its own result has no
      CURRENT_OPER_DESC left, so a second call raises at once and changes
      nothing. */
  lemma MMFTwiceRaises(t: Table)
    requires MMFOutcome(t).status.Ok?
    ensures MMFOutcome(MMFOutcome(t).table) == Outcome(MMFOutcome(t).table, Err(KeyError("CURRENT_OPER_DESC")))
  {
    MMFCleanColumns(t);
  }
}

