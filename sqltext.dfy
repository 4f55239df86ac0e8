/** The fixed text of the SELECT statements the dashboard sends to the
    database. Lines are kept as written in the source, relative to the
    indentation of the surrounding Python code, each spelled as a few short
    literals joined together. */
module SqlText {

  /** The fixed text of a query: the lines before the `BETWEEN` line, what
      precedes `BETWEEN` and follows its closing parenthesis on that line, the
      blanks before `AND` on the next line, and the lines after it. */
  datatype Shape = Shape(head: seq<string>, lead: string, trail: string, gap: string, tail: seq<string>)

  /** Inspection overrides, restricted to machines of type DEPARTMENT
      (misc/data_utils.py:8-19). */
  const IA: Shape := Shape(
    [ "SELECT process_plan_id, " + "inspect_type, inspection_id, " + "serial_no,",
      "insp_emp_id, " + "TO_CHAR(date_time, " + "'DD-MON-YYYY HH24:MI:SS') AS " + "DATE_TIME,",
      "NVL(accept_comment, 'x') AS " + "ACCEPT_COMMENT, " + "NVL(part_program, 'x') AS " + "PART_PROGRAM",
      "FROM " + "inspect.inspect_sum_results"
    ],
    "WHERE date_time ", " ", "                    ",
    [ "AND insp_mach_id IN (",
      "    SELECT m.machine_id FROM " + "mpcs.machine m",
      "    WHERE NVL(machine_type, " + "'x') = 'DEPARTMENT'",
      ")"
    ])

  /** Ship-release overrides, joined to one ship row per release: the row
      ranked first by lot number (misc/data_utils.py:21-53). */
  const IB: Shape := Shape(
    [ "WITH ranked_ships AS (",
      "    SELECT ",
      "        s.release_no, ",
      "        s.lot_no, ",
      "        s.serial_no, ",
      "        s.resource_no, ",
      "        s.resource_type, ",
      "        ROW_NUMBER() OVER " + "(PARTITION BY s.release_no " + "ORDER BY s.lot_no) AS rn",
      "    FROM " + "mpcs.ship_release_ser s",
      ")",
      "SELECT DISTINCT ",
      "    l.record_user, ",
      "    l.log_comment, ",
      "    r.lot_no, ",
      "    r.serial_no, ",
      "    r.resource_no, ",
      "    r.resource_type, ",
      "    res.resource_name,",
      "    lot.process_plan_id,",
      "    TO_CHAR(l.log_date, " + "'DD-MON-YYYY') AS log_date",
      "FROM mpcs.mpcs_log l",
      "JOIN ranked_ships r ON " + "r.release_no = " + "REGEXP_SUBSTR(l.log_comment, " + "'REL: ([0-9]+)', 1, 1, NULL, " + "1)",
      "JOIN mpcs.lot lot ON r.lot_no " + "= lot.lot_no",
      "JOIN mpcs.part_resource res " + "ON r.resource_no = " + "res.resource_no  ",
      "                              " + "AND r.resource_type = " + "res.resource_type  "
    ],
    "WHERE l.log_date ", "  ", "                    ",
    [ "AND l.table_nm LIKE " + "'SHIP_RELEASE%'",
      "AND l.screen_nm LIKE " + "'RELEASE.SQR%'",
      "AND l.log_comment LIKE " + "'REL%PRINTED%(Acc%)'",
      "AND r.rn = 1"
    ])

  /** Missing-feature overrides (misc/data_utils.py:55-63). */
  const MMF: Shape := Shape(
    [ "SELECT process_plan_id, " + "process_step_id, lot_no, " + "serial_no,",
      "accept_emp_id, " + "TO_CHAR(date_time, " + "'DD-MON-YYYY HH24:MI:SS') AS " + "DATE_TIME,",
      "accept_comments, " + "current_oper_desc, " + "current_part_program,",
      "current_feature_count",
      "FROM mpcs.mfg_process_accept"
    ],
    "WHERE date_time ", " ", "                    ",
    [])

  /** The older ship-release query of the test script: distinct pairs of
      user and comment, with a looser comment filter (misc/test.py:33-41). */
  const IBOlder: Shape := Shape(
    [ "SELECT DISTINCT record_user, " + "log_comment",
      "FROM mpcs.mpcs_log"
    ],
    "WHERE log_date ", " ", "                ",
    [ "AND table_nm LIKE " + "'SHIP_RELEASE%'",
      "AND screen_nm LIKE " + "'RELEASE.SQR%'",
      "AND log_comment LIKE " + "'REL%PRINTED%(Acc%'"
    ])

  // ----- No replacement fields in the fixed text -----

  /** `s` holds no character `str.format` treats specially. */
  predicate NoBraces(s: string) {
    forall i :: 0 <= i < |s| ==> s[i] != '{' && s[i] != '}'
  }

  predicate ShapeNoBraces(sh: Shape) {
    && (forall k :: 0 <= k < |sh.head| ==> NoBraces(sh.head[k]))
    && (forall k :: 0 <= k < |sh.tail| ==> NoBraces(sh.tail[k]))
    && NoBraces(sh.lead) && NoBraces(sh.trail) && NoBraces(sh.gap)
  }

  lemma JoinNoBraces(a: string, b: string)
    requires NoBraces(a) && NoBraces(b)
    ensures NoBraces(a + b)
  {
  }

  lemma IAPlain0()
    ensures NoBraces(IA.head[0])
  {
    JoinNoBraces("SELECT process_plan_id, ", "inspect_type, inspection_id, ");
    JoinNoBraces("SELECT process_plan_id, " + "inspect_type, inspection_id, ", "serial_no,");
  }

  lemma IAPlain1()
    ensures NoBraces(IA.head[1])
  {
    JoinNoBraces("insp_emp_id, ", "TO_CHAR(date_time, ");
    JoinNoBraces("insp_emp_id, " + "TO_CHAR(date_time, ", "'DD-MON-YYYY HH24:MI:SS') AS ");
    JoinNoBraces("insp_emp_id, " + "TO_CHAR(date_time, " + "'DD-MON-YYYY HH24:MI:SS') AS ", "DATE_TIME,");
  }

  lemma IAPlain2()
    ensures NoBraces(IA.head[2])
  {
    JoinNoBraces("NVL(accept_comment, 'x') AS ", "ACCEPT_COMMENT, ");
    JoinNoBraces("NVL(accept_comment, 'x') AS " + "ACCEPT_COMMENT, ", "NVL(part_program, 'x') AS ");
    JoinNoBraces("NVL(accept_comment, 'x') AS " + "ACCEPT_COMMENT, " + "NVL(part_program, 'x') AS ", "PART_PROGRAM");
  }

  lemma IAPlain3()
    ensures NoBraces(IA.head[3])
  {
    JoinNoBraces("FROM ", "inspect.inspect_sum_results");
  }

  lemma IAPlain4()
    ensures NoBraces(IA.tail[0])
  {
  }

  lemma IAPlain5()
    ensures NoBraces(IA.tail[1])
  {
    JoinNoBraces("    SELECT m.machine_id FROM ", "mpcs.machine m");
  }

  lemma IAPlain6()
    ensures NoBraces(IA.tail[2])
  {
    JoinNoBraces("    WHERE NVL(machine_type, ", "'x') = 'DEPARTMENT'");
  }

  lemma IAPlain7()
    ensures NoBraces(IA.tail[3])
  {
  }

  /** The fixed text of `IA` holds no brace. */
  lemma IANoBraces()
    ensures ShapeNoBraces(IA)
  {
    IAPlain0();
    IAPlain1();
    IAPlain2();
    IAPlain3();
    IAPlain4();
    IAPlain5();
    IAPlain6();
    IAPlain7();
  }

  lemma IBPlain0()
    ensures NoBraces(IB.head[0])
      && NoBraces(IB.head[1])
  {
  }

  lemma IBPlain1()
    ensures NoBraces(IB.head[2])
      && NoBraces(IB.head[3])
  {
  }

  lemma IBPlain2()
    ensures NoBraces(IB.head[4])
      && NoBraces(IB.head[5])
  {
  }

  lemma IBPlain3()
    ensures NoBraces(IB.head[6])
  {
  }

  lemma IBPlain4()
    ensures NoBraces(IB.head[7])
  {
    JoinNoBraces("        ROW_NUMBER() OVER ", "(PARTITION BY s.release_no ");
    JoinNoBraces("        ROW_NUMBER() OVER " + "(PARTITION BY s.release_no ", "ORDER BY s.lot_no) AS rn");
  }

  lemma IBPlain5()
    ensures NoBraces(IB.head[8])
      && NoBraces(IB.head[9])
  {
    JoinNoBraces("    FROM ", "mpcs.ship_release_ser s");
  }

  lemma IBPlain6()
    ensures NoBraces(IB.head[10])
      && NoBraces(IB.head[11])
  {
  }

  lemma IBPlain7()
    ensures NoBraces(IB.head[12])
      && NoBraces(IB.head[13])
  {
  }

  lemma IBPlain8()
    ensures NoBraces(IB.head[14])
      && NoBraces(IB.head[15])
  {
  }

  lemma IBPlain9()
    ensures NoBraces(IB.head[16])
      && NoBraces(IB.head[17])
  {
  }

  lemma IBPlain10()
    ensures NoBraces(IB.head[18])
  {
  }

  lemma IBPlain11()
    ensures NoBraces(IB.head[19])
  {
    JoinNoBraces("    TO_CHAR(l.log_date, ", "'DD-MON-YYYY') AS log_date");
  }

  lemma IBPlain12()
    ensures NoBraces(IB.head[20])
  {
  }

  lemma IBPlain13()
    ensures NoBraces(IB.head[21])
  {
    JoinNoBraces("JOIN ranked_ships r ON ", "r.release_no = ");
    JoinNoBraces("JOIN ranked_ships r ON " + "r.release_no = ", "REGEXP_SUBSTR(l.log_comment, ");
    JoinNoBraces("JOIN ranked_ships r ON " + "r.release_no = " + "REGEXP_SUBSTR(l.log_comment, ", "'REL: ([0-9]+)', 1, 1, NULL, ");
    JoinNoBraces("JOIN ranked_ships r ON " + "r.release_no = " + "REGEXP_SUBSTR(l.log_comment, " + "'REL: ([0-9]+)', 1, 1, NULL, ", "1)");
  }

  lemma IBPlain14()
    ensures NoBraces(IB.head[22])
  {
    JoinNoBraces("JOIN mpcs.lot lot ON r.lot_no ", "= lot.lot_no");
  }

  lemma IBPlain15()
    ensures NoBraces(IB.head[23])
  {
    JoinNoBraces("JOIN mpcs.part_resource res ", "ON r.resource_no = ");
    JoinNoBraces("JOIN mpcs.part_resource res " + "ON r.resource_no = ", "res.resource_no  ");
  }

  lemma IBPlain16()
    ensures NoBraces(IB.head[24])
  {
    JoinNoBraces("                              ", "AND r.resource_type = ");
    JoinNoBraces("                              " + "AND r.resource_type = ", "res.resource_type  ");
  }

  lemma IBPlain17()
    ensures NoBraces(IB.tail[0])
  {
    JoinNoBraces("AND l.table_nm LIKE ", "'SHIP_RELEASE%'");
  }

  lemma IBPlain18()
    ensures NoBraces(IB.tail[1])
  {
    JoinNoBraces("AND l.screen_nm LIKE ", "'RELEASE.SQR%'");
  }

  lemma IBPlain19()
    ensures NoBraces(IB.tail[2])
  {
    JoinNoBraces("AND l.log_comment LIKE ", "'REL%PRINTED%(Acc%)'");
  }

  lemma IBPlain20()
    ensures NoBraces(IB.tail[3])
  {
  }

  /** The fixed text of `IB` holds no brace. */
  lemma IBNoBraces()
    ensures ShapeNoBraces(IB)
  {
    IBPlain0();
    IBPlain1();
    IBPlain2();
    IBPlain3();
    IBPlain4();
    IBPlain5();
    IBPlain6();
    IBPlain7();
    IBPlain8();
    IBPlain9();
    IBPlain10();
    IBPlain11();
    IBPlain12();
    IBPlain13();
    IBPlain14();
    IBPlain15();
    IBPlain16();
    IBPlain17();
    IBPlain18();
    IBPlain19();
    IBPlain20();
  }

  lemma MMFPlain0()
    ensures NoBraces(MMF.head[0])
  {
    JoinNoBraces("SELECT process_plan_id, ", "process_step_id, lot_no, ");
    JoinNoBraces("SELECT process_plan_id, " + "process_step_id, lot_no, ", "serial_no,");
  }

  lemma MMFPlain1()
    ensures NoBraces(MMF.head[1])
  {
    JoinNoBraces("accept_emp_id, ", "TO_CHAR(date_time, ");
    JoinNoBraces("accept_emp_id, " + "TO_CHAR(date_time, ", "'DD-MON-YYYY HH24:MI:SS') AS ");
    JoinNoBraces("accept_emp_id, " + "TO_CHAR(date_time, " + "'DD-MON-YYYY HH24:MI:SS') AS ", "DATE_TIME,");
  }

  lemma MMFPlain2()
    ensures NoBraces(MMF.head[2])
  {
    JoinNoBraces("accept_comments, ", "current_oper_desc, ");
    JoinNoBraces("accept_comments, " + "current_oper_desc, ", "current_part_program,");
  }

  lemma MMFPlain3()
    ensures NoBraces(MMF.head[3])
  {
  }

  lemma MMFPlain4()
    ensures NoBraces(MMF.head[4])
  {
  }

  /** The fixed text of `MMF` holds no brace. */
  lemma MMFNoBraces()
    ensures ShapeNoBraces(MMF)
  {
    MMFPlain0();
    MMFPlain1();
    MMFPlain2();
    MMFPlain3();
    MMFPlain4();
  }

  lemma IBOlderPlain0()
    ensures NoBraces(IBOlder.head[0])
  {
    JoinNoBraces("SELECT DISTINCT record_user, ", "log_comment");
  }

  lemma IBOlderPlain1()
    ensures NoBraces(IBOlder.head[1])
  {
  }

  lemma IBOlderPlain2()
    ensures NoBraces(IBOlder.tail[0])
  {
    JoinNoBraces("AND table_nm LIKE ", "'SHIP_RELEASE%'");
  }

  lemma IBOlderPlain3()
    ensures NoBraces(IBOlder.tail[1])
  {
    JoinNoBraces("AND screen_nm LIKE ", "'RELEASE.SQR%'");
  }

  lemma IBOlderPlain4()
    ensures NoBraces(IBOlder.tail[2])
  {
    JoinNoBraces("AND log_comment LIKE ", "'REL%PRINTED%(Acc%'");
  }

  /** The fixed text of `IBOlder` holds no brace. */
  lemma IBOlderNoBraces()
    ensures ShapeNoBraces(IBOlder)
  {
    IBOlderPlain0();
    IBOlderPlain1();
    IBOlderPlain2();
    IBOlderPlain3();
    IBOlderPlain4();
  }
}
