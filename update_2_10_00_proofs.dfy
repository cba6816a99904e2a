/**
 * What the 2.10 updater achieves. For each step there is a closed form,
 * stated without the loops or the sequence of statements the updater runs,
 * and a lemma showing that the step computes it. Together the closed forms
 * show that running the whole update a second time changes nothing.
 */
module Update210Proofs {
  import opened Wrappers
  import opened Php
  import opened Schema
  import opened Update210

  // =====================================================================
  // Date formats

  /** A rewritten format is never a legacy one, and a format changes exactly when it was a legacy one. */
  lemma RewriteDateFormatRules(v: Value)
    ensures !IsLegacyDateFormat(RewriteDateFormat(v))
    ensures RewriteDateFormat(v) != v <==> IsLegacyDateFormat(v)
    ensures RewriteDateFormat(RewriteDateFormat(v)) == RewriteDateFormat(v)
  {
  }

  /** One member row after `_date_format_years`: a legacy `date_format` is rewritten, anything else is kept. */
  function RewriteMemberRow(r: Row): Row {
    if IsLegacyDateFormat(Get(r, "date_format")) then r["date_format" := RewriteDateFormat(Get(r, "date_format"))] else r
  }

  function RewriteMemberRows(rows: seq<Row>): (r: seq<Row>)
    ensures |r| == |rows|
  {
    seq(|rows|, i requires 0 <= i < |rows| => RewriteMemberRow(rows[i]))
  }

  /**
   * The two `update` statements on members rewrite every legacy format in
   * one pass: a row the first one changes is not matched by the second.
   * They fail only when there is no members table.
   */
  lemma MemberDateFormatsEffect(t: Tables)
    ensures MemberDateFormats(t).Success? <==> Members in t
    ensures Members in t ==>
      MemberDateFormats(t) == Success(t[Members := t[Members].(rows := RewriteMemberRows(t[Members].rows))])
  {
    if Members in t {
      var rows := t[Members].rows;
      var first := UpdateWhere(rows, "date_format", Str(MonthDayFullYear), Str(MonthDayShortYear));
      var t1 := t[Members := t[Members].(rows := first)];
      assert Update(t, Members, "date_format", Str(MonthDayFullYear), Str(MonthDayShortYear)) == Success(t1);
      var second := UpdateWhere(first, "date_format", Str(DayMonthFullYear), Str(DayMonthShortYear));
      forall i | 0 <= i < |rows| ensures second[i] == RewriteMemberRow(rows[i]) {
        if Get(rows[i], "date_format") == Str(MonthDayShortYear) {
          assert Get(first[i], "date_format") == Str(MonthDayFullYear);
        }
      }
      assert second == RewriteMemberRows(rows);
      assert t1[Members := t1[Members].(rows := second)] == t[Members := t[Members].(rows := second)];
    }
  }

  /** After the step no member row has a legacy date format. */
  lemma NoLegacyMemberFormats(rows: seq<Row>)
    ensures forall i :: 0 <= i < |rows| ==> !IsLegacyDateFormat(Get(RewriteMemberRows(rows)[i], "date_format"))
  {
  }

  /** Rewriting the member rows a second time changes nothing. */
  lemma RewriteMemberRowsIdempotent(rows: seq<Row>)
    ensures RewriteMemberRows(RewriteMemberRows(rows)) == RewriteMemberRows(rows)
  {
    var once := RewriteMemberRows(rows);
    forall i | 0 <= i < |rows| ensures RewriteMemberRow(once[i]) == once[i] {
      RewriteDateFormatRules(Get(rows[i], "date_format"));
    }
  }

  /** One site's preferences after `_date_format_years`. */
  function RewriteSitePrefs(p: Prefs): Prefs {
    if "date_format" in p && IsLegacyDateFormat(p["date_format"]) then p["date_format" := RewriteDateFormat(p["date_format"])] else p
  }

  /** The site ids the site loop visits. */
  function SiteIds(siteRows: seq<Row>): set<Value> {
    set k | 0 <= k < |siteRows| :: Get(siteRows[k], "site_id")
  }

  lemma SiteIdsSnoc(siteRows: seq<Row>)
    requires siteRows != []
    ensures SiteIds(siteRows) == SiteIds(siteRows[..|siteRows| - 1]) + {Get(siteRows[|siteRows| - 1], "site_id")}
  {
    var front := siteRows[..|siteRows| - 1];
    forall v | v in SiteIds(front) ensures v in SiteIds(siteRows) {
      var k :| 0 <= k < |front| && Get(front[k], "site_id") == v;
      assert siteRows[k] == front[k];
    }
    forall v | v in SiteIds(siteRows) ensures v in SiteIds(front) + {Get(siteRows[|siteRows| - 1], "site_id")} {
      var k :| 0 <= k < |siteRows| && Get(siteRows[k], "site_id") == v;
      if k < |front| {
        assert siteRows[k] == front[k];
      }
    }
  }

  /**
   * The site loop rewrites the legacy date format of every site it visits
   * and touches nothing else: no site is added or removed, an unvisited
   * site keeps its preferences, and a site listed twice is rewritten once.
   */
  lemma {:induction false} SiteDateFormatsEffect(sites: map<Value, Prefs>, siteRows: seq<Row>)
    ensures SiteDateFormats(sites, siteRows).Keys == sites.Keys
    ensures forall s :: s in sites ==>
      SiteDateFormats(sites, siteRows)[s] == if s in SiteIds(siteRows) then RewriteSitePrefs(sites[s]) else sites[s]
    decreases |siteRows|
  {
    if siteRows != [] {
      var front := siteRows[..|siteRows| - 1];
      SiteDateFormatsEffect(sites, front);
      SiteIdsSnoc(siteRows);
      var before := SiteDateFormats(sites, front);
      var site := Get(siteRows[|siteRows| - 1], "site_id");
      var update := LocalizationPreferences(ItemOf(before, site, "date_format"));
      if site in sites && site !in SiteIds(front) {
        assert before[site] == sites[site];
        if IsLegacyDateFormat(ItemOf(sites, site, "date_format")) {
          var current := sites[site]["date_format"];
          assert update == map["date_format" := RewriteDateFormat(current)];
          assert before[site] + update == RewriteSitePrefs(sites[site]);
        } else {
          assert update == map[];
        }
      } else if site in sites {
        RewriteDateFormatRules(ItemOf(sites, site, "date_format"));
        assert update == map[];
      } else {
        assert update == map[];
      }
    }
  }

  /** After the step no visited site has a legacy date format. */
  lemma NoLegacySiteFormats(sites: map<Value, Prefs>, siteRows: seq<Row>)
    ensures forall s :: s in SiteIds(siteRows) ==> !IsLegacyDateFormat(ItemOf(SiteDateFormats(sites, siteRows), s, "date_format"))
  {
    SiteDateFormatsEffect(sites, siteRows);
    forall s | s in SiteIds(siteRows) && s in sites {
      RewriteDateFormatRules(ItemOf(sites, s, "date_format"));
    }
  }

  /** When no visited site has a legacy format, the site loop writes nothing. */
  lemma {:induction false} SiteDateFormatsSettled(sites: map<Value, Prefs>, siteRows: seq<Row>)
    requires forall s :: s in SiteIds(siteRows) ==> !IsLegacyDateFormat(ItemOf(sites, s, "date_format"))
    ensures SiteDateFormats(sites, siteRows) == sites
    decreases |siteRows|
  {
    if siteRows != [] {
      SiteIdsSnoc(siteRows);
      SiteDateFormatsSettled(sites, siteRows[..|siteRows| - 1]);
    }
  }

  // =====================================================================
  // Category field columns

  /** The column names of the fields `_modify_category_data_fields` visits. */
  function FieldNames(fields: seq<Row>): set<string> {
    set k | 0 <= k < |fields| :: FieldColumnOf(fields[k])
  }

  /** The columns after the step: every named column that exists becomes nullable text. */
  function Retyped(columns: map<string, Column>, names: set<string>): (r: map<string, Column>)
    ensures r.Keys == columns.Keys
  {
    map c | c in columns :: if c in names then NullableText else columns[c]
  }

  /** The tables after the step: only the column types of `category_field_data` change. */
  function RetypedTables(t: Tables, names: set<string>): Tables {
    if CategoryFieldData in t then t[CategoryFieldData := t[CategoryFieldData].(columns := Retyped(t[CategoryFieldData].columns, names))] else t
  }

  /** The column a field's row names. */
  function FieldColumnOf(field: Row): string {
    FieldColumn(Get(field, "field_id"))
  }

  lemma FieldNamesSnoc(fields: seq<Row>)
    requires fields != []
    ensures FieldNames(fields) == FieldNames(fields[..|fields| - 1]) + {FieldColumnOf(fields[|fields| - 1])}
  {
    var front := fields[..|fields| - 1];
    forall c | c in FieldNames(front) ensures c in FieldNames(fields) {
      var k :| 0 <= k < |front| && FieldColumnOf(front[k]) == c;
      assert fields[k] == front[k];
    }
    forall c | c in FieldNames(fields) ensures c in FieldNames(front) + {FieldColumnOf(fields[|fields| - 1])} {
      var k :| 0 <= k < |fields| && FieldColumnOf(fields[k]) == c;
      if k < |front| {
        assert fields[k] == front[k];
      }
    }
  }

  /** Retyping one more column, as one more `modify_column` does. */
  lemma RetypedSnoc(columns: map<string, Column>, names: set<string>, name: string)
    ensures (if name in columns then Retyped(columns, names)[name := NullableText] else Retyped(columns, names))
      == Retyped(columns, names + {name})
  {
  }

  lemma RetypedNothing(columns: map<string, Column>)
    ensures Retyped(columns, {}) == columns
  {
  }

  /**
   * `_modify_category_data_fields` makes the column of every field that has
   * one nullable text. It adds, drops and renames no column, and changes no
   * key, no row and no other table.
   */
  lemma {:induction false} RetypeFieldsEffect(t: Tables, fields: seq<Row>)
    ensures RetypeFields(t, fields) == RetypedTables(t, FieldNames(fields))
    decreases |fields|
  {
    if fields == [] {
      assert FieldNames(fields) == {};
      if CategoryFieldData in t {
        RetypedNothing(t[CategoryFieldData].columns);
      }
    } else {
      var front := fields[..|fields| - 1];
      var name := FieldColumnOf(fields[|fields| - 1]);
      RetypeFieldsEffect(t, front);
      ModifyColumnInPlace(RetypedTables(t, FieldNames(front)), CategoryFieldData, name, NullableText);
      FieldNamesSnoc(fields);
      if CategoryFieldData in t {
        RetypedSnoc(t[CategoryFieldData].columns, FieldNames(front), name);
      }
    }
  }

  /** Retyping the same columns again changes nothing. */
  lemma RetypedTablesIdempotent(t: Tables, names: set<string>)
    ensures RetypedTables(RetypedTables(t, names), names) == RetypedTables(t, names)
  {
    if CategoryFieldData in t {
      var cols := t[CategoryFieldData].columns;
      assert Retyped(Retyped(cols, names), names) == Retyped(cols, names);
    }
  }

  /** Integer field ids name distinct columns, so no two fields share a column. */
  lemma FieldColumnInjective(a: int, b: int)
    ensures FieldColumn(Int(a)) == FieldColumn(Int(b)) ==> a == b
  {
    if FieldColumn(Int(a)) == FieldColumn(Int(b)) {
      var prefix := "field_id_";
      assert IntToString(a) == FieldColumn(Int(a))[|prefix|..];
      assert IntToString(b) == FieldColumn(Int(b))[|prefix|..];
      IntToStringInjective(a, b);
    }
  }

  // =====================================================================
  // Private messages

  /** Every site ends up with both options set to `y`; its other preferences are kept, and no site is added. */
  lemma PrivateMessagesEnabled(sites: map<Value, Prefs>)
    ensures MergeIntoAll(sites, PrivateMessageOptions).Keys == sites.Keys
    ensures forall s :: s in sites ==>
      ItemOf(MergeIntoAll(sites, PrivateMessageOptions), s, "prv_msg_enabled") == Str("y")
      && ItemOf(MergeIntoAll(sites, PrivateMessageOptions), s, "prv_msg_allow_attachments") == Str("y")
    ensures forall s, n :: s in sites && n in sites[s] && n !in PrivateMessageOptions ==>
      ItemOf(MergeIntoAll(sites, PrivateMessageOptions), s, n) == sites[s][n]
  {
  }

  // =====================================================================
  // The whole update

  /** The tables after a successful update: `login_state` added, field columns retyped, member formats rewritten. */
  function UpdatedTables(t: Tables): Tables
    requires CategoryFields in t
  {
    var t2 := RetypedTables(LoginStateStep(t), FieldNames(t[CategoryFields].rows));
    if Members in t2 then t2[Members := t2[Members].(rows := RewriteMemberRows(t2[Members].rows))] else t2
  }

  /** The site preferences after a successful update. */
  function UpdatedSites(sites: map<Value, Prefs>, siteRows: seq<Row>): map<Value, Prefs> {
    MergeIntoAll(SiteDateFormats(sites, siteRows), PrivateMessageOptions)
  }

  /**
   * The update keeps every table, leaves `category_fields` as it was, and
   * leaves the model's `sites` rows (the site ids the loop reads) unchanged;
   * the preference columns of `sites` are held by `SiteConfig` instead.
   */
  lemma UpdatedTablesFrame(t: Tables)
    requires CategoryFields in t
    ensures UpdatedTables(t).Keys == t.Keys
    ensures UpdatedTables(t)[CategoryFields] == t[CategoryFields]
    ensures Sites in t ==> UpdatedTables(t)[Sites] == t[Sites]
  {
  }

  /** Running the plan is running its four steps one after another, stopping at a failure. */
  lemma RunPlan(s: State)
    ensures RunSteps(Plan, s) ==
      var o1 := StepOutcome(MemberLoginState, s);
      var o2 := StepOutcome(ModifyCategoryDataFields, o1.state);
      var o3 := StepOutcome(DateFormatYears, o2.state);
      if o2.failure.Some? then o2
      else if o3.failure.Some? then o3
      else StepOutcome(AddNewPrivateMessagesOptions, o3.state)
  {
    assert Plan[1..] == [ModifyCategoryDataFields, DateFormatYears, AddNewPrivateMessagesOptions];
    assert Plan[1..][1..] == [DateFormatYears, AddNewPrivateMessagesOptions];
    assert Plan[1..][1..][1..] == [AddNewPrivateMessagesOptions];
  }

  /** The first two steps: `login_state` added, and the field columns retyped when `category_fields` exists. */
  lemma FirstStepsEffect(s: State)
    ensures var o2 := StepOutcome(ModifyCategoryDataFields, StepOutcome(MemberLoginState, s).state);
      (o2.failure.None? <==> CategoryFields in s.tables)
      && o2.state.sites == s.sites
      && (CategoryFields in s.tables ==>
            o2.state.tables == RetypedTables(LoginStateStep(s.tables), FieldNames(s.tables[CategoryFields].rows)))
  {
    var t1 := LoginStateStep(s.tables);
    if CategoryFields in s.tables {
      assert t1[CategoryFields] == s.tables[CategoryFields];
      RetypeFieldsEffect(t1, s.tables[CategoryFields].rows);
    }
  }

  /** The state a successful update leaves behind. */
  lemma UpdateEffect(s: State)
    ensures RunSteps(Plan, s).failure.None? <==> CategoryFields in s.tables && Members in s.tables && Sites in s.tables
    ensures RunSteps(Plan, s).failure.None? ==>
      RunSteps(Plan, s).state == State(UpdatedTables(s.tables), UpdatedSites(s.sites, s.tables[Sites].rows))
  {
    RunPlan(s);
    FirstStepsEffect(s);
    if CategoryFields in s.tables {
      var t2 := RetypedTables(LoginStateStep(s.tables), FieldNames(s.tables[CategoryFields].rows));
      MemberDateFormatsEffect(t2);
      if Members in s.tables {
        var t3 := UpdatedTables(s.tables);
        assert MemberDateFormats(t2) == Success(t3);
        if Sites in s.tables {
          UpdatedTablesFrame(s.tables);
          assert DateFormatStep(State(t2, s.sites)) == StepResult(State(t3, SiteDateFormats(s.sites, s.tables[Sites].rows)), None);
        }
      }
    }
  }

  /** The tables of an updated database are left as they are by a second update. */
  lemma UpdatedTablesIdempotent(t: Tables)
    requires CategoryFields in t
    ensures UpdatedTables(UpdatedTables(t)) == UpdatedTables(t)
  {
    var names := FieldNames(t[CategoryFields].rows);
    var t1 := LoginStateStep(t);
    var t2 := RetypedTables(t1, names);
    var t3 := UpdatedTables(t);
    UpdatedTablesFrame(t);
    assert LoginStateStep(t3) == t3;
    RetypedTablesIdempotent(t1, names);
    assert RetypedTables(t3, names) == t3;
    if Members in t2 {
      RewriteMemberRowsIdempotent(t2[Members].rows);
    }
  }

  /** Site preferences after the update are left as they are by a second update. */
  lemma UpdatedSitesIdempotent(sites: map<Value, Prefs>, siteRows: seq<Row>)
    ensures UpdatedSites(UpdatedSites(sites, siteRows), siteRows) == UpdatedSites(sites, siteRows)
  {
    var done := UpdatedSites(sites, siteRows);
    NoLegacySiteFormats(sites, siteRows);
    SiteDateFormatsSettled(done, siteRows);
    forall s | s in done ensures done[s] + PrivateMessageOptions == done[s] {
      var before := SiteDateFormats(sites, siteRows)[s];
      assert done[s] == before + PrivateMessageOptions;
      assert (before + PrivateMessageOptions) + PrivateMessageOptions == before + PrivateMessageOptions;
    }
  }

  /**
   * A second run of a successful update succeeds and changes nothing:
   * each step finds its work already done.
   */
  lemma UpdateIsIdempotent(s: State)
    requires RunSteps(Plan, s).failure.None?
    ensures RunSteps(Plan, RunSteps(Plan, s).state) == StepResult(RunSteps(Plan, s).state, None)
  {
    UpdateEffect(s);
    var done := RunSteps(Plan, s).state;
    UpdatedTablesFrame(s.tables);
    UpdateEffect(done);
    UpdatedTablesIdempotent(s.tables);
    UpdatedSitesIdempotent(s.sites, s.tables[Sites].rows);
  }
}
