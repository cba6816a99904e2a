/**
 * The 2.10 updater: four steps run in order. It gives the sessions table a
 * `login_state` column, makes every category field column nullable text,
 * restores four-digit years in the two legacy date formats (for members and
 * for each site's preferences), and turns the two private-message options
 * on for every site.
 *
 * Site preferences live in a `SiteConfig` object: for each site id, the
 * site's preferences by name.
 */
module Update210 {
  import opened Wrappers
  import opened Php
  import opened Schema
  import opened Database

  type Prefs = map<string, Value>

  /** The per-site configuration object, reduced to the preferences it holds for each site. */
  class SiteConfig {
    var sites: map<Value, Prefs>

    constructor (initial: map<Value, Prefs>)
      ensures sites == initial
    {
      sites := initial;
    }

    /** `site_prefs('', site)` followed by `item(name)`: the preference, or NULL when there is none. */
    function Item(site: Value, name: string): Value
      reads this
    {
      ItemOf(sites, site, name)
    }

    /** `update_site_prefs(prefs, site)`: merges `prefs` into one site's preferences. */
    method UpdateSitePrefs(prefs: Prefs, site: Value)
      modifies this
      ensures sites == MergeInto(old(sites), prefs, site)
    {
      sites := MergeInto(sites, prefs, site);
    }

    /** `update_site_prefs(prefs, 'all')`: merges `prefs` into every site's preferences. */
    method UpdateAllSitePrefs(prefs: Prefs)
      modifies this
      ensures sites == MergeIntoAll(old(sites), prefs)
    {
      sites := MergeIntoAll(sites, prefs);
    }
  }

  function ItemOf(sites: map<Value, Prefs>, site: Value, name: string): Value {
    if site in sites && name in sites[site] then sites[site][name] else Null
  }

  function MergeInto(sites: map<Value, Prefs>, prefs: Prefs, site: Value): map<Value, Prefs> {
    if site in sites then sites[site := sites[site] + prefs] else sites
  }

  function MergeIntoAll(sites: map<Value, Prefs>, prefs: Prefs): map<Value, Prefs> {
    map s | s in sites :: sites[s] + prefs
  }

  /** The steps of `do_update`. */
  datatype Step = MemberLoginState | ModifyCategoryDataFields | DateFormatYears | AddNewPrivateMessagesOptions

  const Plan: seq<Step> := [MemberLoginState, ModifyCategoryDataFields, DateFormatYears, AddNewPrivateMessagesOptions]

  /** The database and the site preferences together. */
  datatype State = State(tables: Tables, sites: map<Value, Prefs>)

  datatype StepResult = StepResult(state: State, failure: Option<Error>)

  // =====================================================================
  // _member_login_state

  /**
   * The column `add_column` gives `login_state`: a varchar, and, since the
   * definition says nothing about NULL and adding a column is not a table
   * creation, one that admits NULL.
   */
  const LoginStateColumn := Column(VarcharColumn, true)

  function LoginStateStep(t: Tables): Tables {
    AddColumn(t, Sessions, "login_state", LoginStateColumn)
  }

  // =====================================================================
  // _modify_category_data_fields

  /** `'field_id_' . $field['field_id']`. */
  function FieldColumn(fieldId: Value): string {
    "field_id_" + ToString(fieldId)
  }

  const NullableText := Column(TextColumn, true)

  /** `modify_column` of each field's column to itself, as nullable text, field by field. */
  function RetypeFields(t: Tables, fields: seq<Row>): Tables
    decreases |fields|
  {
    if fields == [] then t
    else
      var name := FieldColumn(Get(fields[|fields| - 1], "field_id"));
      ModifyColumn(RetypeFields(t, fields[..|fields| - 1]), CategoryFieldData, name, name, NullableText)
  }

  function CategoryFieldsStep(t: Tables): (Tables, Option<Error>) {
    match Select(t, CategoryFields)
    case Failure(e) => (t, Some(e))
    case Success(fields) => (RetypeFields(t, fields), None)
  }

  // =====================================================================
  // _date_format_years

  const MonthDayShortYear := "%n/%j/%y"
  const MonthDayFullYear := "%n/%j/%Y"
  const DayMonthShortYear := "%j-%n-%y"
  const DayMonthFullYear := "%j/%n/%Y"

  /** The two legacy formats become their four-digit forms; every other value is kept. */
  function RewriteDateFormat(v: Value): Value {
    if v == Str(MonthDayShortYear) then Str(MonthDayFullYear)
    else if v == Str(DayMonthShortYear) then Str(DayMonthFullYear)
    else v
  }

  predicate IsLegacyDateFormat(v: Value) {
    v == Str(MonthDayShortYear) || v == Str(DayMonthShortYear)
  }

  /** The two `update` statements on members. */
  function MemberDateFormats(t: Tables): Result<Tables, Error> {
    match Update(t, Members, "date_format", Str(MonthDayFullYear), Str(MonthDayShortYear))
    case Failure(e) => Failure(e)
    case Success(t1) => Update(t1, Members, "date_format", Str(DayMonthFullYear), Str(DayMonthShortYear))
  }

  /** The preferences the site loop writes for one site: the rewritten date format, or nothing. */
  function LocalizationPreferences(current: Value): Prefs {
    if current == Str(MonthDayShortYear) then map["date_format" := Str(MonthDayFullYear)]
    else if current == Str(DayMonthShortYear) then map["date_format" := Str(DayMonthFullYear)]
    else map[]
  }

  /** The site loop, site row by site row. */
  function SiteDateFormats(sites: map<Value, Prefs>, siteRows: seq<Row>): map<Value, Prefs>
    decreases |siteRows|
  {
    if siteRows == [] then sites
    else
      var before := SiteDateFormats(sites, siteRows[..|siteRows| - 1]);
      var site := Get(siteRows[|siteRows| - 1], "site_id");
      var update := LocalizationPreferences(ItemOf(before, site, "date_format"));
      if update != map[] then MergeInto(before, update, site) else before
  }

  function DateFormatStep(s: State): StepResult {
    match MemberDateFormats(s.tables)
    case Failure(e) => StepResult(s, Some(e))
    case Success(t1) =>
      match Select(t1, Sites)
      case Failure(e) => StepResult(State(t1, s.sites), Some(e))
      case Success(siteRows) => StepResult(State(t1, SiteDateFormats(s.sites, siteRows)), None)
  }

  // =====================================================================
  // _add_new_private_messages_options

  const PrivateMessageOptions: Prefs := map["prv_msg_enabled" := Str("y"), "prv_msg_allow_attachments" := Str("y")]

  // =====================================================================
  // The plan

  function StepOutcome(step: Step, s: State): StepResult {
    match step
    case MemberLoginState => StepResult(State(LoginStateStep(s.tables), s.sites), None)
    case ModifyCategoryDataFields =>
      var (t, failure) := CategoryFieldsStep(s.tables);
      StepResult(State(t, s.sites), failure)
    case DateFormatYears => DateFormatStep(s)
    case AddNewPrivateMessagesOptions => StepResult(State(s.tables, MergeIntoAll(s.sites, PrivateMessageOptions)), None)
  }

  /** Runs `steps` in order and stops at the first one that fails. */
  function RunSteps(steps: seq<Step>, s: State): StepResult
    decreases |steps|
  {
    if steps == [] then StepResult(s, None)
    else
      var o := StepOutcome(steps[0], s);
      if o.failure.Some? then o else RunSteps(steps[1..], o.state)
  }

  // =====================================================================
  // The updater's methods

  /** _member_login_state. */
  method AddLoginStateColumn(db: Database)
    modifies db
    ensures db.tables == LoginStateStep(old(db.tables))
  {
    db.AddColumn(Sessions, "login_state", LoginStateColumn);
  }

  /** _modify_category_data_fields. */
  method RetypeCategoryFieldColumns(db: Database) returns (failure: Option<Error>)
    modifies db
    ensures (db.tables, failure) == CategoryFieldsStep(old(db.tables))
  {
    ghost var t0 := db.tables;
    var fields := db.Get(CategoryFields);
    if fields.Failure? {
      return Some(fields.error);
    }
    var i := 0;
    while i < |fields.value|
      invariant 0 <= i <= |fields.value|
      invariant db.tables == RetypeFields(t0, fields.value[..i])
    {
      var name := FieldColumn(Get(fields.value[i], "field_id"));
      db.ModifyColumn(CategoryFieldData, name, name, NullableText);
      assert fields.value[..i + 1][..i] == fields.value[..i];
      i := i + 1;
    }
    assert fields.value[..i] == fields.value;
    return None;
  }

  /** _date_format_years. */
  method RestoreFullYears(db: Database, config: SiteConfig) returns (failure: Option<Error>)
    modifies db, config
    ensures StepResult(State(db.tables, config.sites), failure) == DateFormatStep(old(State(db.tables, config.sites)))
  {
    ghost var s0 := State(db.tables, config.sites);
    failure := RestoreMemberYears(db);
    if failure.Some? {
      return;
    }
    ghost var t1 := db.tables;
    var siteRows := db.Get(Sites);
    if siteRows.Failure? {
      assert DateFormatStep(s0) == StepResult(State(t1, s0.sites), Some(siteRows.error));
      return Some(siteRows.error);
    }
    RestoreSiteYears(config, siteRows.value);
    assert DateFormatStep(s0) == StepResult(State(t1, SiteDateFormats(s0.sites, siteRows.value)), None);
    return None;
  }

  /** The two member updates of `_date_format_years`. */
  method RestoreMemberYears(db: Database) returns (failure: Option<Error>)
    modifies db
    ensures failure.None? <==> MemberDateFormats(old(db.tables)).Success?
    ensures failure.None? ==> db.tables == MemberDateFormats(old(db.tables)).value
    ensures failure.Some? ==> failure.value == MemberDateFormats(old(db.tables)).error && db.tables == old(db.tables)
  {
    failure := db.Update(Members, "date_format", Str(MonthDayFullYear), Str(MonthDayShortYear));
    if failure.Some? {
      return;
    }
    failure := db.Update(Members, "date_format", Str(DayMonthFullYear), Str(DayMonthShortYear));
  }

  /** One more site row: the site loop's state after row `i`. */
  lemma SiteDateFormatsNext(sites: map<Value, Prefs>, rows: seq<Row>, i: int)
    requires 0 <= i < |rows|
    ensures var before := SiteDateFormats(sites, rows[..i]);
      var site := Get(rows[i], "site_id");
      var update := LocalizationPreferences(ItemOf(before, site, "date_format"));
      SiteDateFormats(sites, rows[..i + 1]) == if update != map[] then MergeInto(before, update, site) else before
  {
    assert rows[..i + 1][..i] == rows[..i];
  }

  /** The site loop of `_date_format_years`. */
  method RestoreSiteYears(config: SiteConfig, rows: seq<Row>)
    modifies config
    ensures config.sites == SiteDateFormats(old(config.sites), rows)
  {
    var i := 0;
    while i < |rows|
      invariant 0 <= i <= |rows|
      invariant config.sites == SiteDateFormats(old(config.sites), rows[..i])
    {
      SiteDateFormatsNext(old(config.sites), rows, i);
      var site := Get(rows[i], "site_id");
      var current := config.Item(site, "date_format");
      var localization: Prefs := map[];
      if current == Str(MonthDayShortYear) {
        localization := map["date_format" := Str(MonthDayFullYear)];
      } else if current == Str(DayMonthShortYear) {
        localization := map["date_format" := Str(DayMonthFullYear)];
      }
      assert localization == LocalizationPreferences(current);
      if localization != map[] {
        config.UpdateSitePrefs(localization, site);
      }
      i := i + 1;
    }
    assert rows[..i] == rows;
  }

  /** _add_new_private_messages_options. */
  method EnablePrivateMessages(config: SiteConfig)
    modifies config
    ensures config.sites == MergeIntoAll(old(config.sites), PrivateMessageOptions)
  {
    config.UpdateAllSitePrefs(map["prv_msg_enabled" := Str("y"), "prv_msg_allow_attachments" := Str("y")]);
  }

  /** `$this->$v()`. */
  method RunStep(db: Database, config: SiteConfig, step: Step) returns (failure: Option<Error>)
    modifies db, config
    ensures StepResult(State(db.tables, config.sites), failure) == StepOutcome(step, old(State(db.tables, config.sites)))
  {
    match step
    case MemberLoginState =>
      AddLoginStateColumn(db);
      failure := None;
    case ModifyCategoryDataFields =>
      failure := RetypeCategoryFieldColumns(db);
    case DateFormatYears =>
      failure := RestoreFullYears(db, config);
    case AddNewPrivateMessagesOptions =>
      EnablePrivateMessages(config);
      failure := None;
  }

  /** `do_update`: the four steps in order, halting at the first one that fails. */
  method DoUpdate(db: Database, config: SiteConfig) returns (progress: seq<Step>, failure: Option<Error>)
    modifies db, config
    ensures StepResult(State(db.tables, config.sites), failure) == RunSteps(Plan, old(State(db.tables, config.sites)))
    ensures failure.None? ==> progress == Plan
    ensures failure.Some? ==> 0 < |progress| <= |Plan| && progress == Plan[..|progress|]
  {
    progress, failure := RunInOrder(db, config, Plan);
  }

  /** The loop over the step list: each step in turn, stopping after the first that fails. */
  method RunInOrder(db: Database, config: SiteConfig, steps: seq<Step>) returns (progress: seq<Step>, failure: Option<Error>)
    modifies db, config
    ensures StepResult(State(db.tables, config.sites), failure) == RunSteps(steps, old(State(db.tables, config.sites)))
    ensures failure.None? ==> progress == steps
    ensures failure.Some? ==> 0 < |progress| <= |steps| && progress == steps[..|progress|]
  {
    ghost var s0 := State(db.tables, config.sites);
    progress := [];
    failure := None;
    var i := 0;
    while i < |steps|
      invariant 0 <= i <= |steps|
      invariant progress == steps[..i]
      invariant failure.None?
      invariant RunSteps(steps, s0) == RunSteps(steps[i..], State(db.tables, config.sites))
    {
      failure := RunStep(db, config, steps[i]);
      progress := progress + [steps[i]];
      assert steps[i..][0] == steps[i] && steps[i..][1..] == steps[i + 1..];
      if failure.Some? {
        return;
      }
      i := i + 1;
    }
  }
}
