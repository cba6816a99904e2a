/**
 * The 6.0 updater: a fixed, ordered plan of fourteen steps that turns the
 * member-group permission model into the role model.
 *
 * Each step is specified by a function from the database before it to the
 * database after it (and the error that stopped it, if any), and
 * implemented by a method over a `Database` object that does what the
 * updater does: test the step's guard table, issue the schema operations,
 * read the source rows and build the rows to insert in loops.
 */
module Update600 {
  import opened Wrappers
  import opened Php
  import opened Schema
  import opened Database

  /** The steps, named as the updater names its methods (including its spelling "Tepmlate"). */
  datatype Step =
    | AddConfigTable
    | AddRoles
    | AddRoleGroups
    | AddAndPopulatePermissionsTable
    | ReassignChannelsToRoles
    | ReassignModulesToRoles
    | ReassignTemplateGroupsToRoles
    | FlipPolarityOnStatusRoleAccess
    | FlipPolarityOnTepmlateRoleAccess
    | FlipPolarityOnUploadRoleAccess
    | RenameMemberGroupTable
    | ConvertMembersGroupToPrimaryRole
    | ReassignLayoutsToPrimaryRole
    | ReassignEmailCacheToPrimaryRole

  /** The plan `do_update` runs, in this order. */
  const Plan: seq<Step> := [
    AddConfigTable,
    AddRoles,
    AddRoleGroups,
    AddAndPopulatePermissionsTable,
    ReassignChannelsToRoles,
    ReassignModulesToRoles,
    ReassignTemplateGroupsToRoles,
    FlipPolarityOnStatusRoleAccess,
    FlipPolarityOnTepmlateRoleAccess,
    FlipPolarityOnUploadRoleAccess,
    RenameMemberGroupTable,
    ConvertMembersGroupToPrimaryRole,
    ReassignLayoutsToPrimaryRole,
    ReassignEmailCacheToPrimaryRole
  ]

  /**
   * The install-time configuration the config step reads: each preference
   * name the configuration lists for installation, with its current value.
   */
  type InstallConfig = seq<(string, Value)>

  // =====================================================================
  // Row filters the steps' queries apply

  /** `where(col, v)`: the rows whose `col` equals `v`, in order. */
  function Where(rows: seq<Row>, col: string, v: Value): (r: seq<Row>)
    ensures forall x :: x in r <==> x in rows && Get(x, col) == v
    ensures |r| <= |rows|
  {
    if rows == [] then []
    else
      var last := rows[|rows| - 1];
      Where(rows[..|rows| - 1], col, v) + (if Get(last, col) == v then [last] else [])
  }

  /** `where_not_in(col, vs)`: the rows whose `col` is set and is none of `vs`, in order. */
  function WhereNotIn(rows: seq<Row>, col: string, vs: set<Value>): (r: seq<Row>)
    ensures forall x :: x in r <==> x in rows && Get(x, col) != Null && Get(x, col) !in vs
  {
    if rows == [] then []
    else
      var last := rows[|rows| - 1];
      WhereNotIn(rows[..|rows| - 1], col, vs) + (if Get(last, col) != Null && Get(last, col) !in vs then [last] else [])
  }

  // =====================================================================
  // addConfigTable

  const SitePreferenceColumns: seq<string> := [
    "site_channel_preferences",
    "site_member_preferences",
    "site_system_preferences",
    "site_template_preferences"
  ]

  const ConfigColumns: map<string, Column> := map[
    "config_id" := IdColumn,
    "site_id" := IdColumn,
    "key" := Column(VarcharColumn, false),
    "value" := Column(TextColumn, false)
  ]

  /** The one preference the config table stores under a new name. */
  function RenameConfigKey(k: Key): Key {
    if k == StrKey("default_member_group") then StrKey("default_primary_role") else k
  }

  function KeyValue(k: Key): Value {
    match k
    case IntKey(i) => Int(i)
    case StrKey(s) => Str(s)
  }

  function ConfigRow(siteId: Value, key: Value, value: Value): Row {
    map["site_id" := siteId, "key" := key, "value" := value]
  }

  /** One config row per preference of one decoded blob. */
  function EntryRows(siteId: Value, entries: seq<(Key, Value)>): seq<Row> {
    if entries == [] then []
    else
      var e := entries[|entries| - 1];
      EntryRows(siteId, entries[..|entries| - 1]) + [ConfigRow(siteId, KeyValue(RenameConfigKey(e.0)), e.1)]
  }

  /** The config rows of one site, blob by blob. */
  function PrefRows(site: Row, prefs: seq<string>): seq<Row> {
    if prefs == [] then []
    else
      PrefRows(site, prefs[..|prefs| - 1])
        + EntryRows(Get(site, "site_id"), Entries(Get(site, prefs[|prefs| - 1])))
  }

  /** The config rows of all sites, site by site, read from the preference columns `prefs`. */
  function ConfigRowsOf(sites: seq<Row>, prefs: seq<string>): seq<Row> {
    if sites == [] then []
    else ConfigRowsOf(sites[..|sites| - 1], prefs) + PrefRows(sites[|sites| - 1], prefs)
  }

  /** The config rows of all sites, from their four preference columns. */
  function SiteConfigRows(sites: seq<Row>): seq<Row> {
    ConfigRowsOf(sites, SitePreferenceColumns)
  }

  /** The global (site 0) rows: one per install-time preference whose value is truthy. */
  function InstallConfigRows(install: InstallConfig): seq<Row> {
    if install == [] then []
    else
      var p := install[|install| - 1];
      InstallConfigRows(install[..|install| - 1]) + (if Truthy(p.1) then [ConfigRow(Int(0), Str(p.0), p.1)] else [])
  }

  function ConfigTableStep(t: Tables, install: InstallConfig): Outcome {
    if Config in t then Outcome(t, None)
    else
      var t1 := CreateTable(t, Config, ConfigColumns, ["config_id"], {["site_id", "key"]});
      match Select(t1, Sites)
      case Failure(e) => Outcome(t1, Some(e))
      case Success(sites) =>
        var t2 := InsertRows(t1, Config, SiteConfigRows(sites));
        var t3 := DropColumns(t2, Sites, SitePreferenceColumns);
        Outcome(InsertRows(t3, Config, InstallConfigRows(install)), None)
  }

  // =====================================================================
  // addRoles

  const RoleColumns: map<string, Column> := map[
    "role_id" := IdColumn,
    "name" := Column(VarcharColumn, false),
    "description" := Column(TextColumn, true)
  ]

  const MembersRolesColumns: map<string, Column> := map["member_id" := IdColumn, "role_id" := IdColumn]

  /** The role a member group becomes: same id, its title and its description. */
  function RoleRow(group: Row): Row {
    map["role_id" := Get(group, "group_id"), "name" := Get(group, "group_title"), "description" := Get(group, "group_description")]
  }

  function RoleRows(groups: seq<Row>): (r: seq<Row>)
    ensures |r| == |groups|
  {
    seq(|groups|, i requires 0 <= i < |groups| => RoleRow(groups[i]))
  }

  /** A member's primary role is the role its group became. */
  function MemberRoleRow(member: Row): Row {
    map["member_id" := Get(member, "member_id"), "role_id" := Get(member, "group_id")]
  }

  function MemberRoleRows(members: seq<Row>): (r: seq<Row>)
    ensures |r| == |members|
  {
    seq(|members|, i requires 0 <= i < |members| => MemberRoleRow(members[i]))
  }

  function RolesStep(t: Tables): Outcome {
    if Roles in t then Outcome(t, None)
    else
      var t1 := CreateTable(t, Roles, RoleColumns, ["role_id"], {});
      match Select(t1, MemberGroups)
      case Failure(e) => Outcome(t1, Some(e))
      case Success(groups) =>
        var t2 := InsertRows(t1, Roles, RoleRows(Where(groups, "site_id", Int(1))));
        var t3 := CreateTable(t2, MembersRoles, MembersRolesColumns, ["member_id", "role_id"], {});
        match Select(t3, Members)
        case Failure(e) => Outcome(t3, Some(e))
        case Success(members) => Outcome(InsertRows(t3, MembersRoles, MemberRoleRows(members)), None)
  }

  // =====================================================================
  // addRoleGroups

  const RoleGroupsColumns: map<string, Column> := map["group_id" := IdColumn, "name" := Column(VarcharColumn, false)]
  const RolesRoleGroupsColumns: map<string, Column> := map["role_id" := IdColumn, "group_id" := IdColumn]
  const MembersRoleGroupsColumns: map<string, Column> := map["member_id" := IdColumn, "group_id" := IdColumn]

  function RoleGroupsStep(t: Tables): Outcome {
    var t1 := CreateTable(t, RoleGroups, RoleGroupsColumns, ["group_id"], {});
    var t2 := CreateTable(t1, RolesRoleGroups, RolesRoleGroupsColumns, ["role_id", "group_id"], {});
    Outcome(CreateTable(t2, MembersRoleGroups, MembersRoleGroupsColumns, ["member_id", "group_id"], {}), None)
  }

  // =====================================================================
  // addAndPopulatePermissionsTable

  const PermissionColumns: map<string, Column> := map[
    "permission_id" := IdColumn,
    "role_id" := IdColumn,
    "site_id" := IdColumn,
    "permission" := Column(VarcharColumn, false)
  ]

  /** The permission flags of a member group, in the order the updater reads them. */
  const PermissionNames: seq<string> := [
    "can_view_offline_system", "can_view_online_system", "can_access_cp", "can_access_footer_report_bug",
    "can_access_footer_new_ticket", "can_access_footer_user_guide", "can_view_homepage_news", "can_access_files",
    "can_access_design", "can_access_addons", "can_access_members", "can_access_sys_prefs", "can_access_comm",
    "can_access_utilities", "can_access_data", "can_access_logs", "can_admin_channels", "can_admin_design",
    "can_delete_members", "can_admin_mbr_groups", "can_admin_mbr_templates", "can_ban_users", "can_admin_addons",
    "can_edit_categories", "can_delete_categories", "can_view_other_entries", "can_edit_other_entries",
    "can_assign_post_authors", "can_delete_self_entries", "can_delete_all_entries", "can_view_other_comments",
    "can_edit_own_comments", "can_delete_own_comments", "can_edit_all_comments", "can_delete_all_comments",
    "can_moderate_comments", "can_send_cached_email", "can_email_member_groups", "can_email_from_profile",
    "can_view_profiles", "can_edit_html_buttons", "can_delete_self", "can_post_comments", "can_search",
    "can_send_private_messages", "can_attach_in_private_messages", "can_send_bulletins", "can_create_entries",
    "can_edit_self_entries", "can_upload_new_files", "can_edit_files", "can_delete_files", "can_upload_new_toolsets",
    "can_edit_toolsets", "can_delete_toolsets", "can_create_upload_directories", "can_edit_upload_directories",
    "can_delete_upload_directories", "can_create_channels", "can_edit_channels", "can_delete_channels",
    "can_create_channel_fields", "can_edit_channel_fields", "can_delete_channel_fields", "can_create_statuses",
    "can_delete_statuses", "can_edit_statuses", "can_create_categories", "can_create_member_groups",
    "can_delete_member_groups", "can_edit_member_groups", "can_create_members", "can_edit_members",
    "can_create_new_templates", "can_edit_templates", "can_delete_templates", "can_create_template_groups",
    "can_edit_template_groups", "can_delete_template_groups", "can_create_template_partials",
    "can_edit_template_partials", "can_delete_template_partials", "can_create_template_variables",
    "can_delete_template_variables", "can_edit_template_variables", "can_access_security_settings",
    "can_access_translate", "can_access_import", "can_access_sql_manager", "can_moderate_spam",
    "can_manage_consents"
  ]

  /** The five flags whose permission is stored under a new name. */
  const PermissionRenames: map<string, string> := map[
    "can_admin_mbr_groups" := "can_admin_roles",
    "can_email_member_groups" := "can_email_roles",
    "can_create_member_groups" := "can_create_roles",
    "can_delete_member_groups" := "can_delete_roles",
    "can_edit_member_groups" := "can_edit_roles"
  ]

  function RenamePermission(p: string): string {
    if p in PermissionRenames then PermissionRenames[p] else p
  }

  function PermissionRow(roleId: Value, siteId: Value, permission: string): Row {
    map["role_id" := roleId, "site_id" := siteId, "permission" := Str(permission)]
  }

  /** The rows one group's flags give: one per flag set to 'y', in the order of `perms`. */
  function GroupPermissionRows(group: Row, perms: seq<string>): seq<Row> {
    if perms == [] then []
    else
      var p := perms[|perms| - 1];
      GroupPermissionRows(group, perms[..|perms| - 1])
        + (if Get(group, p) == Str("y") then [PermissionRow(Get(group, "group_id"), Get(group, "site_id"), RenamePermission(p))] else [])
  }

  function PermissionRows(groups: seq<Row>, perms: seq<string>): seq<Row> {
    if groups == [] then []
    else PermissionRows(groups[..|groups| - 1], perms) + GroupPermissionRows(groups[|groups| - 1], perms)
  }

  function PermissionsStep(t: Tables): Outcome {
    if Permissions in t then Outcome(t, None)
    else
      var t1 := CreateTable(t, Permissions, PermissionColumns, ["permission_id"], {});
      var t2 := AddKey(t1, Permissions, ["role_id", "site_id"]);
      match Select(t2, MemberGroups)
      case Failure(e) => Outcome(t2, Some(e))
      case Success(groups) =>
        var t3 := InsertRows(t2, Permissions, PermissionRows(groups, PermissionNames));
        Outcome(DropColumns(t3, MemberGroups, PermissionNames), None)
  }

  /**
   * The column `modify_column` gives `role_id`: an integer, and, since the
   * definition says nothing about NULL and a column change is not a table
   * creation, one that admits NULL.
   */
  const RoleIdColumn := Column(IntColumn, true)

  // =====================================================================
  // The rename steps: `group_id` becomes `role_id`, and maybe the table is renamed

  /** reassignChannelsToRoles, reassignModulesToRoles, reassignTemplateGroupsToRoles. */
  function ReassignStep(t: Tables, source: TableName, target: TableName): Outcome {
    if target in t then Outcome(t, None)
    else Outcome(RenameTable(ModifyColumn(t, source, "group_id", "role_id", RoleIdColumn), source, target), None)
  }

  /** reassignLayoutsToPrimaryRole: the same two operations, without a guard. */
  function LayoutsStep(t: Tables): Outcome {
    Outcome(RenameTable(ModifyColumn(t, LayoutPublishMemberGroups, "group_id", "role_id", RoleIdColumn),
                        LayoutPublishMemberGroups, LayoutPublishMemberRoles), None)
  }

  /** convertMembersGroupToPrimaryRole and reassignEmailCacheToPrimaryRole: a column rename only. */
  function RenameGroupColumnStep(t: Tables, table: TableName): Outcome {
    Outcome(ModifyColumn(t, table, "group_id", "role_id", RoleIdColumn), None)
  }

  // =====================================================================
  // renameMemberGroupTable

  /** Existing rows get the values 1, 2, ... of a new AUTO_INCREMENT column, in storage order. */
  function NumberRows(rows: seq<Row>, col: string): (r: seq<Row>)
    ensures |r| == |rows|
  {
    seq(|rows|, i requires 0 <= i < |rows| => rows[i][col := Int(i + 1)])
  }

  /**
   * The raw `ALTER TABLE ... ADD id ... AUTO_INCREMENT FIRST, ADD PRIMARY KEY (id)`:
   * rejected when the table is absent, already has `id`, or still has a primary key.
   */
  function AddSurrogateKey(t: Tables, name: TableName): Outcome {
    if name in t && "id" !in t[name].columns && t[name].primary == [] then
      var tb := t[name];
      Outcome(t[name := Table(tb.columns["id" := IdColumn], ["id"], tb.keys, NumberRows(tb.rows, "id"))], None)
    else Outcome(t, Some(AlterFailed(name)))
  }

  function RoleSettingsStep(t: Tables): Outcome {
    if RoleSettings in t then Outcome(t, None)
    else
      var t1 := ModifyColumn(t, MemberGroups, "group_id", "role_id", RoleIdColumn);
      var t2 := DropColumn(t1, MemberGroups, "group_title");
      var t3 := DropColumn(t2, MemberGroups, "group_description");
      var t4 := DropPrimaryKey(t3, MemberGroups);
      var t5 := AddKey(t4, MemberGroups, ["role_id", "site_id"]);
      var t6 := RenameTable(t5, MemberGroups, RoleSettings);
      AddSurrogateKey(t6, RoleSettings)
  }

  // =====================================================================
  // The three polarity flips: deny-lists become allow-lists

  datatype AccessKind = StatusAccess | TemplateAccess | UploadAccess

  function AllowTable(k: AccessKind): TableName {
    match k
    case StatusAccess => StatusesRoles
    case TemplateAccess => TemplatesRoles
    case UploadAccess => UploadPrefsRoles
  }

  function DenyTable(k: AccessKind): TableName {
    match k
    case StatusAccess => StatusNoAccess
    case TemplateAccess => TemplateNoAccess
    case UploadAccess => UploadNoAccess
  }

  function EntityTable(k: AccessKind): TableName {
    match k
    case StatusAccess => Statuses
    case TemplateAccess => Templates
    case UploadAccess => UploadPrefs
  }

  /** The entity's column in both the deny table and the allow table. */
  function EntityColumn(k: AccessKind): string {
    match k
    case StatusAccess => "status_id"
    case TemplateAccess => "template_id"
    case UploadAccess => "upload_id"
  }

  /** The id column of the entity table itself. */
  function EntityIdColumn(k: AccessKind): string {
    match k
    case StatusAccess => "status_id"
    case TemplateAccess => "template_id"
    case UploadAccess => "id"
  }

  /** The role ids that get no allow rows: 1 to 4 for statuses and uploads, only 1 for templates. */
  function ExcludedRoles(k: AccessKind): set<Value> {
    match k
    case StatusAccess => {Int(1), Int(2), Int(3), Int(4)}
    case TemplateAccess => {Int(1)}
    case UploadAccess => {Int(1), Int(2), Int(3), Int(4)}
  }

  function AllowColumns(k: AccessKind): map<string, Column> {
    map["role_id" := IdColumn, EntityColumn(k) := IdColumn]
  }

  /** The ids of the roles, each once, in the order first seen (a PHP array keyed by id). */
  function DistinctIds(rows: seq<Row>, col: string): seq<Value> {
    if rows == [] then []
    else
      var ids := DistinctIds(rows[..|rows| - 1], col);
      var id := Get(rows[|rows| - 1], col);
      if id in ids then ids else ids + [id]
  }

  /** The deny rows as (entity, role) pairs. */
  function DenyPairs(rows: seq<Row>, col: string): (r: seq<(Value, Value)>)
    ensures |r| == |rows|
  {
    seq(|rows|, i requires 0 <= i < |rows| => (Get(rows[i], col), Get(rows[i], "member_group")))
  }

  predicate Denied(deny: seq<(Value, Value)>, entity: Value, role: Value) {
    (entity, role) in deny
  }

  /** The entities whose access is migrated: for uploads only the directories with `module_id = 0`. */
  function EntityRows(k: AccessKind, rows: seq<Row>): seq<Row> {
    if k == UploadAccess then Where(rows, "module_id", Int(0)) else rows
  }

  function EntityIds(rows: seq<Row>, col: string): (r: seq<Value>)
    ensures |r| == |rows|
  {
    seq(|rows|, i requires 0 <= i < |rows| => Get(rows[i], col))
  }

  function AllowRow(role: Value, entity: Value, col: string): Row {
    map["role_id" := role, col := entity]
  }

  /** One entity's allow rows: one per role, in role order, unless the pair is denied. */
  function EntityAllowRows(entity: Value, roles: seq<Value>, deny: seq<(Value, Value)>, col: string): seq<Row> {
    if roles == [] then []
    else
      var role := roles[|roles| - 1];
      EntityAllowRows(entity, roles[..|roles| - 1], deny, col)
        + (if Denied(deny, entity, role) then [] else [AllowRow(role, entity, col)])
  }

  /** The cross product of entities and roles, minus the denied pairs, entity by entity. */
  function FlipRows(entities: seq<Value>, roles: seq<Value>, deny: seq<(Value, Value)>, col: string): seq<Row> {
    if entities == [] then []
    else FlipRows(entities[..|entities| - 1], roles, deny, col) + EntityAllowRows(entities[|entities| - 1], roles, deny, col)
  }

  function FlipStep(t: Tables, k: AccessKind): Outcome {
    if AllowTable(k) in t then Outcome(t, None)
    else
      var t1 := CreateTable(t, AllowTable(k), AllowColumns(k), ["role_id", EntityColumn(k)], {});
      match Select(t1, Roles)
      case Failure(e) => Outcome(t1, Some(e))
      case Success(roleRows) =>
        var roles := DistinctIds(WhereNotIn(roleRows, "role_id", ExcludedRoles(k)), "role_id");
        match Select(t1, DenyTable(k))
        case Failure(e) => Outcome(t1, Some(e))
        case Success(denyRows) =>
          var deny := DenyPairs(denyRows, EntityColumn(k));
          match Select(t1, EntityTable(k))
          case Failure(e) => Outcome(t1, Some(e))
          case Success(entityRows) =>
            var entities := EntityIds(EntityRows(k, entityRows), EntityIdColumn(k));
            var t2 := InsertRows(t1, AllowTable(k), FlipRows(entities, roles, deny, EntityColumn(k)));
            Outcome(DropTable(t2, DenyTable(k)), None)
  }

  // =====================================================================
  // The plan

  function StepOutcome(s: Step, t: Tables, install: InstallConfig): Outcome {
    match s
    case AddConfigTable => ConfigTableStep(t, install)
    case AddRoles => RolesStep(t)
    case AddRoleGroups => RoleGroupsStep(t)
    case AddAndPopulatePermissionsTable => PermissionsStep(t)
    case ReassignChannelsToRoles => ReassignStep(t, ChannelMemberGroups, ChannelMemberRoles)
    case ReassignModulesToRoles => ReassignStep(t, ModuleMemberGroups, ModuleMemberRoles)
    case ReassignTemplateGroupsToRoles => ReassignStep(t, TemplateMemberGroups, TemplateGroupsRoles)
    case FlipPolarityOnStatusRoleAccess => FlipStep(t, StatusAccess)
    case FlipPolarityOnTepmlateRoleAccess => FlipStep(t, TemplateAccess)
    case FlipPolarityOnUploadRoleAccess => FlipStep(t, UploadAccess)
    case RenameMemberGroupTable => RoleSettingsStep(t)
    case ConvertMembersGroupToPrimaryRole => RenameGroupColumnStep(t, Members)
    case ReassignLayoutsToPrimaryRole => LayoutsStep(t)
    case ReassignEmailCacheToPrimaryRole => RenameGroupColumnStep(t, EmailCacheMg)
  }

  /** Runs `steps` in order and stops at the first one that fails. */
  function RunSteps(steps: seq<Step>, t: Tables, install: InstallConfig): Outcome
    decreases |steps|
  {
    if steps == [] then Outcome(t, None)
    else
      var o := StepOutcome(steps[0], t, install);
      if o.failure.Some? then o else RunSteps(steps[1..], o.tables, install)
  }

  /** Running from step `i`: that step's outcome if it fails, otherwise the rest run from its tables. */
  lemma RunStepsFrom(steps: seq<Step>, i: int, t: Tables, install: InstallConfig, o: Outcome)
    requires 0 <= i < |steps| && o == StepOutcome(steps[i], t, install)
    ensures RunSteps(steps[i..], t, install) == if o.failure.Some? then o else RunSteps(steps[i + 1..], o.tables, install)
  {
    assert steps[i..][0] == steps[i] && steps[i..][1..] == steps[i + 1..];
  }

  /** The table whose existence makes a step return at once, for the steps that have such a guard. */
  function GuardTable(s: Step): Option<TableName> {
    match s
    case AddConfigTable => Some(Config)
    case AddRoles => Some(Roles)
    case AddAndPopulatePermissionsTable => Some(Permissions)
    case ReassignChannelsToRoles => Some(ChannelMemberRoles)
    case ReassignModulesToRoles => Some(ModuleMemberRoles)
    case ReassignTemplateGroupsToRoles => Some(TemplateGroupsRoles)
    case FlipPolarityOnStatusRoleAccess => Some(StatusesRoles)
    case FlipPolarityOnTepmlateRoleAccess => Some(TemplatesRoles)
    case FlipPolarityOnUploadRoleAccess => Some(UploadPrefsRoles)
    case RenameMemberGroupTable => Some(RoleSettings)
    case _ => None
  }

  // =====================================================================
  // The loops the updater's methods run

  /** The innermost `foreach`: one row per entry of a decoded blob. */
  method CollectEntryRows(siteId: Value, data: seq<(Key, Value)>) returns (rows: seq<Row>)
    ensures rows == EntryRows(siteId, data)
  {
    rows := [];
    var j := 0;
    while j < |data|
      invariant 0 <= j <= |data|
      invariant rows == EntryRows(siteId, data[..j])
    {
      var key := RenameConfigKey(data[j].0);
      rows := rows + [ConfigRow(siteId, KeyValue(key), data[j].1)];
      assert data[..j + 1][..j] == data[..j];
      j := j + 1;
    }
    assert data[..j] == data;
  }

  /** The `foreach` over one site's preference blobs. */
  method CollectPrefRows(site: Row, prefs: seq<string>) returns (rows: seq<Row>)
    ensures rows == PrefRows(site, prefs)
  {
    rows := [];
    var p := 0;
    while p < |prefs|
      invariant 0 <= p <= |prefs|
      invariant rows == PrefRows(site, prefs[..p])
    {
      var entryRows := CollectEntryRows(Get(site, "site_id"), Entries(Get(site, prefs[p])));
      rows := rows + entryRows;
      assert prefs[..p + 1][..p] == prefs[..p];
      p := p + 1;
    }
    assert prefs[..p] == prefs;
  }

  /** The `foreach` over the sites. */
  method CollectSiteConfigRows(sites: seq<Row>) returns (rows: seq<Row>)
    ensures rows == SiteConfigRows(sites)
  {
    rows := [];
    var i := 0;
    while i < |sites|
      invariant 0 <= i <= |sites|
      invariant rows == SiteConfigRows(sites[..i])
    {
      var siteRows := CollectPrefRows(sites[i], SitePreferenceColumns);
      rows := rows + siteRows;
      assert sites[..i + 1][..i] == sites[..i];
      i := i + 1;
    }
    assert sites[..i] == sites;
  }

  /** The `foreach` over the install-time preferences, keeping the truthy ones. */
  method CollectInstallConfigRows(install: InstallConfig) returns (rows: seq<Row>)
    ensures rows == InstallConfigRows(install)
  {
    rows := [];
    var k := 0;
    while k < |install|
      invariant 0 <= k <= |install|
      invariant rows == InstallConfigRows(install[..k])
    {
      var (pref, value) := install[k];
      assert install[..k + 1][..k] == install[..k];
      if Truthy(value) {
        rows := rows + [ConfigRow(Int(0), Str(pref), value)];
      }
      k := k + 1;
    }
    assert install[..k] == install;
  }

  method CollectRoleRows(groups: seq<Row>) returns (insert: seq<Row>)
    ensures insert == RoleRows(groups)
  {
    insert := [];
    var i := 0;
    while i < |groups|
      invariant 0 <= i <= |groups|
      invariant insert == RoleRows(groups[..i])
    {
      insert := insert + [RoleRow(groups[i])];
      i := i + 1;
    }
    assert groups[..i] == groups;
  }

  method CollectMemberRoleRows(members: seq<Row>) returns (insert: seq<Row>)
    ensures insert == MemberRoleRows(members)
  {
    insert := [];
    var i := 0;
    while i < |members|
      invariant 0 <= i <= |members|
      invariant insert == MemberRoleRows(members[..i])
    {
      insert := insert + [MemberRoleRow(members[i])];
      i := i + 1;
    }
    assert members[..i] == members;
  }

  /** The nested `foreach` over groups and permission flags. */
  method CollectPermissionRows(groups: seq<Row>, perms: seq<string>) returns (insert: seq<Row>)
    ensures insert == PermissionRows(groups, perms)
  {
    insert := [];
    var i := 0;
    while i < |groups|
      invariant 0 <= i <= |groups|
      invariant insert == PermissionRows(groups[..i], perms)
    {
      var group := groups[i];
      ghost var before := insert;
      var p := 0;
      while p < |perms|
        invariant 0 <= p <= |perms|
        invariant insert == before + GroupPermissionRows(group, perms[..p])
      {
        var permission := perms[p];
        assert perms[..p + 1][..p] == perms[..p];
        if Get(group, permission) == Str("y") {
          permission := RenamePermission(permission);
          insert := insert + [PermissionRow(Get(group, "group_id"), Get(group, "site_id"), permission)];
        }
        p := p + 1;
      }
      assert perms[..p] == perms;
      assert groups[..i + 1][..i] == groups[..i];
      i := i + 1;
    }
    assert groups[..i] == groups;
  }

  /** `$role_ids[$role->role_id] = $role->role_id`: each id once, where it was first seen. */
  method CollectRoleIds(roles: seq<Row>) returns (roleIds: seq<Value>)
    ensures roleIds == DistinctIds(roles, "role_id")
  {
    roleIds := [];
    var i := 0;
    while i < |roles|
      invariant 0 <= i <= |roles|
      invariant roleIds == DistinctIds(roles[..i], "role_id")
    {
      var id := Get(roles[i], "role_id");
      assert roles[..i + 1][..i] == roles[..i];
      if id !in roleIds {
        roleIds := roleIds + [id];
      }
      i := i + 1;
    }
    assert roles[..i] == roles;
  }

  /** Appending a role to an entity's list records exactly one more denied pair. */
  lemma DenyAppended(deny: seq<(Value, Value)>, prev: map<Value, seq<Value>>, e: Value, role: Value, next: map<Value, seq<Value>>)
    requires forall e', r' :: Denied(deny, e', r') <==> e' in prev && r' in prev[e']
    requires next == prev[e := (if e in prev then prev[e] else []) + [role]]
    ensures forall e', r' :: Denied(deny + [(e, role)], e', r') <==> e' in next && r' in next[e']
  {
    forall e', r' ensures Denied(deny + [(e, role)], e', r') <==> e' in next && r' in next[e'] {
      assert Denied(deny + [(e, role)], e', r') <==> Denied(deny, e', r') || (e', r') == (e, role);
      assert Denied(deny, e', r') <==> e' in prev && r' in prev[e'];
      if e' == e {
        var before := if e in prev then prev[e] else [];
        assert next[e'] == before + [role];
        assert r' in next[e'] <==> r' in before || r' == role;
      } else {
        assert e' in next <==> e' in prev;
        assert e' in prev ==> next[e'] == prev[e'];
      }
    }
  }

  /** `$no_access[entity][] = member_group`: the denied roles of each entity. */
  method CollectNoAccess(rows: seq<Row>, col: string) returns (noAccess: map<Value, seq<Value>>)
    ensures forall e, r :: Denied(DenyPairs(rows, col), e, r) <==> e in noAccess && r in noAccess[e]
  {
    ghost var deny := DenyPairs(rows, col);
    noAccess := map[];
    var i := 0;
    while i < |rows|
      invariant 0 <= i <= |rows|
      invariant forall e, r :: Denied(deny[..i], e, r) <==> e in noAccess && r in noAccess[e]
    {
      var e := Get(rows[i], col);
      var role := Get(rows[i], "member_group");
      ghost var prev := noAccess;
      if e !in noAccess {
        noAccess := noAccess[e := []];
      }
      noAccess := noAccess[e := noAccess[e] + [role]];
      assert deny[i] == (e, role);
      assert deny[..i + 1] == deny[..i] + [(e, role)];
      DenyAppended(deny[..i], prev, e, role, noAccess);
      i := i + 1;
    }
    assert deny[..i] == deny;
  }

  /** The nested `foreach` over entities and eligible roles. */
  method CollectAllowRows(entities: seq<Value>, roles: seq<Value>, noAccess: map<Value, seq<Value>>,
                          ghost deny: seq<(Value, Value)>, col: string) returns (insert: seq<Row>)
    requires forall e, r :: Denied(deny, e, r) <==> e in noAccess && r in noAccess[e]
    ensures insert == FlipRows(entities, roles, deny, col)
  {
    insert := [];
    var i := 0;
    while i < |entities|
      invariant 0 <= i <= |entities|
      invariant insert == FlipRows(entities[..i], roles, deny, col)
    {
      var entity := entities[i];
      ghost var before := insert;
      var j := 0;
      while j < |roles|
        invariant 0 <= j <= |roles|
        invariant insert == before + EntityAllowRows(entity, roles[..j], deny, col)
      {
        var role := roles[j];
        assert roles[..j + 1][..j] == roles[..j];
        if entity !in noAccess || role !in noAccess[entity] {
          insert := insert + [AllowRow(role, entity, col)];
        }
        j := j + 1;
      }
      assert roles[..j] == roles;
      assert entities[..i + 1][..i] == entities[..i];
      i := i + 1;
    }
    assert entities[..i] == entities;
  }

  /** One model `save()` per row, in order. */
  method SaveEach(db: Database, name: TableName, rows: seq<Row>)
    modifies db
    ensures db.tables == InsertRows(old(db.tables), name, rows)
  {
    ghost var t0 := db.tables;
    InsertNothing(t0, name);
    var i := 0;
    while i < |rows|
      invariant 0 <= i <= |rows|
      invariant db.tables == InsertRows(t0, name, rows[..i])
    {
      InsertRowsTwice(t0, name, rows[..i], [rows[i]]);
      assert rows[..i] + [rows[i]] == rows[..i + 1];
      db.Insert(name, [rows[i]]);
      i := i + 1;
    }
    assert rows[..i] == rows;
  }

  /** `if (!empty($insert)) insert_batch(...)`. */
  method InsertBatch(db: Database, name: TableName, rows: seq<Row>)
    modifies db
    ensures db.tables == InsertRows(old(db.tables), name, rows)
  {
    if rows != [] {
      db.Insert(name, rows);
    } else {
      InsertNothing(db.tables, name);
    }
  }

  /** One `drop_column` per name, in order. */
  method DropEach(db: Database, name: TableName, cols: seq<string>)
    modifies db
    ensures db.tables == DropColumns(old(db.tables), name, cols)
  {
    ghost var t0 := db.tables;
    var c := 0;
    while c < |cols|
      invariant 0 <= c <= |cols|
      invariant db.tables == DropColumns(t0, name, cols[..c])
    {
      db.DropColumn(name, cols[c]);
      assert cols[..c + 1][..c] == cols[..c];
      c := c + 1;
    }
    assert cols[..c] == cols;
  }

  // =====================================================================
  // The updater's methods, one per step

  method AddConfig(db: Database, install: InstallConfig) returns (failure: Option<Error>)
    modifies db
    ensures Outcome(db.tables, failure) == ConfigTableStep(old(db.tables), install)
  {
    ghost var t0 := db.tables;
    if db.TableExists(Config) {
      assert ConfigTableStep(t0, install) == Outcome(t0, None);
      return None;
    }
    db.CreateTable(Config, ConfigColumns, ["config_id"], {["site_id", "key"]});
    ghost var t1 := db.tables;
    var sites := db.Get(Sites);
    if sites.Failure? {
      assert ConfigTableStep(t0, install) == Outcome(t1, Some(sites.error));
      return Some(sites.error);
    }
    var rows := CollectSiteConfigRows(sites.value);
    SaveEach(db, Config, rows);
    DropEach(db, Sites, SitePreferenceColumns);
    ghost var t3 := db.tables;
    assert t3 == DropColumns(InsertRows(t1, Config, SiteConfigRows(sites.value)), Sites, SitePreferenceColumns);
    rows := CollectInstallConfigRows(install);
    SaveEach(db, Config, rows);
    assert ConfigTableStep(t0, install) == Outcome(InsertRows(t3, Config, InstallConfigRows(install)), None);
    return None;
  }

  method AddRolesAndMembership(db: Database) returns (failure: Option<Error>)
    modifies db
    ensures Outcome(db.tables, failure) == RolesStep(old(db.tables))
  {
    ghost var t0 := db.tables;
    if db.TableExists(Roles) {
      assert RolesStep(t0) == Outcome(t0, None);
      return None;
    }
    db.CreateTable(Roles, RoleColumns, ["role_id"], {});
    ghost var t1 := db.tables;
    var groups := db.Get(MemberGroups);
    if groups.Failure? {
      assert RolesStep(t0) == Outcome(t1, Some(groups.error));
      return Some(groups.error);
    }
    var insert := CollectRoleRows(Where(groups.value, "site_id", Int(1)));
    InsertBatch(db, Roles, insert);
    db.CreateTable(MembersRoles, MembersRolesColumns, ["member_id", "role_id"], {});
    ghost var t3 := db.tables;
    assert t3 == CreateTable(InsertRows(t1, Roles, RoleRows(Where(groups.value, "site_id", Int(1)))),
                             MembersRoles, MembersRolesColumns, ["member_id", "role_id"], {});
    var members := db.Get(Members);
    if members.Failure? {
      assert RolesStep(t0) == Outcome(t3, Some(members.error));
      return Some(members.error);
    }
    insert := CollectMemberRoleRows(members.value);
    InsertBatch(db, MembersRoles, insert);
    assert RolesStep(t0) == Outcome(InsertRows(t3, MembersRoles, MemberRoleRows(members.value)), None);
    return None;
  }

  method AddRoleGroupTables(db: Database) returns (failure: Option<Error>)
    modifies db
    ensures Outcome(db.tables, failure) == RoleGroupsStep(old(db.tables))
  {
    db.CreateTable(RoleGroups, RoleGroupsColumns, ["group_id"], {});
    db.CreateTable(RolesRoleGroups, RolesRoleGroupsColumns, ["role_id", "group_id"], {});
    db.CreateTable(MembersRoleGroups, MembersRoleGroupsColumns, ["member_id", "group_id"], {});
    return None;
  }

  method AddPermissions(db: Database) returns (failure: Option<Error>)
    modifies db
    ensures Outcome(db.tables, failure) == PermissionsStep(old(db.tables))
  {
    ghost var t0 := db.tables;
    if db.TableExists(Permissions) {
      assert PermissionsStep(t0) == Outcome(t0, None);
      return None;
    }
    db.CreateTable(Permissions, PermissionColumns, ["permission_id"], {});
    db.AddKey(Permissions, ["role_id", "site_id"]);
    ghost var t2 := db.tables;
    var groups := db.Get(MemberGroups);
    if groups.Failure? {
      assert PermissionsStep(t0) == Outcome(t2, Some(groups.error));
      return Some(groups.error);
    }
    var insert := CollectPermissionRows(groups.value, PermissionNames);
    InsertBatch(db, Permissions, insert);
    DropEach(db, MemberGroups, PermissionNames);
    assert PermissionsStep(t0)
      == Outcome(DropColumns(InsertRows(t2, Permissions, PermissionRows(groups.value, PermissionNames)), MemberGroups, PermissionNames), None);
    return None;
  }

  /** reassignChannelsToRoles, reassignModulesToRoles and reassignTemplateGroupsToRoles. */
  method ReassignToRoles(db: Database, source: TableName, target: TableName) returns (failure: Option<Error>)
    modifies db
    ensures Outcome(db.tables, failure) == ReassignStep(old(db.tables), source, target)
  {
    ghost var t0 := db.tables;
    if db.TableExists(target) {
      assert ReassignStep(t0, source, target) == Outcome(t0, None);
      return None;
    }
    assert ReassignStep(t0, source, target)
      == Outcome(RenameTable(ModifyColumn(t0, source, "group_id", "role_id", RoleIdColumn), source, target), None);
    db.ModifyColumn(source, "group_id", "role_id", RoleIdColumn);
    db.RenameTable(source, target);
    return None;
  }

  /** flipPolarityOnStatusRoleAccess, flipPolarityOnTepmlateRoleAccess and flipPolarityOnUploadRoleAccess. */
  method FlipPolarity(db: Database, k: AccessKind) returns (failure: Option<Error>)
    modifies db
    ensures Outcome(db.tables, failure) == FlipStep(old(db.tables), k)
  {
    ghost var t0 := db.tables;
    if db.TableExists(AllowTable(k)) {
      assert FlipStep(t0, k) == Outcome(t0, None);
      return None;
    }
    db.CreateTable(AllowTable(k), AllowColumns(k), ["role_id", EntityColumn(k)], {});
    ghost var t1 := db.tables;
    var roleRows := db.Get(Roles);
    if roleRows.Failure? {
      assert FlipStep(t0, k) == Outcome(t1, Some(roleRows.error));
      return Some(roleRows.error);
    }
    var roleIds := CollectRoleIds(WhereNotIn(roleRows.value, "role_id", ExcludedRoles(k)));
    var denyRows := db.Get(DenyTable(k));
    if denyRows.Failure? {
      assert FlipStep(t0, k) == Outcome(t1, Some(denyRows.error));
      return Some(denyRows.error);
    }
    var col := EntityColumn(k);
    var noAccess := CollectNoAccess(denyRows.value, col);
    var entityRows := db.Get(EntityTable(k));
    if entityRows.Failure? {
      assert FlipStep(t0, k) == Outcome(t1, Some(entityRows.error));
      return Some(entityRows.error);
    }
    ghost var deny := DenyPairs(denyRows.value, col);
    var entities := EntityIds(EntityRows(k, entityRows.value), EntityIdColumn(k));
    var insert := CollectAllowRows(entities, roleIds, noAccess, deny, col);
    InsertBatch(db, AllowTable(k), insert);
    db.DropTable(DenyTable(k));
    assert FlipStep(t0, k) == Outcome(DropTable(InsertRows(t1, AllowTable(k), insert), DenyTable(k)), None);
    return None;
  }

  method RenameMemberGroups(db: Database) returns (failure: Option<Error>)
    modifies db
    ensures Outcome(db.tables, failure) == RoleSettingsStep(old(db.tables))
  {
    ghost var t0 := db.tables;
    if db.TableExists(RoleSettings) {
      assert RoleSettingsStep(t0) == Outcome(t0, None);
      return None;
    }
    db.ModifyColumn(MemberGroups, "group_id", "role_id", RoleIdColumn);
    db.DropColumn(MemberGroups, "group_title");
    db.DropColumn(MemberGroups, "group_description");
    db.DropPrimaryKey(MemberGroups);
    db.AddKey(MemberGroups, ["role_id", "site_id"]);
    db.RenameTable(MemberGroups, RoleSettings);
    assert RoleSettingsStep(t0) == AddSurrogateKey(db.tables, RoleSettings);
    var o := AddSurrogateKey(db.tables, RoleSettings);
    db.tables := o.tables;
    return o.failure;
  }

  /** convertMembersGroupToPrimaryRole and reassignEmailCacheToPrimaryRole. */
  method RenameGroupColumn(db: Database, table: TableName) returns (failure: Option<Error>)
    modifies db
    ensures Outcome(db.tables, failure) == RenameGroupColumnStep(old(db.tables), table)
  {
    db.ModifyColumn(table, "group_id", "role_id", RoleIdColumn);
    return None;
  }

  method ReassignLayouts(db: Database) returns (failure: Option<Error>)
    modifies db
    ensures Outcome(db.tables, failure) == LayoutsStep(old(db.tables))
  {
    db.ModifyColumn(LayoutPublishMemberGroups, "group_id", "role_id", RoleIdColumn);
    db.RenameTable(LayoutPublishMemberGroups, LayoutPublishMemberRoles);
    return None;
  }

  /** `$this->$v()`: the method a step name stands for. */
  method RunStep(db: Database, s: Step, install: InstallConfig) returns (failure: Option<Error>)
    modifies db
    ensures Outcome(db.tables, failure) == StepOutcome(s, old(db.tables), install)
  {
    match s
    case AddConfigTable => failure := AddConfig(db, install);
    case AddRoles => failure := AddRolesAndMembership(db);
    case AddRoleGroups => failure := AddRoleGroupTables(db);
    case AddAndPopulatePermissionsTable => failure := AddPermissions(db);
    case ReassignChannelsToRoles => failure := ReassignToRoles(db, ChannelMemberGroups, ChannelMemberRoles);
    case ReassignModulesToRoles => failure := ReassignToRoles(db, ModuleMemberGroups, ModuleMemberRoles);
    case ReassignTemplateGroupsToRoles => failure := ReassignToRoles(db, TemplateMemberGroups, TemplateGroupsRoles);
    case FlipPolarityOnStatusRoleAccess => failure := FlipPolarity(db, StatusAccess);
    case FlipPolarityOnTepmlateRoleAccess => failure := FlipPolarity(db, TemplateAccess);
    case FlipPolarityOnUploadRoleAccess => failure := FlipPolarity(db, UploadAccess);
    case RenameMemberGroupTable => failure := RenameMemberGroups(db);
    case ConvertMembersGroupToPrimaryRole => failure := RenameGroupColumn(db, Members);
    case ReassignLayoutsToPrimaryRole => failure := ReassignLayouts(db);
    case ReassignEmailCacheToPrimaryRole => failure := RenameGroupColumn(db, EmailCacheMg);
  }

  /**
   * `do_update`: runs the plan's steps in order, each once, and halts at
   * the first step that fails. `progress` lists the steps started, as the
   * progress display shows them.
   */
  method DoUpdate(db: Database, install: InstallConfig) returns (progress: seq<Step>, failure: Option<Error>)
    modifies db
    ensures Outcome(db.tables, failure) == RunSteps(Plan, old(db.tables), install)
    ensures failure.None? ==> progress == Plan
    ensures failure.Some? ==> 0 < |progress| <= |Plan| && progress == Plan[..|progress|]
  {
    progress, failure := RunInOrder(db, Plan, install);
  }

  /** The loop over the step list: each step in turn, stopping after the first that fails. */
  method RunInOrder(db: Database, steps: seq<Step>, install: InstallConfig) returns (progress: seq<Step>, failure: Option<Error>)
    modifies db
    ensures Outcome(db.tables, failure) == RunSteps(steps, old(db.tables), install)
    ensures failure.None? ==> progress == steps
    ensures failure.Some? ==> 0 < |progress| <= |steps| && progress == steps[..|progress|]
  {
    progress := [];
    failure := None;
    var i := 0;
    while i < |steps|
      invariant 0 <= i <= |steps|
      invariant progress == steps[..i]
      invariant failure.None?
      invariant RunSteps(steps, old(db.tables), install) == RunSteps(steps[i..], db.tables, install)
    {
      ghost var before := db.tables;
      failure := RunStep(db, steps[i], install);
      RunStepsFrom(steps, i, before, install, Outcome(db.tables, failure));
      progress := progress + [steps[i]];
      if failure.Some? {
        return;
      }
      i := i + 1;
    }
  }
}
