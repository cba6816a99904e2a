/**
 * What the 6.0 plan guarantees: each step's guard makes a re-run change
 * nothing, the whole update can be run a second time without effect, and
 * the rows each step writes are exactly the ones its rules describe.
 */
module Update600Proofs {
  import opened Wrappers
  import opened Php
  import opened Schema
  import opened Update600

  // =====================================================================
  // The plan

  /** Where a step stands in the plan. */
  function PlanIndex(s: Step): nat {
    match s
    case AddConfigTable => 0
    case AddRoles => 1
    case AddRoleGroups => 2
    case AddAndPopulatePermissionsTable => 3
    case ReassignChannelsToRoles => 4
    case ReassignModulesToRoles => 5
    case ReassignTemplateGroupsToRoles => 6
    case FlipPolarityOnStatusRoleAccess => 7
    case FlipPolarityOnTepmlateRoleAccess => 8
    case FlipPolarityOnUploadRoleAccess => 9
    case RenameMemberGroupTable => 10
    case ConvertMembersGroupToPrimaryRole => 11
    case ReassignLayoutsToPrimaryRole => 12
    case ReassignEmailCacheToPrimaryRole => 13
  }

  /** Fourteen steps, every step exactly once. */
  lemma PlanRunsEveryStepOnce()
    ensures |Plan| == 14
    ensures forall s: Step :: PlanIndex(s) < |Plan| && Plan[PlanIndex(s)] == s
    ensures forall i, j :: 0 <= i < j < |Plan| ==> Plan[i] != Plan[j]
  {
    assert forall i :: 0 <= i < |Plan| ==> PlanIndex(Plan[i]) == i;
  }

  /** A step whose guard table exists returns at once and changes nothing. */
  lemma GuardedStepIsNoOp(s: Step, t: Tables, install: InstallConfig)
    requires GuardTable(s).Some? && GuardTable(s).value in t
    ensures StepOutcome(s, t, install) == Outcome(t, None)
  {
  }

  // =====================================================================
  // Re-running the update

  /** Only the tables a step may create, alter, rename or drop. */
  function Touches(s: Step): set<TableName> {
    match s
    case AddConfigTable => {Config, Sites}
    case AddRoles => {Roles, MembersRoles}
    case AddRoleGroups => {RoleGroups, RolesRoleGroups, MembersRoleGroups}
    case AddAndPopulatePermissionsTable => {Permissions, MemberGroups}
    case ReassignChannelsToRoles => {ChannelMemberGroups, ChannelMemberRoles}
    case ReassignModulesToRoles => {ModuleMemberGroups, ModuleMemberRoles}
    case ReassignTemplateGroupsToRoles => {TemplateMemberGroups, TemplateGroupsRoles}
    case FlipPolarityOnStatusRoleAccess => {StatusesRoles, StatusNoAccess}
    case FlipPolarityOnTepmlateRoleAccess => {TemplatesRoles, TemplateNoAccess}
    case FlipPolarityOnUploadRoleAccess => {UploadPrefsRoles, UploadNoAccess}
    case RenameMemberGroupTable => {MemberGroups, RoleSettings}
    case ConvertMembersGroupToPrimaryRole => {Members}
    case ReassignLayoutsToPrimaryRole => {LayoutPublishMemberGroups, LayoutPublishMemberRoles}
    case ReassignEmailCacheToPrimaryRole => {EmailCacheMg}
  }

  /** The tables whose state decides whether a step still has work to do. */
  function Owned(s: Step): set<TableName> {
    match s
    case AddConfigTable => {Config}
    case AddRoles => {Roles}
    case AddRoleGroups => {RoleGroups, RolesRoleGroups, MembersRoleGroups}
    case AddAndPopulatePermissionsTable => {Permissions}
    case ReassignChannelsToRoles => {ChannelMemberGroups, ChannelMemberRoles}
    case ReassignModulesToRoles => {ModuleMemberGroups, ModuleMemberRoles}
    case ReassignTemplateGroupsToRoles => {TemplateMemberGroups, TemplateGroupsRoles}
    case FlipPolarityOnStatusRoleAccess => {StatusesRoles}
    case FlipPolarityOnTepmlateRoleAccess => {TemplatesRoles}
    case FlipPolarityOnUploadRoleAccess => {UploadPrefsRoles}
    case RenameMemberGroupTable => {RoleSettings}
    case ConvertMembersGroupToPrimaryRole => {Members}
    case ReassignLayoutsToPrimaryRole => {LayoutPublishMemberGroups, LayoutPublishMemberRoles}
    case ReassignEmailCacheToPrimaryRole => {EmailCacheMg}
  }

  /** A table rename is done, or there is nothing to rename. */
  predicate Moved(t: Tables, source: TableName, target: TableName) {
    target in t || source !in t
  }

  /** `modify_column(group_id -> role_id)` has nothing left to do on `table`. */
  predicate GroupColumnRenamed(t: Tables, table: TableName) {
    table in t ==> "group_id" !in t[table].columns || "role_id" in t[table].columns
  }

  /** The state in which step `s` has nothing left to do. */
  predicate Settled(s: Step, t: Tables) {
    match s
    case AddConfigTable => Config in t
    case AddRoles => Roles in t
    case AddRoleGroups => RoleGroups in t && RolesRoleGroups in t && MembersRoleGroups in t
    case AddAndPopulatePermissionsTable => Permissions in t
    case ReassignChannelsToRoles => Moved(t, ChannelMemberGroups, ChannelMemberRoles)
    case ReassignModulesToRoles => Moved(t, ModuleMemberGroups, ModuleMemberRoles)
    case ReassignTemplateGroupsToRoles => Moved(t, TemplateMemberGroups, TemplateGroupsRoles)
    case FlipPolarityOnStatusRoleAccess => StatusesRoles in t
    case FlipPolarityOnTepmlateRoleAccess => TemplatesRoles in t
    case FlipPolarityOnUploadRoleAccess => UploadPrefsRoles in t
    case RenameMemberGroupTable => RoleSettings in t
    case ConvertMembersGroupToPrimaryRole => GroupColumnRenamed(t, Members)
    case ReassignLayoutsToPrimaryRole =>
      LayoutPublishMemberGroups !in t
      || (LayoutPublishMemberRoles in t && GroupColumnRenamed(t, LayoutPublishMemberGroups))
    case ReassignEmailCacheToPrimaryRole => GroupColumnRenamed(t, EmailCacheMg)
  }

  lemma ConfigStepFrame(t: Tables, install: InstallConfig)
    ensures UnchangedOutside(t, ConfigTableStep(t, install).tables, {Config, Sites})
    ensures ConfigTableStep(t, install).Ok() ==> Config in ConfigTableStep(t, install).tables
  {
    if Config !in t {
      var t1 := CreateTable(t, Config, ConfigColumns, ["config_id"], {["site_id", "key"]});
      if Sites in t1 {
        var t2 := InsertRows(t1, Config, SiteConfigRows(t1[Sites].rows));
        DropColumnsEffect(t2, Sites, SitePreferenceColumns);
        var t3 := DropColumns(t2, Sites, SitePreferenceColumns);
        assert ConfigTableStep(t, install).tables == InsertRows(t3, Config, InstallConfigRows(install));
      }
    }
  }

  /** The schema operations addAndPopulatePermissionsTable issues, on any two tables. */
  lemma CreateInsertDropColumnsEffect(t: Tables, a: TableName, b: TableName, columns: map<string, Column>, primary: seq<string>,
                                      key: seq<string>, rows: seq<Row>, cols: seq<string>)
    requires a != b && a !in t && b in t
    ensures var t3 := DropColumns(InsertRows(AddKey(CreateTable(t, a, columns, primary, {}), a, key), a, rows), b, cols);
      UnchangedOutside(t, t3, {a, b}) && a in t3 && b in t3 && t3[a].rows == rows && key in t3[a].keys
      && (forall c :: c in t3[b].columns <==> c in t[b].columns && c !in cols)
  {
    var t2 := InsertRows(AddKey(CreateTable(t, a, columns, primary, {}), a, key), a, rows);
    assert t2[b] == t[b] && t2[a].rows == rows && UnchangedOutside(t, t2, {a});
    DropColumnsEffect(t2, b, cols);
    UnchangedOutsideTrans(t, t2, DropColumns(t2, b, cols), {a}, {b});
  }

  lemma PermissionsStepFrame(t: Tables)
    ensures UnchangedOutside(t, PermissionsStep(t).tables, {Permissions, MemberGroups})
    ensures PermissionsStep(t).Ok() ==> Permissions in PermissionsStep(t).tables
  {
    if Permissions !in t {
      var t2 := AddKey(CreateTable(t, Permissions, PermissionColumns, ["permission_id"], {}), Permissions, ["role_id", "site_id"]);
      if MemberGroups in t {
        assert t2[MemberGroups] == t[MemberGroups];
        var rows := PermissionRows(t[MemberGroups].rows, PermissionNames);
        CreateInsertDropColumnsEffect(t, Permissions, MemberGroups, PermissionColumns, ["permission_id"], ["role_id", "site_id"], rows, PermissionNames);
        assert PermissionsStep(t).tables == DropColumns(InsertRows(t2, Permissions, rows), MemberGroups, PermissionNames);
      } else {
        assert PermissionsStep(t).tables == t2;
      }
    }
  }

  lemma RolesStepFrame(t: Tables)
    ensures UnchangedOutside(t, RolesStep(t).tables, {Roles, MembersRoles})
    ensures RolesStep(t).Ok() ==> Roles in RolesStep(t).tables
  {
  }

  /** The schema operations a polarity flip issues, on any two tables. */
  lemma CreateInsertDropEffect(t: Tables, a: TableName, d: TableName, columns: map<string, Column>, primary: seq<string>, rows: seq<Row>)
    requires a != d && a !in t
    ensures var t2 := DropTable(InsertRows(CreateTable(t, a, columns, primary, {}), a, rows), d);
      UnchangedOutside(t, t2, {a, d}) && a in t2 && d !in t2 && t2[a].rows == rows
  {
  }

  /** The rows a flip inserts, read from the tables it starts from. */
  function FlipRowsOf(t: Tables, k: AccessKind): seq<Row>
    requires Roles in t && DenyTable(k) in t && EntityTable(k) in t
  {
    FlipRows(EntityIds(EntityRows(k, t[EntityTable(k)].rows), EntityIdColumn(k)),
             DistinctIds(WhereNotIn(t[Roles].rows, "role_id", ExcludedRoles(k)), "role_id"),
             DenyPairs(t[DenyTable(k)].rows, EntityColumn(k)), EntityColumn(k))
  }

  /** A flip that has to run creates the allow table, fills it with `FlipRowsOf` and drops the deny table; without its inputs it stops after the create. */
  lemma FlipStepShape(t: Tables, k: AccessKind)
    requires AllowTable(k) !in t
    ensures var t1 := CreateTable(t, AllowTable(k), AllowColumns(k), ["role_id", EntityColumn(k)], {});
      if Roles in t && DenyTable(k) in t && EntityTable(k) in t
      then FlipStep(t, k) == Outcome(DropTable(InsertRows(t1, AllowTable(k), FlipRowsOf(t, k)), DenyTable(k)), None)
      else FlipStep(t, k).tables == t1 && !FlipStep(t, k).Ok()
  {
    var t1 := CreateTable(t, AllowTable(k), AllowColumns(k), ["role_id", EntityColumn(k)], {});
    assert Roles in t ==> t1[Roles] == t[Roles];
    assert DenyTable(k) in t ==> t1[DenyTable(k)] == t[DenyTable(k)];
    assert EntityTable(k) in t ==> t1[EntityTable(k)] == t[EntityTable(k)];
  }

  lemma FlipStepFrame(t: Tables, k: AccessKind)
    ensures UnchangedOutside(t, FlipStep(t, k).tables, {AllowTable(k), DenyTable(k)})
    ensures FlipStep(t, k).Ok() ==> AllowTable(k) in FlipStep(t, k).tables
  {
    if AllowTable(k) !in t {
      FlipStepShape(t, k);
      if Roles in t && DenyTable(k) in t && EntityTable(k) in t {
        CreateInsertDropEffect(t, AllowTable(k), DenyTable(k), AllowColumns(k), ["role_id", EntityColumn(k)], FlipRowsOf(t, k));
      }
    }
  }

  lemma RoleSettingsStepFrame(t: Tables)
    ensures UnchangedOutside(t, RoleSettingsStep(t).tables, {MemberGroups, RoleSettings})
    ensures RoleSettingsStep(t).Ok() ==> RoleSettings in RoleSettingsStep(t).tables
  {
  }

  lemma RoleGroupsStepFrame(t: Tables)
    ensures UnchangedOutside(t, RoleGroupsStep(t).tables, {RoleGroups, RolesRoleGroups, MembersRoleGroups})
    ensures Settled(AddRoleGroups, RoleGroupsStep(t).tables)
  {
  }

  lemma ReassignStepFrame(t: Tables, source: TableName, target: TableName)
    requires source != target
    ensures UnchangedOutside(t, ReassignStep(t, source, target).tables, {source, target})
    ensures Moved(ReassignStep(t, source, target).tables, source, target)
  {
    if target !in t {
      var t1 := ModifyColumn(t, source, "group_id", "role_id", RoleIdColumn);
      ModifyColumnFrame(t, source, "group_id", "role_id", RoleIdColumn);
      RenameTableFrame(t1, source, target);
      UnchangedOutsideTrans(t, t1, RenameTable(t1, source, target), {source}, {source, target});
      assert {source} + {source, target} == {source, target};
    }
  }

  /**
   * When the renamed table does not exist yet and the old one has
   * `group_id` but no `role_id`, the old table moves to the new name with
   * `group_id` retyped and renamed to `role_id` in its schema, its keys and
   * every row; each row's `role_id` carries its old `group_id`.
   */
  lemma ReassignStepContents(t: Tables, source: TableName, target: TableName)
    requires source != target && source in t && target !in t
    requires "group_id" in t[source].columns && "role_id" !in t[source].columns
    ensures var t2 := ReassignStep(t, source, target).tables;
      var rows := t[source].rows;
      source !in t2 && target in t2
      && t2[target].columns == (t[source].columns - {"group_id"})["role_id" := RoleIdColumn]
      && t2[target].primary == RenameInKey(t[source].primary, "group_id", "role_id")
      && |t2[target].rows| == |rows|
      && (forall i :: 0 <= i < |rows| ==> t2[target].rows[i] == RenameInRow(rows[i], "group_id", "role_id"))
      && (forall i :: 0 <= i < |rows| && "group_id" in rows[i] ==>
            "group_id" !in t2[target].rows[i] && t2[target].rows[i]["role_id"] == rows[i]["group_id"])
  {
  }

  lemma RenameGroupColumnStepFrame(t: Tables, table: TableName)
    ensures UnchangedOutside(t, RenameGroupColumnStep(t, table).tables, {table})
    ensures GroupColumnRenamed(RenameGroupColumnStep(t, table).tables, table)
  {
    ModifyColumnFrame(t, table, "group_id", "role_id", RoleIdColumn);
  }

  lemma LayoutsStepFrame(t: Tables)
    ensures UnchangedOutside(t, LayoutsStep(t).tables, {LayoutPublishMemberGroups, LayoutPublishMemberRoles})
    ensures Settled(ReassignLayoutsToPrimaryRole, LayoutsStep(t).tables)
  {
    var t1 := ModifyColumn(t, LayoutPublishMemberGroups, "group_id", "role_id", RoleIdColumn);
    ModifyColumnFrame(t, LayoutPublishMemberGroups, "group_id", "role_id", RoleIdColumn);
    RenameTableFrame(t1, LayoutPublishMemberGroups, LayoutPublishMemberRoles);
    var t2 := RenameTable(t1, LayoutPublishMemberGroups, LayoutPublishMemberRoles);
    UnchangedOutsideTrans(t, t1, t2, {LayoutPublishMemberGroups}, {LayoutPublishMemberGroups, LayoutPublishMemberRoles});
    assert {LayoutPublishMemberGroups} + {LayoutPublishMemberGroups, LayoutPublishMemberRoles}
      == {LayoutPublishMemberGroups, LayoutPublishMemberRoles};
    assert LayoutsStep(t).tables == t2;
  }

  /** A step changes no table outside `Touches`, and a step that succeeds leaves its work settled. */
  lemma StepFrameAndSettles(s: Step, t: Tables, install: InstallConfig)
    ensures UnchangedOutside(t, StepOutcome(s, t, install).tables, Touches(s))
    ensures StepOutcome(s, t, install).Ok() ==> Settled(s, StepOutcome(s, t, install).tables)
  {
    match s
    case AddConfigTable => ConfigStepFrame(t, install);
    case AddRoles => RolesStepFrame(t);
    case AddRoleGroups => RoleGroupsStepFrame(t);
    case AddAndPopulatePermissionsTable => PermissionsStepFrame(t);
    case ReassignChannelsToRoles => ReassignStepFrame(t, ChannelMemberGroups, ChannelMemberRoles);
    case ReassignModulesToRoles => ReassignStepFrame(t, ModuleMemberGroups, ModuleMemberRoles);
    case ReassignTemplateGroupsToRoles => ReassignStepFrame(t, TemplateMemberGroups, TemplateGroupsRoles);
    case FlipPolarityOnStatusRoleAccess => FlipStepFrame(t, StatusAccess);
    case FlipPolarityOnTepmlateRoleAccess => FlipStepFrame(t, TemplateAccess);
    case FlipPolarityOnUploadRoleAccess => FlipStepFrame(t, UploadAccess);
    case RenameMemberGroupTable => RoleSettingsStepFrame(t);
    case ConvertMembersGroupToPrimaryRole => RenameGroupColumnStepFrame(t, Members);
    case ReassignLayoutsToPrimaryRole => LayoutsStepFrame(t);
    case ReassignEmailCacheToPrimaryRole => RenameGroupColumnStepFrame(t, EmailCacheMg);
  }

  /** A step changes no table outside `Touches`. */
  lemma StepFrame(s: Step, t: Tables, install: InstallConfig)
    ensures UnchangedOutside(t, StepOutcome(s, t, install).tables, Touches(s))
  {
    StepFrameAndSettles(s, t, install);
  }

  /** A step that succeeds leaves its work settled. */
  lemma StepSettles(s: Step, t: Tables, install: InstallConfig)
    requires StepOutcome(s, t, install).Ok()
    ensures Settled(s, StepOutcome(s, t, install).tables)
  {
    StepFrameAndSettles(s, t, install);
  }

  /** A settled step changes nothing and does not fail. */
  lemma SettledStepIsNoOp(s: Step, t: Tables, install: InstallConfig)
    requires Settled(s, t)
    ensures StepOutcome(s, t, install) == Outcome(t, None)
  {
  }

  /** Whether a step is settled depends only on the tables it owns. */
  lemma SettledIsLocal(s: Step, t: Tables, t2: Tables, touched: set<TableName>)
    requires Settled(s, t) && UnchangedOutside(t, t2, touched) && Owned(s) !! touched
    ensures Settled(s, t2)
  {
    forall n | n in Owned(s) ensures (n in t <==> n in t2) && (n in t ==> t[n] == t2[n]) {
      assert n !in touched;
    }
  }

  /** A successful second run of one step is a no-op. */
  lemma StepIdempotent(s: Step, t: Tables, install: InstallConfig)
    requires StepOutcome(s, t, install).Ok()
    ensures var t1 := StepOutcome(s, t, install).tables; StepOutcome(s, t1, install) == Outcome(t1, None)
  {
    StepSettles(s, t, install);
    SettledStepIsNoOp(s, StepOutcome(s, t, install).tables, install);
  }

  /** The tables a sequence of steps may touch. */
  function TouchedBy(steps: seq<Step>): (r: set<TableName>)
    ensures forall n :: n in r <==> exists j :: 0 <= j < |steps| && n in Touches(steps[j])
  {
    if steps == [] then {}
    else
      var r := Touches(steps[0]) + TouchedBy(steps[1..]);
      assert forall j :: 1 <= j < |steps| ==> steps[1..][j - 1] == steps[j];
      r
  }

  lemma {:induction false} RunStepsFrame(steps: seq<Step>, t: Tables, install: InstallConfig)
    ensures UnchangedOutside(t, RunSteps(steps, t, install).tables, TouchedBy(steps))
    decreases |steps|
  {
    if steps != [] {
      var o := StepOutcome(steps[0], t, install);
      StepFrame(steps[0], t, install);
      if o.failure.None? {
        RunStepsFrame(steps[1..], o.tables, install);
        UnchangedOutsideTrans(t, o.tables, RunSteps(steps, t, install).tables, Touches(steps[0]), TouchedBy(steps[1..]));
      }
    }
  }

  /** No step of `steps` touches a table an earlier step owns. */
  predicate OwnershipOrdered(steps: seq<Step>) {
    forall i, j :: 0 <= i < j < |steps| ==> Owned(steps[i]) !! Touches(steps[j])
  }

  /** The one step that touches a table, for the tables some step owns. */
  function OwnerOf(n: TableName): Option<Step> {
    match n
    case Config => Some(AddConfigTable)
    case Roles => Some(AddRoles)
    case RoleGroups => Some(AddRoleGroups)
    case RolesRoleGroups => Some(AddRoleGroups)
    case MembersRoleGroups => Some(AddRoleGroups)
    case Permissions => Some(AddAndPopulatePermissionsTable)
    case ChannelMemberGroups => Some(ReassignChannelsToRoles)
    case ChannelMemberRoles => Some(ReassignChannelsToRoles)
    case ModuleMemberGroups => Some(ReassignModulesToRoles)
    case ModuleMemberRoles => Some(ReassignModulesToRoles)
    case TemplateMemberGroups => Some(ReassignTemplateGroupsToRoles)
    case TemplateGroupsRoles => Some(ReassignTemplateGroupsToRoles)
    case StatusesRoles => Some(FlipPolarityOnStatusRoleAccess)
    case TemplatesRoles => Some(FlipPolarityOnTepmlateRoleAccess)
    case UploadPrefsRoles => Some(FlipPolarityOnUploadRoleAccess)
    case RoleSettings => Some(RenameMemberGroupTable)
    case Members => Some(ConvertMembersGroupToPrimaryRole)
    case LayoutPublishMemberGroups => Some(ReassignLayoutsToPrimaryRole)
    case LayoutPublishMemberRoles => Some(ReassignLayoutsToPrimaryRole)
    case EmailCacheMg => Some(ReassignEmailCacheToPrimaryRole)
    case _ => None
  }

  /** An owned table is touched by its owner and by no other step. */
  lemma OwnedByOneStep(s: Step, s': Step)
    requires s != s'
    ensures Owned(s) !! Touches(s')
  {
    forall n | n in Owned(s) ensures n !in Touches(s') {
      OwnerTouches(n, s);
      OwnerTouches(n, s');
    }
  }

  lemma OwnerTouches(n: TableName, s: Step)
    ensures n in Owned(s) ==> OwnerOf(n) == Some(s)
    ensures n in Touches(s) && OwnerOf(n).Some? ==> OwnerOf(n) == Some(s)
  {
  }

  lemma PlanOwnershipOrdered()
    ensures OwnershipOrdered(Plan)
  {
    PlanRunsEveryStepOnce();
    forall i, j | 0 <= i < j < |Plan| ensures Owned(Plan[i]) !! Touches(Plan[j]) {
      OwnedByOneStep(Plan[i], Plan[j]);
    }
  }

  /** After a successful run every step of the sequence is settled. */
  lemma {:induction false} RunStepsSettles(steps: seq<Step>, t: Tables, install: InstallConfig)
    requires OwnershipOrdered(steps)
    requires RunSteps(steps, t, install).Ok()
    ensures forall s :: s in steps ==> Settled(s, RunSteps(steps, t, install).tables)
    decreases |steps|
  {
    if steps != [] {
      var o := StepOutcome(steps[0], t, install);
      var rest := steps[1..];
      var final := RunSteps(steps, t, install).tables;
      assert o.failure.None?;
      assert OwnershipOrdered(rest) by {
        forall i, j | 0 <= i < j < |rest| ensures Owned(rest[i]) !! Touches(rest[j]) {
          assert rest[i] == steps[i + 1] && rest[j] == steps[j + 1];
        }
      }
      RunStepsSettles(rest, o.tables, install);
      StepSettles(steps[0], t, install);
      RunStepsFrame(rest, o.tables, install);
      assert Owned(steps[0]) !! TouchedBy(rest) by {
        forall n | n in TouchedBy(rest) ensures n !in Owned(steps[0]) {
          var j :| 0 <= j < |rest| && n in Touches(rest[j]);
          assert rest[j] == steps[j + 1];
        }
      }
      SettledIsLocal(steps[0], o.tables, final, TouchedBy(rest));
      forall s | s in steps ensures Settled(s, final) {
        if s != steps[0] {
          var k :| 0 <= k < |steps| && steps[k] == s;
          assert rest[k - 1] == s;
        }
      }
    }
  }

  /** Steps that are all settled change nothing. */
  lemma {:induction false} RunSettledSteps(steps: seq<Step>, t: Tables, install: InstallConfig)
    requires forall s :: s in steps ==> Settled(s, t)
    ensures RunSteps(steps, t, install) == Outcome(t, None)
    decreases |steps|
  {
    if steps != [] {
      SettledStepIsNoOp(steps[0], t, install);
      assert forall s :: s in steps[1..] ==> s in steps;
      RunSettledSteps(steps[1..], t, install);
    }
  }

  /** The update can be run again: after a successful run, a second one changes nothing. */
  lemma UpdateIsIdempotent(t: Tables, install: InstallConfig)
    requires RunSteps(Plan, t, install).Ok()
    ensures var t1 := RunSteps(Plan, t, install).tables; RunSteps(Plan, t1, install) == Outcome(t1, None)
  {
    PlanOwnershipOrdered();
    RunStepsSettles(Plan, t, install);
    RunSettledSteps(Plan, RunSteps(Plan, t, install).tables, install);
  }

  // =====================================================================
  // addRoles

  /** The roles are the site-1 member groups, one each, with the group's id, title and description. */
  lemma RoleRowsAreSiteOneGroups(groups: seq<Row>, r: Row)
    ensures |RoleRows(Where(groups, "site_id", Int(1)))| == |Where(groups, "site_id", Int(1))|
    ensures r in RoleRows(Where(groups, "site_id", Int(1))) <==>
      exists g :: g in groups && Get(g, "site_id") == Int(1)
        && r == map["role_id" := Get(g, "group_id"), "name" := Get(g, "group_title"), "description" := Get(g, "group_description")]
  {
    var sel := Where(groups, "site_id", Int(1));
    var rows := RoleRows(sel);
    if r in rows {
      var i :| 0 <= i < |rows| && rows[i] == r;
      assert sel[i] in sel;
    }
    if exists g :: g in groups && Get(g, "site_id") == Int(1) && r == RoleRow(g) {
      var g :| g in groups && Get(g, "site_id") == Int(1) && r == RoleRow(g);
      var i :| 0 <= i < |sel| && sel[i] == g;
      assert rows[i] == r;
    }
  }

  /** Every member gets its group as its role. */
  lemma MemberRoleRowsAreMembers(members: seq<Row>)
    ensures |MemberRoleRows(members)| == |members|
    ensures forall i :: 0 <= i < |members| ==>
      Get(MemberRoleRows(members)[i], "member_id") == Get(members[i], "member_id")
      && Get(MemberRoleRows(members)[i], "role_id") == Get(members[i], "group_id")
  {
  }

  /** What addRoles writes, when it has to run. */
  lemma RolesStepContents(t: Tables)
    requires Roles !in t && MemberGroups in t && Members in t
    ensures var o := RolesStep(t);
      o.Ok() && Roles in o.tables && MembersRoles in o.tables
      && o.tables[Roles].rows == RoleRows(Where(t[MemberGroups].rows, "site_id", Int(1)))
      && o.tables[MembersRoles].rows == (if MembersRoles in t then t[MembersRoles].rows else []) + MemberRoleRows(t[Members].rows)
  {
    var t1 := CreateTable(t, Roles, RoleColumns, ["role_id"], {});
    assert t1[Roles].rows == [];
    var t2 := InsertRows(t1, Roles, RoleRows(Where(t[MemberGroups].rows, "site_id", Int(1))));
    var t3 := CreateTable(t2, MembersRoles, MembersRolesColumns, ["member_id", "role_id"], {});
    assert t3[MembersRoles].rows == if MembersRoles in t then t[MembersRoles].rows else [];
    assert t3[Members] == t[Members];
  }

  // =====================================================================
  // addAndPopulatePermissionsTable

  /** The rows of one group: one per listed flag set to 'y', under its new name. */
  lemma {:induction false} GroupPermissionRowsIff(group: Row, perms: seq<string>, row: Row)
    ensures row in GroupPermissionRows(group, perms) <==>
      exists p :: p in perms && Get(group, p) == Str("y")
        && row == PermissionRow(Get(group, "group_id"), Get(group, "site_id"), RenamePermission(p))
    decreases |perms|
  {
    if perms != [] {
      var init := perms[..|perms| - 1];
      var last := perms[|perms| - 1];
      GroupPermissionRowsIff(group, init, row);
      assert forall p :: p in perms <==> p in init || p == last by {
        assert perms == init + [last];
      }
    }
  }

  /** Permission flattening: a row exactly for each (group, listed flag) whose flag is 'y'. */
  lemma {:induction false} PermissionRowsIff(groups: seq<Row>, perms: seq<string>, row: Row)
    ensures row in PermissionRows(groups, perms) <==>
      exists g, p :: g in groups && p in perms && Get(g, p) == Str("y")
        && row == PermissionRow(Get(g, "group_id"), Get(g, "site_id"), RenamePermission(p))
    decreases |groups|
  {
    if groups != [] {
      var init := groups[..|groups| - 1];
      var last := groups[|groups| - 1];
      PermissionRowsIff(init, perms, row);
      GroupPermissionRowsIff(last, perms, row);
      assert forall g :: g in groups <==> g in init || g == last by {
        assert groups == init + [last];
      }
    }
  }

  /** The five legacy names are renamed, every other name is kept, and no legacy name survives. */
  lemma RenamePermissionRules(p: string)
    ensures p in PermissionRenames ==> RenamePermission(p) == PermissionRenames[p]
    ensures p !in PermissionRenames ==> RenamePermission(p) == p
    ensures RenamePermission(p) !in PermissionRenames
  {
  }

  /** No emitted permission carries one of the five legacy names. */
  lemma EmittedPermissionsRenamed(groups: seq<Row>, perms: seq<string>, row: Row)
    requires row in PermissionRows(groups, perms)
    ensures Get(row, "permission").Str? && Get(row, "permission").s !in PermissionRenames
  {
    PermissionRowsIff(groups, perms, row);
    var g, p :| g in groups && p in perms && Get(g, p) == Str("y")
      && row == PermissionRow(Get(g, "group_id"), Get(g, "site_id"), RenamePermission(p));
    RenamePermissionRules(p);
  }

  /** What addAndPopulatePermissionsTable writes, and which columns of member_groups are left. */
  lemma PermissionsStepContents(t: Tables)
    requires Permissions !in t && MemberGroups in t
    ensures var o := PermissionsStep(t);
      o.Ok() && Permissions in o.tables && MemberGroups in o.tables
      && o.tables[Permissions].rows == PermissionRows(t[MemberGroups].rows, PermissionNames)
      && ["role_id", "site_id"] in o.tables[Permissions].keys
      && (forall c :: c in o.tables[MemberGroups].columns <==> c in t[MemberGroups].columns && c !in PermissionNames)
  {
    var t2 := AddKey(CreateTable(t, Permissions, PermissionColumns, ["permission_id"], {}), Permissions, ["role_id", "site_id"]);
    assert t2[MemberGroups] == t[MemberGroups];
    var rows := PermissionRows(t[MemberGroups].rows, PermissionNames);
    CreateInsertDropColumnsEffect(t, Permissions, MemberGroups, PermissionColumns, ["permission_id"], ["role_id", "site_id"], rows, PermissionNames);
    assert PermissionsStep(t).tables == DropColumns(InsertRows(t2, Permissions, rows), MemberGroups, PermissionNames);
  }

  // =====================================================================
  // The polarity flips

  /** The rows of one entity: one per role, except the denied ones. */
  lemma {:induction false} EntityAllowRowsIff(entity: Value, roles: seq<Value>, deny: seq<(Value, Value)>, col: string, row: Row)
    ensures row in EntityAllowRows(entity, roles, deny, col) <==>
      exists r :: r in roles && !Denied(deny, entity, r) && row == AllowRow(r, entity, col)
    decreases |roles|
  {
    if roles != [] {
      var init := roles[..|roles| - 1];
      var last := roles[|roles| - 1];
      EntityAllowRowsIff(entity, init, deny, col, row);
      assert forall r :: r in roles <==> r in init || r == last by {
        assert roles == init + [last];
      }
    }
  }

  /** A flip writes the cross product of entities and roles, minus the denied pairs. */
  lemma {:induction false} FlipRowsIff(entities: seq<Value>, roles: seq<Value>, deny: seq<(Value, Value)>, col: string, row: Row)
    ensures row in FlipRows(entities, roles, deny, col) <==>
      exists e, r :: e in entities && r in roles && !Denied(deny, e, r) && row == AllowRow(r, e, col)
    decreases |entities|
  {
    if entities != [] {
      var init := entities[..|entities| - 1];
      var last := entities[|entities| - 1];
      FlipRowsIff(init, roles, deny, col, row);
      EntityAllowRowsIff(last, roles, deny, col, row);
      assert forall e :: e in entities <==> e in init || e == last by {
        assert entities == init + [last];
      }
    }
  }

  /** An allow row names its role and its entity. */
  lemma AllowRowInjective(r1: Value, e1: Value, r2: Value, e2: Value, col: string)
    requires col != "role_id"
    ensures AllowRow(r1, e1, col) == AllowRow(r2, e2, col) <==> r1 == r2 && e1 == e2
  {
    if AllowRow(r1, e1, col) == AllowRow(r2, e2, col) {
      assert AllowRow(r1, e1, col)["role_id"] == r1 && AllowRow(r2, e2, col)["role_id"] == r2;
      assert AllowRow(r1, e1, col)[col] == e1 && AllowRow(r2, e2, col)[col] == e2;
    }
  }

  /** The pair (role, entity) is allowed exactly when both are listed and the pair is not denied. */
  lemma FlipAllows(entities: seq<Value>, roles: seq<Value>, deny: seq<(Value, Value)>, col: string, e: Value, r: Value)
    requires col != "role_id"
    ensures AllowRow(r, e, col) in FlipRows(entities, roles, deny, col) <==> e in entities && r in roles && !Denied(deny, e, r)
  {
    FlipRowsIff(entities, roles, deny, col, AllowRow(r, e, col));
    if AllowRow(r, e, col) in FlipRows(entities, roles, deny, col) {
      var e', r' :| e' in entities && r' in roles && !Denied(deny, e', r') && AllowRow(r, e, col) == AllowRow(r', e', col);
      AllowRowInjective(r, e, r', e', col);
    }
  }

  predicate NoDuplicates<T(==)>(s: seq<T>) {
    forall i, j :: 0 <= i < j < |s| ==> s[i] != s[j]
  }

  /** `DistinctIds` lists each id found in `col` once. */
  lemma {:induction false} DistinctIdsIff(rows: seq<Row>, col: string)
    ensures NoDuplicates(DistinctIds(rows, col))
    ensures forall id :: id in DistinctIds(rows, col) <==> exists row :: row in rows && Get(row, col) == id
    decreases |rows|
  {
    if rows != [] {
      var init := rows[..|rows| - 1];
      DistinctIdsIff(init, col);
      assert forall row :: row in rows <==> row in init || row == rows[|rows| - 1] by {
        assert rows == init + [rows[|rows| - 1]];
      }
    }
  }

  /** The rows of one entity repeat nothing. */
  lemma {:induction false} EntityAllowRowsDistinct(entity: Value, roles: seq<Value>, deny: seq<(Value, Value)>, col: string)
    requires col != "role_id" && NoDuplicates(roles)
    ensures NoDuplicates(EntityAllowRows(entity, roles, deny, col))
    ensures forall row :: row in EntityAllowRows(entity, roles, deny, col) ==> Get(row, col) == entity
    decreases |roles|
  {
    if roles != [] {
      var init := roles[..|roles| - 1];
      var last := roles[|roles| - 1];
      EntityAllowRowsDistinct(entity, init, deny, col);
      var rows := EntityAllowRows(entity, init, deny, col);
      forall row | row in rows ensures row != AllowRow(last, entity, col) {
        EntityAllowRowsIff(entity, init, deny, col, row);
        var r :| r in init && !Denied(deny, entity, r) && row == AllowRow(r, entity, col);
        AllowRowInjective(r, entity, last, entity, col);
      }
      var all := EntityAllowRows(entity, roles, deny, col);
      if !Denied(deny, entity, last) {
        assert all == rows + [AllowRow(last, entity, col)];
        forall i, j | 0 <= i < j < |all| ensures all[i] != all[j] {
          if j == |rows| {
            assert all[i] in rows;
          }
        }
      }
    }
  }

  /** With distinct entity ids and distinct roles, no (role, entity) pair is written twice. */
  lemma {:induction false} FlipRowsDistinct(entities: seq<Value>, roles: seq<Value>, deny: seq<(Value, Value)>, col: string)
    requires col != "role_id" && NoDuplicates(entities) && NoDuplicates(roles)
    ensures NoDuplicates(FlipRows(entities, roles, deny, col))
    ensures forall row :: row in FlipRows(entities, roles, deny, col) ==> Get(row, col) in entities
    decreases |entities|
  {
    if entities != [] {
      var init := entities[..|entities| - 1];
      var last := entities[|entities| - 1];
      FlipRowsDistinct(init, roles, deny, col);
      EntityAllowRowsDistinct(last, roles, deny, col);
      var a := FlipRows(init, roles, deny, col);
      var b := EntityAllowRows(last, roles, deny, col);
      assert last !in init;
      forall i, j | 0 <= i < j < |a + b| ensures (a + b)[i] != (a + b)[j] {
        if i < |a| && j >= |a| {
          assert (a + b)[i] in a && (a + b)[j] in b;
        }
      }
      assert forall e :: e in entities <==> e in init || e == last by {
        assert entities == init + [last];
      }
    }
  }

  /** The entities a flip migrates: every row of the entity table, for uploads only those with `module_id = 0`. */
  ghost predicate IsEntity(k: AccessKind, rows: seq<Row>, e: Value) {
    exists row :: row in rows && Get(row, EntityIdColumn(k)) == e && (k == UploadAccess ==> Get(row, "module_id") == Int(0))
  }

  /** The roles a flip grants to: each existing role id outside the excluded ones. */
  ghost predicate IsEligibleRole(k: AccessKind, rows: seq<Row>, r: Value) {
    r != Null && r !in ExcludedRoles(k) && exists row :: row in rows && Get(row, "role_id") == r
  }

  lemma EntityIdsIff(k: AccessKind, rows: seq<Row>, e: Value)
    ensures e in EntityIds(EntityRows(k, rows), EntityIdColumn(k)) <==> IsEntity(k, rows, e)
  {
    var sel := EntityRows(k, rows);
    var ids := EntityIds(sel, EntityIdColumn(k));
    assert forall row :: row in sel <==> row in rows && (k == UploadAccess ==> Get(row, "module_id") == Int(0));
    if e in ids {
      var i :| 0 <= i < |ids| && ids[i] == e;
      assert sel[i] in sel;
    }
    if IsEntity(k, rows, e) {
      var row :| row in rows && Get(row, EntityIdColumn(k)) == e && (k == UploadAccess ==> Get(row, "module_id") == Int(0));
      var i :| 0 <= i < |sel| && sel[i] == row;
      assert ids[i] == e;
    }
  }

  lemma EligibleRolesIff(k: AccessKind, rows: seq<Row>, r: Value)
    ensures r in DistinctIds(WhereNotIn(rows, "role_id", ExcludedRoles(k)), "role_id") <==> IsEligibleRole(k, rows, r)
    ensures NoDuplicates(DistinctIds(WhereNotIn(rows, "role_id", ExcludedRoles(k)), "role_id"))
  {
    DistinctIdsIff(WhereNotIn(rows, "role_id", ExcludedRoles(k)), "role_id");
  }

  /**
   * What a flip writes, when it has to run: the pair (role, entity) is
   * allowed exactly when the entity qualifies, the role is eligible and the
   * pair was not denied; and the deny table is gone.
   */
  lemma FlipStepContents(t: Tables, k: AccessKind, r: Value, e: Value)
    requires AllowTable(k) !in t && Roles in t && DenyTable(k) in t && EntityTable(k) in t
    ensures var o := FlipStep(t, k);
      o.Ok() && AllowTable(k) in o.tables && DenyTable(k) !in o.tables
      && (AllowRow(r, e, EntityColumn(k)) in o.tables[AllowTable(k)].rows <==>
            IsEntity(k, t[EntityTable(k)].rows, e) && IsEligibleRole(k, t[Roles].rows, r)
            && !Denied(DenyPairs(t[DenyTable(k)].rows, EntityColumn(k)), e, r))
  {
    FlipStepShape(t, k);
    CreateInsertDropEffect(t, AllowTable(k), DenyTable(k), AllowColumns(k), ["role_id", EntityColumn(k)], FlipRowsOf(t, k));
    var roles := DistinctIds(WhereNotIn(t[Roles].rows, "role_id", ExcludedRoles(k)), "role_id");
    var deny := DenyPairs(t[DenyTable(k)].rows, EntityColumn(k));
    var entities := EntityIds(EntityRows(k, t[EntityTable(k)].rows), EntityIdColumn(k));
    FlipAllows(entities, roles, deny, EntityColumn(k), e, r);
    EntityIdsIff(k, t[EntityTable(k)].rows, e);
    EligibleRolesIff(k, t[Roles].rows, r);
  }

  /** Role 6 is denied status 100: status 100 is allowed for roles 5 and 7 only. */
  lemma DeniedEntityExample()
    ensures EntityAllowRows(Int(100), [Int(5), Int(6), Int(7)], [(Int(100), Int(6))], "status_id")
      == [AllowRow(Int(5), Int(100), "status_id"), AllowRow(Int(7), Int(100), "status_id")]
  {
    var roles := [Int(5), Int(6), Int(7)];
    var deny := [(Int(100), Int(6))];
    assert roles[..2] == [Int(5), Int(6)] && roles[..2][..1] == [Int(5)] && roles[..2][..1][..0] == [];
    assert !Denied(deny, Int(100), Int(5)) && Denied(deny, Int(100), Int(6)) && !Denied(deny, Int(100), Int(7));
    assert EntityAllowRows(Int(100), [Int(5)], deny, "status_id") == [AllowRow(Int(5), Int(100), "status_id")];
    assert EntityAllowRows(Int(100), [Int(5), Int(6)], deny, "status_id") == [AllowRow(Int(5), Int(100), "status_id")];
  }

  /** No role is denied status 200: it is allowed for every role, in role order. */
  lemma OpenEntityExample()
    ensures EntityAllowRows(Int(200), [Int(5), Int(6), Int(7)], [(Int(100), Int(6))], "status_id")
      == [AllowRow(Int(5), Int(200), "status_id"), AllowRow(Int(6), Int(200), "status_id"), AllowRow(Int(7), Int(200), "status_id")]
  {
    var roles := [Int(5), Int(6), Int(7)];
    var deny := [(Int(100), Int(6))];
    assert roles[..2] == [Int(5), Int(6)] && roles[..2][..1] == [Int(5)] && roles[..2][..1][..0] == [];
    assert !Denied(deny, Int(200), Int(5)) && !Denied(deny, Int(200), Int(6)) && !Denied(deny, Int(200), Int(7));
    assert EntityAllowRows(Int(200), [Int(5)], deny, "status_id") == [AllowRow(Int(5), Int(200), "status_id")];
    assert EntityAllowRows(Int(200), [Int(5), Int(6)], deny, "status_id")
      == [AllowRow(Int(5), Int(200), "status_id"), AllowRow(Int(6), Int(200), "status_id")];
  }

  /** Three roles, two statuses, role 6 denied status 100: five allow rows, entity by entity. */
  lemma FlipExample()
    ensures FlipRows([Int(100), Int(200)], [Int(5), Int(6), Int(7)], [(Int(100), Int(6))], "status_id")
      == [AllowRow(Int(5), Int(100), "status_id"), AllowRow(Int(7), Int(100), "status_id"),
          AllowRow(Int(5), Int(200), "status_id"), AllowRow(Int(6), Int(200), "status_id"), AllowRow(Int(7), Int(200), "status_id")]
  {
    DeniedEntityExample();
    OpenEntityExample();
    assert [Int(100), Int(200)][..1] == [Int(100)] && [Int(100)][..0] == [];
  }

  // =====================================================================
  // addConfigTable

  /** A blob gives one row per entry, keyed by the entry's (renamed) key. */
  lemma {:induction false} EntryRowsIff(siteId: Value, entries: seq<(Key, Value)>, row: Row)
    ensures |EntryRows(siteId, entries)| == |entries|
    ensures row in EntryRows(siteId, entries) <==>
      exists en :: en in entries && row == ConfigRow(siteId, KeyValue(RenameConfigKey(en.0)), en.1)
    decreases |entries|
  {
    if entries != [] {
      var init := entries[..|entries| - 1];
      var last := entries[|entries| - 1];
      EntryRowsIff(siteId, init, row);
      assert forall en :: en in entries <==> en in init || en == last by {
        assert entries == init + [last];
      }
    }
  }

  lemma {:induction false} PrefRowsIff(site: Row, prefs: seq<string>, row: Row)
    ensures row in PrefRows(site, prefs) <==>
      exists p, en :: p in prefs && en in Entries(Get(site, p))
        && row == ConfigRow(Get(site, "site_id"), KeyValue(RenameConfigKey(en.0)), en.1)
    decreases |prefs|
  {
    if prefs != [] {
      var init := prefs[..|prefs| - 1];
      var last := prefs[|prefs| - 1];
      PrefRowsIff(site, init, row);
      EntryRowsIff(Get(site, "site_id"), Entries(Get(site, last)), row);
      assert forall p :: p in prefs <==> p in init || p == last by {
        assert prefs == init + [last];
      }
    }
  }

  /** Every config row comes from the preference blobs of one of the sites. */
  lemma {:induction false} ConfigRowSource(sites: seq<Row>, prefs: seq<string>, row: Row) returns (site: Row)
    requires row in ConfigRowsOf(sites, prefs)
    ensures site in sites && row in PrefRows(site, prefs)
    decreases |sites|
  {
    var init := sites[..|sites| - 1];
    var last := sites[|sites| - 1];
    assert sites == init + [last];
    if row in ConfigRowsOf(init, prefs) {
      site := ConfigRowSource(init, prefs, row);
    } else {
      site := last;
    }
  }

  /** The config rows include the rows of every site's preference blobs. */
  lemma {:induction false} ConfigRowPresent(sites: seq<Row>, prefs: seq<string>, site: Row, row: Row)
    requires site in sites && row in PrefRows(site, prefs)
    ensures row in ConfigRowsOf(sites, prefs)
    decreases |sites|
  {
    var init := sites[..|sites| - 1];
    var last := sites[|sites| - 1];
    assert sites == init + [last];
    if site != last {
      ConfigRowPresent(init, prefs, site, row);
    }
  }

  /** Config unpacking: a row for each (site, preference blob, entry), under the site's id. */
  lemma SiteConfigRowsIff(sites: seq<Row>, row: Row)
    ensures row in SiteConfigRows(sites) <==>
      exists site, p, en :: site in sites && p in SitePreferenceColumns && en in Entries(Get(site, p))
        && row == ConfigRow(Get(site, "site_id"), KeyValue(RenameConfigKey(en.0)), en.1)
  {
    if row in SiteConfigRows(sites) {
      var site := ConfigRowSource(sites, SitePreferenceColumns, row);
      PrefRowsIff(site, SitePreferenceColumns, row);
    }
    forall site, p, en | site in sites && p in SitePreferenceColumns && en in Entries(Get(site, p))
        && row == ConfigRow(Get(site, "site_id"), KeyValue(RenameConfigKey(en.0)), en.1)
      ensures row in SiteConfigRows(sites)
    {
      PrefRowsIff(site, SitePreferenceColumns, row);
      ConfigRowPresent(sites, SitePreferenceColumns, site, row);
    }
  }

  /** `default_member_group` is stored as `default_primary_role`, and no other key changes. */
  lemma RenameConfigKeyRules(k: Key)
    ensures KeyValue(RenameConfigKey(k)) != Str("default_member_group")
    ensures k != StrKey("default_member_group") ==> KeyValue(RenameConfigKey(k)) == KeyValue(k)
    ensures k == StrKey("default_member_group") ==> KeyValue(RenameConfigKey(k)) == Str("default_primary_role")
  {
  }

  /** No site row is written under the legacy key. */
  lemma LegacyKeyNeverWritten(sites: seq<Row>, row: Row)
    requires row in SiteConfigRows(sites)
    ensures Get(row, "key") != Str("default_member_group")
  {
    SiteConfigRowsIff(sites, row);
    var site, p, en :| site in sites && p in SitePreferenceColumns && en in Entries(Get(site, p))
      && row == ConfigRow(Get(site, "site_id"), KeyValue(RenameConfigKey(en.0)), en.1);
    RenameConfigKeyRules(en.0);
  }

  /** Install-time preferences are written for site 0, and only when their value is truthy. */
  lemma {:induction false} InstallConfigRowsIff(install: InstallConfig, row: Row)
    ensures row in InstallConfigRows(install) <==>
      exists p :: p in install && Truthy(p.1) && row == ConfigRow(Int(0), Str(p.0), p.1)
    decreases |install|
  {
    if install != [] {
      var init := install[..|install| - 1];
      var last := install[|install| - 1];
      InstallConfigRowsIff(init, row);
      assert forall p :: p in install <==> p in init || p == last by {
        assert install == init + [last];
      }
    }
  }

  /** The three schema operations addConfigTable issues once the table exists, on any two tables. */
  lemma InsertDropInsertEffect(t: Tables, a: TableName, b: TableName, rows1: seq<Row>, cols: seq<string>, rows2: seq<Row>)
    requires a != b && a in t && b in t && t[a].rows == []
    ensures var t3 := InsertRows(DropColumns(InsertRows(t, a, rows1), b, cols), a, rows2);
      a in t3 && b in t3 && t3[a].rows == rows1 + rows2
      && (forall c :: c in t3[b].columns <==> c in t[b].columns && c !in cols)
  {
    var t1 := InsertRows(t, a, rows1);
    DropColumnsEffect(t1, b, cols);
    var t2 := DropColumns(t1, b, cols);
    assert t2[a] == t1[a];
    assert t1[a].rows == rows1;
  }

  lemma ConfigStepShape(t: Tables, install: InstallConfig)
    requires Config !in t && Sites in t
    ensures var t1 := t[Config := Table(ConfigColumns, ["config_id"], {["site_id", "key"]}, [])];
      ConfigTableStep(t, install)
      == Outcome(InsertRows(DropColumns(InsertRows(t1, Config, SiteConfigRows(t[Sites].rows)), Sites, SitePreferenceColumns), Config, InstallConfigRows(install)), None)
  {
  }

  /** What addConfigTable writes, when it has to run, and which columns of sites are left. */
  lemma ConfigStepContents(t: Tables, install: InstallConfig)
    requires Config !in t && Sites in t
    ensures var o := ConfigTableStep(t, install);
      o.Ok() && Config in o.tables && Sites in o.tables
      && o.tables[Config].rows == SiteConfigRows(t[Sites].rows) + InstallConfigRows(install)
      && (forall c :: c in o.tables[Sites].columns <==> c in t[Sites].columns && c !in SitePreferenceColumns)
  {
    ConfigStepShape(t, install);
    var t1 := t[Config := Table(ConfigColumns, ["config_id"], {["site_id", "key"]}, [])];
    assert t1[Sites] == t[Sites];
    InsertDropInsertEffect(t1, Config, Sites, SiteConfigRows(t[Sites].rows), SitePreferenceColumns, InstallConfigRows(install));
  }

  // =====================================================================
  // renameMemberGroupTable

  /** The raw ALTER succeeds exactly when the table exists without `id` and without a primary key. */
  lemma AddSurrogateKeyRules(t: Tables, name: TableName)
    ensures AddSurrogateKey(t, name).Ok() <==> name in t && "id" !in t[name].columns && t[name].primary == []
    ensures !AddSurrogateKey(t, name).Ok() ==> AddSurrogateKey(t, name) == Outcome(t, Some(AlterFailed(name)))
    ensures AddSurrogateKey(t, name).Ok() ==>
      var tb := AddSurrogateKey(t, name).tables[name];
      tb.primary == ["id"] && "id" in tb.columns && |tb.rows| == |t[name].rows|
      && (forall i :: 0 <= i < |tb.rows| ==> tb.rows[i] - {"id"} == t[name].rows[i] - {"id"})
      && (forall i, j :: 0 <= i < j < |tb.rows| ==> tb.rows[i]["id"] != tb.rows[j]["id"])
  {
    if AddSurrogateKey(t, name).Ok() {
      var tb := AddSurrogateKey(t, name).tables[name];
      forall i | 0 <= i < |tb.rows| ensures tb.rows[i] - {"id"} == t[name].rows[i] - {"id"} {
        assert tb.rows[i] == t[name].rows[i]["id" := Int(i + 1)];
      }
    }
  }
}
