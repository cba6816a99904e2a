# ExpressionEngine: role migration, template groups, 2.10 update and cURL requests

This project models four pieces of ExpressionEngine in Dafny and proves properties of the model.

- **The 6.0.0 updater** (`ud_6_00_00.php`) replaces member groups with roles. It runs fourteen steps in a fixed order.
  - New tables: `config`, `roles`, `members_roles`, the role-group tables and `permissions`.
  - The group-to-role pivot tables get renamed.
  - Three deny-lists (`*_no_access`) become allow-lists (`*_roles`).
  - `member_groups` becomes `role_settings`.
  - Ten steps first check whether their target table already exists, and return at once if it does.
  - The other four (`addRoleGroups` and the three plain column or table renames) rely on the schema operations doing nothing when their work is already done.
  - Either way, the update can be run again.
- **The template-group controller** (`Group.php`) runs the create and edit forms of the design manager:
  - the choices and defaults the forms offer;
  - the validation rules, including the `_group_name_checks` callback;
  - what a successful save writes. On create that means the new group plus its templates: copies of a chosen group's templates, or one empty `index` template.
- **The 2.10.0 updater** (`ud_2_10_00.php`) runs four steps:
  - adds `login_state` to `sessions`;
  - makes every category-field column nullable text;
  - puts four-digit years back into the date formats of members and sites;
  - turns private messages on for every site.
- **The cURL request wrapper** (`Curl/Request.php`):
  - builds the option array a request is sent with;
  - splits a raw response at its first blank line into a header block and a body;
  - parses the header block into a header map;
  - looks headers up, and passes the body through an optional callback.

## How it is modelled

**Shared modules**
- `wrappers.dfy` (`Option`, `Result`).
- `php.dfy`: PHP arrays as key/value sequences; `explode`, `strtolower`, `substr` and integer-to-string conversion.
- `schema.dfy`: the database as a map from table names to tables. Each table has columns, a primary key, secondary keys and rows in storage order.
  - The schema-forge operations are total functions. Each one does nothing when its precondition on the schema does not hold, for example creating a table that already exists.
  - `class Database` holds the tables and offers one method per call the updaters make.
  - Reading a table that does not exist is a failed query, and a step that makes one stops with an error.

**Updaters**
- Each updater step is a method on the `Database`. Its `ensures` ties the new tables to a step function of the old ones.
- The `foreach` loops of the source are methods with loop invariants, proved equal to recursive specification functions.
- `DoUpdate` runs the plan through `RunInOrder`, which stops at the first failing step.
- The 2.10 updater's `MSM_Config` is the class `SiteConfig`, which holds each site's preferences.

**Template-group controller**
- `DesignManager` is a class holding the template groups, the templates, the member groups and the next auto-increment ids.
- `Create` and `Edit` are methods, each proved equal to a pure outcome function.
- The lemmas state what those outcomes mean.

**cURL wrapper**
- `Request` is a class with `config`, `headers` and `callback` fields.
- The constructor and `setHeaders` keep their loops.
- `exec` is a method that takes the raw response `curl_exec` would return.

**How the constructor combines the defaults with `$data`.**
- It stores the three defaults under PHP's integer constants `CURLOPT_URL` (10002), `CURLOPT_RETURNTRANSFER` (19913) and `CURLOPT_HEADER` (42).
- It then copies from `$data` only the entries whose key passes a `CURLOPT` prefix filter.
- The filter `substr($key, 0, 7) == "CURLOPT"` compares the key's string form. For an integer key that form is its decimal digits.
- So only string keys that spell out the option name are copied, and such a key can never replace a default.
- `CurlRequestProofs.DefaultsAlwaysKept` proves that the three defaults survive every `$data`.

## Model

| member | source | states |
|---|---|---|
| Update600.Where | system/ee/installer/updates/ud_6_00_00.php:178-180 | `where(col, v)` keeps exactly the rows whose column equals `v`, and never more rows than it was given |
| Update600.WhereNotIn | system/ee/installer/updates/ud_6_00_00.php:554 | `where_not_in` keeps exactly the rows whose column is set and is none of the listed values |
| Update600.RoleRows | system/ee/installer/updates/ud_6_00_00.php:183-190 | one role row per member group read |
| Update600.MemberRoleRows | system/ee/installer/updates/ud_6_00_00.php:221-227 | one membership row per member |
| Update600.NumberRows | system/ee/installer/updates/ud_6_00_00.php:764 | adding the AUTO_INCREMENT column keeps the number of rows |
| Update600.DenyPairs | system/ee/installer/updates/ud_6_00_00.php:561-569 | one (entity, role) pair per deny row |
| Update600.EntityIds | system/ee/installer/updates/ud_6_00_00.php:573-577 | one id per entity row |
| Update600.RunStepsFrom | system/ee/installer/updates/ud_6_00_00.php:45-48 | running the plan from step i gives that step's failure, or else the rest of the plan run on its tables |
| Update600.CollectEntryRows | system/ee/installer/updates/ud_6_00_00.php:112-121 | the loop over one decoded preference blob yields `EntryRows`: one config row per entry, with the key renamed |
| Update600.CollectPrefRows | system/ee/installer/updates/ud_6_00_00.php:109-122 | the loop over one site's four blobs yields `PrefRows` |
| Update600.CollectSiteConfigRows | system/ee/installer/updates/ud_6_00_00.php:106-123 | the loop over the sites yields `SiteConfigRows` |
| Update600.CollectInstallConfigRows | system/ee/installer/updates/ud_6_00_00.php:131-143 | the loop over the install-time preferences yields `InstallConfigRows`: truthy values only, for site 0 |
| Update600.CollectRoleRows | system/ee/installer/updates/ud_6_00_00.php:181-190 | the loop over the site-1 groups yields `RoleRows` |
| Update600.CollectMemberRoleRows | system/ee/installer/updates/ud_6_00_00.php:219-227 | the loop over the members yields `MemberRoleRows` |
| Update600.CollectPermissionRows | system/ee/installer/updates/ud_6_00_00.php:443-460 | the nested loop over groups and flags yields `PermissionRows` |
| Update600.CollectRoleIds | system/ee/installer/updates/ud_6_00_00.php:553-558 | `$role_ids[$id] = $id` yields each role id once, in first-seen order |
| Update600.DenyAppended | system/ee/installer/updates/ud_6_00_00.php:563-568 | appending a role to an entity's `$no_access` list records exactly one more denied pair |
| Update600.CollectNoAccess | system/ee/installer/updates/ud_6_00_00.php:560-569 | afterwards, (entity, role) is in `$no_access` iff some deny row names that pair |
| Update600.CollectAllowRows | system/ee/installer/updates/ud_6_00_00.php:571-589 | the nested loop over entities and roles yields `FlipRows`: the cross product minus the denied pairs |
| Update600.SaveEach | system/ee/installer/updates/ud_6_00_00.php:115-121 | one model `save()` per row appends exactly those rows, in order |
| Update600.InsertBatch | system/ee/installer/updates/ud_6_00_00.php:192-195 | `insert_batch` behind `! empty($insert)` appends exactly the rows, and an empty batch changes nothing |
| Update600.DropEach | system/ee/installer/updates/ud_6_00_00.php:126-129 | the `drop_column` loop drops the listed columns in order |
| Update600.AddConfig | system/ee/installer/updates/ud_6_00_00.php:53-144 | addConfigTable's new tables and error equal `ConfigTableStep` of the old tables |
| Update600.AddRolesAndMembership | system/ee/installer/updates/ud_6_00_00.php:146-233 | addRoles equals `RolesStep` |
| Update600.AddRoleGroupTables | system/ee/installer/updates/ud_6_00_00.php:235-296 | addRoleGroups equals `RoleGroupsStep` |
| Update600.AddPermissions | system/ee/installer/updates/ud_6_00_00.php:298-471 | addAndPopulatePermissionsTable equals `PermissionsStep` |
| Update600.ReassignToRoles | system/ee/installer/updates/ud_6_00_00.php:473-525 | each of the three reassign steps equals `ReassignStep` of its source and target tables |
| Update600.FlipPolarity | system/ee/installer/updates/ud_6_00_00.php:527-742 | each of the three polarity flips equals `FlipStep` of its access kind |
| Update600.RenameMemberGroups | system/ee/installer/updates/ud_6_00_00.php:744-765 | renameMemberGroupTable equals `RoleSettingsStep`, including the raw ALTER's failure |
| Update600.RenameGroupColumn | system/ee/installer/updates/ud_6_00_00.php:767-776 | the `group_id` to `role_id` column rename on `members` and on `email_cache_mg` |
| Update600.ReassignLayouts | system/ee/installer/updates/ud_6_00_00.php:778-789 | reassignLayoutsToPrimaryRole equals `LayoutsStep` |
| Update600.RunStep | system/ee/installer/updates/ud_6_00_00.php:47 | `$this->$v()` runs the method a step name stands for |
| Update600.DoUpdate | system/ee/installer/updates/ud_6_00_00.php:24-51 | the tables after `do_update` are `RunSteps(Plan)`; the steps run are the whole plan, or a prefix of it ending at the failing step |
| Update600.RunInOrder | system/ee/installer/updates/ud_6_00_00.php:45-48 | the loop over any step list equals `RunSteps` and stops at the first failure |
| Update600Proofs.PlanRunsEveryStepOnce | system/ee/installer/updates/ud_6_00_00.php:26-44 | the plan holds fourteen steps, each method exactly once |
| Update600Proofs.GuardedStepIsNoOp | system/ee/installer/updates/ud_6_00_00.php:55-58 | a step whose `table_exists` guard holds changes nothing and does not fail |
| Update600Proofs.ConfigStepFrame | system/ee/installer/updates/ud_6_00_00.php:53-144 | addConfigTable changes no table but `config` and `sites`, and `config` exists after success |
| Update600Proofs.CreateInsertDropColumnsEffect | system/ee/installer/updates/ud_6_00_00.php:334-470 | create, add key, insert and drop columns: what the two tables then hold, with the rest unchanged |
| Update600Proofs.PermissionsStepFrame | system/ee/installer/updates/ud_6_00_00.php:298-471 | the permissions step changes only `permissions` and `member_groups` |
| Update600Proofs.RolesStepFrame | system/ee/installer/updates/ud_6_00_00.php:146-233 | addRoles changes only `roles` and `members_roles` |
| Update600Proofs.CreateInsertDropEffect | system/ee/installer/updates/ud_6_00_00.php:551-596 | create, insert, then drop the deny table: the allow table holds the rows, and the deny table is gone |
| Update600Proofs.FlipStepShape | system/ee/installer/updates/ud_6_00_00.php:527-597 | a flip that runs creates the allow table, fills it, then drops the deny table; with an input table missing it fails right after the create |
| Update600Proofs.FlipStepFrame | system/ee/installer/updates/ud_6_00_00.php:527-742 | a flip changes only its allow and deny tables |
| Update600Proofs.RoleSettingsStepFrame | system/ee/installer/updates/ud_6_00_00.php:744-765 | renameMemberGroupTable changes only `member_groups` and `role_settings` |
| Update600Proofs.RoleGroupsStepFrame | system/ee/installer/updates/ud_6_00_00.php:235-296 | addRoleGroups changes only its three tables, and leaves them existing |
| Update600Proofs.ReassignStepContents | system/ee/installer/updates/ud_6_00_00.php:473-489 | a reassign that runs moves the old table to the new name, with `group_id` renamed to `role_id` in the schema, the primary key and every row, each row keeping its value |
| Update600Proofs.ReassignStepFrame | system/ee/installer/updates/ud_6_00_00.php:473-489 | a reassign changes only its two tables, and leaves the rename done |
| Update600Proofs.RenameGroupColumnStepFrame | system/ee/installer/updates/ud_6_00_00.php:767-776 | a column rename changes only its table, and leaves no `group_id` to rename |
| Update600Proofs.LayoutsStepFrame | system/ee/installer/updates/ud_6_00_00.php:778-789 | the layouts step changes only its two tables, and leaves them settled |
| Update600Proofs.StepFrameAndSettles | system/ee/installer/updates/ud_6_00_00.php:53-800 | every step changes only the tables it names, and one that succeeds leaves its work settled |
| Update600Proofs.StepFrame | system/ee/installer/updates/ud_6_00_00.php:53-800 | every step changes no table outside the ones it names |
| Update600Proofs.StepSettles | system/ee/installer/updates/ud_6_00_00.php:53-800 | a step that succeeds leaves its work settled |
| Update600Proofs.SettledStepIsNoOp | system/ee/installer/updates/ud_6_00_00.php:53-800 | a settled step changes nothing and does not fail |
| Update600Proofs.SettledIsLocal | system/ee/installer/updates/ud_6_00_00.php:53-800 | whether a step is settled depends only on the tables it owns |
| Update600Proofs.StepIdempotent | system/ee/installer/updates/ud_6_00_00.php:53-800 | running a step that succeeded a second time is a no-op |
| Update600Proofs.TouchedBy | system/ee/installer/updates/ud_6_00_00.php:26-44 | a table is touched by a step list iff some listed step touches it |
| Update600Proofs.RunStepsFrame | system/ee/installer/updates/ud_6_00_00.php:45-48 | a run of steps changes no table that none of them touches |
| Update600Proofs.OwnedByOneStep | system/ee/installer/updates/ud_6_00_00.php:26-44 | a table one step owns is touched by no other step |
| Update600Proofs.OwnerTouches | system/ee/installer/updates/ud_6_00_00.php:26-44 | every owned table has its owner as its one toucher |
| Update600Proofs.PlanOwnershipOrdered | system/ee/installer/updates/ud_6_00_00.php:26-44 | no step of the plan touches a table owned by an earlier step |
| Update600Proofs.RunStepsSettles | system/ee/installer/updates/ud_6_00_00.php:45-48 | after a successful run every step of the list is settled |
| Update600Proofs.RunSettledSteps | system/ee/installer/updates/ud_6_00_00.php:45-48 | steps that are all settled change nothing |
| Update600Proofs.UpdateIsIdempotent | system/ee/installer/updates/ud_6_00_00.php:24-51 | after a successful update a second `do_update` changes nothing and does not fail |
| Update600Proofs.RoleRowsAreSiteOneGroups | system/ee/installer/updates/ud_6_00_00.php:178-190 | a role row exists iff it is the id, title and description of a site-1 member group |
| Update600Proofs.MemberRoleRowsAreMembers | system/ee/installer/updates/ud_6_00_00.php:218-227 | membership row i pairs member i with that member's `group_id` as its role |
| Update600Proofs.RolesStepContents | system/ee/installer/updates/ud_6_00_00.php:146-233 | when addRoles runs, it succeeds, `roles` holds the site-1 role rows, and `members_roles` gains one row per member |
| Update600Proofs.GroupPermissionRowsIff | system/ee/installer/updates/ud_6_00_00.php:447-459 | one group's rows are exactly its renamed flags set to `y` |
| Update600Proofs.PermissionRowsIff | system/ee/installer/updates/ud_6_00_00.php:443-460 | a permission row exists iff some group has some listed flag set to `y`; the row holds the group's id, its site and the flag's name after renaming |
| Update600Proofs.RenamePermissionRules | system/ee/installer/updates/ud_6_00_00.php:435-441 | the five member-group permissions get their role names; every other name is kept; no legacy name comes out |
| Update600Proofs.EmittedPermissionsRenamed | system/ee/installer/updates/ud_6_00_00.php:452 | no inserted permission carries a legacy member-group name |
| Update600Proofs.PermissionsStepContents | system/ee/installer/updates/ud_6_00_00.php:298-471 | when the permissions step runs, `permissions` holds exactly `PermissionRows` with a (role_id, site_id) key; `member_groups` loses exactly the flag columns |
| Update600Proofs.EntityAllowRowsIff | system/ee/installer/updates/ud_6_00_00.php:578-588 | one entity's allow rows are exactly its listed roles not denied |
| Update600Proofs.FlipRowsIff | system/ee/installer/updates/ud_6_00_00.php:575-589 | a row is inserted iff it pairs a listed entity with a listed role and that pair is not denied |
| Update600Proofs.AllowRowInjective | system/ee/installer/updates/ud_6_00_00.php:583-586 | an allow row determines its role and its entity |
| Update600Proofs.FlipAllows | system/ee/installer/updates/ud_6_00_00.php:575-589 | (role, entity) is allowed exactly when both are listed and the pair was not denied |
| Update600Proofs.DistinctIdsIff | system/ee/installer/updates/ud_6_00_00.php:553-558 | the role ids are each listed once, and are exactly the ids of the rows read |
| Update600Proofs.EntityAllowRowsDistinct | system/ee/installer/updates/ud_6_00_00.php:578-588 | one entity's allow rows repeat nothing, and all name that entity |
| Update600Proofs.FlipRowsDistinct | system/ee/installer/updates/ud_6_00_00.php:575-589 | with distinct entities and roles, no (role, entity) pair is inserted twice |
| Update600Proofs.EntityIdsIff | system/ee/installer/updates/ud_6_00_00.php:717-720 | the migrated entities are every entity row; for upload directories, only those with `module_id = 0` |
| Update600Proofs.EligibleRolesIff | system/ee/installer/updates/ud_6_00_00.php:554-558 | the eligible roles are the existing roles outside 1 to 4, or outside 1 for templates, each once |
| Update600Proofs.FlipStepContents | system/ee/installer/updates/ud_6_00_00.php:527-742 | when a flip runs, it succeeds and drops the deny table; (role, entity) is allowed iff the entity is migrated, the role is eligible and the pair was not denied |
| Update600Proofs.DeniedEntityExample | system/ee/installer/updates/ud_6_00_00.php:578-588 | with role 6 denied status 100, status 100 is allowed for roles 5 and 7 only |
| Update600Proofs.OpenEntityExample | system/ee/installer/updates/ud_6_00_00.php:578-588 | a status nobody is denied is allowed for every role, in role order |
| Update600Proofs.FlipExample | system/ee/installer/updates/ud_6_00_00.php:575-589 | two statuses, three roles and one denied pair give five allow rows, entity by entity |
| Update600Proofs.EntryRowsIff | system/ee/installer/updates/ud_6_00_00.php:112-121 | one config row per blob entry, under the (renamed) key |
| Update600Proofs.PrefRowsIff | system/ee/installer/updates/ud_6_00_00.php:109-122 | a site's config rows are exactly its entries of the listed blobs |
| Update600Proofs.SiteConfigRowsIff | system/ee/installer/updates/ud_6_00_00.php:106-123 | a config row exists iff some site has that entry in one of its four preference blobs; the row holds that site's id |
| Update600Proofs.RenameConfigKeyRules | system/ee/installer/updates/ud_6_00_00.php:102-104 | `default_member_group` is stored as `default_primary_role`, and every other key is kept |
| Update600Proofs.LegacyKeyNeverWritten | system/ee/installer/updates/ud_6_00_00.php:114 | no site config row carries the key `default_member_group` |
| Update600Proofs.InstallConfigRowsIff | system/ee/installer/updates/ud_6_00_00.php:131-143 | an install-time preference is written for site 0 iff its value is truthy |
| Update600Proofs.InsertDropInsertEffect | system/ee/installer/updates/ud_6_00_00.php:106-143 | insert, drop columns, insert: the new table holds both batches in order, and the other table loses exactly the dropped columns |
| Update600Proofs.ConfigStepShape | system/ee/installer/updates/ud_6_00_00.php:53-144 | the schema operations addConfigTable issues, in order, when it runs |
| Update600Proofs.ConfigStepContents | system/ee/installer/updates/ud_6_00_00.php:53-144 | when addConfigTable runs, it succeeds, `config` holds the site rows and then the install rows, and `sites` loses exactly the four blob columns |
| Update600Proofs.AddSurrogateKeyRules | system/ee/installer/updates/ud_6_00_00.php:764 | the raw ALTER succeeds iff the table exists without an `id` column or primary key; it then adds `id` as the key, numbering the rows distinctly and leaving the rest of each row alone |
| DesignGroup.GroupNameChecks | system/ee/EllisLab/ExpressionEngine/Controller/Design/Group.php:434-469 | a rule error is reported first, then a reserved name; otherwise the name is accepted iff it is unused, or used once when it is the name being edited |
| DesignGroup.NameCount | system/ee/EllisLab/ExpressionEngine/Controller/Design/Group.php:452-455 | the count is 0 iff no group of the site has that name |
| DesignGroup.NameErrors | system/ee/EllisLab/ExpressionEngine/Controller/Design/Group.php:136-141 | `required\|callback__group_name_checks` passes iff the name is non-empty and the checks accept it |
| DesignGroup.DefaultFlagErrors | system/ee/EllisLab/ExpressionEngine/Controller/Design/Group.php:142-146 | `required\|enum[y,n]` passes iff the flag is `y` or `n` |
| DesignGroup.IndexOfKey | system/ee/EllisLab/ExpressionEngine/Controller/Design/Group.php:48 | the first position of a key in a PHP array, or none when it is absent |
| DesignGroup.IndexOfKeyUnique | system/ee/EllisLab/ExpressionEngine/Controller/Design/Group.php:48 | any first position of the key is the one `IndexOfKey` finds |
| DesignGroup.ArraySet | system/ee/EllisLab/ExpressionEngine/Controller/Design/Group.php:48-52 | after `$a[$k] = $v` the key maps to `v`, every other key keeps its value, and the other entries keep their places |
| DesignGroup.CollectGroupChoices | system/ee/EllisLab/ExpressionEngine/Controller/Design/Group.php:41-53 | the `each` closure builds `GroupChoices` |
| DesignGroup.PreselectedMemberGroups | system/ee/EllisLab/ExpressionEngine/Controller/Design/Group.php:56 | nothing is preselected for a superadmin; anyone else gets their own group |
| DesignGroup.DefaultCount | system/ee/EllisLab/ExpressionEngine/Controller/Design/Group.php:103-106 | the count is 0 iff no group of the site is its default |
| DesignGroup.MakeDefaultValue | system/ee/EllisLab/ExpressionEngine/Controller/Design/Group.php:101-106 | the create form proposes `n` iff the site already has a default group, else `y` |
| DesignGroup.CreateFormFields | system/ee/EllisLab/ExpressionEngine/Controller/Design/Group.php:72-133 | the create form has name, duplicate and default fields; it has the member-group field iff the member may administer member groups |
| DesignGroup.EditFormFields | system/ee/EllisLab/ExpressionEngine/Controller/Design/Group.php:274-328 | the edit form has name and default fields; it has the member-group field iff the member may administer member groups |
| DesignGroup.ExistingMemberGroups | system/ee/EllisLab/ExpressionEngine/Controller/Design/Group.php:165 | `get('MemberGroup', ids)` loads exactly the posted ids that exist |
| DesignGroup.FindGroupById | system/ee/EllisLab/ExpressionEngine/Controller/Design/Group.php:178 | finds a group with that id, or none exists |
| DesignGroup.FindGroupByName | system/ee/EllisLab/ExpressionEngine/Controller/Design/Group.php:248-256 | finds the site's group with that name, or none exists |
| DesignGroup.TemplatesOf | system/ee/EllisLab/ExpressionEngine/Controller/Design/Group.php:179 | `getTemplates()` returns exactly the group's templates |
| DesignGroup.CopyTemplates | system/ee/EllisLab/ExpressionEngine/Controller/Design/Group.php:199-215 | one copy per master template |
| DesignGroup.DesignManager.SaveCopies | system/ee/EllisLab/ExpressionEngine/Controller/Design/Group.php:199-215 | the duplication loop appends one copy per master, with consecutive ids, and changes nothing else |
| DesignGroup.DesignManager.Create | system/ee/EllisLab/ExpressionEngine/Controller/Design/Group.php:34-239 | the stored state and the result of posting the create form equal `CreateOutcome` |
| DesignGroup.DesignManager.Duplicate | system/ee/EllisLab/ExpressionEngine/Controller/Design/Group.php:174-216 | the templates added once the group is saved equal `DuplicateOutcome` |
| DesignGroup.DesignManager.Edit | system/ee/EllisLab/ExpressionEngine/Controller/Design/Group.php:241-384 | the stored state and the result of posting the edit form equal `EditOutcome` |
| DesignGroupProofs.GroupChoicesStartWithNone | system/ee/EllisLab/ExpressionEngine/Controller/Design/Group.php:41-43 | the duplicate choices start with the "none" entry |
| DesignGroupProofs.GroupChoicesOfferSiteGroups | system/ee/EllisLab/ExpressionEngine/Controller/Design/Group.php:44-53 | a group id is offered iff some group of the current site has it |
| DesignGroupProofs.GroupChoicesLabels | system/ee/EllisLab/ExpressionEngine/Controller/Design/Group.php:47-52 | each offered group shows its name, with the default marker iff it is the site default; the last group with an id wins |
| DesignGroupProofs.ChoiceKeysRoundTrip | system/ee/EllisLab/ExpressionEngine/Controller/Design/Group.php:176 | a posted group key passes `is_numeric` as that id; the `false` key duplicates nothing |
| DesignGroupProofs.EligibleMemberGroupsContents | system/ee/EllisLab/ExpressionEngine/Controller/Design/Group.php:59-65 | the offered member groups are exactly the eligible ones, each under its title; groups 1, 2 and 4 are never offered |
| DesignGroupProofs.CopyTemplatesResets | system/ee/EllisLab/ExpressionEngine/Controller/Design/Group.php:199-215 | each copy gets a fresh id, the new group, the current site and time, and zero hits; it keeps the master's other columns and access list; PHP stays on only for a superadmin |
| DesignGroupProofs.AccessRequired | system/ee/EllisLab/ExpressionEngine/Controller/Design/Group.php:22-32 | a member without `can_access_design` is refused by both forms, and nothing is stored |
| DesignGroupProofs.CreatedNameWasFree | system/ee/EllisLab/ExpressionEngine/Controller/Design/Group.php:434-469 | a created name is non-empty, passes the rule and is not reserved; no group of the site has it unless the posted `old_name` equals it ignoring case, at most one group has it in any case, and none when no `old_name` is posted |
| DesignGroupProofs.CreateSucceedsIff | system/ee/EllisLab/ExpressionEngine/Controller/Design/Group.php:34-216 | create succeeds iff the member may use the design manager and create groups, the name passes its checks, the flag is `y`/`n`, and a numeric duplicate choice names an existing group; any other failure stores nothing |
| DesignGroupProofs.CreateShape | system/ee/EllisLab/ExpressionEngine/Controller/Design/Group.php:154-216 | a successful create appends the new group and then the added templates, and returns the group's id |
| DesignGroupProofs.CreateSavesFirst | system/ee/EllisLab/ExpressionEngine/Controller/Design/Group.php:156-172 | a create that passes the checks saves the group before duplicating |
| DesignGroupProofs.DuplicateShape | system/ee/EllisLab/ExpressionEngine/Controller/Design/Group.php:174-216 | a duplication that succeeds adds the chosen group's copies, or an `index` template |
| DesignGroupProofs.CreateSavesGroup | system/ee/EllisLab/ExpressionEngine/Controller/Design/Group.php:156-172 | the saved group has the next id, the posted name, the current site, and the default flag iff `y` was posted |
| DesignGroupProofs.CreateAddsTemplates | system/ee/EllisLab/ExpressionEngine/Controller/Design/Group.php:186-216 | create keeps the old templates and adds at least one, each with a fresh consecutive id, the new group, the site and time, zero hits, and PHP off for non-superadmins |
| DesignGroupProofs.AppendedTemplatesReset | system/ee/EllisLab/ExpressionEngine/Controller/Design/Group.php:186-216 | appending reset templates keeps the old ones as a prefix |
| DesignGroupProofs.AddedTemplatesReset | system/ee/EllisLab/ExpressionEngine/Controller/Design/Group.php:186-216 | the added templates are never empty, and every one is reset |
| DesignGroupProofs.CreateDuplicates | system/ee/EllisLab/ExpressionEngine/Controller/Design/Group.php:176-184 | a numeric choice naming a group with templates copies exactly those templates, in order |
| DesignGroupProofs.CreateIndexTemplate | system/ee/EllisLab/ExpressionEngine/Controller/Design/Group.php:186-196 | without a usable choice the group gets exactly one empty `index` template |
| DesignGroupProofs.EditEffect | system/ee/EllisLab/ExpressionEngine/Controller/Design/Group.php:241-361 | a failed edit stores nothing; a successful one (details below the table) |
| DesignGroupProofs.EditNameRules | system/ee/EllisLab/ExpressionEngine/Controller/Design/Group.php:434-469 | an accepted edit name is non-empty and not reserved; a changed name is used by no group of the site; at most one group has it |
| Update210.SiteConfig.constructor | system/installer/updates/ud_2_10_00.php:112 | `new MSM_Config()` holds the given site preferences |
| Update210.SiteConfig.UpdateSitePrefs | system/installer/updates/ud_2_10_00.php:133-136 | `update_site_prefs(prefs, site)` merges into that site only |
| Update210.SiteConfig.UpdateAllSitePrefs | system/installer/updates/ud_2_10_00.php:167-173 | `update_site_prefs(prefs, 'all')` merges into every site |
| Update210.AddLoginStateColumn | system/installer/updates/ud_2_10_00.php:148-156 | `_member_login_state` equals `LoginStateStep` |
| Update210.RetypeCategoryFieldColumns | system/installer/updates/ud_2_10_00.php:67-88 | `_modify_category_data_fields` equals `CategoryFieldsStep`, and fails iff `category_fields` is missing |
| Update210.RestoreFullYears | system/installer/updates/ud_2_10_00.php:96-140 | `_date_format_years` equals `DateFormatStep` on the tables and the site preferences |
| Update210.RestoreMemberYears | system/installer/updates/ud_2_10_00.php:99-108 | the two member updates succeed iff `members` exists; on failure nothing changes |
| Update210.SiteDateFormatsNext | system/installer/updates/ud_2_10_00.php:116-138 | one more site row merges that site's rewritten format, or changes nothing |
| Update210.RestoreSiteYears | system/installer/updates/ud_2_10_00.php:111-139 | the site loop equals `SiteDateFormats` |
| Update210.EnablePrivateMessages | system/installer/updates/ud_2_10_00.php:164-174 | merges both private-message options into every site |
| Update210.RunStep | system/installer/updates/ud_2_10_00.php:50 | `$this->$v()` runs the method a step name stands for |
| Update210.DoUpdate | system/installer/updates/ud_2_10_00.php:35-54 | `do_update` equals `RunSteps(Plan)`; the steps run are the plan, or a prefix of it ending at the failing step |
| Update210.RunInOrder | system/installer/updates/ud_2_10_00.php:48-51 | the loop over any step list equals `RunSteps` and stops at the first failure |
| Update210Proofs.RewriteDateFormatRules | system/installer/updates/ud_2_10_00.php:99-108 | a rewritten format is never a legacy one; a format changes iff it was legacy; rewriting twice is rewriting once |
| Update210Proofs.MemberDateFormatsEffect | system/installer/updates/ud_2_10_00.php:99-108 | the member updates succeed iff `members` exists, and then rewrite exactly each row's legacy `date_format` |
| Update210Proofs.NoLegacyMemberFormats | system/installer/updates/ud_2_10_00.php:99-108 | afterwards no member has a two-digit-year format |
| Update210Proofs.RewriteMemberRowsIdempotent | system/installer/updates/ud_2_10_00.php:99-108 | running the member updates again changes nothing |
| Update210Proofs.SiteDateFormatsEffect | system/installer/updates/ud_2_10_00.php:111-139 | the site loop keeps the set of sites; each visited site gets its format rewritten, and every other site is unchanged |
| Update210Proofs.NoLegacySiteFormats | system/installer/updates/ud_2_10_00.php:116-138 | afterwards no visited site has a two-digit-year format |
| Update210Proofs.SiteDateFormatsSettled | system/installer/updates/ud_2_10_00.php:131-137 | with no legacy format left the site loop writes nothing |
| Update210Proofs.Retyped | system/installer/updates/ud_2_10_00.php:77-86 | retyping keeps the set of columns |
| Update210Proofs.RetypedSnoc | system/installer/updates/ud_2_10_00.php:77-86 | one more `modify_column` retypes one more column, if it exists |
| Update210Proofs.RetypeFieldsEffect | system/installer/updates/ud_2_10_00.php:71-87 | the field loop makes exactly the fields' existing columns nullable text and changes nothing else |
| Update210Proofs.RetypedTablesIdempotent | system/installer/updates/ud_2_10_00.php:77-86 | retyping again changes nothing |
| Update210Proofs.FieldColumnInjective | system/installer/updates/ud_2_10_00.php:75 | distinct integer field ids name distinct columns |
| Update210Proofs.PrivateMessagesEnabled | system/installer/updates/ud_2_10_00.php:164-174 | every site gets both options set to `y`, keeps its other preferences, and no site is added |
| Update210Proofs.UpdatedTablesFrame | system/installer/updates/ud_2_10_00.php:35-54 | the update keeps every table, leaves `category_fields` as it was, and leaves the model's `sites` rows (the site ids the loop reads) unchanged |
| Update210Proofs.RunPlan | system/installer/updates/ud_2_10_00.php:39-51 | the plan runs its four steps in order, stopping at a failure |
| Update210Proofs.FirstStepsEffect | system/installer/updates/ud_2_10_00.php:67-88 | after the first two steps `login_state` exists and the field columns are retyped; they fail iff `category_fields` is missing |
| Update210Proofs.UpdateEffect | system/installer/updates/ud_2_10_00.php:35-54 | the update succeeds iff `category_fields`, `members` and `sites` exist, and then leaves `UpdatedTables` and `UpdatedSites` |
| Update210Proofs.UpdatedTablesIdempotent | system/installer/updates/ud_2_10_00.php:35-54 | the tables of an updated database are a fixed point of the update |
| Update210Proofs.UpdatedSitesIdempotent | system/installer/updates/ud_2_10_00.php:111-174 | the site preferences of an updated install are a fixed point too |
| Update210Proofs.UpdateIsIdempotent | system/installer/updates/ud_2_10_00.php:35-54 | after a successful update a second one changes nothing and succeeds |
| CurlRequest.Configure | system/ee/EllisLab/ExpressionEngine/Library/Curl/Request.php:11-23 | the constructor's options always hold the three default keys |
| CurlRequest.HeaderLookup | system/ee/EllisLab/ExpressionEngine/Library/Curl/Request.php:86-94 | a header is returned iff it is stored with a non-NULL value; otherwise FALSE |
| CurlRequest.Request.constructor | system/ee/EllisLab/ExpressionEngine/Library/Curl/Request.php:9-29 | the option loop gives `Configure(url, data)`; the headers start empty; the callback is kept |
| CurlRequest.Request.SetHeaders | system/ee/EllisLab/ExpressionEngine/Library/Curl/Request.php:63-78 | the header loop gives `ParseHeaders(block)`, skipping the status line |
| CurlRequest.Request.Exec | system/ee/EllisLab/ExpressionEngine/Library/Curl/Request.php:31-49 | the headers are parsed from the block before the first blank line; the result is the body passed through the callback |
| CurlRequest.Request.GetHeader | system/ee/EllisLab/ExpressionEngine/Library/Curl/Request.php:86-94 | as `HeaderLookup`, on the stored headers |
| CurlRequestProofs.IntegerKeysAreNotOptionNames | system/ee/EllisLab/ExpressionEngine/Library/Curl/Request.php:19 | no integer key passes the `CURLOPT` prefix filter |
| CurlRequestProofs.ConfigureKeys | system/ee/EllisLab/ExpressionEngine/Library/Curl/Request.php:11-23 | a key is configured iff it is a default, or given in `data` with the `CURLOPT` prefix |
| CurlRequestProofs.ConfigureValue | system/ee/EllisLab/ExpressionEngine/Library/Curl/Request.php:17-23 | a copied key holds the value of its last entry in `data` |
| CurlRequestProofs.ConfigureValues | system/ee/EllisLab/ExpressionEngine/Library/Curl/Request.php:17-23 | the same, for every key at once |
| CurlRequestProofs.DefaultsAlwaysKept | system/ee/EllisLab/ExpressionEngine/Library/Curl/Request.php:11-23 | the URL, RETURNTRANSFER and HEADER defaults survive any `data`, and no other integer key is added |
| CurlRequestProofs.ExplodeFree | system/ee/EllisLab/ExpressionEngine/Library/Curl/Request.php:74 | a string without the separator explodes into itself |
| CurlRequestProofs.SplitAfter | system/ee/EllisLab/ExpressionEngine/Library/Curl/Request.php:67 | CRLF splits a line followed by CRLF right after that line |
| CurlRequestProofs.ExplodeHeaderText | system/ee/EllisLab/ExpressionEngine/Library/Curl/Request.php:67 | a header block explodes into its status line and its field lines |
| CurlRequestProofs.HeaderLineParts | system/ee/EllisLab/ExpressionEngine/Library/Curl/Request.php:74-76 | a field line reads back as its name and value |
| CurlRequestProofs.HeaderMapOfLines | system/ee/EllisLab/ExpressionEngine/Library/Curl/Request.php:67-77 | the field lines read back as the fields' map, a later field overwriting an earlier one |
| CurlRequestProofs.ParseHeaderText | system/ee/EllisLab/ExpressionEngine/Library/Curl/Request.php:63-78 | parsing a well-formed header block gives back its fields |
| CurlRequestProofs.HeaderTextHasNoBlankLine | system/ee/EllisLab/ExpressionEngine/Library/Curl/Request.php:37 | a well-formed header block holds no blank line |
| CurlRequestProofs.SplitResponse | system/ee/EllisLab/ExpressionEngine/Library/Curl/Request.php:37 | a response splits exactly after a header block with no blank line inside |
| CurlRequestProofs.ExecRoundTrip | system/ee/EllisLab/ExpressionEngine/Library/Curl/Request.php:31-49 | for a header block, a blank line and a body, `exec` stores the block's fields and returns the body |
| CurlRequestProofs.ExecSplitsAtFirstBlankLine | system/ee/EllisLab/ExpressionEngine/Library/Curl/Request.php:37 | the block and body are the parts around the first blank line; without one there is no body |
| CurlRequestProofs.ExecWithoutResponse | system/ee/EllisLab/ExpressionEngine/Library/Curl/Request.php:36-48 | when `curl_exec` returns FALSE no header is stored, and the callback gets NULL |
| Php.Prefix | system/ee/EllisLab/ExpressionEngine/Library/Curl/Request.php:19 | `substr(s, 0, n)` is the first n characters, or the whole string when it is shorter |
| Php.ToLower | system/ee/EllisLab/ExpressionEngine/Controller/Design/Group.php:457 | `strtolower` keeps the length and lowers each character |
| Php.FindFrom | system/ee/EllisLab/ExpressionEngine/Library/Curl/Request.php:37 | finds the first occurrence of the separator from a position, or there is none |
| Php.Explode | system/ee/EllisLab/ExpressionEngine/Library/Curl/Request.php:67 | `explode` always has at least one piece |
| Php.ExplodeOnce | system/ee/EllisLab/ExpressionEngine/Library/Curl/Request.php:37 | `explode(sep, s, 2)` is `s` itself when `sep` does not occur, else the parts around its first occurrence |
| Php.ImplodeExplode | system/ee/EllisLab/ExpressionEngine/Library/Curl/Request.php:67 | joining the pieces of `explode` with the separator gives back the string |
| Php.ExplodePiecesAvoidSeparator | system/ee/EllisLab/ExpressionEngine/Library/Curl/Request.php:74 | no piece of `explode` contains the separator |
| Php.IntToStringRoundTrip | system/installer/updates/ud_2_10_00.php:75 | an integer's decimal string parses back to it |
| Php.IntToStringInjective | system/installer/updates/ud_2_10_00.php:75 | distinct integers have distinct decimal strings |
| Php.IntToStringChars | system/ee/EllisLab/ExpressionEngine/Library/Curl/Request.php:19 | an integer's decimal string holds only digits and `-` |
| Schema.Update | system/installer/updates/ud_2_10_00.php:99-103 | `update` succeeds iff the table exists, and keeps the schema |
| Schema.DropColumnsEffect | system/ee/installer/updates/ud_6_00_00.php:126-129 | dropping columns changes only that table, and removes exactly the listed columns |
| Schema.InsertNothing | system/ee/installer/updates/ud_6_00_00.php:192-195 | inserting no rows changes nothing |
| Schema.InsertRowsTwice | system/ee/installer/updates/ud_6_00_00.php:115-121 | two inserts are one insert of both batches |
| Schema.CreateTableIdempotent | system/ee/installer/updates/ud_6_00_00.php:90 | a created table exists, and creating it again changes nothing |
| Schema.ModifyColumnIdempotent | system/ee/installer/updates/ud_6_00_00.php:480-486 | a column rename applied twice is applied once |
| Schema.RenameTableIdempotent | system/ee/installer/updates/ud_6_00_00.php:488 | a table rename applied twice is applied once |
| Schema.ModifyThenRenameIdempotent | system/ee/installer/updates/ud_6_00_00.php:480-488 | column rename then table rename, applied twice, is applied once |
| Schema.ModifyColumnFrame | system/ee/installer/updates/ud_6_00_00.php:480-486 | `modify_column` changes only its table; the new name exists when it applied, or the table is unchanged |
| Schema.RenameTableFrame | system/ee/installer/updates/ud_6_00_00.php:488 | `rename_table` changes only the two tables, and does nothing when both exist |
| Schema.ModifyColumnInPlace | system/installer/updates/ud_2_10_00.php:77-86 | modifying a column to its own name changes only that column's type, and only when it exists |
| Database.Database.CreateTable | system/ee/installer/updates/ud_6_00_00.php:90 | `create_table` on the stored tables |
| Database.Database.DropTable | system/ee/installer/updates/ud_6_00_00.php:596 | `drop_table` on the stored tables |
| Database.Database.RenameTable | system/ee/installer/updates/ud_6_00_00.php:762 | `rename_table` on the stored tables |
| Database.Database.AddColumn | system/installer/updates/ud_2_10_00.php:150-155 | `add_column` on the stored tables |
| Database.Database.DropColumn | system/ee/installer/updates/ud_6_00_00.php:758-759 | `drop_column` on the stored tables |
| Database.Database.ModifyColumn | system/ee/installer/updates/ud_6_00_00.php:751-757 | `modify_column` on the stored tables |
| Database.Database.AddKey | system/ee/installer/updates/ud_6_00_00.php:761 | `add_key` on the stored tables |
| Database.Database.DropPrimaryKey | system/ee/installer/updates/ud_6_00_00.php:760 | `drop_key('PRIMARY')` on the stored tables |
| Database.Database.Update | system/installer/updates/ud_2_10_00.php:99-108 | `update` succeeds iff `Schema.Update` does, and otherwise changes nothing |
| Database.Database.Insert | system/ee/installer/updates/ud_6_00_00.php:194 | `insert_batch` on the stored tables |

`DesignGroupProofs.EditEffect`, for a successful edit:
- the member may use the design manager and edit groups;
- the group exists on the site and the member may edit it;
- only that group changes, and it gets the posted name and default flag;
- its member groups change only for a member-group administrator;
- the templates, the member groups and the ids stay as they were.

## Left out

**Not modelled, or modelled as a parameter**
- Schema-forge and database-forge internals: column widths, `unsigned`, defaults and collations, and the values of AUTO_INCREMENT ids given to inserted rows.
  - A table is only its columns (kind and nullability), its keys and its rows.
- MySQL's case-insensitive comparison in `count()` and `where`: names and values are compared exactly. The `strtolower` in `_group_name_checks` is modelled.
  - Update210.RestoreMemberYears: the `where` of the two `members` date-format updates compares exactly. Under a case-insensitive collation `'%j-%n-%y'` would also match `'%j-%n-%Y'`, and such a row would be rewritten too. `RewriteDateFormatRules` holds for exact comparison.
- PHP's loose comparison: values are compared by the model's `Value` equality.
- `unserialize(base64_decode(...))`: a site's preference column is already its decoded entry list.
- `ProgressIterator` is not part of this model: it is treated as plain iteration over its list of step names.
- `config->divination('install')` and `config->item`: the install-time preferences are a parameter.
- `MSM_Config` is reduced to a map from site to preferences.
  - `SiteConfig.sites` stands for the preference columns of the `sites` table. The model's `Sites` table holds only the site rows the loops read, so the writes of `_date_format_years` and `_add_new_private_messages_options` show in `SiteConfig.sites`, not in `tables[Sites]`.
- The session, permissions and site configuration are the `Context` parameter:
  - `allowed_group` (including the constructor's `can_access_design` check), `hasEditTemplatePrivileges` (a set of editable group ids), the session's group, the site id and `localize->now`.
- The rule error of the `alphaDashPeriodEmoji` validator is a parameter of `GroupNameChecks`; the validator itself is not part of this model.
- AJAX validation, rendering, alerts, redirects and the sidebar are not modelled.
- `remove()` and the other handlers of `Group.php` are not part of this model; only `create`, `edit` and `_group_name_checks` are.
- The `order('group_title')` of the member-group dictionary is not modelled: `EligibleMemberGroups` is a map, and order does not matter to it.
- `NumericId`: `is_numeric` is modelled for an optional `-` followed by decimal digits; decimals, exponents and leading spaces are not accepted.
- `curl_init`, `curl_setopt_array`, `curl_exec` and `curl_close` are not modelled.
  - The raw response is a parameter of `Exec` (`None` for FALSE).
  - The header map starts empty instead of with `curl_getinfo`'s fields.
  - The callback is a Dafny function instead of `call_user_func` on a PHP callable.

**As in the source**
- CurlRequest.Request.SetHeaders: a header value containing `: ` keeps only its text up to that separator, as `list($key, $value) = explode(': ', $line)` does.
- CurlRequest.Configure: a caller's option never replaces a default, because the integer keys of the defaults never pass the `CURLOPT` string filter.
- DesignGroup.DesignManager.Create: a numeric duplicate choice naming no group stops the form after the new group was saved (`MissingMasterGroup`). In PHP this is the fatal error of calling `getTemplates()` on NULL.

**Not stated by a lemma**
- The full contents of `role_settings` after `renameMemberGroupTable`. The step is proved equal to `RoleSettingsStep`, but the lemmas state only its frame, that it settles, and what the raw ALTER does (`AddSurrogateKeyRules`).
