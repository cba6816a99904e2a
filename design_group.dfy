/**
 * The template-group controller of the design manager: the rules behind
 * its create and edit forms (which groups are offered, what is preselected,
 * how a group name is checked) and what saving either form does to the
 * stored template groups and templates.
 *
 * Stored records are values; the store that holds them is a `DesignManager`
 * object whose fields the two form handlers update. Permission checks that
 * the controller delegates (`allowed_group`, `hasEditTemplatePrivileges`),
 * the session's member group, the clock and the result of the
 * `alphaDashPeriodEmoji` validation rule are inputs.
 */
module DesignGroup {
  import opened Wrappers
  import opened Php

  datatype TemplateGroup = TemplateGroup(groupId: int, siteId: int, groupName: string, isSiteDefault: bool, memberGroups: set<int>)

  datatype MemberGroup = MemberGroup(groupId: int, siteId: int, groupTitle: string, canAccessDesign: string)

  /** A template; `otherValues` holds the columns the controller copies without looking at them. */
  datatype Template = Template(
    templateId: int,
    groupId: int,
    siteId: int,
    templateName: string,
    templateData: string,
    lastAuthorId: int,
    editDate: int,
    hits: int,
    allowPhp: bool,
    noAccess: set<int>,
    otherValues: map<string, Value>)

  /** The superadmin member group. */
  const SuperAdmin := 1

  /**
   * What the controller asks of the session and the configuration;
   * `canAccessDesign` is the constructor's `allowed_group('can_access_design')`.
   */
  datatype Context = Context(
    canAccessDesign: bool,
    siteId: int,
    sessionGroup: int,
    canCreateGroups: bool,
    canEditGroups: bool,
    canAdminMemberGroups: bool,
    editableGroups: set<int>,
    now: int)

  // =====================================================================
  // _group_name_checks

  datatype NameVerdict = Accepted | RuleError(message: string) | ReservedName | GroupNameTaken

  const ReservedNames: seq<string> := ["act", "css"]

  /**
   * The name callback, given the `alphaDashPeriodEmoji` rule's error (if
   * any), the form's `old_name` and the number of groups of the current
   * site already called `name`.
   */
  function GroupNameChecks(name: string, ruleError: Option<string>, oldName: string, count: nat): (v: NameVerdict)
    ensures ruleError.Some? ==> v == RuleError(ruleError.value)
    ensures ruleError.None? && name in ReservedNames ==> v == ReservedName
    ensures v == Accepted <==>
      ruleError.None? && name !in ReservedNames
      && (if ToLower(oldName) == ToLower(name) then count <= 1 else count == 0)
    ensures v == GroupNameTaken <==>
      ruleError.None? && name !in ReservedNames
      && (if ToLower(oldName) == ToLower(name) then count > 1 else count > 0)
  {
    if ruleError.Some? then RuleError(ruleError.value)
    else if name in ReservedNames then ReservedName
    else if ToLower(oldName) != ToLower(name) && count > 0 then GroupNameTaken
    else if count > 1 then GroupNameTaken
    else Accepted
  }

  /** The number of groups of `siteId` called `name`, as the `count()` query returns it. */
  function NameCount(groups: seq<TemplateGroup>, siteId: int, name: string): (n: nat)
    ensures n == 0 <==> forall k :: 0 <= k < |groups| ==> !(groups[k].siteId == siteId && groups[k].groupName == name)
    ensures n <= |groups|
  {
    if groups == [] then 0
    else
      var g := groups[|groups| - 1];
      NameCount(groups[..|groups| - 1], siteId, name) + if g.siteId == siteId && g.groupName == name then 1 else 0
  }

  // =====================================================================
  // Form validation

  datatype FormError = NameRequired | NameRejected(verdict: NameVerdict) | DefaultFlagRequired | DefaultFlagNotYesNo

  /** `required|callback__group_name_checks` on `group_name`: the callback runs only on a non-empty name. */
  function NameErrors(name: string, ruleError: Option<string>, oldName: string, count: nat): (e: seq<FormError>)
    ensures e == [] <==> name != "" && GroupNameChecks(name, ruleError, oldName, count) == Accepted
  {
    if name == "" then [NameRequired]
    else
      var v := GroupNameChecks(name, ruleError, oldName, count);
      if v == Accepted then [] else [NameRejected(v)]
  }

  /** `required|enum[y,n]` on `make_default_group`. */
  function DefaultFlagErrors(flag: string): (e: seq<FormError>)
    ensures e == [] <==> flag == "y" || flag == "n"
  {
    if flag == "" then [DefaultFlagRequired]
    else if flag != "y" && flag != "n" then [DefaultFlagNotYesNo]
    else []
  }

  // =====================================================================
  // What the forms offer

  /** A PHP array with string labels: entries in insertion order, each key at most once. */
  type Choices = seq<(Key, string)>

  /** The position of key `k`, if it is present. */
  function IndexOfKey(a: Choices, k: Key): (r: Option<nat>)
    ensures r.Some? ==> r.value < |a| && a[r.value].0 == k && forall j :: 0 <= j < r.value ==> a[j].0 != k
    ensures r.None? ==> forall j :: 0 <= j < |a| ==> a[j].0 != k
  {
    if a == [] then None
    else if a[0].0 == k then Some(0)
    else match IndexOfKey(a[1..], k)
      case None => None
      case Some(i) => Some(i + 1)
  }

  /** `$a[$k]`, or nothing when the key is absent. */
  function Lookup(a: Choices, k: Key): Option<string> {
    match IndexOfKey(a, k)
    case None => None
    case Some(i) => Some(a[i].1)
  }

  /** `IndexOfKey` is the first position holding the key: any answer with that property is its answer. */
  lemma IndexOfKeyUnique(a: Choices, k: Key, r: Option<nat>)
    requires r.Some? ==> r.value < |a| && a[r.value].0 == k && forall j :: 0 <= j < r.value ==> a[j].0 != k
    requires r.None? ==> forall j :: 0 <= j < |a| ==> a[j].0 != k
    ensures IndexOfKey(a, k) == r
  {
    var q := IndexOfKey(a, k);
    if q.Some? && r.Some? {
      assert !(q.value < r.value) && !(r.value < q.value);
    }
  }

  /** `$a[$k] = $v`: overwrites the value in place, or appends a new entry. */
  function ArraySet(a: Choices, k: Key, v: string): (r: Choices)
    ensures Lookup(r, k) == Some(v)
    ensures forall k2 :: k2 != k ==> Lookup(r, k2) == Lookup(a, k2)
    ensures |a| <= |r| && forall j :: 0 <= j < |a| && a[j].0 != k ==> r[j] == a[j]
  {
    match IndexOfKey(a, k)
    case Some(i) =>
      var r := a[i := (k, v)];
      IndexOfKeyUnique(r, k, Some(i));
      assert forall k2 :: IndexOfKey(r, k2) == IndexOfKey(a, k2) by {
        forall k2 {
          IndexOfKeyUnique(r, k2, IndexOfKey(a, k2));
        }
      }
      r
    case None =>
      var r := a + [(k, v)];
      IndexOfKeyUnique(r, k, Some(|a|));
      assert forall k2 :: k2 != k ==> IndexOfKey(r, k2) == IndexOfKey(a, k2) by {
        forall k2 | k2 != k {
          IndexOfKeyUnique(r, k2, IndexOfKey(a, k2));
        }
      }
      r
  }

  /** The label of a group in the duplicate-group choices. */
  function ChoiceLabel(g: TemplateGroup, defaultLabel: string): string {
    if g.isSiteDefault then g.groupName + " (" + defaultLabel + ")" else g.groupName
  }

  /** The entry offering no duplication. */
  function NoneChoice(noneLabel: string): (Key, string) {
    (StrKey("false"), "-- " + ToLower(noneLabel) + " --")
  }

  /** The duplicate-group choices: "none", then each group of the site, as the `each` closure adds them. */
  function GroupChoices(groups: seq<TemplateGroup>, siteId: int, noneLabel: string, defaultLabel: string): Choices
    decreases |groups|
  {
    if groups == [] then [NoneChoice(noneLabel)]
    else
      var g := groups[|groups| - 1];
      var before := GroupChoices(groups[..|groups| - 1], siteId, noneLabel, defaultLabel);
      if g.siteId == siteId then ArraySet(before, IntKey(g.groupId), ChoiceLabel(g, defaultLabel)) else before
  }

  /** The choices `create` builds, group by group. */
  method CollectGroupChoices(groups: seq<TemplateGroup>, siteId: int, noneLabel: string, defaultLabel: string)
    returns (choices: Choices)
    ensures choices == GroupChoices(groups, siteId, noneLabel, defaultLabel)
  {
    choices := [NoneChoice(noneLabel)];
    var i := 0;
    while i < |groups|
      invariant 0 <= i <= |groups|
      invariant choices == GroupChoices(groups[..i], siteId, noneLabel, defaultLabel)
    {
      var g := groups[i];
      if g.siteId == siteId {
        // `$groups[$id] = name`, then `.=` appends the default marker to the value just written
        var caption := g.groupName;
        if g.isSiteDefault {
          caption := caption + " (" + defaultLabel + ")";
        }
        choices := ArraySet(choices, IntKey(g.groupId), caption);
      }
      assert groups[..i + 1][..i] == groups[..i];
      i := i + 1;
    }
    assert groups[..i] == groups;
  }

  /** The member groups that may be given access: not 1, 2 or 4, with design access, on the current site. */
  predicate Eligible(mg: MemberGroup, siteId: int) {
    mg.groupId !in {1, 2, 4} && mg.canAccessDesign == "y" && mg.siteId == siteId
  }

  /** `getDictionary('group_id', 'group_title')` of the eligible member groups. */
  function EligibleMemberGroups(memberGroups: seq<MemberGroup>, siteId: int): map<int, string>
    decreases |memberGroups|
  {
    if memberGroups == [] then map[]
    else
      var mg := memberGroups[|memberGroups| - 1];
      var before := EligibleMemberGroups(memberGroups[..|memberGroups| - 1], siteId);
      if Eligible(mg, siteId) then before[mg.groupId := mg.groupTitle] else before
  }

  /** On create, a member of any group but the superadmins has their own group preselected. */
  function PreselectedMemberGroups(sessionGroup: int): (r: seq<int>)
    ensures r == [] <==> sessionGroup == SuperAdmin
    ensures r != [] ==> r == [sessionGroup]
  {
    if sessionGroup != SuperAdmin then [sessionGroup] else []
  }

  /** The number of groups of the site marked as its default. */
  function DefaultCount(groups: seq<TemplateGroup>, siteId: int): (n: nat)
    ensures n == 0 <==> forall k :: 0 <= k < |groups| ==> !(groups[k].siteId == siteId && groups[k].isSiteDefault)
  {
    if groups == [] then 0
    else
      var g := groups[|groups| - 1];
      DefaultCount(groups[..|groups| - 1], siteId) + if g.siteId == siteId && g.isSiteDefault then 1 else 0
  }

  /** The initial value of "make default group": `n` when the site already has a default group, else `y`. */
  function MakeDefaultValue(groups: seq<TemplateGroup>, siteId: int): (v: string)
    ensures v == "n" <==> exists k :: 0 <= k < |groups| && groups[k].siteId == siteId && groups[k].isSiteDefault
    ensures v == "y" || v == "n"
  {
    if DefaultCount(groups, siteId) > 0 then "n" else "y"
  }

  /** The fields of the create form; the member-group field is removed without `can_admin_mbr_groups`. */
  function CreateFormFields(canAdminMemberGroups: bool): (r: seq<string>)
    ensures |r| >= 3 && r[..3] == ["group_name", "duplicate_group", "make_default_group"]
    ensures "member_groups" in r <==> canAdminMemberGroups
  {
    ["group_name", "duplicate_group", "make_default_group"] + if canAdminMemberGroups then ["member_groups"] else []
  }

  /** The fields of the edit form; the member-group field is removed without `can_admin_mbr_groups`. */
  function EditFormFields(canAdminMemberGroups: bool): (r: seq<string>)
    ensures |r| >= 2 && r[..2] == ["group_name", "make_default_group"]
    ensures "member_groups" in r <==> canAdminMemberGroups
  {
    ["group_name", "make_default_group"] + if canAdminMemberGroups then ["member_groups"] else []
  }

  // =====================================================================
  // The stored groups and templates

  /** Everything the two handlers read and write, with the next auto-increment ids. */
  datatype Design = Design(
    groups: seq<TemplateGroup>,
    templates: seq<Template>,
    memberGroups: seq<MemberGroup>,
    nextGroupId: int,
    nextTemplateId: int)

  datatype DesignError = Unauthorized | InvalidForm(errors: seq<FormError>) | NoSuchGroup(name: string) | MissingMasterGroup(groupId: int)

  /** The create form's fields; `oldName` is the posted `old_name`, `""` when the form sends none. */
  datatype CreatePost = CreatePost(groupName: string, makeDefaultGroup: string, duplicateGroup: string, oldName: string, memberGroups: seq<int>)

  datatype EditPost = EditPost(groupName: string, makeDefaultGroup: string, oldName: string, memberGroups: seq<int>)

  /** The ids of the member groups among `ids` that exist, as `get('MemberGroup', ids)` loads them. */
  function ExistingMemberGroups(memberGroups: seq<MemberGroup>, ids: set<int>): (r: set<int>)
    ensures forall id :: id in r <==> id in ids && exists k :: 0 <= k < |memberGroups| && memberGroups[k].groupId == id
  {
    set k | 0 <= k < |memberGroups| && memberGroups[k].groupId in ids :: memberGroups[k].groupId
  }

  /**
   * The member groups a new group is assigned: the posted ones for a member
   * who may administer member groups; otherwise the member's own group,
   * unless they are a superadmin.
   */
  function GrantedMemberGroups(memberGroups: seq<MemberGroup>, ctx: Context, posted: seq<int>): set<int> {
    if ctx.canAdminMemberGroups then ExistingMemberGroups(memberGroups, set id | id in posted)
    else if ctx.sessionGroup != SuperAdmin then ExistingMemberGroups(memberGroups, {ctx.sessionGroup})
    else {}
  }

  /** `is_numeric` on the posted duplicate choice, for an optional `-` followed by decimal digits. */
  function NumericId(s: string): Option<int> {
    if s != [] && AllDigits(s) then Some(ParseNat(s))
    else if |s| > 1 && s[0] == '-' && AllDigits(s[1..]) then Some(0 - ParseNat(s[1..]))
    else None
  }

  /** The position of the group with id `id`, as `get('TemplateGroup', id)->first()` finds it. */
  function FindGroupById(groups: seq<TemplateGroup>, id: int): (r: Option<nat>)
    ensures r.Some? ==> r.value < |groups| && groups[r.value].groupId == id
    ensures r.None? ==> forall k :: 0 <= k < |groups| ==> groups[k].groupId != id
  {
    if groups == [] then None
    else if groups[0].groupId == id then Some(0)
    else match FindGroupById(groups[1..], id)
      case None => None
      case Some(i) => Some(i + 1)
  }

  /** The position of the site's group called `name`, as `edit` looks it up. */
  function FindGroupByName(groups: seq<TemplateGroup>, name: string, siteId: int): (r: Option<nat>)
    ensures r.Some? ==> r.value < |groups| && groups[r.value].groupName == name && groups[r.value].siteId == siteId
    ensures r.None? ==> forall k :: 0 <= k < |groups| ==> !(groups[k].groupName == name && groups[k].siteId == siteId)
  {
    if groups == [] then None
    else if groups[0].groupName == name && groups[0].siteId == siteId then Some(0)
    else match FindGroupByName(groups[1..], name, siteId)
      case None => None
      case Some(i) => Some(i + 1)
  }

  /** `getTemplates()`: the templates of a group, in stored order. */
  function TemplatesOf(templates: seq<Template>, groupId: int): (r: seq<Template>)
    ensures forall k :: 0 <= k < |r| ==> r[k] in templates && r[k].groupId == groupId
    ensures forall t :: t in templates && t.groupId == groupId ==> t in r
    decreases |templates|
  {
    if templates == [] then []
    else
      var before := TemplatesOf(templates[..|templates| - 1], groupId);
      var t := templates[|templates| - 1];
      assert templates == templates[..|templates| - 1] + [t];
      if t.groupId == groupId then before + [t] else before
  }

  /** The group a duplicate choice names: none when the choice is not numeric, an error when no group has that id. */
  function DuplicateSource(groups: seq<TemplateGroup>, choice: string): Result<Option<int>, DesignError> {
    match NumericId(choice)
    case None => Success(None)
    case Some(id) =>
      if FindGroupById(groups, id).Some? then Success(Some(id)) else Failure(MissingMasterGroup(id))
  }

  /** The new group `create` saves. */
  function NewGroup(d: Design, ctx: Context, post: CreatePost): TemplateGroup {
    TemplateGroup(d.nextGroupId, ctx.siteId, post.groupName, post.makeDefaultGroup == "y",
                  GrantedMemberGroups(d.memberGroups, ctx, post.memberGroups))
  }

  /** The single empty `index` template of a group created without duplication; other columns keep their defaults. */
  function IndexTemplate(templateId: int, groupId: int, ctx: Context): Template {
    Template(templateId, groupId, ctx.siteId, "index", "", 0, ctx.now, 0, false, {}, map[])
  }

  /**
   * A copy of a master template: a new id, the new group, the current site
   * and time, no hits, the master's access list, and PHP turned off unless
   * the member is a superadmin. Everything else is copied.
   */
  function CopyTemplate(master: Template, templateId: int, groupId: int, ctx: Context): Template {
    master.(templateId := templateId, groupId := groupId, siteId := ctx.siteId, editDate := ctx.now, hits := 0,
            allowPhp := if ctx.sessionGroup != SuperAdmin then false else master.allowPhp)
  }

  /** The copies of `masters`, numbered from `firstId`. */
  function CopyTemplates(masters: seq<Template>, firstId: int, groupId: int, ctx: Context): (r: seq<Template>)
    ensures |r| == |masters|
    decreases |masters|
  {
    if masters == [] then []
    else
      var n := |masters| - 1;
      CopyTemplates(masters[..n], firstId, groupId, ctx) + [CopyTemplate(masters[n], firstId + n, groupId, ctx)]
  }

  /** What saving the create form does, and the new group's id. */
  function CreateOutcome(d: Design, ctx: Context, post: CreatePost, ruleError: Option<string>): (Design, Result<int, DesignError>) {
    if !ctx.canAccessDesign || !ctx.canCreateGroups then (d, Failure(Unauthorized))
    else
      var errors := NameErrors(post.groupName, ruleError, post.oldName, NameCount(d.groups, ctx.siteId, post.groupName))
        + DefaultFlagErrors(post.makeDefaultGroup);
      if errors != [] then (d, Failure(InvalidForm(errors)))
      else
        var group := NewGroup(d, ctx, post);
        DuplicateOutcome(d.(groups := d.groups + [group], nextGroupId := d.nextGroupId + 1), group.groupId, ctx, post)
  }

  /** The second half of `create`, once group `groupId` is saved: its templates, copied from the chosen group or a new `index`. */
  function DuplicateOutcome(saved: Design, groupId: int, ctx: Context, post: CreatePost): (Design, Result<int, DesignError>) {
    match DuplicateSource(saved.groups, post.duplicateGroup)
    case Failure(e) => (saved, Failure(e))
    case Success(master) =>
      var added := DuplicatedTemplates(saved.templates, master, saved.nextTemplateId, groupId, ctx);
      (saved.(templates := saved.templates + added, nextTemplateId := saved.nextTemplateId + |added|), Success(groupId))
  }

  /** The templates the new group gets: copies of the master group's templates, or one `index` template when there are none. */
  function DuplicatedTemplates(templates: seq<Template>, master: Option<int>, firstId: int, groupId: int, ctx: Context): seq<Template> {
    var masters := if master.Some? then TemplatesOf(templates, master.value) else [];
    if masters == [] then [IndexTemplate(firstId, groupId, ctx)] else CopyTemplates(masters, firstId, groupId, ctx)
  }

  /** A group after the edit form is saved; its member groups change only for a member-group administrator. */
  function EditedGroup(g: TemplateGroup, memberGroups: seq<MemberGroup>, ctx: Context, post: EditPost): TemplateGroup {
    g.(groupName := post.groupName, isSiteDefault := post.makeDefaultGroup == "y",
       memberGroups := if ctx.canAdminMemberGroups then ExistingMemberGroups(memberGroups, set id | id in post.memberGroups)
                       else g.memberGroups)
  }

  /** What saving the edit form of the group called `name` does. */
  function EditOutcome(d: Design, ctx: Context, name: string, post: EditPost, ruleError: Option<string>): (Design, Result<(), DesignError>) {
    if !ctx.canAccessDesign || !ctx.canEditGroups then (d, Failure(Unauthorized))
    else match FindGroupByName(d.groups, name, ctx.siteId)
      case None => (d, Failure(NoSuchGroup(name)))
      case Some(i) =>
        if d.groups[i].groupId !in ctx.editableGroups then (d, Failure(Unauthorized))
        else
          var errors := NameErrors(post.groupName, ruleError, post.oldName, NameCount(d.groups, ctx.siteId, post.groupName))
            + DefaultFlagErrors(post.makeDefaultGroup);
          if errors != [] then (d, Failure(InvalidForm(errors)))
          else (d.(groups := d.groups[i := EditedGroup(d.groups[i], d.memberGroups, ctx, post)]), Success(()))
  }

  class DesignManager {
    var groups: seq<TemplateGroup>
    var templates: seq<Template>
    var memberGroups: seq<MemberGroup>
    var nextGroupId: int
    var nextTemplateId: int

    constructor (initial: Design)
      ensures State() == initial
    {
      groups := initial.groups;
      templates := initial.templates;
      memberGroups := initial.memberGroups;
      nextGroupId := initial.nextGroupId;
      nextTemplateId := initial.nextTemplateId;
    }

    function State(): Design
      reads this
    {
      Design(groups, templates, memberGroups, nextGroupId, nextTemplateId)
    }

    /** The duplication loop: saves a copy of each master template in the new group. */
    method SaveCopies(masters: seq<Template>, groupId: int, ctx: Context)
      modifies this
      ensures templates == old(templates) + CopyTemplates(masters, old(nextTemplateId), groupId, ctx)
      ensures nextTemplateId == old(nextTemplateId) + |masters|
      ensures groups == old(groups) && memberGroups == old(memberGroups) && nextGroupId == old(nextGroupId)
    {
      var i := 0;
      while i < |masters|
        invariant 0 <= i <= |masters|
        invariant templates == old(templates) + CopyTemplates(masters[..i], old(nextTemplateId), groupId, ctx)
        invariant nextTemplateId == old(nextTemplateId) + i
        invariant groups == old(groups) && memberGroups == old(memberGroups) && nextGroupId == old(nextGroupId)
      {
        templates := templates + [CopyTemplate(masters[i], nextTemplateId, groupId, ctx)];
        nextTemplateId := nextTemplateId + 1;
        assert masters[..i + 1][..i] == masters[..i];
        i := i + 1;
      }
      assert masters[..i] == masters;
    }

    /** `create`, once the form is posted: validate, save the group, then duplicate or add an index template. */
    method Create(ctx: Context, post: CreatePost, ruleError: Option<string>) returns (result: Result<int, DesignError>)
      modifies this
      ensures (State(), result) == CreateOutcome(old(State()), ctx, post, ruleError)
    {
      ghost var d0 := State();
      if !ctx.canAccessDesign || !ctx.canCreateGroups {
        return Failure(Unauthorized);
      }
      var errors := NameErrors(post.groupName, ruleError, post.oldName, NameCount(groups, ctx.siteId, post.groupName))
        + DefaultFlagErrors(post.makeDefaultGroup);
      if errors != [] {
        return Failure(InvalidForm(errors));
      }
      var group := TemplateGroup(nextGroupId, ctx.siteId, post.groupName, post.makeDefaultGroup == "y",
                                 GrantedMemberGroups(memberGroups, ctx, post.memberGroups));
      assert group == NewGroup(d0, ctx, post);
      groups := groups + [group];
      nextGroupId := nextGroupId + 1;
      result := Duplicate(group.groupId, ctx, post);
    }

    /** The duplication part of `create`, for the group just saved. */
    method Duplicate(groupId: int, ctx: Context, post: CreatePost) returns (result: Result<int, DesignError>)
      modifies this
      ensures (State(), result) == DuplicateOutcome(old(State()), groupId, ctx, post)
    {
      var master := DuplicateSource(groups, post.duplicateGroup);
      if master.Failure? {
        return Failure(master.error);
      }
      var masters: seq<Template> := [];
      if master.value.Some? {
        masters := TemplatesOf(templates, master.value.value);
      }
      if masters == [] {
        templates := templates + [IndexTemplate(nextTemplateId, groupId, ctx)];
        nextTemplateId := nextTemplateId + 1;
      } else {
        SaveCopies(masters, groupId, ctx);
      }
      return Success(groupId);
    }

    /** `edit($name)`, once the form is posted: find the group, check, validate and save it. */
    method Edit(ctx: Context, name: string, post: EditPost, ruleError: Option<string>) returns (result: Result<(), DesignError>)
      modifies this
      ensures (State(), result) == EditOutcome(old(State()), ctx, name, post, ruleError)
    {
      if !ctx.canAccessDesign || !ctx.canEditGroups {
        return Failure(Unauthorized);
      }
      var found := FindGroupByName(groups, name, ctx.siteId);
      if found.None? {
        return Failure(NoSuchGroup(name));
      }
      var g := groups[found.value];
      if g.groupId !in ctx.editableGroups {
        return Failure(Unauthorized);
      }
      var errors := NameErrors(post.groupName, ruleError, post.oldName, NameCount(groups, ctx.siteId, post.groupName))
        + DefaultFlagErrors(post.makeDefaultGroup);
      if errors != [] {
        return Failure(InvalidForm(errors));
      }
      groups := groups[found.value := EditedGroup(g, memberGroups, ctx, post)];
      return Success(());
    }
  }
}
