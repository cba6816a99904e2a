/**
 * What the template-group forms promise: which groups and member groups
 * they offer, which names they refuse, and what saving them adds or changes.
 */
module DesignGroupProofs {
  import opened Wrappers
  import opened Php
  import opened DesignGroup

  // =====================================================================
  // The choices

  /** The group that last wrote key `id` into the choices. */
  predicate LastWithId(groups: seq<TemplateGroup>, siteId: int, k: int) {
    0 <= k < |groups| && groups[k].siteId == siteId
    && forall j :: k < j < |groups| ==> !(groups[j].siteId == siteId && groups[j].groupId == groups[k].groupId)
  }

  /** The duplicate-group choices always start with "none". */
  lemma {:induction false} GroupChoicesStartWithNone(groups: seq<TemplateGroup>, siteId: int, noneLabel: string, defaultLabel: string)
    ensures var r := GroupChoices(groups, siteId, noneLabel, defaultLabel); |r| >= 1 && r[0] == NoneChoice(noneLabel)
    decreases |groups|
  {
    if groups != [] {
      GroupChoicesStartWithNone(groups[..|groups| - 1], siteId, noneLabel, defaultLabel);
    }
  }

  /** The duplicate-group choices offer exactly the groups of the current site. */
  lemma {:induction false} GroupChoicesOfferSiteGroups(groups: seq<TemplateGroup>, siteId: int, noneLabel: string, defaultLabel: string)
    ensures forall id :: Lookup(GroupChoices(groups, siteId, noneLabel, defaultLabel), IntKey(id)).Some? <==>
      exists k :: 0 <= k < |groups| && groups[k].siteId == siteId && groups[k].groupId == id
    decreases |groups|
  {
    if groups != [] {
      var n := |groups| - 1;
      var front := groups[..n];
      GroupChoicesOfferSiteGroups(front, siteId, noneLabel, defaultLabel);
      var r := GroupChoices(groups, siteId, noneLabel, defaultLabel);
      forall id ensures Lookup(r, IntKey(id)).Some? <==>
        exists k :: 0 <= k < |groups| && groups[k].siteId == siteId && groups[k].groupId == id
      {
        if exists k :: 0 <= k < |front| && front[k].siteId == siteId && front[k].groupId == id {
          var k :| 0 <= k < |front| && front[k].siteId == siteId && front[k].groupId == id;
          assert groups[k] == front[k];
        }
        if exists k :: 0 <= k < |groups| && groups[k].siteId == siteId && groups[k].groupId == id {
          var k :| 0 <= k < |groups| && groups[k].siteId == siteId && groups[k].groupId == id;
          if k < n {
            assert front[k] == groups[k];
          }
        }
      }
    }
  }

  /** Each offered group is shown under its name, marked when it is the site's default (the last group with an id wins). */
  lemma {:induction false} GroupChoicesLabels(groups: seq<TemplateGroup>, siteId: int, noneLabel: string, defaultLabel: string)
    ensures forall k :: LastWithId(groups, siteId, k) ==>
      Lookup(GroupChoices(groups, siteId, noneLabel, defaultLabel), IntKey(groups[k].groupId)) == Some(ChoiceLabel(groups[k], defaultLabel))
    decreases |groups|
  {
    if groups != [] {
      var n := |groups| - 1;
      var front := groups[..n];
      GroupChoicesLabels(front, siteId, noneLabel, defaultLabel);
      forall k | LastWithId(groups, siteId, k) && k < n
        ensures Lookup(GroupChoices(groups, siteId, noneLabel, defaultLabel), IntKey(groups[k].groupId)) == Some(ChoiceLabel(groups[k], defaultLabel))
      {
        assert front[k] == groups[k];
        assert LastWithId(front, siteId, k);
      }
    }
  }

  /** Posting the key of an offered group asks for that group to be duplicated; posting `false` asks for none. */
  lemma ChoiceKeysRoundTrip(id: int)
    ensures NumericId(KeyString(IntKey(id))) == Some(id)
    ensures NumericId(KeyString(NoneChoice("").0)) == None
  {
    var s := IntToString(id);
    if id < 0 {
      assert s[1..] == NatToString(-id);
      assert !IsDigit(s[0]);
      ParseNatToString(-id);
    } else {
      ParseNatToString(id);
    }
    assert !IsDigit("false"[0]);
  }

  /** Member group `k` is eligible and offered as `id` under `title`. */
  predicate Offers(memberGroups: seq<MemberGroup>, siteId: int, k: int, id: int, title: string) {
    0 <= k < |memberGroups| && Eligible(memberGroups[k], siteId) && memberGroups[k].groupId == id && memberGroups[k].groupTitle == title
  }

  /** The eligible member groups are exactly those the filters keep; groups 1, 2 and 4 are never offered. */
  lemma {:induction false} EligibleMemberGroupsContents(memberGroups: seq<MemberGroup>, siteId: int)
    ensures var r := EligibleMemberGroups(memberGroups, siteId);
      (forall id :: id in r <==> exists k :: 0 <= k < |memberGroups| && Eligible(memberGroups[k], siteId) && memberGroups[k].groupId == id)
      && (forall id :: id in r ==> exists k :: Offers(memberGroups, siteId, k, id, r[id]))
      && 1 !in r && 2 !in r && 4 !in r
    decreases |memberGroups|
  {
    if memberGroups != [] {
      var n := |memberGroups| - 1;
      var front := memberGroups[..n];
      EligibleMemberGroupsContents(front, siteId);
      var r := EligibleMemberGroups(memberGroups, siteId);
      forall id ensures id in r <==> exists k :: 0 <= k < |memberGroups| && Eligible(memberGroups[k], siteId) && memberGroups[k].groupId == id {
        if exists k :: 0 <= k < |memberGroups| && Eligible(memberGroups[k], siteId) && memberGroups[k].groupId == id {
          var k :| 0 <= k < |memberGroups| && Eligible(memberGroups[k], siteId) && memberGroups[k].groupId == id;
          if k < n {
            assert front[k] == memberGroups[k];
          }
        }
      }
      forall id | id in r ensures exists k :: Offers(memberGroups, siteId, k, id, r[id]) {
        if Offers(memberGroups, siteId, n, id, r[id]) {
        } else {
          var k :| Offers(front, siteId, k, id, r[id]);
          assert memberGroups[k] == front[k];
          assert Offers(memberGroups, siteId, k, id, r[id]);
        }
      }
    }
  }

  // =====================================================================
  // Duplicated templates

  /**
   * Every copy is its master with a fresh id, the new group, the current
   * site and time, no hits, and PHP off unless a superadmin duplicates.
   */
  lemma {:induction false} CopyTemplatesResets(masters: seq<Template>, firstId: int, groupId: int, ctx: Context)
    ensures var r := CopyTemplates(masters, firstId, groupId, ctx);
      forall k :: 0 <= k < |masters| ==>
        r[k].templateId == firstId + k && r[k].groupId == groupId && r[k].siteId == ctx.siteId
        && r[k].editDate == ctx.now && r[k].hits == 0
        && r[k].templateName == masters[k].templateName && r[k].templateData == masters[k].templateData
        && r[k].lastAuthorId == masters[k].lastAuthorId && r[k].noAccess == masters[k].noAccess
        && r[k].otherValues == masters[k].otherValues
        && r[k].allowPhp == (ctx.sessionGroup == SuperAdmin && masters[k].allowPhp)
    decreases |masters|
  {
    if masters != [] {
      var n := |masters| - 1;
      CopyTemplatesResets(masters[..n], firstId, groupId, ctx);
      assert forall k :: 0 <= k < n ==> masters[..n][k] == masters[k];
    }
  }

  // =====================================================================
  // The constructor's check

  /** A member without `can_access_design` is refused by both forms, and nothing is stored. */
  lemma AccessRequired(d: Design, ctx: Context, name: string, create: CreatePost, edit: EditPost, ruleError: Option<string>)
    requires !ctx.canAccessDesign
    ensures CreateOutcome(d, ctx, create, ruleError) == (d, Failure(Unauthorized))
    ensures EditOutcome(d, ctx, name, edit, ruleError) == (d, Failure(Unauthorized))
  {
  }

  // =====================================================================
  // Create

  /**
   * A name the form accepts on create is non-empty, passes the rule and is
   * not reserved. Unless the posted `old_name` equals it (ignoring case), no
   * group of the site has it; otherwise at most one does. With no `old_name`
   * posted the name was always free.
   */
  lemma CreatedNameWasFree(d: Design, ctx: Context, post: CreatePost, ruleError: Option<string>)
    requires CreateOutcome(d, ctx, post, ruleError).1.Success?
    ensures ctx.canAccessDesign && ctx.canCreateGroups
    ensures post.groupName != "" && post.groupName !in ReservedNames && ruleError.None?
    ensures ToLower(post.oldName) != ToLower(post.groupName) ==>
      forall k :: 0 <= k < |d.groups| ==> !(d.groups[k].siteId == ctx.siteId && d.groups[k].groupName == post.groupName)
    ensures NameCount(d.groups, ctx.siteId, post.groupName) <= 1
    ensures post.oldName == "" ==> NameCount(d.groups, ctx.siteId, post.groupName) == 0
  {
    var count := NameCount(d.groups, ctx.siteId, post.groupName);
    var errors := NameErrors(post.groupName, ruleError, post.oldName, count) + DefaultFlagErrors(post.makeDefaultGroup);
    assert errors == [];
    assert NameErrors(post.groupName, ruleError, post.oldName, count) == [];
    if post.oldName == "" {
      assert |ToLower(post.groupName)| > 0;
      assert ToLower(post.oldName) != ToLower(post.groupName);
    }
  }

  /**
   * Creating succeeds exactly when the member may use the design manager
   * and create groups, the name
   * and the default flag pass validation, and a numeric duplicate choice
   * names an existing group. Every refusal before the group is saved leaves
   * the store as it was.
   */
  lemma CreateSucceedsIff(d: Design, ctx: Context, post: CreatePost, ruleError: Option<string>)
    ensures var o := CreateOutcome(d, ctx, post, ruleError);
      var id := NumericId(post.duplicateGroup);
      (o.1.Success? <==>
         ctx.canAccessDesign && ctx.canCreateGroups && post.groupName != ""
         && GroupNameChecks(post.groupName, ruleError, post.oldName, NameCount(d.groups, ctx.siteId, post.groupName)) == Accepted
         && (post.makeDefaultGroup == "y" || post.makeDefaultGroup == "n")
         && (id.Some? ==> id.value == d.nextGroupId || FindGroupById(d.groups, id.value).Some?))
      && (o.1.Failure? && !o.1.error.MissingMasterGroup? ==> o.0 == d)
  {
    var o := CreateOutcome(d, ctx, post, ruleError);
    var count := NameCount(d.groups, ctx.siteId, post.groupName);
    var errors := NameErrors(post.groupName, ruleError, post.oldName, count) + DefaultFlagErrors(post.makeDefaultGroup);
    if ctx.canAccessDesign && ctx.canCreateGroups && errors == [] {
      assert NameErrors(post.groupName, ruleError, post.oldName, count) == [];
      var saved := d.groups + [NewGroup(d, ctx, post)];
      match NumericId(post.duplicateGroup)
      case None =>
      case Some(id) =>
        var found := FindGroupById(saved, id);
        if FindGroupById(d.groups, id).Some? {
          var k := FindGroupById(d.groups, id).value;
          assert saved[k] == d.groups[k];
        } else if id == d.nextGroupId {
          assert saved[|d.groups|].groupId == id;
        } else {
          assert forall k :: 0 <= k < |saved| ==> saved[k].groupId != id by {
            forall k | 0 <= k < |saved| ensures saved[k].groupId != id {
              if k < |d.groups| {
                assert saved[k] == d.groups[k];
              }
            }
          }
        }
    }
  }

  /** The templates a successful create adds: copies of the master group's templates, or else one `index` template. */
  function AddedTemplates(d: Design, ctx: Context, post: CreatePost): seq<Template> {
    DuplicatedTemplates(d.templates, NumericId(post.duplicateGroup), d.nextTemplateId, d.nextGroupId, ctx)
  }

  /** A successful create saves the new group, then adds `AddedTemplates`. */
  lemma CreateShape(d: Design, ctx: Context, post: CreatePost, ruleError: Option<string>)
    requires CreateOutcome(d, ctx, post, ruleError).1.Success?
    ensures var added := AddedTemplates(d, ctx, post);
      CreateOutcome(d, ctx, post, ruleError) ==
        (d.(groups := d.groups + [NewGroup(d, ctx, post)], nextGroupId := d.nextGroupId + 1,
            templates := d.templates + added, nextTemplateId := d.nextTemplateId + |added|),
         Success(d.nextGroupId))
  {
    var saved := d.(groups := d.groups + [NewGroup(d, ctx, post)], nextGroupId := d.nextGroupId + 1);
    CreateSavesFirst(d, ctx, post, ruleError);
    DuplicateShape(saved, d.nextGroupId, ctx, post);
  }

  /** A create that gets past the checks saves the group, then duplicates. */
  lemma CreateSavesFirst(d: Design, ctx: Context, post: CreatePost, ruleError: Option<string>)
    requires CreateOutcome(d, ctx, post, ruleError).1.Success?
    ensures CreateOutcome(d, ctx, post, ruleError)
      == DuplicateOutcome(d.(groups := d.groups + [NewGroup(d, ctx, post)], nextGroupId := d.nextGroupId + 1), d.nextGroupId, ctx, post)
  {
  }

  /** A duplication that succeeds adds the templates the choice names, or an `index` template. */
  lemma DuplicateShape(saved: Design, groupId: int, ctx: Context, post: CreatePost)
    requires DuplicateOutcome(saved, groupId, ctx, post).1.Success?
    ensures var added := DuplicatedTemplates(saved.templates, NumericId(post.duplicateGroup), saved.nextTemplateId, groupId, ctx);
      DuplicateOutcome(saved, groupId, ctx, post)
        == (saved.(templates := saved.templates + added, nextTemplateId := saved.nextTemplateId + |added|), Success(groupId))
  {
  }

  /**
   * A successful create saves exactly one new group, under the next group
   * id and with the posted name, site and default flag, and leaves every
   * existing group alone.
   */
  lemma CreateSavesGroup(d: Design, ctx: Context, post: CreatePost, ruleError: Option<string>)
    requires CreateOutcome(d, ctx, post, ruleError).1.Success?
    ensures var (d2, r) := CreateOutcome(d, ctx, post, ruleError);
      r.value == d.nextGroupId && d2.nextGroupId == d.nextGroupId + 1
      && d2.groups == d.groups + [NewGroup(d, ctx, post)]
      && d2.groups[|d.groups|].groupName == post.groupName && d2.groups[|d.groups|].siteId == ctx.siteId
      && (d2.groups[|d.groups|].isSiteDefault <==> post.makeDefaultGroup == "y")
      && d2.memberGroups == d.memberGroups
  {
    CreateShape(d, ctx, post, ruleError);
  }

  /**
   * A successful create leaves every existing template alone and adds at
   * least one template to the new group, each with a fresh id, the current
   * site and time, no hits, and PHP off unless a superadmin creates.
   */
  lemma CreateAddsTemplates(d: Design, ctx: Context, post: CreatePost, ruleError: Option<string>)
    requires CreateOutcome(d, ctx, post, ruleError).1.Success?
    ensures var d2 := CreateOutcome(d, ctx, post, ruleError).0;
      var n := |d.templates|;
      |d2.templates| > n && d2.templates[..n] == d.templates
      && d2.nextTemplateId == d.nextTemplateId + (|d2.templates| - n)
      && (forall k :: n <= k < |d2.templates| ==>
            d2.templates[k].templateId == d.nextTemplateId + (k - n)
            && d2.templates[k].groupId == d.nextGroupId && d2.templates[k].siteId == ctx.siteId
            && d2.templates[k].hits == 0 && d2.templates[k].editDate == ctx.now
            && (ctx.sessionGroup != SuperAdmin ==> !d2.templates[k].allowPhp))
  {
    CreateShape(d, ctx, post, ruleError);
    var added := AddedTemplates(d, ctx, post);
    AddedTemplatesReset(d, ctx, post);
    AppendedTemplatesReset(d.templates, added, d.nextTemplateId, d.nextGroupId, ctx);
  }

  /** Appending reset copies keeps the old templates as a prefix and puts the copies after them. */
  lemma AppendedTemplatesReset(existing: seq<Template>, added: seq<Template>, firstId: int, groupId: int, ctx: Context)
    requires |added| > 0
    requires forall k :: 0 <= k < |added| ==>
      added[k].templateId == firstId + k && added[k].groupId == groupId && added[k].siteId == ctx.siteId
      && added[k].hits == 0 && added[k].editDate == ctx.now && (ctx.sessionGroup != SuperAdmin ==> !added[k].allowPhp)
    ensures var all := existing + added;
      var n := |existing|;
      |all| > n && all[..n] == existing && |all| - n == |added|
      && (forall k :: n <= k < |all| ==>
            all[k].templateId == firstId + (k - n) && all[k].groupId == groupId && all[k].siteId == ctx.siteId
            && all[k].hits == 0 && all[k].editDate == ctx.now && (ctx.sessionGroup != SuperAdmin ==> !all[k].allowPhp))
  {
    var all := existing + added;
    var n := |existing|;
    assert all[..n] == existing;
    forall k | n <= k < |all| ensures all[k] == added[k - n] { }
  }

  /** Every added template has a fresh id, the new group, the current site and time, no hits, and PHP off unless a superadmin creates. */
  lemma AddedTemplatesReset(d: Design, ctx: Context, post: CreatePost)
    ensures var added := AddedTemplates(d, ctx, post);
      |added| > 0
      && forall k :: 0 <= k < |added| ==>
           added[k].templateId == d.nextTemplateId + k
           && added[k].groupId == d.nextGroupId && added[k].siteId == ctx.siteId
           && added[k].hits == 0 && added[k].editDate == ctx.now
           && (ctx.sessionGroup != SuperAdmin ==> !added[k].allowPhp)
  {
    var master := NumericId(post.duplicateGroup);
    var masters := if master.Some? then TemplatesOf(d.templates, master.value) else [];
    CopyTemplatesResets(masters, d.nextTemplateId, d.nextGroupId, ctx);
  }

  /** With a numeric choice naming a group that has templates, the new templates are copies of that group's templates, in order. */
  lemma CreateDuplicates(d: Design, ctx: Context, post: CreatePost, ruleError: Option<string>, masterId: int)
    requires CreateOutcome(d, ctx, post, ruleError).1.Success?
    requires NumericId(post.duplicateGroup) == Some(masterId) && TemplatesOf(d.templates, masterId) != []
    ensures CreateOutcome(d, ctx, post, ruleError).0.templates
      == d.templates + CopyTemplates(TemplatesOf(d.templates, masterId), d.nextTemplateId, d.nextGroupId, ctx)
  {
    CreateShape(d, ctx, post, ruleError);
  }

  /** Without a usable duplicate choice, the new group gets one empty `index` template. */
  lemma CreateIndexTemplate(d: Design, ctx: Context, post: CreatePost, ruleError: Option<string>)
    requires CreateOutcome(d, ctx, post, ruleError).1.Success?
    requires NumericId(post.duplicateGroup).None? || TemplatesOf(d.templates, NumericId(post.duplicateGroup).value) == []
    ensures var t := CreateOutcome(d, ctx, post, ruleError).0.templates;
      t == d.templates + [IndexTemplate(d.nextTemplateId, d.nextGroupId, ctx)]
      && t[|d.templates|].templateName == "index" && t[|d.templates|].templateData == ""
  {
    CreateShape(d, ctx, post, ruleError);
  }

  // =====================================================================
  // Edit

  /**
   * A successful edit, by a member who may use the design manager and edit
   * groups, changes one group, the site's group with the name in
   * the URL: it gets the posted name and default flag and keeps its id and
   * site. No other group, no template and no member group changes; a
   * refused edit changes nothing.
   */
  lemma EditEffect(d: Design, ctx: Context, name: string, post: EditPost, ruleError: Option<string>)
    ensures var (d2, r) := EditOutcome(d, ctx, name, post, ruleError);
      (r.Failure? ==> d2 == d)
      && (r.Success? ==>
            var i := FindGroupByName(d.groups, name, ctx.siteId);
            ctx.canAccessDesign && ctx.canEditGroups
            && i.Some? && d.groups[i.value].groupId in ctx.editableGroups
            && |d2.groups| == |d.groups|
            && (forall k :: 0 <= k < |d.groups| && k != i.value ==> d2.groups[k] == d.groups[k])
            && d2.groups[i.value].groupName == post.groupName
            && d2.groups[i.value].groupId == d.groups[i.value].groupId
            && d2.groups[i.value].siteId == ctx.siteId
            && (d2.groups[i.value].isSiteDefault <==> post.makeDefaultGroup == "y")
            && (!ctx.canAdminMemberGroups ==> d2.groups[i.value].memberGroups == d.groups[i.value].memberGroups)
            && d2.templates == d.templates && d2.memberGroups == d.memberGroups
            && d2.nextGroupId == d.nextGroupId && d2.nextTemplateId == d.nextTemplateId)
  {
  }

  /**
   * An edit that changes the name (ignoring case) succeeds only when no
   * group of the site has the new name; one that keeps it succeeds only
   * when at most one group (the edited one) has it.
   */
  lemma EditNameRules(d: Design, ctx: Context, name: string, post: EditPost, ruleError: Option<string>)
    requires EditOutcome(d, ctx, name, post, ruleError).1.Success?
    ensures post.groupName != "" && post.groupName !in ReservedNames && ruleError.None?
    ensures ToLower(post.oldName) != ToLower(post.groupName) ==>
      forall k :: 0 <= k < |d.groups| ==> !(d.groups[k].siteId == ctx.siteId && d.groups[k].groupName == post.groupName)
    ensures NameCount(d.groups, ctx.siteId, post.groupName) <= 1
  {
    var count := NameCount(d.groups, ctx.siteId, post.groupName);
    var errors := NameErrors(post.groupName, ruleError, post.oldName, count) + DefaultFlagErrors(post.makeDefaultGroup);
    assert errors == [];
    assert NameErrors(post.groupName, ruleError, post.oldName, count) == [];
  }
}
