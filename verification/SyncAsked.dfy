/** What the entries of the file ask for, said of MISP's records field by field. */
module SyncAsked {
  import opened Values
  import opened MispWorld
  import opened SharingGroups
  import opened SyncItems
  import opened SyncSteps
  import opened SyncRun

  /** A field compares equal to what is asked of it; a missing one counts as "". */
  predicate Is(fields: map<string, Value>, f: string, asked: Value) {
    ValuesEqual(asked, if f in fields then fields[f] else Str(""))
  }

  lemma IsMeans(fields: map<string, Value>, f: string, asked: Value)
    ensures Is(fields, f, asked) <==> ValuesEqual(asked, Field(fields, f))
  {
  }

  /** What falls short of Python's truth. */
  predicate Unset(fields: map<string, Value>, f: string) {
    f in fields ==> fields[f] in {Null, Bool(false), Int(0), Str(""), Lines([])}
  }

  lemma UnsetMeans(fields: map<string, Value>, f: string)
    ensures Unset(fields, f) <==> !Field(fields, f).Truthy()
  {
  }

  // ---- Records -----------------------------------------------------------------------------

  /** ROLE_FIELDS, of which the name is the record's key. */
  const RoleFields: set<string> := {
    "name", "permission", "perm_site_admin", "perm_admin", "perm_sync", "perm_auth", "perm_tagger", "perm_tag_editor",
    "perm_template", "perm_sharing_group", "perm_delegate", "perm_sighting", "perm_galaxy_editor",
    "perm_publish_zmq", "perm_publish_kafka", "perm_analyst_data", "perm_audit", "perm_decaying",
    "perm_regexp_access", "perm_object_template", "perm_warninglist", "perm_view_feed_correlations",
    "perm_skip_otp", "perm_server_sign", "max_execution_time", "memory_limit", "rate_limit_count"}

  lemma RoleFieldMeans(f: string)
    ensures RoleField(f) <==> f in RoleFields - {"name"}
  {
  }

  /** The fields of ROLE_FIELDS that a role sets. */
  ghost predicate RoleAsked(m: Misp, role: RoleDef) {
    var ref := Ref(Role, role.name);
    && role.name != "" && ref in m.records
    && forall f :: f in role.fields && f in RoleFields - {"name"} ==> Is(m.records[ref].fields, f, role.fields[f])
  }

  ghost predicate OrgAsked(m: Misp, team: Team) {
    var ref := Ref(Org, team.uuid);
    && ref in m.records
    && var fields := m.records[ref].fields;
       && Is(fields, "name", Str(team.name)) && Is(fields, "description", team.description)
       && Is(fields, "sector", team.sector) && Is(fields, "nationality", team.nationality)
       && Is(fields, "type", team.sort) && Is(fields, "contacts", team.contacts)
       && Is(fields, "local", Bool(true))
  }

  ghost predicate TagAsked(m: Misp, tag: TagDef, org: int) {
    var ref := Ref(Tag, tag.name);
    && ref in m.records
    && var fields := m.records[ref].fields;
       && Is(fields, "colour", tag.colour) && Is(fields, "exportable", tag.exportable)
       && Is(fields, "hide_tag", tag.hideTag) && Is(fields, "org_id", Int(org))
  }

  ghost predicate UserAsked(m: Misp, user: UserDef, org: int) {
    var ref, role := Ref(User, Lower(user.email)), Ref(Role, user.role);
    && ref in m.records && role in m.records
    && var fields := m.records[ref].fields;
       && Is(fields, "org_id", Int(org)) && Is(fields, "role_id", Int(m.records[role].id))
       && Is(fields, "disabled", Bool(user.disabled))
       && (user.externalAuth ==>
             Is(fields, "external_auth_required", Bool(true)) && Is(fields, "external_auth_key", Str(user.email)))
       && (user.password != "" ==> "password" in fields && fields["password"] == Str(user.password))
       && (user.authkey != "" ==> ref in m.authkeys && user.authkey in m.authkeys[ref])
  }

  /** Pull rules hold the tags by name. */
  predicate PullRules(v: Value, wanted: seq<string>, unwanted: seq<string>) {
    v.Rules? && v.pull && Names(v.wanted, wanted) && Names(v.unwanted, unwanted)
  }

  predicate Names(values: seq<Value>, names: seq<string>) {
    |values| == |names| && forall i :: 0 <= i < |names| ==> values[i] == Str(names[i])
  }

  /** Push rules hold the IDs of MISP's tags of these names. */
  predicate PushRules(v: Value, records: Table, wanted: seq<string>, unwanted: seq<string>) {
    v.Rules? && !v.pull && Ids(v.wanted, records, wanted) && Ids(v.unwanted, records, unwanted)
  }

  predicate Ids(values: seq<Value>, records: Table, names: seq<string>) {
    && |values| == |names|
    && forall i :: 0 <= i < |names| ==> Ref(Tag, names[i]) in records && values[i] == Int(records[Ref(Tag, names[i])].id)
  }

  ghost predicate ServerAsked(m: Misp, sent: map<string, string>, server: ServerDef, org: int) {
    var url := Lower(TrimSlashes(server.url));
    && Ref(Server, url) in m.records
    && var fields := m.records[Ref(Server, url)].fields;
       && Is(fields, "name", Str(server.name)) && Is(fields, "push", Bool(server.push))
       && Is(fields, "pull", Bool(server.pull)) && Is(fields, "internal", Bool(server.isInternal))
       && Is(fields, "self_signed", Bool(server.selfSigned)) && Is(fields, "caching_enabled", Bool(server.caching))
       && Is(fields, "remote_org_id", Int(org))
       && "pull_rules" in fields && PullRules(fields["pull_rules"], server.pullTags, server.pullTagsExclude)
       && "push_rules" in fields && PushRules(fields["push_rules"], m.records, server.pushTags, server.pushTagsExclude)
       && (server.authkey != "" ==> url in sent && sent[url] == Digest(server.authkey))
  }

  /** What an entry asks of its record. */
  ghost predicate Asked(m: Misp, sent: map<string, string>, item: Item)
    requires item.Reconciled()
  {
    match item
    case RoleItem(role) => RoleAsked(m, role)
    case OrgItem(team) => OrgAsked(m, team)
    case TagItem(tag, org) => org.Some? && TagAsked(m, tag, org.value)
    case UserItem(user, org) => org.Some? && UserAsked(m, user, org.value)
    case ServerItem(server, org) => org.Some? && ServerAsked(m, sent, server, org.value)
  }

  lemma RoleMeans(m: Misp, sent: map<string, string>, role: RoleDef)
    ensures Held(m, sent, RoleItem(role)) <==> RoleAsked(m, role)
  {
    hide RoleField;
    forall f ensures RoleField(f) <==> f in RoleFields - {"name"} { RoleFieldMeans(f); }
    var ref := Ref(Role, role.name);
    if role.name != "" && ref in m.records {
      var want, fields := Wanted(m.records, RoleItem(role)).value, m.records[ref].fields;
      forall f ensures f in want <==> f in role.fields && RoleField(f) {}
      forall f | f in want ensures Is(fields, f, role.fields[f]) <==> ValuesEqual(want[f], Field(fields, f)) {}
    }
  }

  lemma HoldsMeans(fields: map<string, Value>, want: map<string, Value>)
    ensures Holds(fields, want) <==> forall f :: f in want ==> Is(fields, f, want[f])
  {
    hide ValuesEqual, Field, Is;
    forall f ensures f in want ==> (Is(fields, f, want[f]) <==> ValuesEqual(want[f], Field(fields, f))) {
      if f in want { IsMeans(fields, f, want[f]); }
    }
  }

  lemma OrgMeans(m: Misp, sent: map<string, string>, team: Team)
    ensures Held(m, sent, OrgItem(team)) <==> OrgAsked(m, team)
  {
    hide Is, Holds;
    var ref, item := Ref(Org, team.uuid), OrgItem(team);
    if ref in m.records {
      var fields, want := m.records[ref].fields, Wanted(m.records, item).value;
      HoldsMeans(fields, want);
      assert want.Keys == {"name", "description", "sector", "nationality", "type", "contacts", "local"};
      assert Is(fields, "name", want["name"]) && Is(fields, "description", want["description"])
             && Is(fields, "sector", want["sector"]) && Is(fields, "nationality", want["nationality"])
             && Is(fields, "type", want["type"]) && Is(fields, "contacts", want["contacts"])
             && Is(fields, "local", want["local"])
             <==> forall f :: f in want ==> Is(fields, f, want[f]);
    }
  }

  lemma TagMeans(m: Misp, sent: map<string, string>, tag: TagDef, org: Option<int>)
    ensures Held(m, sent, TagItem(tag, org)) <==> org.Some? && TagAsked(m, tag, org.value)
  {
    hide Is, Holds;
    var ref, item := Ref(Tag, tag.name), TagItem(tag, org);
    if ref in m.records && org.Some? {
      var fields, want := m.records[ref].fields, Wanted(m.records, item).value;
      HoldsMeans(fields, want);
      assert want.Keys == {"colour", "exportable", "hide_tag", "org_id"};
      assert Is(fields, "colour", want["colour"]) && Is(fields, "exportable", want["exportable"])
             && Is(fields, "hide_tag", want["hide_tag"]) && Is(fields, "org_id", want["org_id"])
             <==> forall f :: f in want ==> Is(fields, f, want[f]);
    }
  }

  lemma UserMeans(m: Misp, sent: map<string, string>, user: UserDef, org: Option<int>)
    ensures Held(m, sent, UserItem(user, org)) <==> org.Some? && UserAsked(m, user, org.value)
  {
    hide Is, Holds;
    var ref, role, item := Ref(User, Lower(user.email)), Ref(Role, user.role), UserItem(user, org);
    if ref in m.records && org.Some? && role in m.records {
      var fields, want := m.records[ref].fields, Wanted(m.records, item).value;
      UserFields(fields, user, org.value, m.records[role].id, want);
      PasswordMeans(fields, user.password);
    }
  }

  lemma PasswordMeans(fields: map<string, Value>, password: string)
    ensures password != "" ==>
      (Field(fields, "password") == Str(password) <==> "password" in fields && fields["password"] == Str(password))
  {
  }

  lemma UserFields(fields: map<string, Value>, user: UserDef, org: int, role: int, want: map<string, Value>)
    requires want == map["org_id" := Int(org), "role_id" := Int(role), "disabled" := Bool(user.disabled)]
      + if user.externalAuth
        then map["external_auth_required" := Bool(true), "external_auth_key" := Str(user.email)]
        else map[]
    ensures Holds(fields, want) <==>
      && Is(fields, "org_id", Int(org)) && Is(fields, "role_id", Int(role)) && Is(fields, "disabled", Bool(user.disabled))
      && (user.externalAuth ==>
            Is(fields, "external_auth_required", Bool(true)) && Is(fields, "external_auth_key", Str(user.email)))
  {
    hide Is, Holds;
    HoldsMeans(fields, want);
    assert Is(fields, "org_id", want["org_id"]) && Is(fields, "role_id", want["role_id"])
           && Is(fields, "disabled", want["disabled"])
           && (user.externalAuth ==>
                 Is(fields, "external_auth_required", want["external_auth_required"])
                 && Is(fields, "external_auth_key", want["external_auth_key"]))
           <==> forall f :: f in want ==> Is(fields, f, want[f]);
  }

  lemma {:induction false} TagIdsMean(seen: Table, names: seq<string>)
    ensures TagIds(seen, names).Some? <==> forall i :: 0 <= i < |names| ==> Ref(Tag, names[i]) in seen
    ensures TagIds(seen, names).Some? ==> Ids(TagIds(seen, names).value, seen, names)
    decreases names
  {
    if names != [] {
      TagIdsMean(seen, names[1..]);
      if forall i :: 0 <= i < |names| ==> Ref(Tag, names[i]) in seen {
        forall i | 0 <= i < |names[1..]| ensures Ref(Tag, names[1..][i]) in seen { assert names[1..][i] == names[i + 1]; }
      }
    }
  }

  lemma IdsUnique(a: seq<Value>, b: seq<Value>, seen: Table, names: seq<string>)
    requires Ids(a, seen, names) && Ids(b, seen, names)
    ensures a == b
  {
  }

  lemma PushMeans(v: Value, seen: Table, wanted: seq<string>, unwanted: seq<string>)
    ensures PushRules(v, seen, wanted, unwanted) <==> BuildRules(seen, wanted, unwanted, false) == Some(v)
  {
    TagIdsMean(seen, wanted);
    TagIdsMean(seen, unwanted);
    if PushRules(v, seen, wanted, unwanted) {
      IdsUnique(v.wanted, TagIds(seen, wanted).value, seen, wanted);
      IdsUnique(v.unwanted, TagIds(seen, unwanted).value, seen, unwanted);
    }
  }

  lemma PullMeans(v: Value, seen: Table, wanted: seq<string>, unwanted: seq<string>)
    ensures PullRules(v, wanted, unwanted) <==> BuildRules(seen, wanted, unwanted, true) == Some(v)
  {
    var rules := BuildRules(seen, wanted, unwanted, true).value;
    if PullRules(v, wanted, unwanted) {
      assert v.wanted == rules.wanted && v.unwanted == rules.unwanted;
    }
  }

  lemma RulesCompare(fields: map<string, Value>, f: string, rules: Value)
    requires rules.Rules?
    ensures Is(fields, f, rules) <==> f in fields && fields[f] == rules
  {
  }

  lemma ServerFields(fields: map<string, Value>, server: ServerDef, org: int, pull: Value, push: Value,
                     want: map<string, Value>)
    requires want
      == map["name" := Str(server.name), "internal" := Bool(server.isInternal), "push" := Bool(server.push),
             "pull" := Bool(server.pull), "self_signed" := Bool(server.selfSigned),
             "caching_enabled" := Bool(server.caching), "pull_rules" := pull, "push_rules" := push,
             "remote_org_id" := Int(org)]
    ensures Holds(fields, want) <==>
      && Is(fields, "name", Str(server.name)) && Is(fields, "push", Bool(server.push))
      && Is(fields, "pull", Bool(server.pull)) && Is(fields, "internal", Bool(server.isInternal))
      && Is(fields, "self_signed", Bool(server.selfSigned)) && Is(fields, "caching_enabled", Bool(server.caching))
      && Is(fields, "remote_org_id", Int(org)) && Is(fields, "pull_rules", pull) && Is(fields, "push_rules", push)
  {
    hide Is, Holds;
    HoldsMeans(fields, want);
    assert Is(fields, "name", want["name"]) && Is(fields, "push", want["push"]) && Is(fields, "pull", want["pull"])
           && Is(fields, "internal", want["internal"]) && Is(fields, "self_signed", want["self_signed"])
           && Is(fields, "caching_enabled", want["caching_enabled"])
           && Is(fields, "remote_org_id", want["remote_org_id"]) && Is(fields, "pull_rules", want["pull_rules"])
           && Is(fields, "push_rules", want["push_rules"])
           <==> forall f :: f in want ==> Is(fields, f, want[f]);
  }

  lemma ServerMeans(m: Misp, sent: map<string, string>, server: ServerDef, org: Option<int>)
    ensures Held(m, sent, ServerItem(server, org)) <==> org.Some? && ServerAsked(m, sent, server, org.value)
  {
    hide Is, Holds, BuildRules, PullRules, PushRules, Digest;
    var ref, item := Ref(Server, Lower(TrimSlashes(server.url))), ServerItem(server, org);
    if ref in m.records && org.Some? {
      var fields := m.records[ref].fields;
      var pull := BuildRules(m.records, server.pullTags, server.pullTagsExclude, true);
      var push := BuildRules(m.records, server.pushTags, server.pushTagsExclude, false);
      PullIs(m.records, server.pullTags, server.pullTagsExclude);
      if push.Some? {
        PushIs(m.records, server.pushTags, server.pushTagsExclude);
        ServerFields(fields, server, org.value, pull.value, push.value, Wanted(m.records, item).value);
        RulesCompare(fields, "pull_rules", pull.value);
        RulesCompare(fields, "push_rules", push.value);
      }
      if "pull_rules" in fields { PullMeans(fields["pull_rules"], m.records, server.pullTags, server.pullTagsExclude); }
      if "push_rules" in fields { PushMeans(fields["push_rules"], m.records, server.pushTags, server.pushTagsExclude); }
    }
  }

  lemma PullIs(seen: Table, wanted: seq<string>, unwanted: seq<string>)
    ensures var r := BuildRules(seen, wanted, unwanted, true); r.Some? && r.value.Rules?
  {
  }

  lemma PushIs(seen: Table, wanted: seq<string>, unwanted: seq<string>)
    ensures var r := BuildRules(seen, wanted, unwanted, false); r.Some? ==> r.value.Rules?
  {
  }

  /** An entry holds if and only if its record has, field by field, what the entry says. */
  lemma HeldMeans(m: Misp, sent: map<string, string>, item: Item)
    requires item.Reconciled()
    ensures Held(m, sent, item) <==> Asked(m, sent, item)
  {
    hide Held, RoleAsked, OrgAsked, TagAsked, UserAsked, ServerAsked;
    match item
    case RoleItem(role) => RoleMeans(m, sent, role);
    case OrgItem(team) => OrgMeans(m, sent, team);
    case TagItem(tag, org) => TagMeans(m, sent, tag, org);
    case UserItem(user, org) => UserMeans(m, sent, user, org);
    case ServerItem(server, org) => ServerMeans(m, sent, server, org);
  }

  // ---- Warninglists ------------------------------------------------------------------------

  predicate Exactly(fields: map<string, Value>, f: string, asked: string) {
    if f in fields then fields[f] == Str(asked) else asked == ""
  }

  /** The field holds these lines in some order. */
  predicate InSomeOrder(fields: map<string, Value>, f: string, lines: seq<string>) {
    f in fields && fields[f].Lines? && multiset(fields[f].lines) == multiset(lines)
  }

  /** A custom list: its content, matching every attribute type if the file names none, and on if wanted. */
  ghost predicate ListAsked(m: Misp, list: ListDef) {
    var ref := Ref(Warninglist, list.name);
    && ref in m.records
    && var fields := m.records[ref].fields;
       && (if Unset(fields, "description") then list.description == "" else fields["description"] == Str(list.description))
       && Exactly(fields, "type", list.sort) && Exactly(fields, "category", list.category)
       && InSomeOrder(fields, "matching_attributes", if list.attributes == [] then ["ALL"] else list.attributes)
       && InSomeOrder(fields, "entries", list.values)
       && (list.enabled ==> !Unset(fields, "enabled"))
  }

  lemma ListMeans(m: Misp, sent: map<string, string>, list: ListDef)
    ensures Held(m, sent, ListItem(list)) <==> ListAsked(m, list)
  {
    var ref := Ref(Warninglist, list.name);
    if ref in m.records {
      UnsetMeans(m.records[ref].fields, "enabled");
      SameListMeans(m.records[ref].fields, list);
    }
  }

  lemma SameListMeans(fields: map<string, Value>, list: ListDef)
    ensures SameList(fields, list) <==>
      && (if Unset(fields, "description") then list.description == "" else fields["description"] == Str(list.description))
      && Exactly(fields, "type", list.sort) && Exactly(fields, "category", list.category)
      && InSomeOrder(fields, "matching_attributes", if list.attributes == [] then ["ALL"] else list.attributes)
      && InSomeOrder(fields, "entries", list.values)
  {
    hide Unset;
    UnsetMeans(fields, "description");
    NoText(fields);
    var data := ListData(list);
    assert data["description"] == Str(list.description) && data["type"] == Str(list.sort);
    assert data["category"] == Str(list.category) && data["entries"] == Lines(list.values);
    assert data["matching_attributes"] == Lines(if list.attributes == [] then ["ALL"] else list.attributes);
  }

  lemma NoText(fields: map<string, Value>)
    ensures "description" !in fields ==> Unset(fields, "description")
  {
  }

  lemma EnableMeans(m: Misp, sent: map<string, string>, ref: Ref)
    ensures Held(m, sent, Enable(ref)) <==> ref in m.records && !Unset(m.records[ref].fields, "enabled")
  {
    if ref in m.records { UnsetMeans(m.records[ref].fields, "enabled"); }
  }

  // ---- Sweeps ------------------------------------------------------------------------------

  /** An unnamed record that is as a sweep leaves it, or that none may touch. */
  ghost predicate Off(kind: Kind, r: Record) {
    match kind
    case Server => Unset(r.fields, "push") && Unset(r.fields, "pull")
    case User =>
      || r.id == 1 || !Unset(r.fields, "disabled")
      || !Unset(r.fields, "sub") || Is(r.fields, "external_auth_required", Bool(true))
    case _ => Unset(r.fields, "enabled")
  }

  lemma OffMeans(kind: Kind, r: Record)
    ensures !SweepDue(kind, r) <==> Off(kind, r)
  {
    hide Unset, Is, ValuesEqual;
    UnsetMeans(r.fields, "push");
    UnsetMeans(r.fields, "pull");
    UnsetMeans(r.fields, "disabled");
    UnsetMeans(r.fields, "sub");
    UnsetMeans(r.fields, "enabled");
    IsMeans(r.fields, "external_auth_required", Bool(true));
  }

  // ---- Sharing groups ----------------------------------------------------------------------

  /** Group g is listed, it has the UUID or the name, and no group listed after it has. */
  ghost predicate LastMatch(groups: map<Id, Group>, order: seq<Id>, f: Finder, g: Id) {
    exists i :: && 0 <= i < |order| && order[i] == g && g in groups && Matches(groups[g].fields, f)
                && forall j :: i < j < |order| && order[j] in groups ==> !Matches(groups[order[j]].fields, f)
  }

  lemma LastMatchMore(groups: map<Id, Group>, order: seq<Id>, f: Finder, g: Id, last: Id)
    requires if last in groups && Matches(groups[last].fields, f) then g == last else LastMatch(groups, order, f, g)
    ensures LastMatch(groups, order + [last], f, g)
  {
    hide Matches;
    var all := order + [last];
    forall k | 0 <= k < |order| ensures all[k] == order[k] {}
    assert all[|order|] == last;
  }

  lemma {:induction false} LastMeans(groups: map<Id, Group>, order: seq<Id>, f: Finder)
    ensures Last(groups, order, f).Some? ==> LastMatch(groups, order, f, Last(groups, order, f).value)
    ensures Last(groups, order, f).None? ==> forall g: Id :: !LastMatch(groups, order, f, g)
    decreases order
  {
    hide Matches, LastMatch;
    var l := Last(groups, order, f);
    if l.Some? {
      var init, last := order[..|order| - 1], order[|order| - 1];
      LastMeans(groups, init, f);
      LastMatchMore(groups, init, f, l.value, last);
      assert init + [last] == order;
    } else {
      forall g: Id ensures !LastMatch(groups, order, f, g) { NoneMatches(groups, order, f, g); }
    }
  }

  lemma NoneMatches(groups: map<Id, Group>, order: seq<Id>, f: Finder, g: Id)
    requires Last(groups, order, f).None?
    ensures !LastMatch(groups, order, f, g)
  {
    hide Matches;
    LastNone(groups, order, f);
  }

  lemma LastMatchUnique(groups: map<Id, Group>, order: seq<Id>, f: Finder, g: Id, h: Id)
    requires LastMatch(groups, order, f, g) && LastMatch(groups, order, f, h)
    ensures g == h
  {
    hide Matches;
  }

  /** The group an entry means: the last listed one of its UUID; without a UUID or a group that has it, the last
      listed one of its name. */
  ghost predicate Means(groups: map<Id, Group>, order: seq<Id>, def: GroupDef, g: Id) {
    if def.uuid.Some? && exists h: Id :: LastMatch(groups, order, ByUuid(Lower(Strip(def.uuid.value))), h)
    then LastMatch(groups, order, ByUuid(Lower(Strip(def.uuid.value))), g)
    else LastMatch(groups, order, ByName(def.name), g)
  }

  lemma FindMeans(groups: map<Id, Group>, order: seq<Id>, def: GroupDef, g: Id)
    ensures Find(groups, order, def) == Some(g) <==> Means(groups, order, def, g)
  {
    hide LastMatch, Last, Strip, Lower;
    var named, byName := ByName(def.name), Last(groups, order, ByName(def.name));
    LastMeans(groups, order, named);
    if byName.Some? && LastMatch(groups, order, named, g) { LastMatchUnique(groups, order, named, g, byName.value); }
    if def.uuid.Some? {
      var f := ByUuid(Lower(Strip(def.uuid.value)));
      LastMeans(groups, order, f);
      var byUuid := Last(groups, order, f);
      if byUuid.Some? && LastMatch(groups, order, f, g) { LastMatchUnique(groups, order, f, g, byUuid.value); }
    }
  }

  /** UUIDs match in any letter case, names exactly. */
  lemma MatchMeans(fields: map<string, Value>, u: string, n: string)
    ensures Matches(fields, ByUuid(u)) <==>
            var v := if "uuid" in fields then fields["uuid"] else Str(""); v.Scalar() && Lower(Show(v)) == u
    ensures Matches(fields, ByName(n)) <==>
            var v := if "name" in fields then fields["name"] else Str(""); v.Scalar() && Show(v) == n
  {
  }

  /** The group that an entry means is there, with the entry's name, UUID and those fields of SG_FIELDS that it sets,
      and with its organisations as members. */
  ghost predicate GroupAsked(m: Misp, def: GroupDef) {
    && (def.uuid.Some? ==> IsUuid4(Lower(Strip(def.uuid.value))))
    && exists g: Id :: Means(m.groups, m.groupOrder, def, g) && GroupIs(m, g, def, m.records)
  }

  ghost predicate GroupIs(m: Misp, g: Id, def: GroupDef, seen: Table) {
    && g in m.groups && GroupHas(m.groups[g].fields, def)
    && MembersAsked(seen, def.orgs, m.groups[g].members)
  }

  ghost predicate GroupHas(fields: map<string, Value>, def: GroupDef) {
    && Is(fields, "name", Str(def.name))
    && (def.uuid.Some? ==> Is(fields, "uuid", Str(Lower(Strip(def.uuid.value)))))
    && forall f :: f in def.fields && f in {"description", "releasability", "active", "roaming", "local"} ==>
         Is(fields, f, def.fields[f])
  }

  lemma DataMeans(fields: map<string, Value>, def: GroupDef)
    ensures Holds(fields, Data(def)) <==> GroupHas(fields, def)
  {
    hide Is, Holds, Strip, Lower;
    var data := Data(def);
    HoldsMeans(fields, data);
    assert data["name"] == Str(def.name) && (def.uuid.Some? ==> data["uuid"] == Str(Lower(Strip(def.uuid.value))));
    assert forall f :: f in data ==> f == "name" || (f == "uuid" && def.uuid.Some?) || (f in def.fields && GroupField(f));
    assert forall f :: f in def.fields && GroupField(f) ==> f in data && data[f] == def.fields[f];
  }

  lemma GroupHeldMeans(m: Misp, g: Id, def: GroupDef, seen: Table)
    ensures GroupHeld(m, g, def, seen) <==> GroupIs(m, g, def, seen)
  {
    hide Holds, GroupHas, MembersAsked, DesiredOrgs, Data;
    if g in m.groups {
      var orgs, members := DesiredOrgs(seen, def.orgs), m.groups[g].members;
      DataMeans(m.groups[g].fields, def);
      DesiredOrgsMean(seen, def.orgs);
      if orgs.Some? && MembersAsked(seen, def.orgs, members) { MembersUnique(seen, def.orgs, members, orgs.value.extend); }
      if orgs.None? { NotAllThere(seen, def.orgs, members); }
    }
  }

  lemma NotAllThere(seen: Table, orgs: seq<OrgRef>, members: map<Id, bool>)
    requires exists i :: 0 <= i < |orgs| && Ref(Org, Lower(orgs[i].uuid)) !in seen
    ensures !MembersAsked(seen, orgs, members)
  {
  }

  lemma GroupMeans(m: Misp, def: GroupDef)
    ensures GroupSettled(m, def, m.records) <==> GroupAsked(m, def)
  {
    hide GroupHeld, GroupIs, Means, Find, IsUuid4, Strip, Lower;
    forall g: Id ensures Find(m.groups, m.groupOrder, def) == Some(g) <==> Means(m.groups, m.groupOrder, def, g) {
      FindMeans(m.groups, m.groupOrder, def, g);
    }
    forall g: Id ensures GroupHeld(m, g, def, m.records) <==> GroupIs(m, g, def, m.records) {
      GroupHeldMeans(m, g, def, m.records);
    }
  }

  /** When an entry of `sharing_groups` fails for certain: its UUID is none, and then nothing is posted; MISP lacks one
      of its organisations, and then no member is; or MISP's answer to a create does not name the group. It creates
      a group only if it means none so far. */
  lemma GroupFails(env: Env, m: Misp, groups: map<Id, Group>, order: seq<Id>, seen: Table, def: GroupDef)
    ensures var (m', outcome) := ApplyGroup(env, m, groups, order, seen, def);
      && (def.uuid.Some? && !IsUuid4(Lower(Strip(def.uuid.value))) ==> outcome == Failed && m' == m)
      && ((exists i :: 0 <= i < |def.orgs| && Ref(Org, Lower(def.orgs[i].uuid)) !in seen) ==>
            outcome == Failed && |m'.posts| <= |m.posts| + 1
            && forall k :: |m.posts| <= k < |m'.posts| ==> m'.posts[k].AddGroup? || m'.posts[k].EditGroup?)
      && ((forall g: Id :: !Means(groups, order, def, g)) ==>
            outcome in {Created, Failed} && (!env.named(|m.posts|) ==> outcome == Failed))
      && ((exists g: Id :: Means(groups, order, def, g)) ==> outcome in {Updated, Unchanged, Failed})
  {
    hide Find, Means, DesiredOrgs, Script, Play, Data, IsUuid4, Strip, Lower, Send, Differences;
    DesiredOrgsMean(seen, def.orgs);
    forall g: Id ensures Find(groups, order, def) == Some(g) <==> Means(groups, order, def, g) {
      FindMeans(groups, order, def, g);
    }
    if Find(groups, order, def).Some? { assert Means(groups, order, def, Find(groups, order, def).value); }
    forall p: Post | p.AddGroup? || p.EditGroup?
      ensures Send(env, m, p).0.posts == m.posts + [p]
    {
      GroupSent(env, m, p);
    }
  }

  lemma GroupSent(env: Env, m: Misp, p: Post)
    requires p.AddGroup? || p.EditGroup?
    ensures Send(env, m, p).0.posts == m.posts + [p]
  {
  }

  /** An entry of `sharing_groups` that succeeds leaves the group it means with its fields and its organisations. */
  lemma GroupReaches(env: Env, m: Misp, groups: map<Id, Group>, order: seq<Id>, seen: Table, def: GroupDef)
    requires Walks(env) && m.next !in m.groups
    requires var g := Find(groups, order, def); g.Some? ==>
      g.value in groups && g.value in m.groups && m.groups[g.value] == groups[g.value]
    ensures var (m', outcome) := ApplyGroup(env, m, groups, order, seen, def);
      outcome != Failed ==>
        && exists g: Id :: (Means(groups, order, def, g) || (g == m.next && forall h: Id :: !Means(groups, order, def, h)))
                       && GroupIs(m', g, def, seen)
  {
    hide ApplyGroup, Find, Means, GroupIs, GroupHeld, OtherFieldsKept;
    ApplyGroupReaches(env, m, groups, order, seen, def);
    var g := Target(m, groups, order, def);
    GroupHeldMeans(ApplyGroup(env, m, groups, order, seen, def).0, g, def, seen);
    FindMeans(groups, order, def, g);
    forall h: Id ensures Find(groups, order, def) == Some(h) <==> Means(groups, order, def, h) {
      FindMeans(groups, order, def, h);
    }
  }
}
