/** The items of org-sync's steps: what each asks of MISP, and what one of them posts. */
module SyncItems {
  import opened Values
  import opened MispWorld
  import opened SharingGroups

  // ---- The config file, as load_config returns it -------------------------------------------

  datatype RoleDef = RoleDef(name: string, fields: map<string, Value>)

  datatype TagDef = TagDef(name: string, colour: Value, exportable: Value, hideTag: Value)

  datatype UserDef = UserDef(email: string, role: string, disabled: bool, externalAuth: bool,
                             password: string, authkey: string)

  datatype ServerDef = ServerDef(name: string, url: string, push: bool, pull: bool, isInternal: bool,
                                 selfSigned: bool, caching: bool,
                                 pullTags: seq<string>, pullTagsExclude: seq<string>,
                                 pushTags: seq<string>, pushTagsExclude: seq<string>, authkey: string)

  datatype ListDef = ListDef(name: string, description: string, sort: string, category: string,
                             attributes: seq<string>, values: seq<string>, version: string, enabled: bool)

  datatype Team = Team(uuid: string, name: string, description: Value, sector: Value, nationality: Value,
                       sort: Value, contacts: Value,
                       users: seq<UserDef>, servers: seq<ServerDef>, tags: seq<TagDef>)

  /** A field of ROLE_FIELDS besides the name. */
  predicate RoleField(f: string) {
    f in {
      "permission", "perm_site_admin", "perm_admin", "perm_sync", "perm_auth", "perm_tagger", "perm_tag_editor",
      "perm_template", "perm_sharing_group", "perm_delegate", "perm_sighting", "perm_galaxy_editor",
      "perm_publish_zmq", "perm_publish_kafka", "perm_analyst_data", "perm_audit", "perm_decaying",
      "perm_regexp_access", "perm_object_template", "perm_warninglist", "perm_view_feed_correlations",
      "perm_skip_otp", "perm_server_sign", "max_execution_time", "memory_limit", "rate_limit_count"}
  }

  /** One entry of a step's list. A tag, user or server comes with its team's organisation, None when MISP
      lacks it. Sweep disables a record the file does not name; Malformed is a warninglist entry of no known
      form; Loaded stands for a taxonomy that a load may bring in, and is no step's entry. */
  datatype Item =
    | RoleItem(role: RoleDef)
    | OrgItem(team: Team)
    | TagItem(tag: TagDef, org: Option<int>)
    | UserItem(user: UserDef, org: Option<int>)
    | ServerItem(server: ServerDef, org: Option<int>)
    | Enable(ref: Ref)
    | Sweep(ref: Ref, fields: map<string, Value>)
    | ListItem(list: ListDef)
    | GroupItem(group: GroupDef)
    | Malformed
    | Loaded(ref: Ref)
  {
    /** A record that _reconcile creates or edits. */
    predicate Reconciled() { RoleItem? || OrgItem? || TagItem? || UserItem? || ServerItem? }
  }

  function Url(server: ServerDef): string { Lower(TrimSlashes(server.url)) }

  /** The record an item is about. */
  function ItemRef(item: Item): Ref {
    match item
    case RoleItem(role) => Ref(Role, role.name)
    case OrgItem(team) => Ref(Org, team.uuid)
    case TagItem(tag, _) => Ref(Tag, tag.name)
    case UserItem(user, _) => Ref(User, Lower(user.email))
    case ServerItem(server, _) => Ref(Server, Url(server))
    case Enable(ref) => ref
    case Sweep(ref, _) => ref
    case ListItem(list) => Ref(Warninglist, list.name)
    case GroupItem(group) => Ref(NoRecord, group.name)
    case Malformed => Ref(Warninglist, "")
    case Loaded(ref) => ref
  }

  // ---- What an item wants ------------------------------------------------------------------

  function TagIds(seen: Table, names: seq<string>): Option<seq<Value>> {
    if names == [] then Some([]) else
      var rest := TagIds(seen, names[1..]);
      var ref := Ref(Tag, names[0]);
      if ref in seen && rest.Some? then Some([Int(seen[ref].id)] + rest.value) else None
  }

  /** Pull rules hold tag names, push rules IDs of local tags; None when MISP lacks a push tag. */
  function BuildRules(seen: Table, wanted: seq<string>, unwanted: seq<string>, pull: bool): Option<Value> {
    if pull then
      Some(Rules(true, seq(|wanted|, i requires 0 <= i < |wanted| => Str(wanted[i])),
                 seq(|unwanted|, i requires 0 <= i < |unwanted| => Str(unwanted[i]))))
    else
      var (a, b) := (TagIds(seen, wanted), TagIds(seen, unwanted));
      if a.Some? && b.Some? then Some(Rules(false, a.value, b.value)) else None
  }

  /** The compared fields of a record item and their desired values; None when a name does not resolve. */
  function Wanted(seen: Table, item: Item): Option<map<string, Value>>
    requires item.Reconciled()
  {
    match item
    case RoleItem(role) =>
      if role.name == "" then None
      else Some(map f | f in role.fields && RoleField(f) :: role.fields[f])
    case OrgItem(team) =>
      Some(map["name" := Str(team.name), "description" := team.description, "sector" := team.sector,
               "nationality" := team.nationality, "type" := team.sort, "contacts" := team.contacts,
               "local" := Bool(true)])
    case TagItem(tag, org) =>
      if org.None? then None else
        Some(map["colour" := tag.colour, "exportable" := tag.exportable, "hide_tag" := tag.hideTag,
                 "org_id" := Int(org.value)])
    case UserItem(user, org) =>
      var role := Ref(Role, user.role);
      if org.None? || role !in seen then None else
        Some(map["org_id" := Int(org.value), "role_id" := Int(seen[role].id), "disabled" := Bool(user.disabled)]
             + if user.externalAuth
               then map["external_auth_required" := Bool(true), "external_auth_key" := Str(user.email)]
               else map[])
    case ServerItem(server, org) =>
      var pull := BuildRules(seen, server.pullTags, server.pullTagsExclude, true);
      var push := BuildRules(seen, server.pushTags, server.pushTagsExclude, false);
      if org.None? || pull.None? || push.None? then None else
        Some(map["name" := Str(server.name), "internal" := Bool(server.isInternal), "push" := Bool(server.push),
                 "pull" := Bool(server.pull), "self_signed" := Bool(server.selfSigned),
                 "caching_enabled" := Bool(server.caching), "pull_rules" := pull.value,
                 "push_rules" := push.value, "remote_org_id" := Int(org.value)])
  }

  /** The fields that go with a create only; `nonce` stands for the random value of that post. */
  function CreateOnly(item: Item, nonce: nat): map<string, Value>
    requires item.Reconciled()
  {
    match item
    case RoleItem(role) => map["name" := Str(role.name)]
    case OrgItem(team) => map["uuid" := Str(team.uuid)]
    case TagItem(tag, _) => map["name" := Str(tag.name)]
    case UserItem(user, _) =>
      map["email" := Str(user.email), "termsaccepted" := Bool(true), "change_pw" := Int(0),
          "password" := if user.password != "" then Str(user.password) else Token(nonce)]
    case ServerItem(server, _) =>
      map["url" := Str(TrimSlashes(server.url)),
          "authkey" := if server.authkey != "" then Str(server.authkey) else Token(nonce)]
  }

  /** An injective stand-in for SHA-256. */
  function Digest(key: string): string { "sha256:" + key }

  /** The value MISP never returns, when it has to go: a password that does not verify, a server key other
      than the one last sent. */
  function Secret(m: Misp, sent: map<string, string>, item: Item): map<string, Value> {
    match item
    case UserItem(user, _) =>
      var ref := ItemRef(item);
      if user.password != "" && !(ref in m.records && Field(m.records[ref].fields, "password") == Str(user.password))
      then map["password" := Str(user.password)] else map[]
    case ServerItem(server, _) =>
      var url := Url(server);
      if server.authkey != "" && !(url in sent && sent[url] == Digest(server.authkey))
      then map["authkey" := Str(server.authkey)] else map[]
    case _ => map[]
  }

  // ---- Applying one item -------------------------------------------------------------------

  /** A run in progress: MISP, the snapshot of its records and groups, and the server keys sent so far. */
  datatype Run = Run(misp: Misp, seen: Table, groups: map<Id, Group>, groupOrder: seq<Id>,
                     sent: map<string, string>)

  function KeysOf(m: Misp, ref: Ref): set<string> {
    if ref in m.authkeys then m.authkeys[ref] else {}
  }

  function SetAuthkey(m: Misp, ref: Ref, key: string): Misp {
    if key in KeysOf(m, ref) then m else m.(authkeys := m.authkeys[ref := {key}])
  }

  /** Fetches the records of a kind into the snapshot. */
  function Refresh(run: Run, kind: Kind): Run {
    var records := run.misp.records;
    run.(seen := map r | r in run.seen.Keys + records.Keys
                         && (if r.kind == kind then r in records else r in run.seen)
                      :: if r.kind == kind then records[r] else run.seen[r])
  }

  /** What follows a successful create or edit: a user's API key goes into auth_keys, a server's digest
      into the row of sent keys. */
  function Finish(env: Env, run: Run, item: Item, created: bool, outcome: Outcome, secret: map<string, Value>,
                  post: nat): (Run, Outcome)
  {
    match item
    case UserItem(user, _) =>
      if user.authkey != "" && created && !env.named(post) then (run, Failed) else
        var m := if user.authkey != "" then SetAuthkey(run.misp, ItemRef(item), user.authkey) else run.misp;
        (run.(misp := m), if secret != map[] && outcome == Unchanged then Updated else outcome)
    case ServerItem(server, _) =>
      (if server.authkey != "" then run.(sent := run.sent[Url(server) := Digest(server.authkey)]) else run, outcome)
    case _ => (run, outcome)
  }

  function Reconcile(env: Env, run: Run, item: Item): (Run, Outcome)
    requires item.Reconciled()
  {
    var want := Wanted(run.seen, item);
    var ref, post := ItemRef(item), |run.misp.posts|;
    if want.None? then (run, Failed)
    else if ref !in run.seen then
      var (m, answer) := Send(env, run.misp, Add(ref, want.value + CreateOnly(item, post)));
      if answer != Accepted then (run.(misp := m), Failed)
      else Finish(env, run.(misp := m), item, true, Created, map[], post)
    else
      var changes := Differences(want.value, run.seen[ref].fields);
      var secret := Secret(run.misp, run.sent, item);
      if changes + secret == map[] then Finish(env, run, item, false, Unchanged, secret, post) else
        var (m, answer) := Send(env, run.misp, Edit(ref, changes + secret));
        if answer != Accepted then (run.(misp := m), Failed) else
          Finish(env, run.(misp := m), item, false, if changes == map[] then Unchanged else Updated, secret, post)
  }

  function ListData(list: ListDef): map<string, Value> {
    map["description" := Str(list.description), "type" := Str(list.sort), "category" := Str(list.category),
        "matching_attributes" := Lines(if list.attributes == [] then ["ALL"] else list.attributes),
        "entries" := Lines(list.values)]
  }

  predicate SameLines(a: Value, b: Value) {
    a.Lines? && b.Lines? && multiset(a.lines) == multiset(b.lines)
  }

  /** A custom list's stored content is the file's, the order of types and entries aside. */
  predicate SameList(fields: map<string, Value>, list: ListDef) {
    var data := ListData(list);
    && (if Field(fields, "description").Truthy() then Field(fields, "description") else Str("")) == data["description"]
    && Field(fields, "type") == data["type"]
    && Field(fields, "category") == data["category"]
    && SameLines(Field(fields, "matching_attributes"), data["matching_attributes"])
    && SameLines(Field(fields, "entries"), data["entries"])
  }

  predicate Enabled(fields: map<string, Value>) { Field(fields, "enabled").Truthy() }

  function EnableIfWanted(env: Env, run: Run, ref: Ref, wanted: bool): (Run, Outcome)
    requires ref in run.seen
  {
    if !Enabled(run.seen[ref].fields) && wanted then
      var (m, answer) := Send(env, run.misp, Edit(ref, map["enabled" := Bool(true)]));
      (run.(misp := m), if answer == Accepted then Applied else Failed)
    else (run, Applied)
  }

  /** A custom warninglist: create it, or edit it when its content differs; then enable it. */
  function ApplyList(env: Env, run: Run, list: ListDef): (Run, Outcome) {
    var ref := Ref(Warninglist, list.name);
    if ref !in run.seen then
      var (m, answer) := Send(env, run.misp, Add(ref, ListData(list) + map["version" := Str(list.version)]));
      // A list that the index left out may exist already
      if answer == Refused then (run.(misp := m), Failed) else
        var run1 := Refresh(run.(misp := m), Warninglist);
        if ref !in run1.seen then (run1, Failed) else EnableIfWanted(env, run1, ref, list.enabled)
    else if ref in run.misp.records && SameList(run.misp.records[ref].fields, list) then
      EnableIfWanted(env, run, ref, list.enabled)
    else
      var (m, answer) := Send(env, run.misp, Edit(ref, ListData(list)));
      if answer != Accepted then (run.(misp := m), Failed)
      else EnableIfWanted(env, run.(misp := m), ref, list.enabled)
  }

  function ApplyOne(env: Env, run: Run, item: Item): (Run, Outcome) {
    match item
    case Enable(ref) =>
      if ref !in run.seen then (run, Failed)
      else if Enabled(run.seen[ref].fields) then (run, Unchanged) else
        var (m, answer) := Send(env, run.misp, Edit(ref, map["enabled" := Bool(true)]));
        (run.(misp := m), if answer == Accepted then Outcome.Enabled else Failed)
    case Sweep(ref, fields) =>
      var (m, answer) := Send(env, run.misp, Edit(ref, fields));
      (run.(misp := m), if answer == Accepted then Disabled else Failed)
    case ListItem(list) => ApplyList(env, run, list)
    case GroupItem(group) =>
      var (m, outcome) := ApplyGroup(env, run.misp, run.groups, run.groupOrder, run.seen, group);
      (run.(misp := m), outcome)
    case Malformed => (run, Failed)
    case Loaded(_) => (run, Failed)
    case _ => Reconcile(env, run, item)
  }

  /** Every item of a step, whatever became of the ones before it. */
  function Each(env: Env, run: Run, items: seq<Item>): (r: (Run, seq<Outcome>))
    ensures |r.1| == |items|
    decreases items
  {
    if items == [] then (run, []) else
      var (run1, outcome) := ApplyOne(env, run, items[0]);
      var (run2, outcomes) := Each(env, run1, items[1..]);
      (run2, [outcome] + outcomes)
  }

  // ---- What one item may touch -------------------------------------------------------------

  /** The fields an edit for this item may hold. */
  function EditKeys(item: Item): set<string> {
    match item
    case RoleItem(role) => set f | f in role.fields && RoleField(f)
    case OrgItem(_) => {"name", "description", "sector", "nationality", "type", "contacts", "local"}
    case TagItem(_, _) => {"colour", "exportable", "hide_tag", "org_id"}
    case UserItem(user, _) =>
      {"org_id", "role_id", "disabled"}
      + (if user.externalAuth then {"external_auth_required", "external_auth_key"} else {})
      + (if user.password != "" then {"password"} else {})
    case ServerItem(server, _) =>
      {"name", "internal", "push", "pull", "self_signed", "caching_enabled", "pull_rules", "push_rules",
       "remote_org_id"} + (if server.authkey != "" then {"authkey"} else {})
    case Enable(_) => {"enabled"}
    case Sweep(_, fields) => fields.Keys
    case ListItem(list) =>
      {"description", "type", "category", "matching_attributes", "entries"} + (if list.enabled then {"enabled"} else {})
    case GroupItem(_) => {}
    case Malformed => {}
    case Loaded(_) => {}
  }

  ghost predicate MayTouch(items: seq<Item>, ref: Ref) {
    exists i <- items :: ItemRef(i) == ref
  }

  ghost predicate MayEdit(items: seq<Item>, ref: Ref, field: string) {
    exists i <- items :: ItemRef(i) == ref && field in EditKeys(i)
  }

  ghost predicate Targeted(items: seq<Item>, p: Post) {
    exists i <- items :: TargetedBy(i, p)
  }

  ghost predicate TargetedBy(item: Item, p: Post) {
    match p
    case Add(ref, _) => ref == ItemRef(item) && (item.Reconciled() || item.ListItem?)
    case Edit(ref, fields) =>
      ref == ItemRef(item) && fields.Keys <= EditKeys(item) && !item.Loaded? && (item.Sweep? ==> fields == item.fields)
    case LoadTaxonomies => item.Enable? && item.ref.kind == Taxonomy
    case _ => item.GroupItem?
  }

  ghost predicate SameField(a: Record, b: Record, f: string) {
    (f in a.fields <==> f in b.fields) && (f in a.fields ==> a.fields[f] == b.fields[f])
  }

  ghost predicate SameSent(sent: map<string, string>, sent': map<string, string>, u: string) {
    (u in sent <==> u in sent') && (u in sent ==> sent'[u] == sent[u])
  }

  /** All that changed from m to m' are the records of these items, in the fields they may edit, the API keys
      of their users, and posts about them. */
  ghost predicate Frame(m: Misp, m': Misp, items: seq<Item>) {
    && Extends(m.records, m'.records)
    && (forall q :: q in m.records && !MayTouch(items, q) ==> m'.records[q] == m.records[q])
    && (forall q :: q in m'.records && q !in m.records ==> MayTouch(items, q))
    && (forall q, f :: q in m.records && !MayEdit(items, q, f) ==> SameField(m.records[q], m'.records[q], f))
    && (forall q :: !MayTouch(items, q) ==> KeysOf(m', q) == KeysOf(m, q))
    && (forall u :: !MayTouch(items, Ref(Server, u)) ==> SameSent(m.sent, m'.sent, u))
    && m.next <= m'.next
    && m.posts <= m'.posts
    && (forall i :: |m.posts| <= i < |m'.posts| ==> Targeted(items, m'.posts[i]))
    && (m.Valid() ==> m'.Valid())
  }

  lemma FrameSelf(m: Misp, items: seq<Item>)
    ensures Frame(m, m, items)
  {
  }

  lemma FrameTrans(m: Misp, m1: Misp, m2: Misp, a: seq<Item>, b: seq<Item>)
    requires Frame(m, m1, a) && Frame(m1, m2, b)
    ensures Frame(m, m2, a + b)
  {
    forall q ensures MayTouch(a + b, q) <==> MayTouch(a, q) || MayTouch(b, q) { TouchSum(a, b, q); }
    forall q, f ensures MayEdit(a + b, q, f) <==> MayEdit(a, q, f) || MayEdit(b, q, f) { EditSum(a, b, q, f); }
    forall i | |m.posts| <= i < |m2.posts| ensures Targeted(a + b, m2.posts[i]) {
      TargetSum(a, b, m2.posts[i]);
    }
  }

  lemma TouchSum(a: seq<Item>, b: seq<Item>, q: Ref)
    ensures MayTouch(a + b, q) <==> MayTouch(a, q) || MayTouch(b, q)
  {
    if MayTouch(a, q) { var i :| i in a && ItemRef(i) == q; assert i in a + b; }
    if MayTouch(b, q) { var i :| i in b && ItemRef(i) == q; assert i in a + b; }
  }

  lemma EditSum(a: seq<Item>, b: seq<Item>, q: Ref, f: string)
    ensures MayEdit(a + b, q, f) <==> MayEdit(a, q, f) || MayEdit(b, q, f)
  {
    if MayEdit(a, q, f) { var i :| i in a && ItemRef(i) == q && f in EditKeys(i); assert i in a + b; }
    if MayEdit(b, q, f) { var i :| i in b && ItemRef(i) == q && f in EditKeys(i); assert i in a + b; }
  }

  lemma TargetSum(a: seq<Item>, b: seq<Item>, p: Post)
    ensures Targeted(a + b, p) <==> Targeted(a, p) || Targeted(b, p)
  {
    if Targeted(a, p) { var i :| i in a && TargetedBy(i, p); assert i in a + b; }
    if Targeted(b, p) { var i :| i in b && TargetedBy(i, p); assert i in a + b; }
  }

  lemma Single(item: Item, q: Ref, f: string, p: Post)
    ensures MayTouch([item], q) <==> ItemRef(item) == q
    ensures MayEdit([item], q, f) <==> ItemRef(item) == q && f in EditKeys(item)
    ensures Targeted([item], p) <==> TargetedBy(item, p)
  {
    assert item in [item];
  }

  /** The frame of a step from m to m' that concerns one item. */
  lemma SingleFrame(m: Misp, m': Misp, item: Item)
    requires var q := ItemRef(item);
      && (forall r :: r in m.records && r != q ==> r in m'.records && m'.records[r] == m.records[r])
      && (forall r :: r in m'.records && r !in m.records ==> r == q)
      && (q in m.records ==> q in m'.records && m'.records[q].id == m.records[q].id)
      && (q in m.records ==> forall f :: f !in EditKeys(item) ==> SameField(m.records[q], m'.records[q], f))
      && (forall r :: r != q ==> KeysOf(m', r) == KeysOf(m, r))
    requires m'.sent == m.sent && m.next <= m'.next
    requires m.posts <= m'.posts
    requires forall i :: |m.posts| <= i < |m'.posts| ==> TargetedBy(item, m'.posts[i])
    requires m.Valid() ==> m'.Valid()
    ensures Frame(m, m', [item])
  {
    forall q, f, p
      ensures MayTouch([item], q) <==> ItemRef(item) == q
      ensures MayEdit([item], q, f) <==> ItemRef(item) == q && f in EditKeys(item)
      ensures Targeted([item], p) <==> TargetedBy(item, p)
    {
      Single(item, q, f, p);
    }
  }

  lemma SendFrame(env: Env, m: Misp, item: Item, p: Post)
    requires (p.Add? || p.Edit?) && TargetedBy(item, p)
    ensures Frame(m, Send(env, m, p).0, [item])
    ensures var m' := Send(env, m, p).0; m'.groups == m.groups && m'.groupOrder == m.groupOrder
  {
    var logged := m.(posts := m.posts + [p]);
    var (m', answer) := Send(env, m, p);
    if answer != Accepted {
      assert m' == logged;
    } else if p.Add? {
      assert m' == Insert(logged, p.ref, p.fields);
      assert forall r <- m'.order :: r in m.order || r == p.ref;
      assert forall r <- m.order :: r in m'.order;
      assert p.ref == m'.order[|m.order|];
      assert m.Valid() ==> p.ref !in m.order;
    } else {
      assert m'.order == m.order;
    }
    SingleFrame(m, m', item);
  }
}
