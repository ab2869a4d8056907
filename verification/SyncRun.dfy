/** One org-sync run: the steps in their order, and what becomes of MISP. */
module SyncRun {
  import opened Values
  import opened MispWorld
  import opened SharingGroups
  import opened SyncItems
  import opened SyncSteps
  import opened SyncPosts

  /** An entry of `warninglists`: a name, a list with its content, or something else. */
  datatype ListEntry = BuiltIn(name: string) | Custom(list: ListDef) | Other

  datatype Config = Config(teams: seq<Team>, roles: seq<RoleDef>, tags: seq<TagDef>,
                           taxonomies: Option<seq<string>>, warninglists: Option<seq<ListEntry>>,
                           groups: seq<GroupDef>)

  function IsEmpty(config: Config): bool {
    && config.teams == [] && config.roles == [] && config.tags == [] && config.groups == []
    && (config.taxonomies.None? || config.taxonomies.value == [])
    && (config.warninglists.None? || config.warninglists.value == [])
  }

  // ---- The items of each step --------------------------------------------------------------

  function RoleItems(config: Config): seq<Item> {
    seq(|config.roles|, i requires 0 <= i < |config.roles| => RoleItem(config.roles[i]))
  }

  function OrgItems(config: Config): seq<Item> {
    seq(|config.teams|, i requires 0 <= i < |config.teams| => OrgItem(config.teams[i]))
  }

  function TeamOrg(seen: Table, team: Team): Option<int> {
    var id := OrgId(seen, team.uuid);
    if id.Some? then Some(id.value) else None
  }

  function TagsOf(seen: Table, t: Team): seq<Item> {
    seq(|t.tags|, i requires 0 <= i < |t.tags| => TagItem(t.tags[i], TeamOrg(seen, t)))
  }

  function UsersOf(seen: Table, t: Team): seq<Item> {
    seq(|t.users|, i requires 0 <= i < |t.users| => UserItem(t.users[i], TeamOrg(seen, t)))
  }

  function ServersOf(seen: Table, t: Team): seq<Item> {
    seq(|t.servers|, i requires 0 <= i < |t.servers| => ServerItem(t.servers[i], TeamOrg(seen, t)))
  }

  function TeamTags(seen: Table, teams: seq<Team>): seq<Item> {
    if teams == [] then [] else TagsOf(seen, teams[0]) + TeamTags(seen, teams[1..])
  }

  function TagItems(seen: Table, config: Config): seq<Item> {
    seq(|config.tags|, i requires 0 <= i < |config.tags| => TagItem(config.tags[i], Some(0)))
    + TeamTags(seen, config.teams)
  }

  function UserItems(seen: Table, teams: seq<Team>): seq<Item> {
    if teams == [] then [] else UsersOf(seen, teams[0]) + UserItems(seen, teams[1..])
  }

  function ServerItems(seen: Table, teams: seq<Team>): seq<Item> {
    if teams == [] then [] else ServersOf(seen, teams[0]) + ServerItems(seen, teams[1..])
  }

  function TaxonomyItems(names: seq<string>): seq<Item> {
    seq(|names|, i requires 0 <= i < |names| => Enable(Ref(Taxonomy, names[i])))
  }

  function EntryItem(entry: ListEntry): Item {
    match entry
    case BuiltIn(name) => Enable(Ref(Warninglist, name))
    case Custom(list) => ListItem(list)
    case Other => Malformed
  }

  function ListItems(entries: seq<ListEntry>): seq<Item> {
    seq(|entries|, i requires 0 <= i < |entries| => EntryItem(entries[i]))
  }

  function GroupItems(config: Config): seq<Item> {
    seq(|config.groups|, i requires 0 <= i < |config.groups| => GroupItem(config.groups[i]))
  }

  // ---- The sweeps --------------------------------------------------------------------------

  /** An unnamed record that a sweep disables. */
  predicate SweepDue(kind: Kind, r: Record) {
    match kind
    case User =>
      && r.id != 1
      && !(Field(r.fields, "sub").Truthy() || ValuesEqual(Bool(true), Field(r.fields, "external_auth_required")))
      && !Field(r.fields, "disabled").Truthy()
    case Server => Field(r.fields, "push").Truthy() || Field(r.fields, "pull").Truthy()
    case _ => SyncItems.Enabled(r.fields)
  }

  function SweepFields(kind: Kind): map<string, Value> {
    match kind
    case User => map["disabled" := Bool(true)]
    case Server => map["push" := Bool(false), "pull" := Bool(false)]
    case _ => map["enabled" := Bool(false)]
  }

  predicate Unnamed(seen: Table, kind: Kind, named: set<Ref>, q: Ref) {
    q.kind == kind && q !in named && q in seen && SweepDue(kind, seen[q])
  }

  function SweepItems(seen: Table, order: seq<Ref>, kind: Kind, named: set<Ref>): seq<Item>
    decreases order
  {
    if order == [] then [] else
      var init, q := SweepItems(seen, order[..|order| - 1], kind, named), order[|order| - 1];
      if Unnamed(seen, kind, named, q) then init + [Sweep(q, SweepFields(kind))] else init
  }

  ghost predicate SweepFor(i: Item, seen: Table, kind: Kind, named: set<Ref>) {
    i.Sweep? && i.fields == SweepFields(kind) && Unnamed(seen, kind, named, i.ref)
  }

  /** The sweep items are those of the listed records that are due. */
  lemma {:induction false} SweepItemsAre(seen: Table, order: seq<Ref>, kind: Kind, named: set<Ref>)
    ensures forall i <- SweepItems(seen, order, kind, named) :: SweepFor(i, seen, kind, named)
    ensures forall q <- order :: Unnamed(seen, kind, named, q) ==>
              Sweep(q, SweepFields(kind)) in SweepItems(seen, order, kind, named)
    decreases order
  {
    if order != [] {
      SweepItemsAre(seen, order[..|order| - 1], kind, named);
      forall q | q in order && Unnamed(seen, kind, named, q)
        ensures Sweep(q, SweepFields(kind)) in SweepItems(seen, order, kind, named)
      {
        if q in order[..|order| - 1] {
          assert Sweep(q, SweepFields(kind)) in SweepItems(seen, order[..|order| - 1], kind, named);
        }
      }
    }
  }

  lemma {:induction false} SweepsListed(seen: Table, order: seq<Ref>, kind: Kind, named: set<Ref>)
    ensures forall i <- SweepItems(seen, order, kind, named) :: i.Sweep? && i.ref in order
    decreases order
  {
    hide Unnamed, SweepFields;
    if order != [] { SweepsListed(seen, order[..|order| - 1], kind, named); }
  }

  function Refs(items: seq<Item>): (r: set<Ref>)
    ensures forall q :: q in r <==> MayTouch(items, q)
  {
    set i <- items :: ItemRef(i)
  }

  // ---- The steps ---------------------------------------------------------------------------

  datatype Step = Step(run: Run, ok: bool)

  function Do(env: Env, run: Run, items: seq<Item>): Step {
    var (run', outcomes) := Each(env, run, items);
    Step(run', Failed !in outcomes)
  }

  function Fetch(m: Misp): Run { Run(m, m.records, m.groups, m.groupOrder, map[]) }

  /** Roles and organisations: the snapshot is fetched again when an item was created. */
  function DoAndRefresh(env: Env, run: Run, items: seq<Item>, kind: Kind): Step {
    var (run', outcomes) := Each(env, run, items);
    Step(if Created in outcomes then Refresh(run', kind) else run', Failed !in outcomes)
  }

  function TagStep(env: Env, run: Run, config: Config): Step {
    var s := Do(env, run, TagItems(run.seen, config));
    Step(Refresh(s.run, Tag), s.ok)
  }

  function UserStep(env: Env, run: Run, config: Config): Step {
    var s := Do(env, run, UserItems(run.seen, config.teams));
    Step(Refresh(s.run, User), s.ok)
  }

  /** The row of sent keys is read before the servers, and written after them whatever failed. */
  function ServerStep(env: Env, run: Run, config: Config): Step {
    var s := Do(env, run.(sent := run.misp.sent), ServerItems(run.seen, config.teams));
    Step(s.run.(misp := s.run.misp.(sent := s.run.sent)), s.ok)
  }

  /** Sweeps the unnamed records of a kind, unless the step of the named ones failed. */
  function SweepStep(env: Env, s: Step, kind: Kind, named: set<Ref>): Step {
    if !s.ok then s else Do(env, s.run, SweepItems(s.run.seen, s.run.misp.order, kind, named))
  }

  function LoadStep(env: Env, run: Run, names: seq<string>): Step {
    if forall n <- names :: Ref(Taxonomy, n) in run.seen then Step(run, true) else
      var (m, answer) := Send(env, run.misp, LoadTaxonomies);
      if answer != Accepted then Step(run.(misp := m), false) else Step(Refresh(run.(misp := m), Taxonomy), true)
  }

  function TaxonomyStep(env: Env, run: Run, config: Config): Step {
    if config.taxonomies.None? then Step(run, true) else
      var names := config.taxonomies.value;
      var loaded := LoadStep(env, run, names);
      if !loaded.ok then loaded else
        SweepStep(env, Do(env, loaded.run, TaxonomyItems(names)), Taxonomy, Refs(TaxonomyItems(names)))
  }

  function ListStep(env: Env, run: Run, config: Config): Step {
    if config.warninglists.None? then Step(run, true) else
      var items := ListItems(config.warninglists.value);
      SweepStep(env, Do(env, run, items), Warninglist, Refs(items))
  }

  /** A step that failed sweeps nothing and is no failure of the sweep. */
  function Disable(env: Env, run: Run, after: bool, kind: Kind, named: set<Ref>): Step {
    if !after then Step(run, true) else SweepStep(env, Step(run, true), kind, named)
  }

  // ---- The run -----------------------------------------------------------------------------

  datatype Report = NotRun | Done | Error

  datatype Summary = Summary(roles: Report, orgs: Report, tags: Report, users: Report, servers: Report,
                             taxonomies: Report, lists: Report, groups: Report,
                             sweptUsers: Report, sweptServers: Report)
  {
    /** The run exits 0. */
    predicate Ok() {
      Error !in {roles, orgs, tags, users, servers, taxonomies, lists, groups, sweptUsers, sweptServers}
    }
  }

  /** The steps of a run one after the other. */
  datatype Trace = Trace(roles: Step, orgs: Step, tags: Step, users: Step, servers: Step, taxonomies: Step,
                         lists: Step, groups: Step, sweptUsers: Step, sweptServers: Step)

  function Steps(env: Env, config: Config, ldap: bool, m: Misp): Trace {
    var roles := DoAndRefresh(env, Fetch(m), RoleItems(config), Role);
    var orgs := DoAndRefresh(env, roles.run, OrgItems(config), Org);
    var tags := TagStep(env, orgs.run, config);
    var users := UserStep(env, tags.run, config);
    var servers := ServerStep(env, users.run, config);
    var taxonomies := TaxonomyStep(env, servers.run, config);
    var lists := ListStep(env, taxonomies.run, config);
    var groups := Do(env, lists.run, GroupItems(config));
    var sweptUsers :=
      Disable(env, groups.run, users.ok && !ldap, User, Refs(UserItems(m.records, config.teams)));
    var sweptServers := Disable(env, sweptUsers.run, servers.ok, Server, Refs(ServerItems(m.records, config.teams)));
    Trace(roles, orgs, tags, users, servers, taxonomies, lists, groups, sweptUsers, sweptServers)
  }

  function ReportOf(s: Step): Report { if s.ok then Done else Error }

  /** A run over MISP: its end state and its summary. It cannot go on after a failed organisations step. */
  function Apply(env: Env, config: Config, ldap: bool, m: Misp): (Misp, Summary) {
    if IsEmpty(config) then
      (m, Summary(NotRun, NotRun, NotRun, NotRun, NotRun, NotRun, NotRun, NotRun, NotRun, NotRun))
    else
      var t := Steps(env, config, ldap, m);
      if !t.orgs.ok then
        (t.orgs.run.misp, Summary(ReportOf(t.roles), Error, NotRun, NotRun, NotRun, NotRun, NotRun, NotRun,
                                  NotRun, NotRun))
      else
        (t.sweptServers.run.misp,
         Summary(ReportOf(t.roles), Done, ReportOf(t.tags), ReportOf(t.users), ReportOf(t.servers),
                 if config.taxonomies.None? then NotRun else ReportOf(t.taxonomies),
                 if config.warninglists.None? then NotRun else ReportOf(t.lists),
                 ReportOf(t.groups), ReportOf(t.sweptUsers), ReportOf(t.sweptServers)))
  }

  // ---- The state a run aims at --------------------------------------------------------------

  ghost predicate AllHeld(m: Misp, items: seq<Item>) {
    forall i <- items :: Held(m, m.sent, i)
  }

  ghost predicate NothingToSweep(m: Misp, kind: Kind, named: set<Ref>) {
    forall q :: q in m.records && q.kind == kind && q !in named ==> !SweepDue(kind, m.records[q])
  }

  /** MISP is as the file asks. */
  ghost predicate Settled(m: Misp, config: Config, ldap: bool) {
    && AllHeld(m, RoleItems(config)) && AllHeld(m, OrgItems(config))
    && AllHeld(m, TagItems(m.records, config))
    && AllHeld(m, UserItems(m.records, config.teams)) && AllHeld(m, ServerItems(m.records, config.teams))
    && (config.taxonomies.Some? ==>
          var items := TaxonomyItems(config.taxonomies.value);
          AllHeld(m, items) && NothingToSweep(m, Taxonomy, Refs(items)))
    && (config.warninglists.Some? ==>
          var items := ListItems(config.warninglists.value);
          AllHeld(m, items) && NothingToSweep(m, Warninglist, Refs(items)))
    && (forall def <- config.groups :: GroupSettled(m, def, m.records))
    && (ldap || NothingToSweep(m, User, Refs(UserItems(m.records, config.teams))))
    && NothingToSweep(m, Server, Refs(ServerItems(m.records, config.teams)))
  }
}
