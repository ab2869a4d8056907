/** What a run that exits 0 leaves, said of the file and of MISP's records field by field. */
module SyncFile {
  import opened Values
  import opened MispWorld
  import opened SharingGroups
  import opened SyncItems
  import opened SyncSteps
  import opened SyncRun
  import opened SyncSwept
  import opened SyncLinks
  import opened SyncConverge
  import opened SyncAsked
  import opened SyncSafety
  import SyncGroups
  import SyncUnique

  // ---- The file in force -------------------------------------------------------------------

  /** The record of a team's organisation. */
  function OrgOf(team: Team): Ref { Ref(Org, Lower(team.uuid)) }

  /** Global tags belong to no organisation, a team's tags to the team's. */
  ghost predicate TagsInForce(m: Misp, config: Config) {
    && (forall tag <- config.tags :: TagAsked(m, tag, 0))
    && forall team <- config.teams :: forall tag <- team.tags ::
         OrgOf(team) in m.records && TagAsked(m, tag, m.records[OrgOf(team)].id)
  }

  ghost predicate UsersInForce(m: Misp, config: Config) {
    forall team <- config.teams :: forall user <- team.users ::
      OrgOf(team) in m.records && UserAsked(m, user, m.records[OrgOf(team)].id)
  }

  ghost predicate ServersInForce(m: Misp, config: Config) {
    forall team <- config.teams :: forall server <- team.servers ::
      OrgOf(team) in m.records && ServerAsked(m, m.sent, server, m.records[OrgOf(team)].id)
  }

  /** The named taxonomies are on and all others off. */
  ghost predicate TaxonomiesInForce(m: Misp, names: seq<string>) {
    && (forall n <- names :: Ref(Taxonomy, n) in m.records && !Unset(m.records[Ref(Taxonomy, n)].fields, "enabled"))
    && forall q :: q in m.records && q.kind == Taxonomy && q.key !in names ==> Unset(m.records[q].fields, "enabled")
  }

  predicate NamesList(entries: seq<ListEntry>, name: string) {
    BuiltIn(name) in entries || exists e <- entries :: e.Custom? && e.list.name == name
  }

  /** The named warninglists are on, the custom ones have their content, and all others are off. */
  ghost predicate ListsInForce(m: Misp, entries: seq<ListEntry>) {
    && (forall e <- entries ::
          match e
          case BuiltIn(n) => Ref(Warninglist, n) in m.records && !Unset(m.records[Ref(Warninglist, n)].fields, "enabled")
          case Custom(list) => ListAsked(m, list)
          case Other => false)
    && forall q :: q in m.records && q.kind == Warninglist && !NamesList(entries, q.key) ==>
         Unset(m.records[q].fields, "enabled")
  }

  predicate NamesUser(teams: seq<Team>, key: string) {
    exists team <- teams :: exists user <- team.users :: Lower(user.email) == key
  }

  predicate NamesServer(teams: seq<Team>, key: string) {
    exists team <- teams :: exists server <- team.servers :: Lower(TrimSlashes(server.url)) == key
  }

  /** Every user that the file does not name is disabled, but for user ID 1 and those with an OIDC subject or
      external auth. */
  ghost predicate UsersSwept(m: Misp, config: Config) {
    forall q :: q in m.records && q.kind == User && !NamesUser(config.teams, q.key) ==>
      var r := m.records[q];
      || r.id == 1 || !Unset(r.fields, "disabled")
      || !Unset(r.fields, "sub") || Is(r.fields, "external_auth_required", Bool(true))
  }

  /** Every server that the file does not name neither pushes nor pulls. */
  ghost predicate ServersSwept(m: Misp, config: Config) {
    forall q :: q in m.records && q.kind == Server && !NamesServer(config.teams, q.key) ==>
      Unset(m.records[q].fields, "push") && Unset(m.records[q].fields, "pull")
  }

  /** The records that the file names. */
  ghost predicate RecordsInForce(m: Misp, config: Config) {
    && (forall role <- config.roles :: RoleAsked(m, role))
    && (forall team <- config.teams :: OrgAsked(m, team))
    && TagsInForce(m, config) && UsersInForce(m, config) && ServersInForce(m, config)
    && (config.taxonomies.Some? ==> TaxonomiesInForce(m, config.taxonomies.value))
    && (config.warninglists.Some? ==> ListsInForce(m, config.warninglists.value))
  }

  /** The whole file. */
  ghost predicate InForce(m: Misp, config: Config, ldap: bool) {
    && RecordsInForce(m, config)
    && (forall def <- config.groups :: GroupAsked(m, def))
    && (ldap || UsersSwept(m, config)) && ServersSwept(m, config)
  }

  // ---- The items of the steps --------------------------------------------------------------

  ghost predicate IsTag(seen: Table, teams: seq<Team>, i: Item) {
    exists team <- teams :: exists tag <- team.tags :: i == TagItem(tag, TeamOrg(seen, team))
  }

  ghost predicate IsUser(seen: Table, teams: seq<Team>, i: Item) {
    exists team <- teams :: exists user <- team.users :: i == UserItem(user, TeamOrg(seen, team))
  }

  ghost predicate IsServer(seen: Table, teams: seq<Team>, i: Item) {
    exists team <- teams :: exists server <- team.servers :: i == ServerItem(server, TeamOrg(seen, team))
  }

  lemma {:induction false} TeamTagsAre(seen: Table, teams: seq<Team>, i: Item)
    ensures i in TeamTags(seen, teams) <==> IsTag(seen, teams, i)
    decreases teams
  {
    if teams != [] {
      var t, rest := teams[0], teams[1..];
      var first := TagsOf(seen, t);
      TeamTagsAre(seen, rest, i);
      assert teams == [t] + rest && TeamTags(seen, teams) == first + TeamTags(seen, rest);
      if i in first { var k :| 0 <= k < |t.tags| && i == first[k]; assert t.tags[k] in t.tags; }
      if IsTag(seen, teams, i) && !IsTag(seen, rest, i) {
        var tag :| tag in t.tags && i == TagItem(tag, TeamOrg(seen, t));
        var k :| 0 <= k < |t.tags| && t.tags[k] == tag;
        assert first[k] == i;
      }
    }
  }

  lemma {:induction false} UserItemsAre(seen: Table, teams: seq<Team>, i: Item)
    ensures i in UserItems(seen, teams) <==> IsUser(seen, teams, i)
    decreases teams
  {
    if teams != [] {
      var t, rest := teams[0], teams[1..];
      var first := UsersOf(seen, t);
      UserItemsAre(seen, rest, i);
      assert teams == [t] + rest && UserItems(seen, teams) == first + UserItems(seen, rest);
      if i in first { var k :| 0 <= k < |t.users| && i == first[k]; assert t.users[k] in t.users; }
      if IsUser(seen, teams, i) && !IsUser(seen, rest, i) {
        var user :| user in t.users && i == UserItem(user, TeamOrg(seen, t));
        var k :| 0 <= k < |t.users| && t.users[k] == user;
        assert first[k] == i;
      }
    }
  }

  lemma {:induction false} ServerItemsAre(seen: Table, teams: seq<Team>, i: Item)
    ensures i in ServerItems(seen, teams) <==> IsServer(seen, teams, i)
    decreases teams
  {
    if teams != [] {
      var t, rest := teams[0], teams[1..];
      var first := ServersOf(seen, t);
      ServerItemsAre(seen, rest, i);
      assert teams == [t] + rest && ServerItems(seen, teams) == first + ServerItems(seen, rest);
      if i in first { var k :| 0 <= k < |t.servers| && i == first[k]; assert t.servers[k] in t.servers; }
      if IsServer(seen, teams, i) && !IsServer(seen, rest, i) {
        var server :| server in t.servers && i == ServerItem(server, TeamOrg(seen, t));
        var k :| 0 <= k < |t.servers| && t.servers[k] == server;
        assert first[k] == i;
      }
    }
  }

  // ---- Settled means in force --------------------------------------------------------------

  lemma RolesMean(m: Misp, config: Config)
    ensures AllHeld(m, RoleItems(config)) <==> forall role <- config.roles :: RoleAsked(m, role)
  {
    hide Held, RoleAsked;
    forall role ensures Held(m, m.sent, RoleItem(role)) <==> RoleAsked(m, role) { RoleMeans(m, m.sent, role); }
    var items := RoleItems(config);
    forall role | role in config.roles ensures RoleItem(role) in items {
      var k :| 0 <= k < |config.roles| && config.roles[k] == role;
      assert items[k] == RoleItem(role);
    }
  }

  lemma OrgsMean(m: Misp, config: Config)
    ensures AllHeld(m, OrgItems(config)) <==> forall team <- config.teams :: OrgAsked(m, team)
  {
    hide Held, OrgAsked;
    forall team ensures Held(m, m.sent, OrgItem(team)) <==> OrgAsked(m, team) { OrgMeans(m, m.sent, team); }
    var items := OrgItems(config);
    forall team | team in config.teams ensures OrgItem(team) in items {
      var k :| 0 <= k < |config.teams| && config.teams[k] == team;
      assert items[k] == OrgItem(team);
    }
  }

  lemma TagsMean(m: Misp, config: Config)
    ensures AllHeld(m, TagItems(m.records, config)) <==> TagsInForce(m, config)
  {
    hide Held, TagAsked;
    forall tag, org ensures Held(m, m.sent, TagItem(tag, org)) <==> org.Some? && TagAsked(m, tag, org.value) {
      TagMeans(m, m.sent, tag, org);
    }
    var global := seq(|config.tags|, i requires 0 <= i < |config.tags| => TagItem(config.tags[i], Some(0)));
    var items := TagItems(m.records, config);
    assert items == global + TeamTags(m.records, config.teams);
    forall tag | tag in config.tags ensures TagItem(tag, Some(0)) in global {
      var k :| 0 <= k < |config.tags| && config.tags[k] == tag;
      assert global[k] == TagItem(tag, Some(0));
    }
    TeamTagsMean(m, config.teams);
  }

  lemma TeamTagsMean(m: Misp, teams: seq<Team>)
    ensures AllHeld(m, TeamTags(m.records, teams)) <==>
            forall team <- teams :: forall tag <- team.tags ::
              OrgOf(team) in m.records && TagAsked(m, tag, m.records[OrgOf(team)].id)
  {
    hide Held, TagAsked, Lower, TeamTags;
    var items := TeamTags(m.records, teams);
    forall i ensures i in items <==> IsTag(m.records, teams, i) { TeamTagsAre(m.records, teams, i); }
    forall tag, org ensures Held(m, m.sent, TagItem(tag, org)) <==> org.Some? && TagAsked(m, tag, org.value) {
      TagMeans(m, m.sent, tag, org);
    }
    if AllHeld(m, items) {
      forall team, tag | team in teams && tag in team.tags
        ensures OrgOf(team) in m.records && TagAsked(m, tag, m.records[OrgOf(team)].id)
      {
        assert IsTag(m.records, teams, TagItem(tag, TeamOrg(m.records, team)));
      }
    }
  }

  lemma UsersMean(m: Misp, config: Config)
    ensures AllHeld(m, UserItems(m.records, config.teams)) <==> UsersInForce(m, config)
  {
    hide Held, UserAsked, Lower, UserItems;
    var items := UserItems(m.records, config.teams);
    forall i ensures i in items <==> IsUser(m.records, config.teams, i) { UserItemsAre(m.records, config.teams, i); }
    forall user, org ensures Held(m, m.sent, UserItem(user, org)) <==> org.Some? && UserAsked(m, user, org.value) {
      UserMeans(m, m.sent, user, org);
    }
    if AllHeld(m, items) {
      forall team, user | team in config.teams && user in team.users
        ensures OrgOf(team) in m.records && UserAsked(m, user, m.records[OrgOf(team)].id)
      {
        assert IsUser(m.records, config.teams, UserItem(user, TeamOrg(m.records, team)));
      }
    }
  }

  lemma ServersMean(m: Misp, config: Config)
    ensures AllHeld(m, ServerItems(m.records, config.teams)) <==> ServersInForce(m, config)
  {
    hide Held, ServerAsked, Lower, ServerItems;
    var items := ServerItems(m.records, config.teams);
    forall i ensures i in items <==> IsServer(m.records, config.teams, i) { ServerItemsAre(m.records, config.teams, i); }
    forall server, org
      ensures Held(m, m.sent, ServerItem(server, org)) <==> org.Some? && ServerAsked(m, m.sent, server, org.value)
    {
      ServerMeans(m, m.sent, server, org);
    }
    if AllHeld(m, items) {
      forall team, server | team in config.teams && server in team.servers
        ensures OrgOf(team) in m.records && ServerAsked(m, m.sent, server, m.records[OrgOf(team)].id)
      {
        assert IsServer(m.records, config.teams, ServerItem(server, TeamOrg(m.records, team)));
      }
    }
  }

  lemma NamedUsersAre(seen: Table, teams: seq<Team>, q: Ref)
    requires q.kind == User
    ensures q in Refs(UserItems(seen, teams)) <==> NamesUser(teams, q.key)
  {
    hide UserItems, Lower;
    var items := UserItems(seen, teams);
    forall i ensures i in items <==> IsUser(seen, teams, i) { UserItemsAre(seen, teams, i); }
    if NamesUser(teams, q.key) {
      var team :| team in teams && exists user <- team.users :: Lower(user.email) == q.key;
      var user :| user in team.users && Lower(user.email) == q.key;
      assert IsUser(seen, teams, UserItem(user, TeamOrg(seen, team)));
      assert UserItem(user, TeamOrg(seen, team)) in items;
    }
  }

  lemma NamedServersAre(seen: Table, teams: seq<Team>, q: Ref)
    requires q.kind == Server
    ensures q in Refs(ServerItems(seen, teams)) <==> NamesServer(teams, q.key)
  {
    hide ServerItems, Lower, TrimSlashes;
    var items := ServerItems(seen, teams);
    forall i ensures i in items <==> IsServer(seen, teams, i) { ServerItemsAre(seen, teams, i); }
    if NamesServer(teams, q.key) {
      var team :| team in teams && exists server <- team.servers :: Lower(TrimSlashes(server.url)) == q.key;
      var server :| server in team.servers && Lower(TrimSlashes(server.url)) == q.key;
      assert IsServer(seen, teams, ServerItem(server, TeamOrg(seen, team)));
      assert ServerItem(server, TeamOrg(seen, team)) in items;
    }
  }

  lemma UserSweepMeans(m: Misp, seen: Table, config: Config)
    ensures NothingToSweep(m, User, Refs(UserItems(seen, config.teams))) <==> UsersSwept(m, config)
  {
    hide Refs, UserItems, NamesUser, SweepDue, Unset, Is;
    forall q: Ref | q.kind == User ensures q in Refs(UserItems(seen, config.teams)) <==> NamesUser(config.teams, q.key) {
      NamedUsersAre(seen, config.teams, q);
    }
    forall r ensures !SweepDue(User, r) <==> Off(User, r) { OffMeans(User, r); }
  }

  lemma ServerSweepMeans(m: Misp, seen: Table, config: Config)
    ensures NothingToSweep(m, Server, Refs(ServerItems(seen, config.teams))) <==> ServersSwept(m, config)
  {
    hide Refs, ServerItems, NamesServer, SweepDue, Unset;
    forall q: Ref | q.kind == Server
      ensures q in Refs(ServerItems(seen, config.teams)) <==> NamesServer(config.teams, q.key)
    {
      NamedServersAre(seen, config.teams, q);
    }
    forall r ensures !SweepDue(Server, r) <==> Off(Server, r) { OffMeans(Server, r); }
  }

  lemma TaxonomySweepMeans(m: Misp, names: seq<string>)
    ensures NothingToSweep(m, Taxonomy, Refs(TaxonomyItems(names))) <==>
            forall q :: q in m.records && q.kind == Taxonomy && q.key !in names ==> Unset(m.records[q].fields, "enabled")
  {
    hide SweepDue, Unset;
    var items := TaxonomyItems(names);
    forall r ensures !SweepDue(Taxonomy, r) <==> Off(Taxonomy, r) { OffMeans(Taxonomy, r); }
    forall n | n in names ensures Enable(Ref(Taxonomy, n)) in items {
      var k :| 0 <= k < |names| && names[k] == n;
      assert items[k] == Enable(Ref(Taxonomy, n));
    }
    forall q: Ref | q.kind == Taxonomy ensures q in Refs(items) <==> q.key in names {
      if q in Refs(items) { var i :| i in items && ItemRef(i) == q; }
      if q.key in names { assert Enable(q) in items; }
    }
  }

  lemma TaxonomiesMean(m: Misp, names: seq<string>)
    ensures AllHeld(m, TaxonomyItems(names)) && NothingToSweep(m, Taxonomy, Refs(TaxonomyItems(names)))
            <==> TaxonomiesInForce(m, names)
  {
    hide Held, NothingToSweep, Refs, Unset;
    var items := TaxonomyItems(names);
    forall ref ensures Held(m, m.sent, Enable(ref)) <==> ref in m.records && !Unset(m.records[ref].fields, "enabled") {
      EnableMeans(m, m.sent, ref);
    }
    forall n | n in names ensures Enable(Ref(Taxonomy, n)) in items {
      var k :| 0 <= k < |names| && names[k] == n;
      assert items[k] == Enable(Ref(Taxonomy, n));
    }
    TaxonomySweepMeans(m, names);
  }

  lemma ListsMean(m: Misp, entries: seq<ListEntry>)
    ensures AllHeld(m, ListItems(entries)) && NothingToSweep(m, Warninglist, Refs(ListItems(entries)))
            <==> ListsInForce(m, entries)
  {
    hide Held, SweepDue, Unset, ListAsked, NothingToSweep, Refs;
    var items := ListItems(entries);
    forall e | e in entries ensures EntryItem(e) in items {
      var k :| 0 <= k < |entries| && entries[k] == e;
      assert items[k] == EntryItem(e);
    }
    forall e ensures Held(m, m.sent, EntryItem(e)) <==> EntryInForce(m, e) { EntryMeans(m, e); }
    if forall e <- entries :: EntryInForce(m, e) {
      forall i | i in items ensures Held(m, m.sent, i) { var k :| 0 <= k < |entries| && items[k] == i; }
      ListSweepMeans(m, entries);
    }
    if AllHeld(m, items) {
      forall e | e in entries ensures EntryInForce(m, e) {}
    }
  }

  ghost predicate EntryInForce(m: Misp, e: ListEntry) {
    match e
    case BuiltIn(n) => Ref(Warninglist, n) in m.records && !Unset(m.records[Ref(Warninglist, n)].fields, "enabled")
    case Custom(list) => ListAsked(m, list)
    case Other => false
  }

  lemma EntryMeans(m: Misp, e: ListEntry)
    ensures Held(m, m.sent, EntryItem(e)) <==> EntryInForce(m, e)
  {
    hide Held, ListAsked, Unset;
    match e
    case BuiltIn(n) => EnableMeans(m, m.sent, Ref(Warninglist, n));
    case Custom(list) => ListMeans(m, m.sent, list);
    case Other => MalformedNever(m);
  }

  lemma MalformedNever(m: Misp)
    ensures !Held(m, m.sent, Malformed)
  {
  }

  lemma ListSweepMeans(m: Misp, entries: seq<ListEntry>)
    requires forall e <- entries :: !e.Other?
    ensures NothingToSweep(m, Warninglist, Refs(ListItems(entries))) <==>
            forall q :: q in m.records && q.kind == Warninglist && !NamesList(entries, q.key) ==>
              Unset(m.records[q].fields, "enabled")
  {
    hide SweepDue, Unset;
    var items := ListItems(entries);
    forall r ensures !SweepDue(Warninglist, r) <==> Off(Warninglist, r) { OffMeans(Warninglist, r); }
    forall q: Ref | q.kind == Warninglist ensures q in Refs(items) <==> NamesList(entries, q.key) {
      NamedListsAre(entries, q);
    }
  }

  lemma NamedListsAre(entries: seq<ListEntry>, q: Ref)
    requires q.kind == Warninglist && forall e <- entries :: !e.Other?
    ensures q in Refs(ListItems(entries)) <==> NamesList(entries, q.key)
  {
    hide ListItems, NamesList, Refs;
    if q in Refs(ListItems(entries)) { ListedIsNamed(entries, q); }
    if NamesList(entries, q.key) { NamedIsListed(entries, q); }
  }

  lemma ListedIsNamed(entries: seq<ListEntry>, q: Ref)
    requires q.kind == Warninglist && (forall e <- entries :: !e.Other?) && q in Refs(ListItems(entries))
    ensures NamesList(entries, q.key)
  {
    var items := ListItems(entries);
    var i :| i in items && ItemRef(i) == q;
    var k :| 0 <= k < |entries| && items[k] == i;
    assert entries[k] in entries;
  }

  lemma NamedIsListed(entries: seq<ListEntry>, q: Ref)
    requires q.kind == Warninglist && NamesList(entries, q.key)
    ensures q in Refs(ListItems(entries))
  {
    var items := ListItems(entries);
    var e :| e in entries && (e == BuiltIn(q.key) || (e.Custom? && e.list.name == q.key));
    var k :| 0 <= k < |entries| && entries[k] == e;
    assert items[k] in items && ItemRef(items[k]) == q;
  }

  /** MISP is settled if and only if the file is in force. */
  lemma SettledMeans(m: Misp, config: Config, ldap: bool)
    ensures Settled(m, config, ldap) <==> InForce(m, config, ldap)
  {
    hide AllHeld, NothingToSweep, GroupSettled, GroupAsked, RoleAsked, OrgAsked, TagsInForce, UsersInForce,
         ServersInForce, TaxonomiesInForce, ListsInForce, UsersSwept, ServersSwept, RoleItems, OrgItems, TagItems,
         UserItems, ServerItems, TaxonomyItems, ListItems, Refs;
    RolesMean(m, config);
    OrgsMean(m, config);
    TagsMean(m, config);
    UsersMean(m, config);
    ServersMean(m, config);
    if config.taxonomies.Some? { TaxonomiesMean(m, config.taxonomies.value); }
    if config.warninglists.Some? { ListsMean(m, config.warninglists.value); }
    forall def ensures GroupSettled(m, def, m.records) <==> GroupAsked(m, def) { GroupMeans(m, def); }
    UserSweepMeans(m, m.records, config);
    ServerSweepMeans(m, m.records, config);
  }

  // ---- After a run -------------------------------------------------------------------------

  /** The file has an entry of some kind. */
  predicate AsksSomething(config: Config) {
    || config.teams != [] || config.roles != [] || config.tags != [] || config.groups != []
    || (config.taxonomies.Some? && config.taxonomies.value != [])
    || (config.warninglists.Some? && config.warninglists.value != [])
  }

  lemma NotEmpty(config: Config)
    ensures IsEmpty(config) <==> !AsksSomething(config)
  {
  }

  lemma GroupsApart(m: Misp, config: Config, ldap: bool)
    requires RecordsSettled(m, config, ldap)
    ensures RecordsInForce(m, config) && (ldap || UsersSwept(m, config)) && ServersSwept(m, config)
  {
    hide Settled, RoleAsked, OrgAsked, TaxonomiesInForce, ListsInForce;
    SettledMeans(m, config.(groups := []), ldap);
  }

  /** A run that exits 0 leaves every role, organisation, tag, user, server, taxonomy and warninglist of the file with
      the fields that the file gives it, and every unnamed user, server, taxonomy and warninglist off, whatever
      state it started from. No two entries may share a key. */
  lemma ExitLeavesRecords(env: Env, config: Config, ldap: bool, m: Misp)
    requires m.Valid() && DistinctConfig(config) && AsksSomething(config) && Apply(env, config, ldap, m).1.Ok()
    ensures var end := Apply(env, config, ldap, m).0;
      RecordsInForce(end, config) && (ldap || UsersSwept(end, config)) && ServersSwept(end, config)
  {
    hide Apply, DistinctConfig, IsEmpty, AsksSomething, RecordsSettled, RecordsInForce;
    NotEmpty(config);
    RecordsConverge(env, config, ldap, m);
    GroupsApart(Apply(env, config, ldap, m).0, config, ldap);
  }

  /** With sharing groups: when no two entries of the file find one group, the whole file is in force after a run that
      exits 0. */
  lemma ExitLeavesAll(env: Env, config: Config, ldap: bool, m: Misp)
    requires Walks(env) && m.Valid() && DistinctConfig(config) && AsksSomething(config)
    requires SyncGroups.DistinctTargets(m.groups, m.groupOrder, config.groups)
    requires Apply(env, config, ldap, m).1.Ok()
    ensures InForce(Apply(env, config, ldap, m).0, config, ldap)
  {
    hide Apply, DistinctConfig, IsEmpty, AsksSomething, Settled, InForce, SyncGroups.DistinctTargets;
    NotEmpty(config);
    Converges(env, config, ldap, m);
    SettledMeans(Apply(env, config, ldap, m).0, config, ldap);
  }

  /** That condition is exact: when MISP has no two groups of one name or UUID, the whole file is in force after a run
      that exits 0 if and only if no two entries found one group. */
  lemma ExitLeavesFile(env: Env, config: Config, ldap: bool, m: Misp)
    requires Walks(env) && m.Valid() && DistinctConfig(config) && AsksSomething(config) && SyncUnique.Unique(m.groups)
    requires Apply(env, config, ldap, m).1.Ok()
    ensures InForce(Apply(env, config, ldap, m).0, config, ldap) <==>
            SyncGroups.DistinctTargets(m.groups, m.groupOrder, config.groups)
  {
    hide Apply, DistinctConfig, IsEmpty, AsksSomething, Settled, InForce, SyncUnique.Unique, SyncGroups.DistinctTargets;
    NotEmpty(config);
    SyncUnique.ConvergesIff(env, config, ldap, m);
    SettledMeans(Apply(env, config, ldap, m).0, config, ldap);
  }

  lemma {:induction false} MalformedFails(env: Env, run: Run, items: seq<Item>)
    requires Failed !in Each(env, run, items).1
    ensures Malformed !in items
    decreases items
  {
    if items != [] {
      var (run1, o) := ApplyOne(env, run, items[0]);
      var os := Each(env, run1, items[1..]).1;
      assert Each(env, run, items).1 == [o] + os;
      assert o in [o] + os && forall x <- os :: x in [o] + os;
      MalformedFails(env, run1, items[1..]);
    }
  }

  lemma WellFormed(env: Env, run: Run, config: Config)
    requires config.warninglists.Some? && ListStep(env, run, config).ok
    ensures forall e <- config.warninglists.value :: !e.Other?
  {
    hide Each;
    var entries := config.warninglists.value;
    var items := ListItems(entries);
    assert Do(env, run, items).ok;
    MalformedFails(env, run, items);
    forall e | e in entries ensures !e.Other? {
      var k :| 0 <= k < |entries| && entries[k] == e;
      assert items[k] in items;
    }
  }

  /** A run that exits 0 leaves every unnamed server without push and pull, and, with LDAP login off, every unnamed
      user disabled that no identity provider owns; if the file has the key, every unnamed taxonomy and warninglist
      is off. Nothing is asked of the file, not even distinct keys. */
  lemma ExitSweeps(env: Env, config: Config, ldap: bool, m: Misp)
    requires m.Valid() && AsksSomething(config) && Apply(env, config, ldap, m).1.Ok()
    ensures var end := Apply(env, config, ldap, m).0;
      && ServersSwept(end, config) && (ldap || UsersSwept(end, config))
      && (config.taxonomies.Some? ==>
            forall q :: q in end.records && q.kind == Taxonomy && q.key !in config.taxonomies.value ==>
              Unset(end.records[q].fields, "enabled"))
      && (config.warninglists.Some? ==>
            forall q :: q in end.records && q.kind == Warninglist && !NamesList(config.warninglists.value, q.key) ==>
              Unset(end.records[q].fields, "enabled"))
  {
    hide Apply, Steps, IsEmpty, AsksSomething, NamedLinks, LaterLinks, NothingToSweep, Refs, Unset, UsersSwept,
         ServersSwept, TaxonomyItems, ListItems, UserItems, ServerItems, NamesList;
    NotEmpty(config);
    var end := Apply(env, config, ldap, m).0;
    var named := NamedSteps(env, config, ldap, m);
    var w := LaterSteps(env, config, ldap, m, named);
    SweptAtEnd(env, config, ldap, m, w);
    UserSweepMeans(end, m.records, config);
    ServerSweepMeans(end, m.records, config);
    if config.taxonomies.Some? { TaxonomySweepMeans(end, config.taxonomies.value); }
    if config.warninglists.Some? {
      ListStepOk(env, config, ldap, m);
      ListSweepMeans(end, config.warninglists.value);
    }
  }

  lemma ListStepOk(env: Env, config: Config, ldap: bool, m: Misp)
    requires !IsEmpty(config) && Apply(env, config, ldap, m).1.Ok() && config.warninglists.Some?
    ensures forall e <- config.warninglists.value :: !e.Other?
  {
    hide Apply, IsEmpty, DoAndRefresh, TagStep, UserStep, ServerStep, TaxonomyStep, ListStep, Disable, Do;
    AllOk(env, config, ldap, m);
    WellFormed(env, Steps(env, config, ldap, m).taxonomies.run, config);
  }

  // ---- What a sweep posts ------------------------------------------------------------------

  /** The file names the record. */
  predicate Named(config: Config, q: Ref) {
    match q.kind
    case User => NamesUser(config.teams, q.key)
    case Server => NamesServer(config.teams, q.key)
    case Taxonomy => config.taxonomies.Some? && q.key in config.taxonomies.value
    case Warninglist => config.warninglists.Some? && NamesList(config.warninglists.value, q.key)
    case _ => true
  }

  lemma NamedTouch(config: Config, t: Trace, q: Ref)
    requires MayTouch(NamedItems(config, t), q)
    requires config.warninglists.Some? ==> forall e <- config.warninglists.value :: !e.Other?
    ensures Named(config, q)
  {
    hide RoleItems, OrgItems, TagItems, UserItems, ServerItems, GroupItems, TaxonomyNames, ListNames, Refs, NamesUser,
         NamesServer, NamesList;
    ItemKinds(config, t.orgs.run.seen);
    ItemKinds(config, t.tags.run.seen);
    ItemKinds(config, t.users.run.seen);
    GroupKinds(config);
    TaxonomyKinds(config);
    LaterNames(config, q);
    if q.kind == User { NamedUsersAre(t.tags.run.seen, config.teams, q); }
    if q.kind == Server { NamedServersAre(t.users.run.seen, config.teams, q); }
    var i :| i in NamedItems(config, t) && ItemRef(i) == q;
    if q.kind == User { assert i in UserItems(t.tags.run.seen, config.teams); }
    if q.kind == Server { assert i in ServerItems(t.users.run.seen, config.teams); }
    if q.kind == Taxonomy { assert i in TaxonomyNames(config); }
    if q.kind == Warninglist { assert i in ListNames(config); }
  }

  lemma GroupKinds(config: Config)
    ensures OfKind(GroupItems(config), NoRecord) && OfKind(ListNames(config), Warninglist)
  {
    if config.warninglists.Some? { ListItemKinds(config.warninglists.value); }
  }

  lemma LaterNames(config: Config, q: Ref)
    requires config.warninglists.Some? ==> forall e <- config.warninglists.value :: !e.Other?
    ensures q.kind == Taxonomy && MayTouch(TaxonomyNames(config), q) ==> Named(config, q)
    ensures q.kind == Warninglist && MayTouch(ListNames(config), q) ==> Named(config, q)
  {
    if q.kind == Warninglist && config.warninglists.Some? { NamedListsAre(config.warninglists.value, q); }
  }

  /** Whichever posts MISP refuses: what a run posts about a record that the file does not name is exactly what
      disables it, of a record that was on when the run began and, of users, only with LDAP login off. */
  lemma SweepPostsAre(env: Env, config: Config, ldap: bool, m: Misp, k: nat)
    requires Walks(env) && m.Valid() && AsksSomething(config)
    requires config.warninglists.Some? ==> forall e <- config.warninglists.value :: !e.Other?
    requires var posts := Apply(env, config, ldap, m).0.posts;
      |m.posts| <= k < |posts| && posts[k].Edit? && !Named(config, posts[k].ref)
    ensures var p := Apply(env, config, ldap, m).0.posts[k];
      && p.ref in m.records && !Off(p.ref.kind, m.records[p.ref])
      && (p.ref.kind == User ==> !ldap && p.fields == map["disabled" := Bool(true)])
      && (p.ref.kind == Server ==> p.fields == map["push" := Bool(false), "pull" := Bool(false)])
      && (p.ref.kind in {Taxonomy, Warninglist} ==> p.fields == map["enabled" := Bool(false)])
  {
    hide Apply, IsEmpty, AsksSomething, Named, Steps, Off, SweepDue, NamedItems, StepSucceeded, NamedOf;
    NotEmpty(config);
    EveryPostIsLegitimate(env, config, ldap, m);
    var p := Apply(env, config, ldap, m).0.posts[k];
    assert Legitimate(env, config, ldap, m, p);
    TargetTouches(config, Steps(env, config, ldap, m), p);
    OffMeans(p.ref.kind, m.records[p.ref]);
    OnlyWithoutLdap(env, config, ldap, m, p.ref);
  }

  lemma OnlyWithoutLdap(env: Env, config: Config, ldap: bool, m: Misp, q: Ref)
    ensures MaySweep(env, config, ldap, m, q) && q.kind == User ==> !ldap
  {
    hide Steps, SweepDue;
  }

  lemma TargetTouches(config: Config, t: Trace, p: Post)
    requires p.Edit? && !Named(config, p.ref)
    requires config.warninglists.Some? ==> forall e <- config.warninglists.value :: !e.Other?
    ensures !Targeted(NamedItems(config, t), p)
  {
    hide NamedItems, Named;
    if Targeted(NamedItems(config, t), p) {
      var i :| i in NamedItems(config, t) && TargetedBy(i, p);
      NamedTouch(config, t, p.ref);
    }
  }

  // ---- What no run sets --------------------------------------------------------------------

  /** The fields of a record that a run may set. */
  predicate Synced(kind: Kind, f: string) {
    match kind
    case Role => RoleField(f)
    case Org => f in {"name", "description", "sector", "nationality", "type", "contacts", "local"}
    case Tag => f in {"colour", "exportable", "hide_tag", "org_id"}
    case User => f in {"org_id", "role_id", "disabled", "external_auth_required", "external_auth_key", "password"}
    case Server =>
      f in {"name", "internal", "push", "pull", "self_signed", "caching_enabled", "pull_rules", "push_rules",
            "remote_org_id", "authkey"}
    case Taxonomy => f == "enabled"
    case Warninglist => f in {"description", "type", "category", "matching_attributes", "entries", "enabled"}
    case NoRecord => false
  }

  lemma ItemFields(item: Item)
    requires !item.Sweep? && (item.Enable? ==> item.ref.kind in {Taxonomy, Warninglist})
    ensures forall f :: f in EditKeys(item) ==> Synced(ItemRef(item).kind, f)
  {
  }

  lemma NamedForms(config: Config, t: Trace)
    ensures forall i <- NamedItems(config, t) :: !i.Sweep? && (i.Enable? ==> i.ref.kind in {Taxonomy, Warninglist})
  {
    hide UserItems, ServerItems, TagItems, ListItems, NamedItems;
    forall i | i in NamedItems(config, t) ensures !i.Sweep? && (i.Enable? ==> i.ref.kind in {Taxonomy, Warninglist}) {
      if i in UserItems(t.tags.run.seen, config.teams) { UserItemsAre(t.tags.run.seen, config.teams, i); }
      else if i in ServerItems(t.users.run.seen, config.teams) { ServerItemsAre(t.users.run.seen, config.teams, i); }
      else if i in TagItems(t.orgs.run.seen, config) { TagForms(t.orgs.run.seen, config, i); }
      else if i in ListNames(config) { ListItemKinds(config.warninglists.value); }
      else { OtherForms(config, t, i); }
    }
  }

  lemma TagForms(seen: Table, config: Config, i: Item)
    ensures i in TagItems(seen, config) ==> i.TagItem?
  {
    TeamTagsAre(seen, config.teams, i);
  }

  lemma OtherForms(config: Config, t: Trace, i: Item)
    requires i in NamedItems(config, t)
    requires i !in UserItems(t.tags.run.seen, config.teams) && i !in ServerItems(t.users.run.seen, config.teams)
    requires i !in TagItems(t.orgs.run.seen, config) && i !in ListNames(config)
    ensures !i.Sweep? && (i.Enable? ==> i.ref.kind == Taxonomy)
  {
    hide UserItems, ServerItems, TagItems, ListNames;
  }

  /** Whichever posts MISP refuses: a run changes no other field of any record, and no record's ID. */
  lemma OtherFieldsStay(env: Env, config: Config, ldap: bool, m: Misp, q: Ref, f: string)
    requires m.Valid() && AsksSomething(config) && q in m.records && !Synced(q.kind, f)
    ensures var m' := Apply(env, config, ldap, m).0;
      && q in m'.records && m'.records[q].id == m.records[q].id
      && (f in m'.records[q].fields <==> f in m.records[q].fields)
      && (f in m.records[q].fields ==> m'.records[q].fields[f] == m.records[q].fields[f])
  {
    hide Apply, IsEmpty, AsksSomething, Steps, NamedItems, Synced, EditKeys;
    NotEmpty(config);
    RunLeavesAlone(env, config, ldap, m, q, f);
    var t := Steps(env, config, ldap, m);
    NamedForms(config, t);
    if MayEdit(NamedItems(config, t), q, f) {
      var i :| i in NamedItems(config, t) && ItemRef(i) == q && f in EditKeys(i);
      ItemFields(i);
    }
    SweptFields(env, config, ldap, m, q, f);
  }

  lemma SweptFields(env: Env, config: Config, ldap: bool, m: Misp, q: Ref, f: string)
    ensures MaySweep(env, config, ldap, m, q) && f in SweepFields(q.kind) ==> Synced(q.kind, f)
  {
    hide Steps, SweepDue, RoleField;
  }
}
