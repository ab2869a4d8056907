/** API keys and recorded server keys: what a run leaves of them, whichever of its posts MISP refuses. */
module SyncRest {
  import opened Values
  import opened MispWorld
  import opened SharingGroups
  import opened SyncItems
  import opened SyncSteps
  import opened SyncRun
  import opened SyncSwept
  import opened SyncLinks
  import opened SyncConverge
  import SyncWarm

  /** The rows beside the records: the live API keys of users, and the sent server keys. */
  ghost predicate SameRows(m: Misp, m': Misp) { m'.authkeys == m.authkeys && m'.sent == m.sent }

  lemma SendKeepsRows(env: Env, m: Misp, p: Post)
    ensures SameRows(m, Send(env, m, p).0)
  {
    if p.LoadTaxonomies? { LoadKeepsRows(m.(posts := m.posts + [p]), env.shipped); }
  }

  lemma {:induction false} LoadKeepsRows(m: Misp, shipped: seq<string>)
    ensures SameRows(m, Load(m, shipped))
    decreases shipped
  {
    if shipped != [] {
      var ref := Ref(Taxonomy, shipped[0]);
      LoadKeepsRows(if ref in m.records then m else Insert(m, ref, map["enabled" := Bool(false)]), shipped[1..]);
    }
  }

  lemma OneKeepsRows(env: Env, run: Run, item: Item)
    ensures ApplyOne(env, run, item).0.misp.sent == run.misp.sent
    ensures !item.UserItem? ==> SameRows(run.misp, ApplyOne(env, run, item).0.misp)
  {
    hide Send, Reconcile, ApplyList, ApplyGroup;
    match item
    case Enable(ref) => SendKeepsRows(env, run.misp, Edit(ref, map["enabled" := Bool(true)]));
    case Sweep(ref, fields) => SendKeepsRows(env, run.misp, Edit(ref, fields));
    case ListItem(list) => ListKeepsRows(env, run, list);
    case GroupItem(def) => ApplyGroupFrame(env, run.misp, run.groups, run.groupOrder, run.seen, def);
    case Malformed =>
    case Loaded(_) =>
    case _ => ReconcileKeepsRows(env, run, item);
  }

  lemma FinishKeepsRows(env: Env, run: Run, item: Item, created: bool, outcome: Outcome, secret: map<string, Value>,
                        post: nat)
    ensures var m' := Finish(env, run, item, created, outcome, secret, post).0.misp;
      m'.sent == run.misp.sent && (!item.UserItem? ==> SameRows(run.misp, m'))
  {
  }

  lemma ReconcileKeepsRows(env: Env, run: Run, item: Item)
    requires item.Reconciled()
    ensures var m' := Reconcile(env, run, item).0.misp;
      m'.sent == run.misp.sent && (!item.UserItem? ==> SameRows(run.misp, m'))
  {
    hide Send, Finish, Wanted, Secret, Differences, CreateOnly;
    var want, ref, post := Wanted(run.seen, item), ItemRef(item), |run.misp.posts|;
    if want.Some? && ref !in run.seen {
      var p := Add(ref, want.value + CreateOnly(item, post));
      SendKeepsRows(env, run.misp, p);
      FinishKeepsRows(env, run.(misp := Send(env, run.misp, p).0), item, true, Created, map[], post);
    } else if want.Some? {
      var changes := Differences(want.value, run.seen[ref].fields);
      var secret := Secret(run.misp, run.sent, item);
      var p := Edit(ref, changes + secret);
      SendKeepsRows(env, run.misp, p);
      FinishKeepsRows(env, run, item, false, Unchanged, secret, post);
      FinishKeepsRows(env, run.(misp := Send(env, run.misp, p).0), item, false,
                      if changes == map[] then Unchanged else Updated, secret, post);
    }
  }

  lemma EnableKeepsRows(env: Env, run: Run, ref: Ref, wanted: bool)
    requires ref in run.seen
    ensures SameRows(run.misp, EnableIfWanted(env, run, ref, wanted).0.misp)
  {
    hide Send;
    SendKeepsRows(env, run.misp, Edit(ref, map["enabled" := Bool(true)]));
  }

  lemma ListKeepsRows(env: Env, run: Run, list: ListDef)
    ensures SameRows(run.misp, ApplyList(env, run, list).0.misp)
  {
    hide Send, ListData, SameList, EnableIfWanted;
    var ref := ItemRef(ListItem(list));
    if ref !in run.seen {
      var p := Add(ref, ListData(list) + map["version" := Str(list.version)]);
      SendKeepsRows(env, run.misp, p);
      var run1 := Refresh(run.(misp := Send(env, run.misp, p).0), Warninglist);
      if ref in run1.seen { EnableKeepsRows(env, run1, ref, list.enabled); }
    } else {
      var p := Edit(ref, ListData(list));
      SendKeepsRows(env, run.misp, p);
      EnableKeepsRows(env, run, ref, list.enabled);
      EnableKeepsRows(env, run.(misp := Send(env, run.misp, p).0), ref, list.enabled);
    }
  }

  lemma {:induction false} EachKeepsRows(env: Env, run: Run, items: seq<Item>)
    ensures Each(env, run, items).0.misp.sent == run.misp.sent
    ensures (forall i <- items :: !i.UserItem?) ==> SameRows(run.misp, Each(env, run, items).0.misp)
    decreases items
  {
    hide ApplyOne;
    if items != [] {
      OneKeepsRows(env, run, items[0]);
      assert items[0] in items;
      EachKeepsRows(env, ApplyOne(env, run, items[0]).0, items[1..]);
    }
  }

  lemma SweepKeepsRows(env: Env, s: Step, kind: Kind, named: set<Ref>)
    ensures SameRows(s.run.misp, SweepStep(env, s, kind, named).run.misp)
  {
    hide Each, SweepDue;
    if s.ok {
      SweepItemsAre(s.run.seen, s.run.misp.order, kind, named);
      forall i | i in SweepItems(s.run.seen, s.run.misp.order, kind, named) ensures !i.UserItem? {
        assert SweepFor(i, s.run.seen, kind, named);
      }
      EachKeepsRows(env, s.run, SweepItems(s.run.seen, s.run.misp.order, kind, named));
    }
  }

  lemma TaxonomiesKeepRows(env: Env, run: Run, config: Config)
    ensures SameRows(run.misp, TaxonomyStep(env, run, config).run.misp)
  {
    hide Each, SweepStep;
    if config.taxonomies.Some? {
      var names := config.taxonomies.value;
      SendKeepsRows(env, run.misp, LoadTaxonomies);
      var loaded := LoadStep(env, run, names);
      EachKeepsRows(env, loaded.run, TaxonomyItems(names));
      SweepKeepsRows(env, Do(env, loaded.run, TaxonomyItems(names)), Taxonomy, Refs(TaxonomyItems(names)));
    }
  }

  lemma ListsKeepRows(env: Env, run: Run, config: Config)
    ensures SameRows(run.misp, ListStep(env, run, config).run.misp)
  {
    hide Each, SweepStep;
    if config.warninglists.Some? {
      var items := ListItems(config.warninglists.value);
      ListItemKinds(config.warninglists.value);
      EachKeepsRows(env, run, items);
      SweepKeepsRows(env, Do(env, run, items), Warninglist, Refs(items));
    }
  }

  /** Roles, organisations and tags leave the rows, users the row of server keys, and servers the API keys. */
  lemma NamedKeepRows(env: Env, config: Config, ldap: bool, m: Misp)
    ensures var t := Steps(env, config, ldap, m);
      && SameRows(m, t.orgs.run.misp) && SameRows(m, t.tags.run.misp)
      && t.users.run.misp.sent == m.sent && t.servers.run.misp.authkeys == t.users.run.misp.authkeys
  {
    hide Each, TaxonomyStep, ListStep, Disable, TagItems, UserItems, ServerItems;
    var t := Steps(env, config, ldap, m);
    EachKeepsRows(env, Fetch(m), RoleItems(config));
    EachKeepsRows(env, t.roles.run, OrgItems(config));
    forall seen { ItemSorts(config, seen); }
    EachKeepsRows(env, t.orgs.run, TagItems(t.orgs.run.seen, config));
    EachKeepsRows(env, t.tags.run, UserItems(t.tags.run.seen, config.teams));
    EachKeepsRows(env, t.users.run.(sent := t.users.run.misp.sent), ServerItems(t.users.run.seen, config.teams));
  }

  lemma ItemSorts(config: Config, seen: Table)
    ensures forall i <- TagItems(seen, config) :: !i.UserItem?
    ensures forall i <- ServerItems(seen, config.teams) :: !i.UserItem?
  {
    SyncWarm.TeamItemKinds(seen, config.teams);
  }

  lemma LaterKeepRows(env: Env, config: Config, ldap: bool, m: Misp)
    ensures var t := Steps(env, config, ldap, m); SameRows(t.servers.run.misp, t.sweptServers.run.misp)
  {
    hide Each, DoAndRefresh, TagStep, UserStep, ServerStep, TaxonomyStep, ListStep, SweepStep;
    var t := Steps(env, config, ldap, m);
    TaxonomiesKeepRows(env, t.servers.run, config);
    ListsKeepRows(env, t.taxonomies.run, config);
    EachKeepsRows(env, t.lists.run, GroupItems(config));
    SweepKeepsRows(env, Step(t.groups.run, true), User, Refs(UserItems(m.records, config.teams)));
    SweepKeepsRows(env, Step(t.sweptUsers.run, true), Server, Refs(ServerItems(m.records, config.teams)));
  }

  /** Whatever MISP refuses, a run leaves the API keys of the users that the file does not name, a swept user's
      too, and the recorded keys of the servers that it does not name. */
  lemma OtherKeysStay(env: Env, config: Config, ldap: bool, m: Misp, q: Ref, url: string)
    ensures var m' := Apply(env, config, ldap, m).0;
      && (q !in NamedUsers(m, config) ==> KeysOf(m', q) == KeysOf(m, q))
      && (Ref(Server, url) !in NamedServers(m, config) ==> SameSent(m.sent, m'.sent, url))
  {
    hide Steps, KeysOf, SameSent, Refs, IsEmpty;
    var t := Steps(env, config, ldap, m);
    NamedKeepRows(env, config, ldap, m);
    LaterKeepRows(env, config, ldap, m);
    UsersKeepOthers(env, config, ldap, m, q);
    ServersKeepOthers(env, config, ldap, m, url);
    SameKeys(m, t.orgs.run.misp, q, url);
    SameKeys(t.servers.run.misp, t.sweptServers.run.misp, q, url);
  }

  lemma SameKeys(m: Misp, m': Misp, q: Ref, url: string)
    requires SameRows(m, m')
    ensures KeysOf(m', q) == KeysOf(m, q) && SameSent(m.sent, m'.sent, url)
  {
  }

  lemma UsersKeepOthers(env: Env, config: Config, ldap: bool, m: Misp, q: Ref)
    requires SameRows(m, Steps(env, config, ldap, m).tags.run.misp)
    requires var t := Steps(env, config, ldap, m); t.servers.run.misp.authkeys == t.users.run.misp.authkeys
    ensures q !in NamedUsers(m, config) ==> KeysOf(Steps(env, config, ldap, m).servers.run.misp, q) == KeysOf(m, q)
  {
    hide Steps, Frame, AllHeld;
    var t := Steps(env, config, ldap, m);
    var w := NamedSteps(env, config, ldap, m);
    TeamRefs(t.tags.run.seen, m.records, config.teams);
    SameRefsTouch(w.users, UserItems(m.records, config.teams));
    if q !in NamedUsers(m, config) { FrameKeys(t.tags.run.misp, t.users.run.misp, w.users, q, ""); }
  }

  lemma ServersKeepOthers(env: Env, config: Config, ldap: bool, m: Misp, url: string)
    requires Steps(env, config, ldap, m).users.run.misp.sent == m.sent
    ensures Ref(Server, url) !in NamedServers(m, config) ==>
              SameSent(m.sent, Steps(env, config, ldap, m).servers.run.misp.sent, url)
  {
    hide Steps, Frame, AllHeld;
    var t := Steps(env, config, ldap, m);
    var w := NamedSteps(env, config, ldap, m);
    TeamRefs(t.users.run.seen, m.records, config.teams);
    SameRefsTouch(w.servers, ServerItems(m.records, config.teams));
    if Ref(Server, url) !in NamedServers(m, config) {
      FrameKeys(t.users.run.misp, t.servers.run.misp, w.servers, Ref(Server, url), url);
    }
  }

  lemma FrameKeys(m: Misp, m': Misp, items: seq<Item>, q: Ref, url: string)
    requires Frame(m, m', items)
    ensures !MayTouch(items, q) ==> KeysOf(m', q) == KeysOf(m, q)
    ensures !MayTouch(items, Ref(Server, url)) ==> SameSent(m.sent, m'.sent, url)
  {
  }
}
