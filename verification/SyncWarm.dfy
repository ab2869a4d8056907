/** A run over a settled MISP only reads. */
module SyncWarm {
  import opened Values
  import opened MispWorld
  import opened SharingGroups
  import opened SyncItems
  import opened SyncSteps
  import opened SyncPosts
  import opened SyncRun

  /** The snapshot is MISP's state. */
  ghost predicate Current(run: Run) {
    run.seen == run.misp.records && run.groups == run.misp.groups && run.groupOrder == run.misp.groupOrder
  }

  lemma RefreshIdle(run: Run, kind: Kind)
    requires run.seen == run.misp.records
    ensures Refresh(run, kind) == run
  {
    assert Refresh(run, kind).seen == run.seen;
  }

  lemma {:induction false} SweepNone(m: Misp, order: seq<Ref>, kind: Kind, named: set<Ref>)
    requires NothingToSweep(m, kind, named)
    ensures SweepItems(m.records, order, kind, named) == []
    decreases order
  {
    if order != [] { SweepNone(m, order[..|order| - 1], kind, named); }
  }

  lemma QuietDo(env: Env, run: Run, items: seq<Item>)
    requires Current(run) && (forall i <- items :: Held(run.misp, run.sent, i) && !i.Sweep?)
    ensures Do(env, run, items) == Step(run, true)
    ensures forall kind :: DoAndRefresh(env, run, items, kind) == Step(run, true)
  {
    EachIsQuiet(env, run, items);
  }

  lemma QuietSweep(env: Env, run: Run, kind: Kind, named: set<Ref>)
    requires Current(run) && NothingToSweep(run.misp, kind, named)
    ensures SweepStep(env, Step(run, true), kind, named) == Step(run, true)
  {
    SweepNone(run.misp, run.misp.order, kind, named);
  }

  lemma {:induction false} QuietGroups(env: Env, run: Run, items: seq<Item>)
    requires Walks(env) && Current(run)
    requires forall i <- items :: i.GroupItem? && GroupSettled(run.misp, i.group, run.misp.records)
    ensures var (run', os) := Each(env, run, items); run' == run && Failed !in os
    decreases items
  {
    hide GroupSettled, ApplyGroup;
    if items != [] {
      assert items[0] in items;
      SettledGroupIsQuiet(env, run.misp, run.seen, items[0].group);
      QuietGroups(env, run, items[1..]);
    }
  }

  /** Rebases the held items on another row of sent keys; only servers depend on it. */
  lemma HeldWithoutServers(m: Misp, items: seq<Item>, sent: map<string, string>)
    requires AllHeld(m, items) && forall i <- items :: !i.ServerItem?
    ensures forall i <- items :: Held(m, sent, i)
  {
    forall i | i in items ensures Held(m, sent, i) { assert Held(m, m.sent, i); }
  }

  lemma {:induction false} TeamItemKinds(seen: Table, teams: seq<Team>)
    ensures forall i <- TeamTags(seen, teams) :: i.TagItem?
    ensures forall i <- UserItems(seen, teams) :: i.UserItem?
    ensures forall i <- ServerItems(seen, teams) :: i.ServerItem?
    decreases teams
  {
    if teams != [] { TeamItemKinds(seen, teams[1..]); }
  }

  lemma QuietNames(env: Env, config: Config, run: Run)
    requires Current(run) && Settled(run.misp, config, true)
    ensures DoAndRefresh(env, run, RoleItems(config), Role) == Step(run, true)
    ensures DoAndRefresh(env, run, OrgItems(config), Org) == Step(run, true)
    ensures TagStep(env, run, config) == Step(run, true)
    ensures UserStep(env, run, config) == Step(run, true)
  {
    var m := run.misp;
    TeamItemKinds(run.seen, config.teams);
    HeldWithoutServers(m, RoleItems(config), run.sent);
    HeldWithoutServers(m, OrgItems(config), run.sent);
    HeldWithoutServers(m, TagItems(m.records, config), run.sent);
    HeldWithoutServers(m, UserItems(m.records, config.teams), run.sent);
    QuietDo(env, run, RoleItems(config));
    QuietDo(env, run, OrgItems(config));
    QuietDo(env, run, TagItems(run.seen, config));
    QuietDo(env, run, UserItems(run.seen, config.teams));
    RefreshIdle(run, Tag);
    RefreshIdle(run, User);
  }

  lemma QuietServers(env: Env, config: Config, run: Run)
    requires Current(run) && Settled(run.misp, config, true)
    ensures ServerStep(env, run, config) == Step(run.(sent := run.misp.sent), true)
  {
    TeamItemKinds(run.seen, config.teams);
    var run1 := run.(sent := run.misp.sent);
    QuietDo(env, run1, ServerItems(run.seen, config.teams));
    assert run1.misp.(sent := run1.sent) == run1.misp;
  }

  lemma QuietTaxonomies(env: Env, config: Config, run: Run)
    requires Current(run) && Settled(run.misp, config, true)
    ensures TaxonomyStep(env, run, config) == Step(run, true)
  {
    hide Each, Held, Refs, NothingToSweep, SweepItems, Send;
    if config.taxonomies.Some? {
      var names := config.taxonomies.value;
      var items := TaxonomyItems(names);
      forall n | n in names ensures Ref(Taxonomy, n) in run.seen {
        var k :| 0 <= k < |names| && names[k] == n;
        assert items[k] in items && Held(run.misp, run.misp.sent, items[k]);
        HeldThere(run.misp, items[k]);
      }
      HeldWithoutServers(run.misp, items, run.sent);
      QuietDo(env, run, items);
      QuietSweep(env, run, Taxonomy, Refs(items));
    }
  }

  lemma HeldThere(m: Misp, i: Item)
    requires Held(m, m.sent, i)
    ensures ItemRef(i) in m.records
  {
  }

  lemma QuietLists(env: Env, config: Config, run: Run)
    requires Current(run) && Settled(run.misp, config, true)
    ensures ListStep(env, run, config) == Step(run, true)
  {
    hide Each, Held, Refs, NothingToSweep, SweepItems;
    if config.warninglists.Some? {
      var items := ListItems(config.warninglists.value);
      HeldWithoutServers(run.misp, items, run.sent);
      QuietDo(env, run, items);
      QuietSweep(env, run, Warninglist, Refs(items));
    }
  }

  /** On warm runs, with nothing changed, the sync only reads, whatever MISP would refuse. */
  lemma WarmRunOnlyReads(env: Env, config: Config, ldap: bool, m: Misp)
    requires Walks(env) && Settled(m, config, ldap)
    ensures var (m', summary) := Apply(env, config, ldap, m); m' == m && summary.Ok()
  {
    hide Each, Held, Refs, SweepItems, SweepDue, GroupSettled;
    var run := Fetch(m);
    var after := run.(sent := m.sent);
    QuietNames(env, config, run);
    QuietServers(env, config, run);
    QuietTaxonomies(env, config, after);
    QuietLists(env, config, after);
    QuietGroups(env, after, GroupItems(config));
    if !ldap { QuietSweep(env, after, User, Refs(UserItems(m.records, config.teams))); }
    QuietSweep(env, after, Server, Refs(ServerItems(m.records, config.teams)));
  }
}
