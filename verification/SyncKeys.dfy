/** The row of sent server keys over any number of runs. */
module SyncKeys {
  import opened Values
  import opened MispWorld
  import opened SharingGroups
  import opened SyncItems
  import opened SyncSteps
  import opened SyncPosts
  import opened SyncRun
  import opened SyncSwept
  import opened SyncLinks
  import opened SyncConverge
  import SyncWarm

  /** The row in the database records, for each of its URLs, the key that MISP has. */
  ghost predicate TruthfulRow(m: Misp) { Truthful(m, m.sent) }

  lemma FrameTruth(m: Misp, m': Misp, items: seq<Item>)
    requires TruthfulRow(m) && Frame(m, m', items) && m'.sent == m.sent
    requires forall i <- items :: ItemRef(i).kind == Server ==> "authkey" !in EditKeys(i)
    ensures TruthfulRow(m')
  {
    forall url | url in m'.sent ensures KeyDelivered(m', url, m'.sent[url]) {
      assert KeyDelivered(m, url, m.sent[url]);
      assert !MayEdit(items, Ref(Server, url), "authkey");
      assert SameField(m.records[Ref(Server, url)], m'.records[Ref(Server, url)], "authkey");
    }
  }

  lemma LinkTruth(run: Run, run': Run, items: seq<Item>, kind: Kind, stale: set<Kind>)
    requires Link(run, run', items, kind, stale) && kind != Server && TruthfulRow(run.misp)
    ensures TruthfulRow(run'.misp)
  {
    forall u ensures SameSent(run.misp.sent, run'.misp.sent, u) {
      assert !MayTouch(items, Ref(Server, u));
    }
    SameRow(run.misp.sent, run'.misp.sent);
    FrameTruth(run.misp, run'.misp, items);
  }

  lemma SameRow(a: map<string, string>, b: map<string, string>)
    requires forall u :: SameSent(a, b, u)
    ensures a == b
  {
    forall u ensures u in a <==> u in b { assert SameSent(a, b, u); }
    forall u | u in a ensures a[u] == b[u] { assert SameSent(a, b, u); }
  }

  lemma {:induction false} SweepsKeepRow(env: Env, run: Run, items: seq<Item>)
    requires forall i <- items :: i.Sweep?
    ensures Each(env, run, items).0.misp.sent == run.misp.sent
    decreases items
  {
    if items != [] {
      assert items[0] in items;
      SweepsKeepRow(env, ApplyOne(env, run, items[0]).0, items[1..]);
    }
  }

  lemma ServerStepTruth(env: Env, run: Run, config: Config)
    requires TruthfulRow(run.misp)
    ensures TruthfulRow(ServerStep(env, run, config).run.misp)
  {
    var items := ServerItems(run.seen, config.teams);
    ItemKinds(config, run.seen);
    SyncWarm.TeamItemKinds(run.seen, config.teams);
    EachKeepsTruth(env, run.(sent := run.misp.sent), items);
    var s := Do(env, run.(sent := run.misp.sent), items);
    forall url | url in s.run.sent
      ensures KeyDelivered(s.run.misp.(sent := s.run.sent), url, s.run.sent[url])
    {
      assert KeyDelivered(s.run.misp, url, s.run.sent[url]);
    }
  }

  lemma SweepTruth(env: Env, run: Run, after: bool, named: set<Ref>)
    requires TruthfulRow(run.misp)
    ensures TruthfulRow(Disable(env, run, after, Server, named).run.misp)
  {
    hide Each, Frame, SentFrame, SweepDue, TruthfulRow;
    if after {
      var items := SweepItems(run.seen, run.misp.order, Server, named);
      SweepItemsAre(run.seen, run.misp.order, Server, named);
      EachFrame(env, run, items);
      SweepsKeepRow(env, run, items);
      forall i | i in items ensures "authkey" !in EditKeys(i) { assert SweepFor(i, run.seen, Server, named); }
      FrameTruth(run.misp, Do(env, run, items).run.misp, items);
    }
  }

  lemma NamedTruth(env: Env, config: Config, ldap: bool, m: Misp, w: Work)
    requires TruthfulRow(m) && NamedLinks(m, Steps(env, config, ldap, m), config, w)
    ensures var t := Steps(env, config, ldap, m); TruthfulRow(t.orgs.run.misp) && TruthfulRow(t.servers.run.misp)
  {
    hide HeldAfter, SeenBut, Link, TruthfulRow, ServerStep, DoAndRefresh, TagStep, UserStep, TaxonomyStep, ListStep, Do,
         Disable, RoleItems, OrgItems, TagItems, UserItems, ServerItems, GroupItems;
    var t := Steps(env, config, ldap, m);
    LinkTruth(Fetch(m), t.roles.run, w.roles, Role, {Role});
    LinkTruth(t.roles.run, t.orgs.run, w.orgs, Org, {Role, Org});
    LinkTruth(t.orgs.run, t.tags.run, w.tags, Tag, {Role, Org});
    LinkTruth(t.tags.run, t.users.run, w.users, User, {Role, Org});
    ServerStepTruth(env, t.users.run, config);
  }

  /** A run keeps the row truthful, whatever MISP refuses. */
  lemma RunKeepsRow(env: Env, config: Config, ldap: bool, m: Misp)
    requires m.Valid() && TruthfulRow(m)
    ensures var m' := Apply(env, config, ldap, m).0; TruthfulRow(m') && m'.Valid()
  {
    hide HeldAfter, SeenBut, Link, TruthfulRow, ServerStep, DoAndRefresh, TagStep, UserStep, TaxonomyStep, ListStep, Do,
         RoleItems, OrgItems, TagItems, UserItems, ServerItems, GroupItems, Disable, NothingToSweep, SweepOf, Refs, AllHeld,
         IsEmpty, DistinctRefs, MayTouch;
    if !IsEmpty(config) {
      var t := Steps(env, config, ldap, m);
      var named := NamedSteps(env, config, ldap, m);
      NamedTruth(env, config, ldap, m, named);
      OrgsValid(m, t, config, named);
      if t.orgs.ok {
        var w := LaterSteps(env, config, ldap, m, named);
        var stale := Stale + {Taxonomy} + {Warninglist};
        LinkTruth(t.servers.run, t.taxonomies.run, w.taxonomies + w.sweptTaxonomies, Taxonomy, Stale + {Taxonomy});
        LinkTruth(t.taxonomies.run, t.lists.run, w.lists + w.sweptLists, Warninglist, stale);
        LinkTruth(t.lists.run, t.groups.run, w.groups, NoRecord, stale + {NoRecord});
        LinkTruth(t.groups.run, t.sweptUsers.run, w.sweptUsers, User, stale + {NoRecord} + {User});
        SweepTruth(env, t.sweptUsers.run, t.servers.ok, NamedServers(m, config));
      }
    }
  }

  lemma OrgsValid(m: Misp, t: Trace, config: Config, w: Work)
    requires m.Valid() && NamedLinks(m, t, config, w)
    ensures t.orgs.run.misp.Valid()
  {
    hide Fresh, HeldAfter, SeenBut, Link, RoleItems, OrgItems, TagItems, UserItems, ServerItems;
    LinkValid(Fetch(m), t.roles.run, w.roles, Role, {Role});
    LinkValid(t.roles.run, t.orgs.run, w.orgs, Org, {Role, Org});
  }

  /** A run of org-sync: its oracle, its file and whether the LDAP login plugin is on. */
  datatype Job = Job(env: Env, config: Config, ldap: bool)

  function Runs(jobs: seq<Job>, m: Misp): Misp
    decreases jobs
  {
    if jobs == [] then m else Runs(jobs[1..], Apply(jobs[0].env, jobs[0].config, jobs[0].ldap, m).0)
  }

  /** Over any number of runs, with any files and refusals, the row stays truthful. */
  lemma {:induction false} RowStaysTruthful(jobs: seq<Job>, m: Misp)
    requires m.Valid() && TruthfulRow(m)
    ensures Runs(jobs, m).Valid() && TruthfulRow(Runs(jobs, m))
    decreases jobs
  {
    if jobs != [] {
      RunKeepsRow(jobs[0].env, jobs[0].config, jobs[0].ldap, m);
      RowStaysTruthful(jobs[1..], Apply(jobs[0].env, jobs[0].config, jobs[0].ldap, m).0);
    }
  }

  /** Once MISP is settled under a truthful row, every server has the key of the file. */
  lemma KeysInForce(m: Misp, config: Config, ldap: bool, item: Item)
    requires Settled(m, config, ldap) && TruthfulRow(m)
    requires item in ServerItems(m.records, config.teams) && item.ServerItem? && item.server.authkey != ""
    ensures ItemRef(item) in m.records
            && Field(m.records[ItemRef(item)].fields, "authkey") == Str(item.server.authkey)
  {
    hide Wanted, Holds, SweepDue;
    assert Held(m, m.sent, item);
    var url := Url(item.server);
    assert KeyDelivered(m, url, m.sent[url]);
    var key := Field(m.records[ItemRef(item)].fields, "authkey").s;
    assert Digest(key)[7..] == key && Digest(item.server.authkey)[7..] == item.server.authkey;
  }

  lemma EntryRecords(env: Env, run: Run, item: Item)
    requires item.ServerItem? && item.server.authkey != "" && ApplyOne(env, run, item).1 != Failed
    ensures var sent, url := ApplyOne(env, run, item).0.sent, Url(item.server);
      url in sent && sent[url] == Digest(item.server.authkey)
  {
    hide Wanted, CreateOnly, Secret, Differences, Send, Digest;
  }

  lemma {:induction false} EachRecords(env: Env, run: Run, items: seq<Item>, k: nat)
    requires k < |items| && DistinctRefs(items) && items[k].ServerItem? && items[k].server.authkey != ""
    requires Each(env, run, items).1[k] != Failed
    ensures var sent, url := Each(env, run, items).0.sent, Url(items[k].server);
      url in sent && sent[url] == Digest(items[k].server.authkey)
    decreases items
  {
    hide ApplyOne, Digest, Frame;
    var run1, rest := ApplyOne(env, run, items[0]).0, items[1..];
    if k == 0 {
      EntryRecords(env, run, items[0]);
      EachFrame(env, run1, rest);
      assert !MayTouch(rest, ItemRef(items[0]));
      assert SameSent(run1.sent, Each(env, run1, rest).0.sent, Url(items[0].server));
    } else {
      EachRecords(env, run1, rest, k - 1);
    }
  }

  /** However the servers' step ends: the row in the database has the digest of the key of each entry that did not
      fail, so that the next run does not send that key again. */
  lemma RowWritten(env: Env, run: Run, config: Config, k: nat)
    requires var items := ServerItems(run.seen, config.teams);
      && DistinctRefs(items) && k < |items| && items[k].ServerItem? && items[k].server.authkey != ""
      && Each(env, run.(sent := run.misp.sent), items).1[k] != Failed
    ensures var sent, server := ServerStep(env, run, config).run.misp.sent, ServerItems(run.seen, config.teams)[k].server;
      Url(server) in sent && sent[Url(server)] == Digest(server.authkey)
  {
    hide Each, Digest, Url;
    EachRecords(env, run.(sent := run.misp.sent), ServerItems(run.seen, config.teams), k);
  }
}
