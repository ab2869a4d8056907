/** The reconciler as sync.py runs it: loops that post, and a snapshot updated in place. */
module OrgSync {
  import opened Values
  import opened MispWorld
  import opened SharingGroups
  import opened SyncItems
  import opened SyncRun
  import opened SyncSteps
  import opened SyncAsked
  import opened SyncEntries

  // ---- Steps of the scripts the loops send ---------------------------------------------------

  lemma {:induction false} KeepFirst(s: seq<Id>, keep: set<Id>)
    requires s != []
    ensures Keep(s, keep) == (if s[0] in keep then [s[0]] else []) + Keep(s[1..], keep)
    decreases s
  {
    if |s| > 1 {
      KeepFirst(s[..|s| - 1], keep);
      assert s[..|s| - 1][1..] == s[1..][..|s[1..]| - 1];
    }
  }

  lemma KeepNext(s: seq<Id>, keep: set<Id>, i: nat)
    requires i < |s|
    ensures Keep(s[i..], keep) == (if s[i] in keep then [s[i]] else []) + Keep(s[i + 1..], keep)
  {
    KeepFirst(s[i..], keep);
    assert s[i..][1..] == s[i + 1..];
  }

  lemma RemovalsNext(g: Id, s: seq<Id>, keep: set<Id>, i: nat)
    requires i < |s|
    ensures Removals(g, Keep(s[i..], keep))
      == (if s[i] in keep then [RemoveMember(g, s[i])] else []) + Removals(g, Keep(s[i + 1..], keep))
  {
    KeepNext(s, keep, i);
  }

  lemma AdditionsNext(g: Id, s: seq<Id>, keep: set<Id>, extend: map<Id, bool>, i: nat)
    requires i < |s| && forall o <- s :: o in extend
    ensures Additions(g, Keep(s[i..], keep), extend)
      == (if s[i] in keep then [AddMember(g, s[i], extend[s[i]])] else []) + Additions(g, Keep(s[i + 1..], keep), extend)
  {
    KeepNext(s, keep, i);
  }

  /** The elements of s from index i on that a phase concerns. */
  function KeptFrom(s: seq<Id>, keep: set<Id>, i: nat): (r: seq<Id>)
    requires i <= |s|
    ensures forall o <- r :: o in s
  {
    Keep(s[i..], keep)
  }

  lemma NothingLeft(env: Env, m: Misp, g: Id, s: seq<Id>, keep: set<Id>)
    ensures Play(env, m, Removals(g, Keep(s[|s|..], keep))) == (m, true)
    ensures Play(env, m, []) == (m, true) && KeptFrom(s, keep, |s|) == []
  {
  }

  lemma NotYet(s: seq<Id>, i: nat)
    requires Distinct(s) && i < |s|
    ensures s[i] !in s[..i] && s[..i + 1] == s[..i] + [s[i]]
  {
  }

  lemma EachFrom(env: Env, run: Run, items: seq<Item>, i: nat)
    requires i < |items|
    ensures Each(env, run, items[i..])
      == var (run1, o) := ApplyOne(env, run, items[i]);
         var (run2, os) := Each(env, run1, items[i + 1..]);
         (run2, [o] + os)
  {
    assert items[i..][1..] == items[i + 1..];
  }

  /** The records that a sweep disables, said of their fields. */
  lemma SweepsAreThose(seen: Table, order: seq<Ref>, kind: Kind, named: set<Ref>)
    ensures forall q :: Sweep(q, SweepFields(kind)) in SweepItems(seen, order, kind, named) <==>
              q in order && q.kind == kind && q !in named && q in seen && !Off(kind, seen[q])
  {
    hide SweepDue, Off, SweepFields;
    forall r ensures !SweepDue(kind, r) <==> Off(kind, r) { OffMeans(kind, r); }
    SweepItemsAre(seen, order, kind, named);
    SweepsListed(seen, order, kind, named);
  }

  class Reconciler {
    const env: Env
    var misp: Misp
    var seen: Table
    var groups: map<Id, Group>
    var groupOrder: seq<Id>
    var sent: map<string, string>

    function State(): Run
      reads this
    {
      Run(misp, seen, groups, groupOrder, sent)
    }

    /** Fetches the current state of MISP. */
    constructor (env: Env, misp: Misp)
      ensures this.env == env && State() == Fetch(misp)
    {
      this.env, this.misp := env, misp;
      seen, groups, groupOrder, sent := misp.records, misp.groups, misp.groupOrder, map[];
    }

    method FetchAll()
      modifies this
      ensures State() == Fetch(old(misp)) && misp == old(misp)
    {
      seen, groups, groupOrder, sent := misp.records, misp.groups, misp.groupOrder, map[];
    }

    /** The MISP of the state. */
    lemma StateIs()
      ensures State().misp == misp
    {
    }

    method Post(p: MispWorld.Post) returns (answer: Answer)
      modifies this`misp
      ensures (misp, answer) == Send(env, old(misp), p)
    {
      var result := Send(env, misp, p);
      misp, answer := result.0, result.1;
    }

    method RefreshKind(kind: Kind)
      modifies this`seen
      ensures State() == Refresh(old(State()), kind)
    {
      seen := Refresh(State(), kind).seen;
    }

    /** What follows a successful create or edit. */
    method FinishItem(item: Item, created: bool, outcome: Outcome, secret: map<string, Value>, post: nat)
      returns (result: Outcome)
      modifies this`misp, this`sent
      ensures (State(), result) == Finish(env, old(State()), item, created, outcome, secret, post)
    {
      result := outcome;
      match item
      case UserItem(user, _) =>
        if user.authkey != "" {
          if created && !env.named(post) { return Failed; }
          misp := SetAuthkey(misp, ItemRef(item), user.authkey);
        }
        if secret != map[] && outcome == Unchanged { result := Updated; }
      case ServerItem(server, _) =>
        if server.authkey != "" { sent := sent[Url(server) := Digest(server.authkey)]; }
      case _ =>
    }

    /** Creates the record of an item, or edits the fields that differ. */
    method ReconcileItem(item: Item) returns (outcome: Outcome)
      requires item.Reconciled()
      modifies this`misp, this`sent
      ensures (State(), outcome) == Reconcile(env, old(State()), item)
      ensures SeenAt(old(State()), item) && outcome != Failed ==> Asked(misp, sent, item)
    {
      hide SeenAt, Asked;
      if SeenAt(State(), item) { EntryReaches(env, State(), item); }
      var want := Wanted(seen, item);
      if want.None? { return Failed; }
      var ref, post := ItemRef(item), |misp.posts|;
      if ref !in seen {
        var answer := Post(Add(ref, want.value + CreateOnly(item, post)));
        if answer != Accepted { return Failed; }
        outcome := FinishItem(item, true, Created, map[], post);
      } else {
        var changes := Differences(want.value, seen[ref].fields);
        var secret := Secret(misp, sent, item);
        outcome := if changes == map[] then Unchanged else Updated;
        if changes + secret != map[] {
          var answer := Post(Edit(ref, changes + secret));
          if answer != Accepted { return Failed; }
        } else {
          assert changes == map[] by { if f :| f in changes { assert f in changes + secret; } }
        }
        outcome := FinishItem(item, false, outcome, secret, post);
      }
    }

    method EnableIf(ref: Ref, wanted: bool) returns (outcome: Outcome)
      requires ref in seen
      modifies this`misp
      ensures (State(), outcome) == EnableIfWanted(env, old(State()), ref, wanted)
    {
      outcome := Applied;
      if !SyncItems.Enabled(seen[ref].fields) && wanted {
        var answer := Post(Edit(ref, map["enabled" := Bool(true)]));
        if answer != Accepted { outcome := Failed; }
      }
    }

    method ApplyCustomList(list: ListDef) returns (outcome: Outcome)
      modifies this`misp, this`seen
      ensures (State(), outcome) == ApplyList(env, old(State()), list)
    {
      var ref := Ref(Warninglist, list.name);
      if ref !in seen {
        var answer := Post(Add(ref, ListData(list) + map["version" := Str(list.version)]));
        if answer == Refused { return Failed; }
        RefreshKind(Warninglist);
        if ref !in seen { return Failed; }
      } else if !(ref in misp.records && SameList(misp.records[ref].fields, list)) {
        var answer := Post(Edit(ref, ListData(list)));
        if answer != Accepted { return Failed; }
      }
      outcome := EnableIf(ref, list.enabled);
    }

    /** Sends one post of a script; `rest` is what follows it. */
    method PlayOne(p: MispWorld.Post, ghost rest: seq<MispWorld.Post>) returns (ok: bool)
      modifies this`misp
      ensures Play(env, old(misp), [p] + rest) == if ok then Play(env, misp, rest) else (misp, false)
    {
      var answer := Post(p);
      ok := answer == Accepted || (answer == Already && p.AddMember?);
      assert ([p] + rest)[0] == p && ([p] + rest)[1..] == rest;
    }

    /** Removes the members whose extend differs. */
    method RemoveChanged(g: Id, d: Desired, now: map<Id, bool>) returns (current: map<Id, bool>, ok: bool)
      requires d.Valid()
      modifies this`misp
      ensures (misp, ok) == Play(env, old(misp), Removals(g, Keep(d.order, ChangedSet(d, now))))
      ensures ok ==> current == Kept(d, now)
    {
      hide Play, Removals, Keep;
      current := now;
      ghost var changed := ChangedSet(d, now);
      ghost var played := Play(env, misp, Removals(g, Keep(d.order, changed)));
      assert d.order[0..] == d.order;
      for i := 0 to |d.order|
        invariant forall o :: o in current <==> o in now && (o in changed ==> o !in d.order[..i])
        invariant forall o :: o in current ==> current[o] == now[o]
        invariant Play(env, misp, Removals(g, Keep(d.order[i..], changed))) == played
      {
        var o := d.order[i];
        RemovalsNext(g, d.order, changed, i);
        ghost var rest := Removals(g, Keep(d.order[i + 1..], changed));
        NotYet(d.order, i);
        if o in current && current[o] != d.extend[o] {
          ok := PlayOne(RemoveMember(g, o), rest);
          if !ok { return; }
          current := current - {o};
        } else {
          assert [] + rest == rest;
        }
      }
      ok := true;
      NothingLeft(env, misp, g, d.order, changed);
      assert d.order[..|d.order|] == d.order;
    }

    method AddMissing(g: Id, d: Desired, now: map<Id, bool>, current: set<Id>) returns (ok: bool)
      requires d.Valid() && current == Kept(d, now).Keys
      modifies this`misp
      ensures (misp, ok) == Play(env, old(misp), Additions(g, Keep(d.order, MissingSet(d, now)), d.extend))
    {
      hide Play, Keep;
      ghost var missing := MissingSet(d, now);
      ghost var played := Play(env, misp, Additions(g, Keep(d.order, missing), d.extend));
      assert d.order[0..] == d.order;
      for i := 0 to |d.order|
        invariant Play(env, misp, Additions(g, KeptFrom(d.order, missing, i), d.extend)) == played
      {
        var o := d.order[i];
        AdditionsNext(g, d.order, missing, d.extend, i);
        ghost var rest := Additions(g, KeptFrom(d.order, missing, i + 1), d.extend);
        if o !in current {
          ok := PlayOne(AddMember(g, o, d.extend[o]), rest);
          if !ok { return; }
        } else {
          assert [] + rest == rest;
        }
      }
      ok := true;
      NothingLeft(env, misp, g, d.order, missing);
      assert Additions(g, KeptFrom(d.order, missing, |d.order|), d.extend) == [];
    }

    /** Removes the members left over, in the order the set is walked. */
    method RemoveExtra(g: Id, d: Desired, current: set<Id>) returns (ok: bool)
      requires WalkOf(env, current)
      modifies this`misp
      ensures (misp, ok) == Play(env, old(misp), Removals(g, Keep(env.walk(current), current - d.extend.Keys)))
    {
      hide Play, Removals, Keep;
      var walk := env.walk(current);
      ghost var extra := current - d.extend.Keys;
      ghost var played := Play(env, misp, Removals(g, Keep(walk, extra)));
      assert walk[0..] == walk;
      for i := 0 to |walk|
        invariant Play(env, misp, Removals(g, Keep(walk[i..], extra))) == played
      {
        var o := walk[i];
        RemovalsNext(g, walk, extra, i);
        ghost var rest := Removals(g, Keep(walk[i + 1..], extra));
        assert o in walk;
        if o !in d.extend {
          ok := PlayOne(RemoveMember(g, o), rest);
          if !ok { return; }
        } else {
          assert [] + rest == rest;
        }
      }
      ok := true;
      NothingLeft(env, misp, g, walk, extra);
    }

    /** Brings the members of group g to the desired ones, up to the first failure. */
    method SyncMembers(g: Id, d: Desired, now: map<Id, bool>) returns (ok: bool)
      requires d.Valid() && Walks(env)
      modifies this`misp
      ensures (misp, ok) == Play(env, old(misp), Script(env, g, d, now))
    {
      var kept := Kept(d, now).Keys;
      ghost var a := Removals(g, Keep(d.order, ChangedSet(d, now)));
      ghost var b := Additions(g, Keep(d.order, MissingSet(d, now)), d.extend);
      ghost var c := Removals(g, Keep(env.walk(kept), kept - d.extend.Keys));
      assert Script(env, g, d, now) == a + (b + c);
      PlayConcat(env, misp, a, b + c);
      var current;
      current, ok := RemoveChanged(g, d, now);
      if !ok { return; }
      PlayConcat(env, misp, b, c);
      ok := AddMissing(g, d, now, current.Keys);
      if !ok { return; }
      assert WalkOf(env, kept);
      ok := RemoveExtra(g, d, current.Keys);
    }

    /** The organisations of a sharing group by their IDs. */
    method DesiredMembers(orgs: seq<OrgRef>) returns (d: Option<Desired>)
      ensures d == DesiredOrgs(seen, orgs)
      ensures d.None? <==> exists i :: 0 <= i < |orgs| && Ref(Org, Lower(orgs[i].uuid)) !in seen
      ensures d.Some? ==> MembersAsked(seen, orgs, d.value.extend)
    {
      hide MembersAsked;
      DesiredOrgsMean(seen, orgs);
      var order: seq<Id>, extend: map<Id, bool> := [], map[];
      assert orgs[..|orgs|] == orgs;
      for i := 0 to |orgs|
        invariant DesiredOrgs(seen, orgs[..i]) == Some(Desired(order, extend))
      {
        assert orgs[..i + 1][..i] == orgs[..i];
        var oid := OrgId(seen, orgs[i].uuid);
        if oid.None? {
          NoDesired(seen, orgs, i + 1);
          return None;
        }
        if oid.value !in extend { order := order + [oid.value]; }
        extend := extend[oid.value := orgs[i].extend];
      }
      d := Some(Desired(order, extend));
    }

    method ApplySharingGroup(def: GroupDef) returns (outcome: Outcome)
      requires Walks(env)
      modifies this`misp
      ensures State() == old(State()).(misp := misp)
      ensures (misp, outcome) == ApplyGroup(env, old(misp), groups, groupOrder, seen, def)
    {
      if def.uuid.Some? && !IsUuid4(Uuid(def)) { return Failed; }
      var data, existing := Data(def), Find(groups, groupOrder, def);
      var g := Target(misp, groups, groupOrder, def);
      outcome := Unchanged;
      if existing.None? {
        var post := |misp.posts|;
        var answer := Post(AddGroup(data));
        outcome := if answer == Accepted && env.named(post) then Created else Failed;
      } else {
        var changes := if g in groups then Differences(data, groups[g].fields) else data;
        if changes != map[] {
          var answer := Post(EditGroup(g, changes));
          outcome := if answer == Accepted then Updated else Failed;
        }
      }
      if outcome == Failed { return; }
      var orgs := DesiredMembers(def.orgs);
      if orgs.None? { return Failed; }
      var ok := SyncMembers(g, orgs.value, if existing.Some? && g in groups then groups[g].members else map[]);
      if !ok { outcome := Failed; }
    }

    method ApplyItem(item: Item) returns (outcome: Outcome)
      requires Walks(env)
      modifies this`misp, this`seen, this`sent
      ensures (State(), outcome) == ApplyOne(env, old(State()), item)
    {
      match item
      case Enable(ref) =>
        if ref !in seen { return Failed; }
        if SyncItems.Enabled(seen[ref].fields) { return Unchanged; }
        var answer := Post(Edit(ref, map["enabled" := Bool(true)]));
        outcome := if answer == Accepted then Outcome.Enabled else Failed;
      case Sweep(ref, fields) =>
        var answer := Post(Edit(ref, fields));
        outcome := if answer == Accepted then Disabled else Failed;
      case ListItem(list) => outcome := ApplyCustomList(list);
      case GroupItem(group) => outcome := ApplySharingGroup(group);
      case Malformed => outcome := Failed;
      case Loaded(_) => outcome := Failed;
      case _ => outcome := ReconcileItem(item);
    }

    /** Applies every item, whatever became of the ones before it. */
    method EachItem(items: seq<Item>) returns (outcomes: seq<Outcome>)
      requires Walks(env)
      modifies this`misp, this`seen, this`sent
      ensures (State(), outcomes) == Each(env, old(State()), items)
    {
      outcomes := [];
      assert items[0..] == items && [] + Each(env, State(), items).1 == Each(env, State(), items).1;
      for i := 0 to |items|
        invariant var (run, rest) := Each(env, State(), items[i..]);
          Each(env, old(State()), items) == (run, outcomes + rest)
      {
        EachFrom(env, State(), items, i);
        var outcome := ApplyItem(items[i]);
        ghost var rest := Each(env, State(), items[i + 1..]).1;
        assert outcomes + ([outcome] + rest) == (outcomes + [outcome]) + rest;
        outcomes := outcomes + [outcome];
      }
      assert outcomes + [] == outcomes;
    }

    method RunStep(items: seq<Item>) returns (ok: bool)
      requires Walks(env)
      modifies this`misp, this`seen, this`sent
      ensures Step(State(), ok) == Do(env, old(State()), items)
    {
      var outcomes := EachItem(items);
      ok := Failed !in outcomes;
    }

    /** A step after which the snapshot is fetched again when it created something. */
    method RunAndRefresh(items: seq<Item>, kind: Kind) returns (ok: bool)
      requires Walks(env)
      modifies this`misp, this`seen, this`sent
      ensures Step(State(), ok) == DoAndRefresh(env, old(State()), items, kind)
    {
      var outcomes := EachItem(items);
      if Created in outcomes { RefreshKind(kind); }
      ok := Failed !in outcomes;
    }

    method RunServers(config: Config) returns (ok: bool)
      requires Walks(env)
      modifies this`misp, this`seen, this`sent
      ensures Step(State(), ok) == ServerStep(env, old(State()), config)
    {
      sent := misp.sent;
      ok := RunStep(ServerItems(seen, config.teams));
      misp := misp.(sent := sent);
    }

    /** The records that a sweep disables, in the order in which MISP lists them. */
    method Unmanaged(kind: Kind, named: set<Ref>) returns (items: seq<Item>)
      ensures items == SweepItems(seen, misp.order, kind, named)
      ensures forall q :: Sweep(q, SweepFields(kind)) in items <==>
                q in misp.order && q.kind == kind && q !in named && q in seen && !Off(kind, seen[q])
    {
      hide SweepDue, Off, SweepFields;
      items := [];
      for i := 0 to |misp.order|
        invariant items == SweepItems(seen, misp.order[..i], kind, named)
      {
        assert misp.order[..i + 1][..i] == misp.order[..i];
        if Unnamed(seen, kind, named, misp.order[i]) {
          items := items + [Sweep(misp.order[i], SweepFields(kind))];
        }
      }
      assert misp.order[..|misp.order|] == misp.order;
      SweepsAreThose(seen, misp.order, kind, named);
    }

    method RunSweep(kind: Kind, named: set<Ref>) returns (ok: bool)
      requires Walks(env)
      modifies this`misp, this`seen, this`sent
      ensures Step(State(), ok) == SweepStep(env, Step(old(State()), true), kind, named)
    {
      var items := Unmanaged(kind, named);
      ok := RunStep(items);
    }

    method RunTaxonomies(config: Config) returns (ok: bool)
      requires Walks(env)
      modifies this`misp, this`seen, this`sent
      ensures Step(State(), ok) == TaxonomyStep(env, old(State()), config)
    {
      if config.taxonomies.None? { return true; }
      var names := config.taxonomies.value;
      if !forall n <- names :: Ref(Taxonomy, n) in seen {
        var answer := Post(LoadTaxonomies);
        if answer != Accepted { return false; }
        RefreshKind(Taxonomy);
      }
      ok := RunStep(TaxonomyItems(names));
      if ok { ok := RunSweep(Taxonomy, Refs(TaxonomyItems(names))); }
    }

    method RunLists(config: Config) returns (ok: bool)
      requires Walks(env)
      modifies this`misp, this`seen, this`sent
      ensures Step(State(), ok) == ListStep(env, old(State()), config)
    {
      if config.warninglists.None? { return true; }
      var entries := config.warninglists.value;
      ok := RunStep(ListItems(entries));
      if ok { ok := RunSweep(Warninglist, Refs(ListItems(entries))); }
    }

    /** The sweep at the end of a run, for a kind whose step did not fail. */
    method RunDisable(after: bool, kind: Kind, named: set<Ref>) returns (ok: bool)
      requires Walks(env)
      modifies this`misp, this`seen, this`sent
      ensures Step(State(), ok) == Disable(env, old(State()), after, kind, named)
    {
      ok := true;
      if after { ok := RunSweep(kind, named); }
    }

    method RunTags(config: Config) returns (ok: bool)
      requires Walks(env)
      modifies this`misp, this`seen, this`sent
      ensures Step(State(), ok) == TagStep(env, old(State()), config)
    {
      ok := RunStep(TagItems(seen, config));
      RefreshKind(Tag);
    }

    method RunUsers(config: Config) returns (ok: bool)
      requires Walks(env)
      modifies this`misp, this`seen, this`sent
      ensures Step(State(), ok) == UserStep(env, old(State()), config)
    {
      ok := RunStep(UserItems(seen, config.teams));
      RefreshKind(User);
    }

    /** The steps after the organisations', up to the sharing groups. */
    method RunMiddle(config: Config) returns (oks: seq<bool>)
      requires Walks(env)
      modifies this`misp, this`seen, this`sent
      ensures (State(), oks) == Middle(env, old(State()), config)
    {
      hide *;
      MiddleIs(env, State(), config);
      var tags := RunTags(config);
      var users := RunUsers(config);
      var servers := RunServers(config);
      var taxonomies := RunTaxonomies(config);
      var lists := RunLists(config);
      var sharing := RunStep(GroupItems(config));
      oks := [tags, users, servers, taxonomies, lists, sharing];
    }

    /** One run over the file. It cannot go on without the organisations. */
    method Apply(config: Config, ldap: bool) returns (summary: Summary)
      requires Walks(env)
      modifies this
      ensures (misp, summary) == SyncRun.Apply(env, config, ldap, old(misp))
    {
      hide *;
      if IsEmpty(config) { EmptyApply(env, config, ldap, misp); return Reports([], config); }
      var start := misp.records;
      ghost var was := misp;
      FetchAll();
      var roles := RunAndRefresh(RoleItems(config), Role);
      ghost var first := Step(State(), roles);
      var orgs := RunAndRefresh(OrgItems(config), Org);
      ghost var second := Step(State(), orgs);
      StoppedApply(env, config, ldap, was, first, second);
      StateIs();
      if !orgs { return Reports([roles, false], config); }
      var oks := RunMiddle(config);
      ghost var middle := State();
      var sweptUsers := RunDisable(UsersOk(oks) && !ldap, User, Refs(UserItems(start, config.teams)));
      ghost var third := Step(State(), sweptUsers);
      var sweptServers := RunDisable(ServersOk(oks), Server, Refs(ServerItems(start, config.teams)));
      FullApply(env, config, ldap, was, first, second, middle, oks, third, Step(State(), sweptServers));
      StateIs();
      summary := Reports([roles, true] + oks + [sweptUsers, sweptServers], config);
    }
  }

  predicate UsersOk(oks: seq<bool>) { |oks| == 6 && oks[1] }

  predicate ServersOk(oks: seq<bool>) { |oks| == 6 && oks[2] }

  /** The steps from the tags' to the sharing groups'. */
  function Middle(env: Env, run: Run, config: Config): (r: (Run, seq<bool>))
    ensures |r.1| == 6
  {
    var tags := TagStep(env, run, config);
    var users := UserStep(env, tags.run, config);
    var servers := ServerStep(env, users.run, config);
    var taxonomies := TaxonomyStep(env, servers.run, config);
    var lists := ListStep(env, taxonomies.run, config);
    var sharing := Do(env, lists.run, GroupItems(config));
    (sharing.run, [tags.ok, users.ok, servers.ok, taxonomies.ok, lists.ok, sharing.ok])
  }

  lemma MiddleIs(env: Env, run: Run, config: Config)
    ensures var tags := TagStep(env, run, config);
      var users := UserStep(env, tags.run, config);
      var servers := ServerStep(env, users.run, config);
      var taxonomies := TaxonomyStep(env, servers.run, config);
      var lists := ListStep(env, taxonomies.run, config);
      var sharing := Do(env, lists.run, GroupItems(config));
      Middle(env, run, config)
        == (sharing.run, [tags.ok, users.ok, servers.ok, taxonomies.ok, lists.ok, sharing.ok])
  {
    hide Do, TagStep, UserStep, ServerStep, TaxonomyStep, ListStep;
  }

  lemma EmptyApply(env: Env, config: Config, ldap: bool, m: Misp)
    requires IsEmpty(config)
    ensures Apply(env, config, ldap, m) == (m, Reports([], config))
  {
  }

  lemma StoppedApply(env: Env, config: Config, ldap: bool, m: Misp, roles: Step, orgs: Step)
    requires !IsEmpty(config) && roles == DoAndRefresh(env, Fetch(m), RoleItems(config), Role)
    requires orgs == DoAndRefresh(env, roles.run, OrgItems(config), Org)
    ensures !orgs.ok ==> Apply(env, config, ldap, m) == (orgs.run.misp, Reports([roles.ok, false], config))
  {
    hide DoAndRefresh, TagStep, UserStep, ServerStep, TaxonomyStep, ListStep, Do, Disable, IsEmpty;
  }

  lemma FullApply(env: Env, config: Config, ldap: bool, m: Misp, roles: Step, orgs: Step, middle: Run, oks: seq<bool>,
                  sweptUsers: Step, sweptServers: Step)
    requires !IsEmpty(config) && roles == DoAndRefresh(env, Fetch(m), RoleItems(config), Role)
    requires orgs == DoAndRefresh(env, roles.run, OrgItems(config), Org) && orgs.ok
    requires (middle, oks) == Middle(env, orgs.run, config)
    requires sweptUsers
      == Disable(env, middle, UsersOk(oks) && !ldap, User, Refs(UserItems(m.records, config.teams)))
    requires sweptServers
      == Disable(env, sweptUsers.run, ServersOk(oks), Server, Refs(ServerItems(m.records, config.teams)))
    ensures Apply(env, config, ldap, m)
      == (sweptServers.run.misp, Reports([roles.ok, true] + oks + [sweptUsers.ok, sweptServers.ok], config))
  {
    hide DoAndRefresh, TagStep, UserStep, ServerStep, TaxonomyStep, ListStep, Do, Disable, IsEmpty, RoleItems, OrgItems,
         UserItems, ServerItems, GroupItems, Refs;
  }

  /** The summary of the steps that ran, by whether they succeeded. */
  function Reports(oks: seq<bool>, config: Config): Summary
  {
    var r := seq(10, i requires 0 <= i < 10 => if i >= |oks| then NotRun else ReportIf(oks[i]));
    Summary(r[0], r[1], r[2], r[3], r[4], if config.taxonomies.None? then NotRun else r[5],
            if config.warninglists.None? then NotRun else r[6], r[7], r[8], r[9])
  }

  function ReportIf(ok: bool): Report { if ok then Done else Error }

  lemma {:induction false} NoDesired(seen: Table, orgs: seq<OrgRef>, n: nat)
    requires n <= |orgs| && DesiredOrgs(seen, orgs[..n]).None?
    ensures DesiredOrgs(seen, orgs).None?
    decreases |orgs| - n
  {
    if n < |orgs| {
      assert orgs[..n + 1][..n] == orgs[..n];
      NoDesired(seen, orgs, n + 1);
    } else {
      assert orgs[..n] == orgs;
    }
  }
}
