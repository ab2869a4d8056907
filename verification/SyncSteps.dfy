/** One step of org-sync: what it reaches, what it leaves alone, when it posts nothing. */
module SyncSteps {
  import opened Values
  import opened MispWorld
  import opened SharingGroups
  import opened SyncItems

  // ---- Frames ------------------------------------------------------------------------------

  ghost predicate SentFrame(sent: map<string, string>, sent': map<string, string>, items: seq<Item>) {
    forall u :: !MayTouch(items, Ref(Server, u)) ==> SameSent(sent, sent', u)
  }

  ghost predicate SameGroups(m: Misp, m': Misp) {
    m'.groups == m.groups && m'.groupOrder == m.groupOrder
  }

  /** Frame, and the row of sent keys changed for the servers of these items only. */
  ghost predicate RunFrame(run: Run, run': Run, items: seq<Item>) {
    && Frame(run.misp, run'.misp, items)
    && SentFrame(run.sent, run'.sent, items)
    && run'.groups == run.groups && run'.groupOrder == run.groupOrder
    && ((forall i <- items :: !i.GroupItem?) ==> SameGroups(run.misp, run'.misp))
    && ((forall i <- items :: !i.ListItem?) ==> run'.seen == run.seen)
  }

  lemma FrameWiden(m: Misp, m': Misp, a: seq<Item>, b: seq<Item>)
    requires Frame(m, m', a) && forall i <- a :: i in b
    ensures Frame(m, m', b)
  {
    forall q ensures MayTouch(a, q) ==> MayTouch(b, q) {}
    forall q, f ensures MayEdit(a, q, f) ==> MayEdit(b, q, f) {}
    forall p ensures Targeted(a, p) ==> Targeted(b, p) {}
  }

  lemma FrameTwice(m: Misp, m1: Misp, m2: Misp, item: Item)
    requires Frame(m, m1, [item]) && Frame(m1, m2, [item])
    ensures Frame(m, m2, [item])
  {
    FrameTrans(m, m1, m2, [item], [item]);
    FrameWiden(m, m2, [item] + [item], [item]);
  }

  lemma RunFrameTrans(run: Run, run1: Run, run2: Run, a: seq<Item>, b: seq<Item>)
    requires RunFrame(run, run1, a) && RunFrame(run1, run2, b)
    ensures RunFrame(run, run2, a + b)
  {
    FrameTrans(run.misp, run1.misp, run2.misp, a, b);
    forall u | !MayTouch(a + b, Ref(Server, u)) ensures SameSent(run.sent, run2.sent, u) {
      TouchSum(a, b, Ref(Server, u));
    }
    forall i | i in a || i in b ensures i in a + b {}
  }

  lemma FinishFrame(env: Env, run: Run, item: Item, created: bool, outcome: Outcome, secret: map<string, Value>,
                    post: nat)
    ensures RunFrame(run, Finish(env, run, item, created, outcome, secret, post).0, [item])
  {
    hide Frame, KeysOf, SetAuthkey;
    var run' := Finish(env, run, item, created, outcome, secret, post).0;
    FrameSelf(run.misp, [item]);
    if item.UserItem? { AuthkeyFrame(run.misp, item, item.user.authkey); }
    assert item in [item];
  }

  lemma AuthkeyFrame(m: Misp, item: Item, key: string)
    ensures var m' := SetAuthkey(m, ItemRef(item), key); Frame(m, m', [item]) && SameGroups(m, m')
  {
    SingleFrame(m, SetAuthkey(m, ItemRef(item), key), item);
  }

  lemma SendStep(env: Env, run: Run, item: Item, p: Post)
    requires (p.Add? || p.Edit?) && TargetedBy(item, p)
    ensures RunFrame(run, run.(misp := Send(env, run.misp, p).0), [item])
  {
    SendFrame(env, run.misp, item, p);
  }

  lemma RunFrameTwice(run: Run, run1: Run, run2: Run, item: Item)
    requires RunFrame(run, run1, [item]) && RunFrame(run1, run2, [item])
    ensures RunFrame(run, run2, [item])
  {
    FrameTwice(run.misp, run1.misp, run2.misp, item);
    assert item in [item];
  }

  lemma WantedKeys(seen: Table, item: Item)
    requires item.Reconciled() && Wanted(seen, item).Some?
    ensures Wanted(seen, item).value.Keys <= EditKeys(item)
  {
    match item
    case RoleItem(_) =>
    case OrgItem(_) =>
    case TagItem(_, _) =>
    case UserItem(_, _) =>
    case ServerItem(_, _) =>
  }

  lemma SecretKeys(m: Misp, sent: map<string, string>, item: Item)
    ensures Secret(m, sent, item).Keys <= EditKeys(item)
  {
  }

  /** The compared fields, the fields of a create only and the secret ones are apart. */
  lemma FieldsApart(seen: Table, item: Item, nonce: nat, f: string)
    requires item.Reconciled() && Wanted(seen, item).Some? && f in Wanted(seen, item).value
    ensures f !in CreateOnly(item, nonce) && f != "password" && f != "authkey"
  {
    match item
    case RoleItem(_) => assert RoleField(f);
    case OrgItem(_) =>
    case TagItem(_, _) =>
    case UserItem(_, _) =>
    case ServerItem(_, _) =>
  }

  lemma ReconcileFrame(env: Env, run: Run, item: Item)
    requires item.Reconciled()
    ensures RunFrame(run, Reconcile(env, run, item).0, [item])
  {
    var want := Wanted(run.seen, item);
    var ref, post := ItemRef(item), |run.misp.posts|;
    FrameSelf(run.misp, [item]);
    if want.Some? {
      WantedKeys(run.seen, item);
      SecretKeys(run.misp, run.sent, item);
      if ref !in run.seen {
        var p := Add(ref, want.value + CreateOnly(item, post));
        var (m, answer) := Send(env, run.misp, p);
        SendStep(env, run, item, p);
        FinishFrame(env, run.(misp := m), item, true, Created, map[], post);
        if answer == Accepted { RunFrameTwice(run, run.(misp := m), Reconcile(env, run, item).0, item); }
      } else {
        var changes := Differences(want.value, run.seen[ref].fields);
        var secret := Secret(run.misp, run.sent, item);
        if changes + secret == map[] {
          FinishFrame(env, run, item, false, Unchanged, secret, post);
        } else {
          var p := Edit(ref, changes + secret);
          var (m, answer) := Send(env, run.misp, p);
          SendStep(env, run, item, p);
          var outcome := if changes == map[] then Unchanged else Updated;
          FinishFrame(env, run.(misp := m), item, false, outcome, secret, post);
          if answer == Accepted { RunFrameTwice(run, run.(misp := m), Reconcile(env, run, item).0, item); }
        }
      }
    }
  }

  lemma EnableIfWantedFrame(env: Env, run: Run, list: ListDef)
    requires ItemRef(ListItem(list)) in run.seen
    ensures RunFrame(run, EnableIfWanted(env, run, ItemRef(ListItem(list)), list.enabled).0, [ListItem(list)])
  {
    FrameSelf(run.misp, [ListItem(list)]);
    if list.enabled {
      SendStep(env, run, ListItem(list), Edit(ItemRef(ListItem(list)), map["enabled" := Bool(true)]));
    }
  }

  lemma RefreshFrame(run: Run, list: ListDef)
    ensures RunFrame(run, Refresh(run, Warninglist), [ListItem(list)])
  {
    FrameSelf(run.misp, [ListItem(list)]);
    assert ListItem(list) in [ListItem(list)];
  }

  lemma ApplyListFrame(env: Env, run: Run, list: ListDef)
    ensures RunFrame(run, ApplyList(env, run, list).0, [ListItem(list)])
  {
    var item, ref, run' := ListItem(list), Ref(Warninglist, list.name), ApplyList(env, run, list).0;
    if ref !in run.seen {
      var p := Add(ref, ListData(list) + map["version" := Str(list.version)]);
      var (m, answer) := Send(env, run.misp, p);
      SendStep(env, run, item, p);
      if answer != Refused {
        var run0, run1 := run.(misp := m), Refresh(run.(misp := m), Warninglist);
        RefreshFrame(run0, list);
        RunFrameTwice(run, run0, run1, item);
        if ref in run1.seen {
          EnableIfWantedFrame(env, run1, list);
          RunFrameTwice(run, run1, run', item);
        }
      }
    } else if ref in run.misp.records && SameList(run.misp.records[ref].fields, list) {
      EnableIfWantedFrame(env, run, list);
    } else {
      var p := Edit(ref, ListData(list));
      var (m, answer) := Send(env, run.misp, p);
      SendStep(env, run, item, p);
      if answer == Accepted {
        EnableIfWantedFrame(env, run.(misp := m), list);
        RunFrameTwice(run, run.(misp := m), run', item);
      }
    }
  }

  lemma GroupFrame(env: Env, run: Run, def: GroupDef)
    ensures RunFrame(run, ApplyOne(env, run, GroupItem(def)).0, [GroupItem(def)])
  {
    var item := GroupItem(def);
    ApplyGroupFrame(env, run.misp, run.groups, run.groupOrder, run.seen, def);
    SingleFrame(run.misp, ApplyOne(env, run, item).0.misp, item);
    assert item in [item];
  }

  lemma ApplyOneFrame(env: Env, run: Run, item: Item)
    ensures RunFrame(run, ApplyOne(env, run, item).0, [item])
  {
    FrameSelf(run.misp, [item]);
    match item
    case Enable(ref) => SendStep(env, run, item, Edit(ref, map["enabled" := Bool(true)]));
    case Sweep(ref, fields) => SendStep(env, run, item, Edit(ref, fields));
    case ListItem(list) => ApplyListFrame(env, run, list);
    case Malformed =>
    case Loaded(_) =>
    case GroupItem(def) => GroupFrame(env, run, def);
    case _ => ReconcileFrame(env, run, item);
  }

  /** Whatever MISP refuses, a step touches only the records of its own items, in the fields they name. */
  lemma {:induction false} EachFrame(env: Env, run: Run, items: seq<Item>)
    ensures RunFrame(run, Each(env, run, items).0, items)
    decreases items
  {
    if items == [] {
      FrameSelf(run.misp, []);
    } else {
      var run1 := ApplyOne(env, run, items[0]).0;
      ApplyOneFrame(env, run, items[0]);
      EachFrame(env, run1, items[1..]);
      RunFrameTrans(run, run1, Each(env, run1, items[1..]).0, [items[0]], items[1..]);
      assert items == [items[0]] + items[1..];
    }
  }

  // ---- What a step reaches -----------------------------------------------------------------

  /** The item's record is as the file asks, read off MISP and the row of sent keys alone. */
  ghost predicate Held(m: Misp, sent: map<string, string>, item: Item) {
    var ref := ItemRef(item);
    && ref in m.records
    && var fields := m.records[ref].fields;
    match item
    case Enable(_) => SyncItems.Enabled(fields)
    case ListItem(list) => SameList(fields, list) && (list.enabled ==> SyncItems.Enabled(fields))
    case Sweep(_, off) => forall f :: f in off ==> f in fields && fields[f] == off[f]
    case GroupItem(_) => false
    case Malformed => false
    case Loaded(_) => false
    case _ =>
      && Wanted(m.records, item).Some?
      && Holds(fields, Wanted(m.records, item).value)
      && SecretsHeld(m, sent, item)
  }

  /** The passwords, API keys and server keys of the file are the ones in force. */
  ghost predicate SecretsHeld(m: Misp, sent: map<string, string>, item: Item) {
    match item
    case UserItem(user, _) =>
      var ref := ItemRef(item);
      && (user.password != "" ==> ref in m.records && Field(m.records[ref].fields, "password") == Str(user.password))
      && (user.authkey != "" ==> user.authkey in KeysOf(m, ref))
    case ServerItem(server, _) =>
      server.authkey != "" ==> Url(server) in sent && sent[Url(server)] == Digest(server.authkey)
    case _ => true
  }

  /** The snapshot knows the item's record as it is, and every other record by its ID. */
  ghost predicate SeenAt(run: Run, item: Item) {
    var ref := ItemRef(item);
    && Extends(run.seen, run.misp.records)
    && SeenSame(run, ref)
  }

  lemma {:induction false} TagIdsStable(seen: Table, seen': Table, names: seq<string>)
    requires Extends(seen, seen') && TagIds(seen, names).Some?
    ensures TagIds(seen', names) == TagIds(seen, names)
    decreases names
  {
    if names != [] { TagIdsStable(seen, seen', names[1..]); }
  }

  /** A name that resolved keeps its ID, so an item goes on asking for the same values. */
  lemma WantedStable(seen: Table, seen': Table, item: Item)
    requires item.Reconciled() && Extends(seen, seen') && Wanted(seen, item).Some?
    ensures Wanted(seen', item) == Wanted(seen, item)
  {
    if item.ServerItem? {
      TagIdsStable(seen, seen', item.server.pushTags);
      TagIdsStable(seen, seen', item.server.pushTagsExclude);
    }
  }

  lemma FinishReaches(env: Env, run: Run, item: Item, created: bool, outcome: Outcome, secret: map<string, Value>,
                      post: nat)
    requires item.Reconciled() && ItemRef(item) in run.misp.records
    requires item.UserItem? && item.user.password != "" ==>
               Field(run.misp.records[ItemRef(item)].fields, "password") == Str(item.user.password)
    ensures var (run', o) := Finish(env, run, item, created, outcome, secret, post);
      run'.misp.records == run.misp.records && (o != Failed ==> SecretsHeld(run'.misp, run'.sent, item))
  {
  }

  lemma CreateHolds(seen: Table, item: Item, nonce: nat)
    requires item.Reconciled() && Wanted(seen, item).Some?
    ensures var fields := Wanted(seen, item).value + CreateOnly(item, nonce);
      && Holds(fields, Wanted(seen, item).value)
      && (item.UserItem? && item.user.password != "" ==> Field(fields, "password") == Str(item.user.password))
  {
    var want := Wanted(seen, item).value;
    forall f | f in want ensures ValuesEqual(want[f], Field(want + CreateOnly(item, nonce), f)) {
      FieldsApart(seen, item, nonce, f);
      StoredValueIsEqual(want[f]);
    }
  }

  lemma EditHolds(seen: Table, item: Item, was: map<string, Value>, m: Misp, sent: map<string, string>)
    requires item.Reconciled() && Wanted(seen, item).Some?
    ensures var want := Wanted(seen, item).value;
      Holds(was + (Differences(want, was) + Secret(m, sent, item)), want)
  {
    var want := Wanted(seen, item).value;
    forall f | f in want ensures f !in Secret(m, sent, item) { FieldsApart(seen, item, 0, f); }
    OverwriteHolds(want, was, Secret(m, sent, item));
  }

  lemma HeldFrom(seen: Table, m: Misp, sent: map<string, string>, item: Item)
    requires item.Reconciled() && Extends(seen, m.records) && Wanted(seen, item).Some?
    requires ItemRef(item) in m.records && Holds(m.records[ItemRef(item)].fields, Wanted(seen, item).value)
    requires SecretsHeld(m, sent, item)
    ensures Held(m, sent, item)
  {
    WantedStable(seen, m.records, item);
  }

  lemma CreateReaches(env: Env, run: Run, item: Item)
    requires item.Reconciled() && SeenAt(run, item) && ItemRef(item) !in run.seen
    ensures var (run', outcome) := Reconcile(env, run, item);
      outcome != Failed ==> Held(run'.misp, run'.sent, item)
  {
    var ref, post := ItemRef(item), |run.misp.posts|;
    var (run', outcome) := Reconcile(env, run, item);
    if outcome != Failed {
      var fields := Wanted(run.seen, item).value + CreateOnly(item, post);
      CreateHolds(run.seen, item, post);
      var run1 := run.(misp := Send(env, run.misp, Add(ref, fields)).0);
      assert run1.misp.records == run.misp.records[ref := Record(run.misp.next, fields)];
      FinishReaches(env, run1, item, true, Created, map[], post);
      HeldFrom(run.seen, run'.misp, run'.sent, item);
    }
  }

  /** What an edit posts, and what it leaves. */
  lemma EditSends(env: Env, run: Run, item: Item)
    requires item.Reconciled() && SeenAt(run, item) && ItemRef(item) in run.seen && Wanted(run.seen, item).Some?
    ensures var ref, post := ItemRef(item), |run.misp.posts|;
      var was := run.seen[ref].fields;
      var changes, secret := Differences(Wanted(run.seen, item).value, was), Secret(run.misp, run.sent, item);
      var body := changes + secret;
      var run1 := if body == map[] then run else run.(misp := Send(env, run.misp, Edit(ref, body)).0);
      var (run', outcome) := Reconcile(env, run, item);
      outcome != Failed ==>
        && run1.misp.records == run.misp.records[ref := run.seen[ref].(fields := was + body)]
        && (run', outcome) == Finish(env, run1, item, false, if changes == map[] then Unchanged else Updated,
                                     secret, post)
  {
    var ref := ItemRef(item);
    var was := run.seen[ref].fields;
    var changes, secret := Differences(Wanted(run.seen, item).value, was), Secret(run.misp, run.sent, item);
    if changes + secret == map[] {
      assert changes.Keys <= (changes + secret).Keys;
      assert was + map[] == was;
    }
  }

  lemma EditReaches(env: Env, run: Run, item: Item)
    requires item.Reconciled() && SeenAt(run, item) && ItemRef(item) in run.seen
    ensures var (run', outcome) := Reconcile(env, run, item);
      outcome != Failed ==> Held(run'.misp, run'.sent, item)
  {
    hide Reconcile, Finish, Wanted, Secret, Differences, Held, SecretsHeld;
    var ref, post := ItemRef(item), |run.misp.posts|;
    var (run', outcome) := Reconcile(env, run, item);
    Resolved(env, run, item);
    if outcome != Failed {
      var was := run.seen[ref].fields;
      var changes, secret := Differences(Wanted(run.seen, item).value, was), Secret(run.misp, run.sent, item);
      var body := changes + secret;
      EditSends(env, run, item);
      EditHolds(run.seen, item, was, run.misp, run.sent);
      PasswordAfter(run, item, changes);
      var run1 := if body == map[] then run else run.(misp := Send(env, run.misp, Edit(ref, body)).0);
      FinishReaches(env, run1, item, false, if changes == map[] then Unchanged else Updated, secret, post);
      HeldFrom(run.seen, run'.misp, run'.sent, item);
    }
  }

  lemma Resolved(env: Env, run: Run, item: Item)
    requires item.Reconciled()
    ensures Wanted(run.seen, item).None? ==> Reconcile(env, run, item).1 == Failed
  {
  }

  /** An item that succeeds leaves its record as the file asks. */
  lemma ReconcileReaches(env: Env, run: Run, item: Item)
    requires item.Reconciled() && SeenAt(run, item)
    ensures var (run', outcome) := Reconcile(env, run, item);
      outcome != Failed ==> Held(run'.misp, run'.sent, item)
  {
    if ItemRef(item) in run.seen { EditReaches(env, run, item); } else { CreateReaches(env, run, item); }
  }

  lemma PasswordAfter(run: Run, item: Item, changes: map<string, Value>)
    requires item.Reconciled() && SeenAt(run, item) && ItemRef(item) in run.seen
    requires Wanted(run.seen, item).Some?
    requires changes == Differences(Wanted(run.seen, item).value, run.seen[ItemRef(item)].fields)
    ensures item.UserItem? && item.user.password != "" ==>
      Field(run.seen[ItemRef(item)].fields + (changes + Secret(run.misp, run.sent, item)), "password")
      == Str(item.user.password)
  {
    if item.UserItem? {
      assert "password" !in changes;
    }
  }

  // ---- Every kind of item ------------------------------------------------------------------

  lemma EnableReaches(env: Env, run: Run, list: ListDef)
    requires var ref := ItemRef(ListItem(list));
      ref in run.seen && ref in run.misp.records && SameList(run.misp.records[ref].fields, list)
      && SyncItems.Enabled(run.seen[ref].fields) == SyncItems.Enabled(run.misp.records[ref].fields)
    ensures var (run', outcome) := EnableIfWanted(env, run, ItemRef(ListItem(list)), list.enabled);
      outcome != Failed ==> Held(run'.misp, run'.sent, ListItem(list))
  {
    hide SameList, ListData;
    var ref := ItemRef(ListItem(list));
    if !SyncItems.Enabled(run.seen[ref].fields) && list.enabled {
      var was := run.misp.records[ref].fields;
      EnabledListIsSame(was, list);
    }
  }

  lemma EnabledListIsSame(was: map<string, Value>, list: ListDef)
    requires SameList(was, list)
    ensures var fields := was + map["enabled" := Bool(true)]; SameList(fields, list) && SyncItems.Enabled(fields)
  {
    var fields := was + map["enabled" := Bool(true)];
    forall f | f != "enabled" ensures Field(fields, f) == Field(was, f) {}
  }

  lemma StoredListIsSame(list: ListDef, before: map<string, Value>, after: map<string, Value>)
    requires after.Keys !! ListData(list).Keys
    ensures SameList(before + ListData(list) + after, list)
  {
    var fields := before + ListData(list) + after;
    forall f | f in ListData(list) ensures Field(fields, f) == ListData(list)[f] {}
  }

  lemma CreateListReaches(env: Env, run: Run, list: ListDef)
    requires SeenAt(run, ListItem(list)) && ItemRef(ListItem(list)) !in run.seen
    ensures var (run', outcome) := ApplyList(env, run, list);
      outcome != Failed ==> Held(run'.misp, run'.sent, ListItem(list))
  {
    var ref, data := ItemRef(ListItem(list)), ListData(list) + map["version" := Str(list.version)];
    var (m, answer) := Send(env, run.misp, Add(ref, data));
    if answer != Refused {
      var run1 := Refresh(run.(misp := m), Warninglist);
      CreatedListIsSame(list);
      if ref in run1.seen {
        assert m.records[ref].fields == data;
        assert run1.seen[ref] == m.records[ref];
        EnableReaches(env, run1, list);
      }
    }
  }

  lemma CreatedListIsSame(list: ListDef)
    ensures SameList(ListData(list) + map["version" := Str(list.version)], list)
  {
    var version := map["version" := Str(list.version)];
    StoredListIsSame(list, map[], version);
    assert map[] + ListData(list) + version == ListData(list) + version;
  }

  lemma ListReaches(env: Env, run: Run, list: ListDef)
    requires SeenAt(run, ListItem(list))
    ensures var (run', outcome) := ApplyList(env, run, list);
      outcome != Failed ==> Held(run'.misp, run'.sent, ListItem(list))
  {
    hide SameList, EnableIfWanted, Held;
    var ref := ItemRef(ListItem(list));
    if ref !in run.seen {
      CreateListReaches(env, run, list);
    } else if SameList(run.misp.records[ref].fields, list) {
      EnableReaches(env, run, list);
    } else {
      EditListReaches(env, run, list);
    }
  }

  lemma EditListReaches(env: Env, run: Run, list: ListDef)
    requires SeenAt(run, ListItem(list)) && ItemRef(ListItem(list)) in run.seen
    ensures var (m, answer) := Send(env, run.misp, Edit(ItemRef(ListItem(list)), ListData(list)));
      var (run', outcome) := EnableIfWanted(env, run.(misp := m), ItemRef(ListItem(list)), list.enabled);
      answer == Accepted && outcome != Failed ==> Held(run'.misp, run'.sent, ListItem(list))
  {
    hide SameList, EnableIfWanted, Held;
    var ref := ItemRef(ListItem(list));
    var was := run.misp.records[ref].fields;
    var (m, answer) := Send(env, run.misp, Edit(ref, ListData(list)));
    if answer == Accepted {
      StoredListIsSame(list, was, map[]);
      assert was + ListData(list) + map[] == was + ListData(list);
      assert Field(was + ListData(list), "enabled") == Field(was, "enabled");
      EnableReaches(env, run.(misp := m), list);
    }
  }

  lemma ApplyOneReaches(env: Env, run: Run, item: Item)
    requires !item.GroupItem? && SeenAt(run, item)
    ensures var (run', outcome) := ApplyOne(env, run, item);
      outcome != Failed ==> Held(run'.misp, run'.sent, item)
  {
    match item
    case Enable(ref) =>
    case Sweep(ref, fields) =>
    case ListItem(list) => ListReaches(env, run, list);
    case Malformed =>
    case Loaded(_) =>
    case GroupItem(_) =>
    case _ => ReconcileReaches(env, run, item);
  }

  /** What an item reached stays reached while others change other records. */
  lemma HeldStable(m: Misp, sent: map<string, string>, m': Misp, sent': map<string, string>, others: seq<Item>,
                   item: Item)
    requires Frame(m, m', others) && SentFrame(sent, sent', others) && !MayTouch(others, ItemRef(item))
    requires Held(m, sent, item)
    ensures Held(m', sent', item)
  {
    var ref := ItemRef(item);
    assert m'.records[ref] == m.records[ref];
    assert KeysOf(m', ref) == KeysOf(m, ref);
    if item.Reconciled() { WantedStable(m.records, m'.records, item); }
    if item.ServerItem? { assert SameSent(sent, sent', Url(item.server)); }
  }

  ghost predicate DistinctRefs(items: seq<Item>) {
    forall i, j :: 0 <= i < j < |items| ==> ItemRef(items[i]) != ItemRef(items[j])
  }

  ghost predicate SeenSame(run: Run, r: Ref) {
    (r in run.seen <==> r in run.misp.records) && (r in run.seen ==> run.seen[r] == run.misp.records[r])
  }

  /** From run to run1 the snapshot goes stale at ref only. */
  ghost predicate SeenKeeps(run: Run, run1: Run, ref: Ref) {
    && Extends(run1.seen, run1.misp.records)
    && forall r :: r != ref && SeenSame(run, r) ==> SeenSame(run1, r)
  }

  lemma StaleAtOne(run: Run, run1: Run, item: Item)
    requires Extends(run.seen, run.misp.records) && RunFrame(run, run1, [item]) && run1.seen == run.seen
    ensures SeenKeeps(run, run1, ItemRef(item))
  {
    forall r | r != ItemRef(item) ensures !MayTouch([item], r) { Single(item, r, "", LoadTaxonomies); }
  }

  lemma RefreshSeen(run: Run, kind: Kind)
    requires Extends(run.seen, run.misp.records)
    ensures var run1 := Refresh(run, kind);
      && Extends(run1.seen, run1.misp.records)
      && (forall r: Ref :: SeenSame(run, r) || r.kind == kind ==> SeenSame(run1, r))
      && (forall r: Ref :: r.kind != kind ==> (r in run1.seen <==> r in run.seen))
      && (forall r: Ref :: r.kind != kind && r in run.seen ==> run1.seen[r] == run.seen[r])
  {
  }

  lemma EnableIfWantedSeen(env: Env, run: Run, list: ListDef)
    requires ItemRef(ListItem(list)) in run.seen && Extends(run.seen, run.misp.records)
    ensures SeenKeeps(run, EnableIfWanted(env, run, ItemRef(ListItem(list)), list.enabled).0, ItemRef(ListItem(list)))
  {
    EnableIfWantedFrame(env, run, list);
    StaleAtOne(run, EnableIfWanted(env, run, ItemRef(ListItem(list)), list.enabled).0, ListItem(list));
  }

  lemma SendSeen(env: Env, run: Run, item: Item, p: Post)
    requires Extends(run.seen, run.misp.records) && (p.Add? || p.Edit?) && TargetedBy(item, p)
    ensures SeenKeeps(run, run.(misp := Send(env, run.misp, p).0), ItemRef(item))
  {
    SendStep(env, run, item, p);
    StaleAtOne(run, run.(misp := Send(env, run.misp, p).0), item);
  }

  lemma ListSeen(env: Env, run: Run, list: ListDef)
    requires Extends(run.seen, run.misp.records)
    ensures SeenKeeps(run, ApplyList(env, run, list).0, ItemRef(ListItem(list)))
  {
    var item, ref := ListItem(list), ItemRef(ListItem(list));
    if ref !in run.seen {
      var p := Add(ref, ListData(list) + map["version" := Str(list.version)]);
      var run0 := run.(misp := Send(env, run.misp, p).0);
      SendSeen(env, run, item, p);
      RefreshSeen(run0, Warninglist);
      var run1 := Refresh(run0, Warninglist);
      if ref in run1.seen { EnableIfWantedSeen(env, run1, list); }
    } else {
      EnableIfWantedSeen(env, run, list);
      var p := Edit(ref, ListData(list));
      var run0 := run.(misp := Send(env, run.misp, p).0);
      SendSeen(env, run, item, p);
      EnableIfWantedSeen(env, run0, list);
    }
  }

  lemma ApplyOneSeen(env: Env, run: Run, item: Item)
    requires !item.GroupItem? && Extends(run.seen, run.misp.records)
    ensures SeenKeeps(run, ApplyOne(env, run, item).0, ItemRef(item))
  {
    if item.ListItem? {
      ListSeen(env, run, item.list);
    } else {
      ApplyOneFrame(env, run, item);
      assert forall i <- [item] :: !i.ListItem?;
      StaleAtOne(run, ApplyOne(env, run, item).0, item);
    }
  }

  lemma {:induction false} EachSeen(env: Env, run: Run, items: seq<Item>)
    requires Extends(run.seen, run.misp.records) && forall i <- items :: !i.GroupItem?
    ensures var run' := Each(env, run, items).0;
      && Extends(run'.seen, run'.misp.records)
      && forall r :: !MayTouch(items, r) && SeenSame(run, r) ==> SeenSame(run', r)
    decreases items
  {
    if items != [] {
      var run1 := ApplyOne(env, run, items[0]).0;
      ApplyOneSeen(env, run, items[0]);
      EachSeen(env, run1, items[1..]);
      forall r | !MayTouch(items, r) ensures r != ItemRef(items[0]) && !MayTouch(items[1..], r) {
        assert items == [items[0]] + items[1..];
        TouchSum([items[0]], items[1..], r);
        Single(items[0], r, "", LoadTaxonomies);
      }
    }
  }

  /** A step whose items all succeed leaves each of their records as the file asks. */
  lemma {:induction false} EachReaches(env: Env, run: Run, items: seq<Item>)
    requires DistinctRefs(items) && forall i <- items :: !i.GroupItem? && SeenAt(run, i)
    requires Failed !in Each(env, run, items).1
    ensures var run' := Each(env, run, items).0; forall i <- items :: Held(run'.misp, run'.sent, i)
    decreases items
  {
    if items != [] {
      var first, rest := items[0], items[1..];
      var (run1, outcome) := ApplyOne(env, run, first);
      var (run2, outcomes) := Each(env, run1, rest);
      assert Each(env, run, items).1[0] == outcome && Each(env, run, items).1[1..] == outcomes;
      ApplyOneReaches(env, run, first);
      ApplyOneSeen(env, run, first);
      forall i | i in rest ensures SeenAt(run1, i) && ItemRef(i) != ItemRef(first) && !i.GroupItem? {
        var k :| 0 <= k < |rest| && rest[k] == i;
        assert items[k + 1] == i && items[0] == first;
        assert ItemRef(items[0]) != ItemRef(items[k + 1]);
        assert items[k + 1] in items && SeenSame(run, ItemRef(i));
        assert SeenSame(run1, ItemRef(i));
      }
      EachReaches(env, run1, rest);
      EachFrame(env, run1, rest);
      HeldStable(run1.misp, run1.sent, run2.misp, run2.sent, rest, first);
    }
  }
}
