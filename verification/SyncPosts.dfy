/** When an item of org-sync posts, and that the recorded server keys are the delivered ones. */
module SyncPosts {
  import opened Values
  import opened MispWorld
  import opened SharingGroups
  import opened SyncItems
  import opened SyncSteps

  // ---- A settled item is quiet -------------------------------------------------------------

  predicate Ok(o: Outcome) { o == Unchanged || o == Applied }

  lemma SecretsAreQuiet(m: Misp, sent: map<string, string>, item: Item)
    requires SecretsHeld(m, sent, item)
    ensures Secret(m, sent, item) == map[]
  {
  }

  lemma FinishIsQuiet(env: Env, run: Run, item: Item, post: nat)
    requires SecretsHeld(run.misp, run.sent, item)
    ensures Finish(env, run, item, false, Unchanged, map[], post) == (run, Unchanged)
  {
    if item.ServerItem? && item.server.authkey != "" {
      var url := Url(item.server);
      assert run.sent[url := Digest(item.server.authkey)] == run.sent;
    }
  }

  /** An item whose record is as the file asks posts nothing and changes nothing. */
  lemma HeldIsQuiet(env: Env, run: Run, item: Item)
    requires run.seen == run.misp.records && Held(run.misp, run.sent, item) && !item.Sweep?
    ensures var (run', o) := ApplyOne(env, run, item); run' == run && Ok(o)
  {
    if item.Reconciled() {
      var ref := ItemRef(item);
      var want := Wanted(run.seen, item).value;
      NoDifferences(want, run.seen[ref].fields);
      SecretsAreQuiet(run.misp, run.sent, item);
      assert Differences(want, run.seen[ref].fields) + Secret(run.misp, run.sent, item) == map[];
      FinishIsQuiet(env, run, item, |run.misp.posts|);
    }
  }

  /** A step over such items posts nothing. */
  lemma {:induction false} EachIsQuiet(env: Env, run: Run, items: seq<Item>)
    requires run.seen == run.misp.records
    requires forall i <- items :: Held(run.misp, run.sent, i) && !i.Sweep?
    ensures var (run', os) := Each(env, run, items); run' == run && forall o <- os :: Ok(o)
    decreases items
  {
    if items != [] {
      assert items[0] in items;
      HeldIsQuiet(env, run, items[0]);
      EachIsQuiet(env, run, items[1..]);
    }
  }

  // ---- Each item posts exactly when its record differs --------------------------------------

  /** The names of the item resolve in the snapshot. */
  ghost predicate Resolves(seen: Table, item: Item) {
    match item
    case Enable(ref) => ref in seen
    case GroupItem(_) => false
    case Malformed => false
    case Loaded(_) => false
    case _ => item.Reconciled() ==> Wanted(seen, item).Some?
  }

  /** The record is missing, or differs from the file in a field that a post carries. */
  ghost predicate Differs(m: Misp, sent: map<string, string>, item: Item) {
    var ref := ItemRef(item);
    ref !in m.records ||
    var fields := m.records[ref].fields;
    match item
    case Enable(_) => !SyncItems.Enabled(fields)
    case Sweep(_, _) => true
    case ListItem(list) => !SameList(fields, list) || (list.enabled && !SyncItems.Enabled(fields))
    case GroupItem(_) => false
    case Malformed => false
    case Loaded(_) => false
    case _ => Wanted(m.records, item).Some? &&
              (!Holds(fields, Wanted(m.records, item).value) || Secret(m, sent, item) != map[])
  }

  ghost predicate PostedAbout(m: Misp, m': Misp, ref: Ref) {
    exists i :: |m.posts| <= i < |m'.posts| && About(m'.posts[i], ref)
  }

  ghost predicate About(p: Post, ref: Ref) { (p.Add? || p.Edit?) && p.ref == ref }

  lemma AppendedPosts(m: Misp, m': Misp, more: seq<Post>, ref: Ref)
    requires m'.posts == m.posts + more
    ensures PostedAbout(m, m', ref) <==> exists p <- more :: About(p, ref)
  {
    if p :| p in more && About(p, ref) {
      var k :| 0 <= k < |more| && more[k] == p;
      assert About(m'.posts[|m.posts| + k], ref);
    }
  }

  /** The one post of a record item, if any. */
  function PostsOf(run: Run, item: Item): seq<Post>
    requires item.Reconciled()
  {
    var want, ref := Wanted(run.seen, item), ItemRef(item);
    if want.None? then [] else if ref !in run.seen then
      [Add(ref, want.value + CreateOnly(item, |run.misp.posts|))]
    else
      var body := Differences(want.value, run.seen[ref].fields) + Secret(run.misp, run.sent, item);
      if body == map[] then [] else [Edit(ref, body)]
  }

  lemma ReconcileLog(env: Env, run: Run, item: Item)
    requires item.Reconciled()
    ensures Reconcile(env, run, item).0.misp.posts == run.misp.posts + PostsOf(run, item)
  {
    var posts := PostsOf(run, item);
    if posts == [] {
      FinishLog(env, run, item, false, Unchanged, Secret(run.misp, run.sent, item), |run.misp.posts|);
    } else {
      var run1 := run.(misp := Send(env, run.misp, posts[0]).0);
      assert run1.misp.posts == run.misp.posts + posts;
      forall created, outcome, secret, post {
        FinishLog(env, run1, item, created, outcome, secret, post);
      }
    }
  }

  lemma FinishLog(env: Env, run: Run, item: Item, created: bool, outcome: Outcome, secret: map<string, Value>,
                  post: nat)
    ensures Finish(env, run, item, created, outcome, secret, post).0.misp.posts == run.misp.posts
  {
  }

  lemma ReconcilePosts(env: Env, run: Run, item: Item)
    requires item.Reconciled() && SeenAt(run, item) && Resolves(run.seen, item)
    ensures PostedAbout(run.misp, Reconcile(env, run, item).0.misp, ItemRef(item)) <==>
            Differs(run.misp, run.sent, item)
  {
    var ref, posts := ItemRef(item), PostsOf(run, item);
    ReconcileLog(env, run, item);
    AppendedPosts(run.misp, Reconcile(env, run, item).0.misp, posts, ref);
    WantedStable(run.seen, run.misp.records, item);
    if ref in run.seen {
      var want := Wanted(run.seen, item).value;
      var changes, secret := Differences(want, run.seen[ref].fields), Secret(run.misp, run.sent, item);
      NoDifferences(want, run.seen[ref].fields);
      assert (changes + secret).Keys == changes.Keys + secret.Keys;
      if posts != [] { assert posts[0] in posts; }
    } else {
      assert posts[0] in posts;
    }
  }

  lemma EnableLog(env: Env, run: Run, ref: Ref, wanted: bool)
    requires ref in run.seen
    ensures EnableIfWanted(env, run, ref, wanted).0.misp.posts == run.misp.posts
              + if !SyncItems.Enabled(run.seen[ref].fields) && wanted
                then [Edit(ref, map["enabled" := Bool(true)])] else []
  {
  }

  lemma SentIsLogged(env: Env, m: Misp, p: Post)
    requires p.Add? || p.Edit?
    ensures Send(env, m, p).0.posts == m.posts + [p]
  {
  }

  lemma ListLog(env: Env, run: Run, list: ListDef) returns (p: Post, more: seq<Post>)
    requires SeenAt(run, ListItem(list))
    requires var ref := ItemRef(ListItem(list)); ref !in run.seen || !SameList(run.misp.records[ref].fields, list)
    ensures About(p, ItemRef(ListItem(list)))
    ensures ApplyList(env, run, list).0.misp.posts == run.misp.posts + ([p] + more)
  {
    hide ListData, SameList, EnableIfWanted, Send, Refresh;
    var ref := ItemRef(ListItem(list));
    p := if ref !in run.seen then Add(ref, ListData(list) + map["version" := Str(list.version)])
         else Edit(ref, ListData(list));
    var (m, answer) := Send(env, run.misp, p);
    SentIsLogged(env, run.misp, p);
    var run0 := run.(misp := m);
    var run1 := if ref !in run.seen then Refresh(run0, Warninglist) else run0;
    RefreshSent(run0);
    more := [];
    if answer != Refused && ref in run1.seen && (ref !in run.seen || answer == Accepted) {
      EnableLog(env, run1, ref, list.enabled);
      more := EnableIfWanted(env, run1, ref, list.enabled).0.misp.posts[|m.posts|..];
      assert EnableIfWanted(env, run1, ref, list.enabled).0.misp.posts == run.misp.posts + ([p] + more);
    } else {
      assert m.posts == run.misp.posts + ([p] + more);
    }
  }

  lemma ListPosts(env: Env, run: Run, list: ListDef)
    requires SeenAt(run, ListItem(list))
    ensures PostedAbout(run.misp, ApplyList(env, run, list).0.misp, ItemRef(ListItem(list))) <==>
            Differs(run.misp, run.sent, ListItem(list))
  {
    hide SameList, ListData, EnableIfWanted, PostedAbout;
    var ref := ItemRef(ListItem(list));
    if ref in run.seen && SameList(run.misp.records[ref].fields, list) {
      var posts := if !SyncItems.Enabled(run.seen[ref].fields) && list.enabled
                   then [Edit(ref, map["enabled" := Bool(true)])] else [];
      EnableLog(env, run, ref, list.enabled);
      AppendedPosts(run.misp, ApplyList(env, run, list).0.misp, posts, ref);
      if posts != [] { assert posts[0] in posts; }
    } else {
      var p, more := ListLog(env, run, list);
      assert p in [p] + more;
      AppendedPosts(run.misp, ApplyList(env, run, list).0.misp, [p] + more, ref);
    }
  }

  /** An item posts about its record if and only if its names resolve and the record differs from the file. */
  lemma ApplyOnePosts(env: Env, run: Run, item: Item)
    requires SeenAt(run, item) && !item.GroupItem? && !item.Loaded?
    ensures PostedAbout(run.misp, ApplyOne(env, run, item).0.misp, ItemRef(item))
            <==> Resolves(run.seen, item) && Differs(run.misp, run.sent, item)
  {
    hide PostedAbout;
    if !Resolves(run.seen, item) {
      AppendedPosts(run.misp, ApplyOne(env, run, item).0.misp, [], ItemRef(item)) by { Unresolved(env, run, item); }
    } else {
      match item
      case Enable(ref) =>
        var posts := if SyncItems.Enabled(run.seen[ref].fields) then [] else [Edit(ref, map["enabled" := Bool(true)])];
        AppendedPosts(run.misp, ApplyOne(env, run, item).0.misp, posts, ref);
        if posts != [] { assert posts[0] in posts; }
      case Sweep(ref, fields) =>
        var posts := [Edit(ref, fields)];
        AppendedPosts(run.misp, ApplyOne(env, run, item).0.misp, posts, ref);
        assert posts[0] in posts;
      case ListItem(list) => ListPosts(env, run, list);
      case Malformed =>
      case _ => ReconcilePosts(env, run, item);
    }
  }

  /** An item whose names do not resolve posts nothing. */
  lemma Unresolved(env: Env, run: Run, item: Item)
    requires !Resolves(run.seen, item) && !item.GroupItem?
    ensures ApplyOne(env, run, item).0.misp.posts == run.misp.posts + []
  {
  }

  lemma PostedSum(m: Misp, m1: Misp, m2: Misp, ref: Ref)
    requires m.posts <= m1.posts <= m2.posts
    ensures PostedAbout(m, m2, ref) <==> PostedAbout(m, m1, ref) || PostedAbout(m1, m2, ref)
  {
    if PostedAbout(m, m1, ref) {
      var i :| |m.posts| <= i < |m1.posts| && About(m1.posts[i], ref);
      assert About(m2.posts[i], ref);
    }
    if PostedAbout(m, m2, ref) {
      var i :| |m.posts| <= i < |m2.posts| && About(m2.posts[i], ref);
      if i < |m1.posts| { assert About(m1.posts[i], ref); }
    }
  }

  lemma PostsStayWithin(m: Misp, m': Misp, items: seq<Item>, ref: Ref)
    requires Frame(m, m', items) && !MayTouch(items, ref)
    ensures !PostedAbout(m, m', ref)
  {
    forall i | |m.posts| <= i < |m'.posts| ensures !About(m'.posts[i], ref) {
      assert Targeted(items, m'.posts[i]);
    }
  }

  /** A custom list leaves the row of sent keys, and the snapshot but for a refresh after a create. */
  lemma ListKeeps(env: Env, run: Run, list: ListDef)
    ensures var ref := ItemRef(ListItem(list));
      var p := Add(ref, ListData(list) + map["version" := Str(list.version)]);
      var run', run0 := ApplyList(env, run, list).0, run.(misp := Send(env, run.misp, p).0);
      && run'.sent == run.sent
      && (run'.seen == run.seen || run'.seen == Refresh(run0, Warninglist).seen)
  {
    hide Send, ListData, SameList, EnableIfWanted, Refresh;
    var ref := ItemRef(ListItem(list));
    if ref !in run.seen {
      var p := Add(ref, ListData(list) + map["version" := Str(list.version)]);
      var (m, answer) := Send(env, run.misp, p);
      RefreshSent(run.(misp := m));
      if answer != Refused {
        var run1 := Refresh(run.(misp := m), Warninglist);
        if ref in run1.seen { EnableKeeps(env, run1, ref, list.enabled); }
      }
    } else {
      EnableKeeps(env, run, ref, list.enabled);
      var (m, answer) := Send(env, run.misp, Edit(ref, ListData(list)));
      EnableKeeps(env, run.(misp := m), ref, list.enabled);
    }
  }

  lemma RefreshSent(run: Run)
    ensures Refresh(run, Warninglist).sent == run.sent && Refresh(run, Warninglist).misp == run.misp
  {
  }

  lemma EnableKeeps(env: Env, run: Run, ref: Ref, wanted: bool)
    requires ref in run.seen
    ensures var run' := EnableIfWanted(env, run, ref, wanted).0; run'.seen == run.seen && run'.sent == run.sent
  {
  }

  lemma RefreshGrows(run: Run, m: Misp)
    requires Extends(run.seen, run.misp.records) && Extends(run.misp.records, m.records)
    ensures Extends(run.seen, Refresh(run.(misp := m), Warninglist).seen)
  {
  }

  lemma SeenGrows(env: Env, run: Run, item: Item)
    requires Extends(run.seen, run.misp.records)
    ensures Extends(run.seen, ApplyOne(env, run, item).0.seen)
  {
    if item.ListItem? {
      var p := Add(ItemRef(item), ListData(item.list) + map["version" := Str(item.list.version)]);
      SendFrame(env, run.misp, item, p);
      RefreshGrows(run, Send(env, run.misp, p).0);
      ListKeeps(env, run, item.list);
    } else {
      ApplyOneFrame(env, run, item);
      assert forall i <- [item] :: !i.ListItem?;
    }
  }

  /** Another item's work does not change whether an item differs. */
  lemma DiffersStable(run: Run, run': Run, others: seq<Item>, item: Item)
    requires RunFrame(run, run', others) && !MayTouch(others, ItemRef(item))
    requires SeenAt(run, item) && Resolves(run.seen, item)
    ensures Differs(run'.misp, run'.sent, item) <==> Differs(run.misp, run.sent, item)
  {
    if item.Reconciled() {
      WantedStable(run.seen, run.misp.records, item);
      WantedStable(run.seen, run'.misp.records, item);
    }
    if item.ServerItem? { assert SameSent(run.sent, run'.sent, Url(item.server)); }
  }

  /** Only custom warninglists refresh the snapshot within a step, and no record item is beside them. */
  ghost predicate OneSort(items: seq<Item>) {
    (forall i <- items :: !i.ListItem?) || (forall i <- items :: !i.Reconciled())
  }

  ghost predicate Attemptable(run: Run, items: seq<Item>) {
    DistinctRefs(items) && OneSort(items) && forall i <- items :: SeenAt(run, i) && !i.GroupItem? && !i.Loaded?
  }

  /** A step attempts every item: whichever posts MISP refuses and whichever items fail, an item gets a post if and
      only if its names resolve and its record differed from the file when the step began. */
  lemma {:induction false} EachAttempts(env: Env, run: Run, items: seq<Item>, k: nat)
    requires k < |items| && Attemptable(run, items)
    ensures PostedAbout(run.misp, Each(env, run, items).0.misp, ItemRef(items[k]))
            <==> Resolves(run.seen, items[k]) && Differs(run.misp, run.sent, items[k])
    decreases items
  {
    hide PostedAbout, Differs, Resolves, ApplyOne, Frame, SentFrame, SeenAt;
    var first, rest, ref := items[0], items[1..], ItemRef(items[k]);
    var run1 := ApplyOne(env, run, first).0;
    var run2 := Each(env, run1, rest).0;
    assert first in items && items[k] in items;
    ApplyOneFrame(env, run, first);
    EachFrame(env, run1, rest);
    PostsGrow(run, run1, [first]);
    PostsGrow(run1, run2, rest);
    PostedSum(run.misp, run1.misp, run2.misp, ref);
    if k == 0 {
      ApplyOnePosts(env, run, first);
      forall i | i in rest ensures ItemRef(i) != ref {
        var j :| 0 <= j < |rest| && rest[j] == i;
        assert items[j + 1] == i;
      }
      PostsStayWithin(run1.misp, run2.misp, rest, ref);
    } else {
      Single(first, ref, "", LoadTaxonomies);
      assert ItemRef(items[0]) != ItemRef(items[k]);
      PostsStayWithin(run.misp, run1.misp, [first], ref);
      AttemptStable(env, run, first, items, items[k]);
      RestIsReady(env, run, items);
      EachAttempts(env, run1, rest, k - 1);
    }
  }

  lemma PostsGrow(run: Run, run': Run, items: seq<Item>)
    requires RunFrame(run, run', items)
    ensures run.misp.posts <= run'.misp.posts
  {
  }

  /** Another item's work changes neither whether an item resolves nor whether it differs. */
  lemma AttemptStable(env: Env, run: Run, first: Item, items: seq<Item>, item: Item)
    requires first in items && item in items && ItemRef(first) != ItemRef(item)
    requires OneSort(items) && SeenAt(run, first) && SeenAt(run, item) && !first.GroupItem?
    ensures var run1 := ApplyOne(env, run, first).0;
      && SeenAt(run1, item)
      && (Resolves(run1.seen, item) <==> Resolves(run.seen, item))
      && (Resolves(run.seen, item) ==> (Differs(run1.misp, run1.sent, item) <==> Differs(run.misp, run.sent, item)))
  {
    hide ApplyOne, Wanted, Differs, Frame;
    var run1 := ApplyOne(env, run, first).0;
    ApplyOneFrame(env, run, first);
    ApplyOneSeen(env, run, first);
    assert forall i <- [first] :: i == first;
    Single(first, ItemRef(item), "", LoadTaxonomies);
    SameThere(run, run1, [first], ItemRef(item));
    if Resolves(run.seen, item) { DiffersStable(run, run1, [first], item); }
  }

  lemma SameThere(run: Run, run': Run, others: seq<Item>, ref: Ref)
    requires RunFrame(run, run', others) && !MayTouch(others, ref)
    ensures ref in run.misp.records <==> ref in run'.misp.records
  {
  }

  lemma RestIsReady(env: Env, run: Run, items: seq<Item>)
    requires items != [] && Attemptable(run, items)
    ensures Attemptable(ApplyOne(env, run, items[0]).0, items[1..])
    ensures forall i <- items[1..] :: Resolves(run.seen, i) ==> Resolves(ApplyOne(env, run, items[0]).0.seen, i)
  {
    hide ApplyOne, Resolves, Differs, SeenAt;
    var first, rest := items[0], items[1..];
    var run1 := ApplyOne(env, run, first).0;
    forall i | i in rest ensures i in items && SeenAt(run1, i) && (Resolves(run.seen, i) ==> Resolves(run1.seen, i)) {
      var j :| 0 <= j < |rest| && rest[j] == i;
      assert items[j + 1] == i && ItemRef(items[0]) != ItemRef(items[j + 1]);
      AttemptStable(env, run, first, items, i);
    }
  }

  // ---- The row of server keys --------------------------------------------------------------

  /** Every recorded digest is that of the key its server has. */
  ghost predicate Truthful(m: Misp, sent: map<string, string>) {
    forall url :: url in sent ==> KeyDelivered(m, url, sent[url])
  }

  ghost predicate KeyDelivered(m: Misp, url: string, digest: string) {
    var ref := Ref(Server, url);
    && ref in m.records
    && Field(m.records[ref].fields, "authkey").Str?
    && digest == Digest(Field(m.records[ref].fields, "authkey").s)
  }

  lemma {:induction false} KeysElsewhere(run: Run, run': Run, item: Item)
    requires RunFrame(run, run', [item]) && Truthful(run.misp, run.sent)
    requires !item.ServerItem? && "authkey" !in EditKeys(item)
    requires run'.sent == run.sent
    ensures Truthful(run'.misp, run'.sent)
  {
    forall url | url in run.sent ensures KeyDelivered(run'.misp, url, run.sent[url]) {
      assert KeyDelivered(run.misp, url, run.sent[url]);
      var ref := Ref(Server, url);
      Single(item, ref, "authkey", LoadTaxonomies);
      assert SameField(run.misp.records[ref], run'.misp.records[ref], "authkey");
    }
  }

  lemma ServerKeeps(env: Env, run: Run, item: Item)
    requires item.ServerItem? && Truthful(run.misp, run.sent)
    ensures var run' := Reconcile(env, run, item).0; Truthful(run'.misp, run'.sent)
  {
    var run' := Reconcile(env, run, item).0;
    var ref, mine := ItemRef(item), Url(item.server);
    ReconcileFrame(env, run, item);
    forall url | url in run'.sent ensures KeyDelivered(run'.misp, url, run'.sent[url]) {
      if url != mine {
        Single(item, Ref(Server, url), "authkey", LoadTaxonomies);
        assert SameSent(run.sent, run'.sent, url);
        assert KeyDelivered(run.misp, url, run.sent[url]);
      } else {
        if url in run.sent { assert KeyDelivered(run.misp, url, run.sent[url]); }
        ServerKey(env, run, item);
      }
    }
  }

  /** After a server's item the row holds, for its URL, the digest of the server's key or what it held. */
  lemma ServerKey(env: Env, run: Run, item: Item)
    requires item.ServerItem?
    requires var url := Url(item.server); url in run.sent ==> KeyDelivered(run.misp, url, run.sent[url])
    ensures var run', url := Reconcile(env, run, item).0, Url(item.server);
      url in run'.sent ==> KeyDelivered(run'.misp, url, run'.sent[url])
  {
    var ref, url, key := ItemRef(item), Url(item.server), item.server.authkey;
    var run' := Reconcile(env, run, item).0;
    if Wanted(run.seen, item).Some? {
      var want := Wanted(run.seen, item).value;
      assert "authkey" !in want by {
        if "authkey" in want { FieldsApart(run.seen, item, 0, "authkey"); }
      }
      if ref !in run.seen {
        var fields := want + CreateOnly(item, |run.misp.posts|);
        var (m, answer) := Send(env, run.misp, Add(ref, fields));
        if answer == Accepted {
          assert m.records[ref].fields == fields;
          assert key != "" ==> Field(fields, "authkey") == Str(key);
        }
      } else {
        var changes, secret := Differences(want, run.seen[ref].fields), Secret(run.misp, run.sent, item);
        EditKeepsKey(env, run, item, changes, secret);
      }
    }
  }

  lemma EditKeepsKey(env: Env, run: Run, item: Item, changes: map<string, Value>, secret: map<string, Value>)
    requires item.ServerItem? && "authkey" !in changes && secret == Secret(run.misp, run.sent, item)
    requires var url := Url(item.server); url in run.sent ==> KeyDelivered(run.misp, url, run.sent[url])
    requires changes + secret != map[] || secret == map[]
    ensures var url, key := Url(item.server), item.server.authkey;
      var (m, answer) := if changes + secret == map[] then (run.misp, Accepted)
                         else Send(env, run.misp, Edit(ItemRef(item), changes + secret));
      && (url in run.sent ==> KeyDelivered(m, url, run.sent[url]) || (answer == Accepted && key != ""))
      && (answer == Accepted && key != "" ==> KeyDelivered(m, url, Digest(key)))
  {
    var ref, url, key := ItemRef(item), Url(item.server), item.server.authkey;
    if changes + secret != map[] && ref in run.misp.records {
      var was := run.misp.records[ref].fields;
      var after := was + (changes + secret);
      assert Field(after, "authkey") == if secret == map[] then Field(was, "authkey") else Str(key);
    }
  }

  lemma SentElsewhere(env: Env, run: Run, item: Item)
    requires !item.ServerItem?
    ensures ApplyOne(env, run, item).0.sent == run.sent
  {
    match item
    case ListItem(list) => ListKeeps(env, run, list);
    case _ =>
  }

  lemma ApplyOneKeepsTruth(env: Env, run: Run, item: Item)
    requires Truthful(run.misp, run.sent) && (item.Sweep? ==> "authkey" !in EditKeys(item))
    ensures var run' := ApplyOne(env, run, item).0; Truthful(run'.misp, run'.sent)
  {
    if item.ServerItem? {
      ServerKeeps(env, run, item);
    } else {
      ApplyOneFrame(env, run, item);
      if !item.Sweep? { NoServerKey(item); }
      SentElsewhere(env, run, item);
      KeysElsewhere(run, ApplyOne(env, run, item).0, item);
    }
  }

  lemma NoServerKey(item: Item)
    requires !item.ServerItem? && !item.Sweep?
    ensures "authkey" !in EditKeys(item)
  {
    if item.RoleItem? { assert !RoleField("authkey"); }
  }

  lemma {:induction false} EachKeepsTruth(env: Env, run: Run, items: seq<Item>)
    requires Truthful(run.misp, run.sent) && forall i <- items :: i.Sweep? ==> "authkey" !in EditKeys(i)
    ensures var run' := Each(env, run, items).0; Truthful(run'.misp, run'.sent)
    decreases items
  {
    if items != [] {
      ApplyOneKeepsTruth(env, run, items[0]);
      EachKeepsTruth(env, ApplyOne(env, run, items[0]).0, items[1..]);
    }
  }

  ghost predicate CarriesKey(posts: seq<Post>, key: string) {
    exists p <- posts :: (p.Add? || p.Edit?) && "authkey" in p.fields && p.fields["authkey"] == Str(key)
  }

  /** What is posted of a server carries its key if and only if MISP lacks the server or the row does not record
      that key as the one last sent. */
  lemma KeySentWhenChanged(env: Env, run: Run, item: Item) returns (posts: seq<Post>)
    requires item.ServerItem? && item.server.authkey != "" && Resolves(run.seen, item)
    ensures Reconcile(env, run, item).0.misp.posts == run.misp.posts + posts
    ensures CarriesKey(posts, item.server.authkey) <==>
            (ItemRef(item) !in run.seen || Url(item.server) !in run.sent
             || run.sent[Url(item.server)] != Digest(item.server.authkey))
  {
    hide Reconcile, BuildRules, TagIds;
    ReconcileLog(env, run, item);
    posts := PostsOf(run, item);
    if ItemRef(item) in run.seen && posts != [] {
      assert "authkey" !in Wanted(run.seen, item).value;
    }
    if posts != [] { assert posts[0] in posts; }
  }
}
