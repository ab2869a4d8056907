/** What an entry of the file posts of its record, how it counts, and when it fails. */
module SyncEntries {
  import opened Values
  import opened MispWorld
  import opened SharingGroups
  import opened SyncItems
  import opened SyncSteps
  import opened SyncAsked

  /** An entry that succeeds leaves its record, its API key and the row of server keys as it asks. */
  lemma EntryReaches(env: Env, run: Run, item: Item)
    requires item.Reconciled() && SeenAt(run, item)
    ensures var (run', outcome) := Reconcile(env, run, item);
      outcome != Failed ==> Asked(run'.misp, run'.sent, item)
  {
    hide Reconcile, Held, Asked, SeenAt;
    ReconcileReaches(env, run, item);
    HeldMeans(Reconcile(env, run, item).0.misp, Reconcile(env, run, item).0.sent, item);
  }

  /** What a create posts besides the fields that are compared from then on; `random` is the value drawn for it. */
  ghost predicate NewRecord(item: Item, fields: map<string, Value>, random: Value)
    requires item.Reconciled()
  {
    match item
    case RoleItem(role) =>
      && (forall f :: f in fields <==> f == "name" || (f in role.fields && RoleField(f)))
      && fields["name"] == Str(role.name)
    case OrgItem(team) =>
      && fields.Keys == {"uuid", "name", "description", "sector", "nationality", "type", "contacts", "local"}
      && fields["uuid"] == Str(team.uuid)
    case TagItem(tag, _) =>
      && fields.Keys == {"name", "colour", "exportable", "hide_tag", "org_id"}
      && fields["name"] == Str(tag.name)
    case UserItem(user, _) =>
      && fields.Keys == {"email", "org_id", "role_id", "disabled", "termsaccepted", "change_pw", "password"}
                        + (if user.externalAuth then {"external_auth_required", "external_auth_key"} else {})
      && fields["email"] == Str(user.email) && fields["termsaccepted"] == Bool(true) && fields["change_pw"] == Int(0)
      && fields["password"] == if user.password != "" then Str(user.password) else random
    case ServerItem(server, _) =>
      && fields.Keys == {"name", "url", "authkey", "remote_org_id", "push", "pull", "internal", "self_signed",
                         "caching_enabled", "pull_rules", "push_rules"}
      && fields["url"] == Str(TrimSlashes(server.url))
      && fields["authkey"] == if server.authkey != "" then Str(server.authkey) else random
  }

  /** An entry creates its record if and only if the snapshot lacks it, with its key and the fields of a new record. */
  lemma EntryCreates(env: Env, run: Run, item: Item)
    requires item.Reconciled() && SeenAt(run, item)
    ensures var (run', outcome) := Reconcile(env, run, item); var ref := ItemRef(item);
      outcome != Failed ==>
        && (outcome == Created <==> ref !in run.seen)
        && (outcome == Created ==>
              && ref in run'.misp.records
              && NewRecord(item, run'.misp.records[ref].fields, Token(|run.misp.posts|))
              && run'.misp.posts == run.misp.posts + [Add(ref, run'.misp.records[ref].fields)])
  {
    hide Wanted, CreateOnly, Secret, Differences, NewRecord, SetAuthkey;
    if ItemRef(item) !in run.seen && Wanted(run.seen, item).Some? {
      NewFields(run.seen, item, |run.misp.posts|);
      forall m: Misp, key ensures var m' := SetAuthkey(m, ItemRef(item), key); m'.records == m.records && m'.posts == m.posts {
        AuthkeyOnly(m, ItemRef(item), key);
      }
    }
  }

  lemma AuthkeyOnly(m: Misp, ref: Ref, key: string)
    ensures var m' := SetAuthkey(m, ref, key); m'.records == m.records && m'.posts == m.posts
  {
  }

  lemma NewFields(seen: Table, item: Item, nonce: nat)
    requires item.Reconciled() && Wanted(seen, item).Some?
    ensures NewRecord(item, Wanted(seen, item).value + CreateOnly(item, nonce), Token(nonce))
  {
    if item.UserItem? {
      NewUser(seen, item.user, item.org, nonce);
    } else if item.ServerItem? {
      NewServer(seen, item.server, item.org, nonce);
    } else {
      hide Lower, TrimSlashes;
    }
  }

  lemma NewUser(seen: Table, user: UserDef, org: Option<int>, nonce: nat)
    requires Wanted(seen, UserItem(user, org)).Some?
    ensures var item := UserItem(user, org);
      NewRecord(item, Wanted(seen, item).value + CreateOnly(item, nonce), Token(nonce))
  {
  }

  lemma NewServer(seen: Table, server: ServerDef, org: Option<int>, nonce: nat)
    requires Wanted(seen, ServerItem(server, org)).Some?
    ensures var item := ServerItem(server, org);
      NewRecord(item, Wanted(seen, item).value + CreateOnly(item, nonce), Token(nonce))
  {
    hide BuildRules;
  }

  /** What an entry posts of a record that is there differs from what the record holds, field by field; a password
      or key goes beside it. */
  lemma EntryEdits(env: Env, run: Run, item: Item, k: nat)
    requires item.Reconciled() && ItemRef(item) in run.seen
    requires var posts := Reconcile(env, run, item).0.misp.posts; |run.misp.posts| <= k < |posts|
    ensures var posts := Reconcile(env, run, item).0.misp.posts;
      && |posts| == |run.misp.posts| + 1 && posts[k].Edit? && posts[k].ref == ItemRef(item)
      && forall f :: f in posts[k].fields ==>
           f in {"password", "authkey"} || !Is(run.seen[ItemRef(item)].fields, f, posts[k].fields[f])
  {
    hide Wanted, SetAuthkey, ValuesEqual, Secret;
    var ref := ItemRef(item);
    forall m: Misp, key ensures SetAuthkey(m, ref, key).posts == m.posts { AuthkeyOnly(m, ref, key); }
    forall m: Misp ensures Secret(m, run.sent, item).Keys <= {"password", "authkey"} { SecretFields(m, run.sent, item); }
  }

  lemma SecretFields(m: Misp, sent: map<string, string>, item: Item)
    ensures Secret(m, sent, item).Keys <= {"password", "authkey"}
  {
  }

  /** The names that an entry needs are there. */
  predicate NamesThere(seen: Table, item: Item)
    requires item.Reconciled()
  {
    match item
    case RoleItem(role) => role.name != ""
    case OrgItem(_) => true
    case TagItem(_, org) => org.Some?
    case UserItem(user, org) => org.Some? && Ref(Role, user.role) in seen
    case ServerItem(server, org) =>
      && org.Some?
      && (forall i :: 0 <= i < |server.pushTags| ==> Ref(Tag, server.pushTags[i]) in seen)
      && forall i :: 0 <= i < |server.pushTagsExclude| ==> Ref(Tag, server.pushTagsExclude[i]) in seen
  }

  lemma NamesThereMeans(seen: Table, item: Item)
    requires item.Reconciled()
    ensures NamesThere(seen, item) <==> Wanted(seen, item).Some?
  {
    if item.ServerItem? {
      TagIdsMean(seen, item.server.pushTags);
      TagIdsMean(seen, item.server.pushTagsExclude);
    }
  }

  /** When an entry fails: a name of it is not in MISP, its post is refused, or MISP's answer to a new user with an
      API key does not name it. */
  lemma EntryFails(env: Env, run: Run, item: Item)
    requires item.Reconciled() && SeenAt(run, item)
    ensures var (run', outcome) := Reconcile(env, run, item);
      outcome == Failed <==>
        || !NamesThere(run.seen, item)
        || (|run'.misp.posts| > |run.misp.posts| && env.refuse(|run.misp.posts|))
        || (item.UserItem? && ItemRef(item) !in run.seen && item.user.authkey != "" && !env.named(|run.misp.posts|))
  {
    hide Wanted, CreateOnly, Secret, Differences, NamesThere, SetAuthkey;
    NamesThereMeans(run.seen, item);
    forall m: Misp, key ensures var m' := SetAuthkey(m, ItemRef(item), key); m'.posts == m.posts {
      AuthkeyOnly(m, ItemRef(item), key);
    }
  }

  /** The API key of a user entry that succeeds is the only one, unless it was there already; then, and without a key
      in the file, the keys stay as they are. */
  lemma EntryKeys(env: Env, run: Run, user: UserDef, org: Option<int>)
    requires SeenAt(run, UserItem(user, org))
    ensures var (run', outcome) := Reconcile(env, run, UserItem(user, org)); var ref := Ref(User, Lower(user.email));
      outcome != Failed ==>
        KeysOf(run'.misp, ref)
        == if user.authkey == "" || user.authkey in KeysOf(run.misp, ref) then KeysOf(run.misp, ref) else {user.authkey}
  {
    hide Wanted, CreateOnly, Secret, Differences, Send, Lower;
    forall m: Misp, p: Post | p.Add? || p.Edit? ensures Send(env, m, p).0.authkeys == m.authkeys { PostOnly(env, m, p); }
  }

  lemma PostOnly(env: Env, m: Misp, p: Post)
    requires p.Add? || p.Edit?
    ensures Send(env, m, p).0.posts == m.posts + [p] && Send(env, m, p).0.authkeys == m.authkeys
  {
  }

  /** An entry counts as unchanged if and only if nothing is posted of it, a server's key aside. */
  lemma EntryCounts(env: Env, run: Run, item: Item)
    requires item.Reconciled() && SeenAt(run, item)
    ensures var (run', outcome) := Reconcile(env, run, item);
      outcome != Failed ==>
        && outcome in {Created, Updated, Unchanged}
        && (run'.misp.posts == run.misp.posts ==> outcome == Unchanged)
        && (outcome == Unchanged && run'.misp.posts != run.misp.posts ==>
              item.ServerItem? && run'.misp.posts
                == run.misp.posts + [Edit(ItemRef(item), map["authkey" := Str(item.server.authkey)])])
  {
    hide Wanted, CreateOnly, Differences, Secret, Send, Finish, SeenAt;
    var ref, post, want := ItemRef(item), |run.misp.posts|, Wanted(run.seen, item);
    if want.Some? && ref !in run.seen {
      var p := Add(ref, want.value + CreateOnly(item, post));
      PostOnly(env, run.misp, p);
      FinishCounts(env, run.(misp := Send(env, run.misp, p).0), item, true, Created, map[], post);
    } else if want.Some? {
      var changes, secret := Differences(want.value, run.seen[ref].fields), Secret(run.misp, run.sent, item);
      var p := Edit(ref, changes + secret);
      assert changes == map[] ==> changes + secret == secret;
      assert changes + secret == map[] ==> changes.Keys <= (changes + secret).Keys;
      SecretIs(run.misp, run.sent, item);
      PostOnly(env, run.misp, p);
      var outcome := if changes == map[] then Unchanged else Updated;
      FinishCounts(env, run, item, false, Unchanged, secret, post);
      FinishCounts(env, run.(misp := Send(env, run.misp, p).0), item, false, outcome, secret, post);
    }
  }

  lemma SecretIs(m: Misp, sent: map<string, string>, item: Item)
    ensures Secret(m, sent, item) != map[] ==> item.UserItem? || item.ServerItem?
    ensures item.ServerItem? && Secret(m, sent, item) != map[] ==>
              Secret(m, sent, item) == map["authkey" := Str(item.server.authkey)]
  {
    hide Digest, Field;
  }

  lemma FinishCounts(env: Env, run: Run, item: Item, created: bool, outcome: Outcome, secret: map<string, Value>,
                     post: nat)
    ensures var (run', o) := Finish(env, run, item, created, outcome, secret, post);
      && run'.misp.posts == run.misp.posts
      && (o == Failed || o == if item.UserItem? && secret != map[] && outcome == Unchanged then Updated else outcome)
  {
  }

  /** Different keys have different digests. */
  lemma DigestTellsApart(a: string, b: string)
    ensures Digest(a) == Digest(b) <==> a == b
  {
    assert Digest(a)[7..] == a && Digest(b)[7..] == b;
  }

  /** A custom list that the snapshot lacks is created with its content and version. A list of this name that MISP has
      all the same is left as it is: the entry goes on to enable it, and fails only if that is refused. */
  lemma ListCreates(env: Env, run: Run, list: ListDef)
    requires Ref(Warninglist, list.name) !in run.seen
    ensures var ref := Ref(Warninglist, list.name); var (run', outcome) := ApplyList(env, run, list);
      && |run'.misp.posts| > |run.misp.posts| && run'.misp.posts[|run.misp.posts|].Add?
      && (var p := run'.misp.posts[|run.misp.posts|];
          && p.ref == ref
          && p.fields.Keys == {"description", "type", "category", "matching_attributes", "entries", "version"}
          && p.fields["version"] == Str(list.version))
      && (!env.refuse(|run.misp.posts|) && ref in run.misp.records ==>
            var fields := run.misp.records[ref].fields;
            && (outcome == Failed <==> list.enabled && Unset(fields, "enabled") && env.refuse(|run.misp.posts| + 1))
            && run'.misp.records[ref].fields
               == if outcome != Failed && list.enabled && Unset(fields, "enabled")
                  then fields["enabled" := Bool(true)] else fields)
  {
    hide ListData, Unset, EnableIfWanted, Refresh, Send;
    var ref := Ref(Warninglist, list.name);
    var p := Add(ref, ListData(list) + map["version" := Str(list.version)]);
    ListFields(list);
    CreatePosts(env, run.misp, ref, p.fields);
    var (m, answer) := Send(env, run.misp, p);
    if answer != Refused {
      var run1 := Refresh(run.(misp := m), Warninglist);
      Refreshed(run.(misp := m), ref);
      EnablePosts(env, run1, ref, list.enabled);
    }
  }

  lemma CreatePosts(env: Env, m: Misp, ref: Ref, fields: map<string, Value>)
    ensures var (m', answer) := Send(env, m, Add(ref, fields));
      && m'.posts == m.posts + [Add(ref, fields)]
      && (answer != Refused ==> ref in m'.records)
      && (ref in m.records ==> m'.records == m.records && (answer == Refused <==> env.refuse(|m.posts|)))
  {
  }

  lemma Refreshed(run: Run, ref: Ref)
    requires ref.kind == Warninglist && ref in run.misp.records
    ensures var run' := Refresh(run, Warninglist);
      ref in run'.seen && run'.seen[ref] == run.misp.records[ref] && run'.misp == run.misp
  {
  }

  lemma ListFields(list: ListDef)
    ensures ListData(list).Keys == {"description", "type", "category", "matching_attributes", "entries"}
  {
  }

  lemma EnablePosts(env: Env, run: Run, ref: Ref, wanted: bool)
    requires ref in run.seen && ref in run.misp.records && run.seen[ref] == run.misp.records[ref]
    ensures var (run', outcome) := EnableIfWanted(env, run, ref, wanted); var fields := run.seen[ref].fields;
      && run.misp.posts <= run'.misp.posts
      && (outcome == Failed <==> wanted && Unset(fields, "enabled") && env.refuse(|run.misp.posts|))
      && ref in run'.misp.records
      && run'.misp.records[ref].fields
         == if outcome != Failed && wanted && Unset(fields, "enabled") then fields["enabled" := Bool(true)] else fields
  {
    UnsetMeans(run.seen[ref].fields, "enabled");
    assert run.seen[ref].fields + map["enabled" := Bool(true)] == run.seen[ref].fields["enabled" := Bool(true)];
  }
}
