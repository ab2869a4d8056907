/** What a sharing-group step posts and touches, whichever of its posts MISP refuses. */
module SyncGroupPosts {
  import opened Values
  import opened MispWorld
  import opened SharingGroups
  import opened SyncItems
  import opened SyncGroups
  import opened SyncUnique

  /** The groups and organisations that an entry is applied against. */
  datatype View = View(groups: map<Id, Group>, order: seq<Id>, seen: Table) {
    /** Group g is the one the entry finds, or a new one if it finds none. */
    predicate Means(def: GroupDef, g: Id) {
      match Find(groups, order, def)
      case Some(h) => g == h
      case None => g !in groups
    }

    /** The members that the entry's group has in the snapshot. */
    function Current(def: GroupDef): map<Id, bool> {
      match Find(groups, order, def)
      case Some(g) => if g in groups then groups[g].members else map[]
      case None => map[]
    }

    /** The entry wants another membership of an organisation than the snapshot has. */
    predicate WantsOrg(def: GroupDef, o: Id) {
      var d := DesiredOrgs(seen, def.orgs);
      d.Some? && var extend, current := d.value.extend, Current(def);
      !((o in extend <==> o in current) && (o in extend ==> extend[o] == current[o]))
    }

    /** A post of an entry: it creates the group with the entry's fields, or edits the fields that differ of the
        group it finds, or adds a missing or changed member as desired, or removes a changed or unwanted one. */
    predicate PostBy(def: GroupDef, p: Post) {
      match p
      case AddGroup(fields) => Find(groups, order, def).None? && fields == Data(def)
      case EditGroup(g, fields) =>
        && Find(groups, order, def) == Some(g) && g in groups
        && fields == Differences(Data(def), groups[g].fields)
      case AddMember(g, o, extend) =>
        && Means(def, g) && WantsOrg(def, o)
        && o in DesiredOrgs(seen, def.orgs).value.extend && extend == DesiredOrgs(seen, def.orgs).value.extend[o]
      case RemoveMember(g, o) => Means(def, g) && WantsOrg(def, o) && o in Current(def)
      case _ => false
    }

    /** The entry has something to post: it finds no group, or one that is not as it asks. */
    predicate Differs(def: GroupDef) {
      && (def.uuid.Some? ==> IsUuid4(Uuid(def)))
      && match Find(groups, order, def)
         case None => true
         case Some(g) =>
           g in groups ==>
             || Differences(Data(def), groups[g].fields) != map[]
             || (DesiredOrgs(seen, def.orgs).Some?
                 && groups[g].members != DesiredOrgs(seen, def.orgs).value.extend)
    }

    /** A post that can only be this entry's: it creates its group, or is to the group it found. */
    predicate About(def: GroupDef, p: Post) {
      match p
      case AddGroup(fields) => Find(groups, order, def).None? && fields == Data(def)
      case EditGroup(g, _) => Find(groups, order, def) == Some(g)
      case AddMember(g, _, _) => Find(groups, order, def) == Some(g)
      case RemoveMember(g, _) => Find(groups, order, def) == Some(g)
      case _ => false
    }
  }

  // ---- One entry ---------------------------------------------------------------------------

  lemma ScriptPosts(env: Env, v: View, def: GroupDef, g: Id)
    requires Walks(env) && DesiredOrgs(v.seen, def.orgs).Some? && v.Means(def, g)
    ensures var script := Script(env, g, DesiredOrgs(v.seen, def.orgs).value, v.Current(def));
      && (forall p <- script :: v.PostBy(def, p) && (p.AddMember? || p.RemoveMember?) && p.group == g)
      && (script == [] <==> v.Current(def) == DesiredOrgs(v.seen, def.orgs).value.extend)
  {
    var d, current := DesiredOrgs(v.seen, def.orgs).value, v.Current(def);
    var kept := Kept(d, current).Keys;
    assert WalkOf(env, kept);
    ScriptGroup(env, g, d, current);
    ScriptCost(env, g, d, current);
    if Script(env, g, d, current) == [] { NothingToDo(d, current); }
    if current == d.extend { SyncOfSettledPostsNothing(env, g, d); }
    forall p | p in Script(env, g, d, current) ensures v.PostBy(def, p) { ScriptPost(env, v, def, g, p); }
  }

  lemma NothingToDo(d: Desired, current: map<Id, bool>)
    requires |ChangedSet(d, current)| == 0 && |d.extend.Keys - current.Keys| == 0 && |current.Keys - d.extend.Keys| == 0
    ensures current == d.extend
  {
    assert ChangedSet(d, current) == {} && d.extend.Keys - current.Keys == {} && current.Keys - d.extend.Keys == {};
    forall o | o in d.extend ensures o in current && current[o] == d.extend[o] {
      assert o !in d.extend.Keys - current.Keys && o !in ChangedSet(d, current);
    }
    forall o | o in current ensures o in d.extend { assert o !in current.Keys - d.extend.Keys; }
  }

  lemma ScriptPost(env: Env, v: View, def: GroupDef, g: Id, p: Post)
    requires Walks(env) && DesiredOrgs(v.seen, def.orgs).Some? && v.Means(def, g)
    requires p in Script(env, g, DesiredOrgs(v.seen, def.orgs).value, v.Current(def))
    ensures v.PostBy(def, p)
  {
    hide DesiredOrgs;
    var d, current := DesiredOrgs(v.seen, def.orgs).value, v.Current(def);
    var kept := Kept(d, current).Keys;
    assert WalkOf(env, kept);
    var a, b := Keep(d.order, ChangedSet(d, current)), Keep(d.order, MissingSet(d, current));
    var c := Keep(env.walk(kept), kept - d.extend.Keys);
    if p in Removals(g, a) {
      var i :| 0 <= i < |a| && p == RemoveMember(g, a[i]);
      assert a[i] in a;
    } else if p in Additions(g, b, d.extend) {
      var i :| 0 <= i < |b| && p == AddMember(g, b[i], d.extend[b[i]]);
      assert b[i] in b;
    } else {
      assert p in Removals(g, c);
      var i :| 0 <= i < |c| && p == RemoveMember(g, c[i]);
      assert c[i] in c;
    }
  }

  ghost predicate Readable(v: View, m: Misp) {
    && m.next !in m.groups
    && (forall h :: h in v.groups ==> h in m.groups)
    && (forall h :: h in v.groups ==> h in v.order)
  }

  /** The posts of one entry: all of them its own, and none if and only if its group is as it asks. */
  lemma EntryPosts(env: Env, m: Misp, v: View, def: GroupDef) returns (posts: seq<Post>)
    requires Walks(env) && Readable(v, m)
    ensures ApplyGroup(env, m, v.groups, v.order, v.seen, def).0.posts == m.posts + posts
    ensures forall p <- posts :: v.PostBy(def, p)
    ensures posts != [] <==> v.Differs(def)
    ensures v.Differs(def) ==> v.About(def, posts[0])
  {
    hide ApplyGroup, Data, Differences, Script, Play, DesiredOrgs, IsUuid4, Find;
    if Find(v.groups, v.order, def).Some? { FindInGroups(v.groups, v.order, def); }
    var first := ReconcilePosts(env, m, v, def);
    posts := EntryGoesOn(env, m, v, def, first);
  }

  /** The post that creates or edits the entry's group, if any. */
  lemma ReconcilePosts(env: Env, m: Misp, v: View, def: GroupDef) returns (first: seq<Post>)
    requires Readable(v, m) && var g := Find(v.groups, v.order, def); g.Some? ==> g.value in v.groups
    ensures var (m1, o) := ReconcileGroup(env, m, v.groups, v.order, def);
      && m1.posts == m.posts + first
      && (first == [] ==> o != Failed && Find(v.groups, v.order, def).Some?)
    ensures forall p <- first :: v.PostBy(def, p) && v.About(def, p)
    ensures first != [] <==> match Find(v.groups, v.order, def)
      case None => true
      case Some(g) => Differences(Data(def), v.groups[g].fields) != map[]
  {
    hide Data, Differences, Find;
    match Find(v.groups, v.order, def)
    case None => first := [AddGroup(Data(def))];
    case Some(g) =>
      var changes := Differences(Data(def), v.groups[g].fields);
      first := if changes == map[] then [] else [EditGroup(g, changes)];
  }

  lemma EntryGoesOn(env: Env, m: Misp, v: View, def: GroupDef, first: seq<Post>) returns (posts: seq<Post>)
    requires Walks(env) && Readable(v, m) && var g := Find(v.groups, v.order, def); g.Some? ==> g.value in v.groups
    requires ReconcileGroup(env, m, v.groups, v.order, def).0.posts == m.posts + first
    requires first == [] ==> ReconcileGroup(env, m, v.groups, v.order, def).1 != Failed
                             && Find(v.groups, v.order, def).Some?
    requires forall p <- first :: v.PostBy(def, p) && v.About(def, p)
    requires first != [] <==> match Find(v.groups, v.order, def)
      case None => true
      case Some(g) => Differences(Data(def), v.groups[g].fields) != map[]
    ensures ApplyGroup(env, m, v.groups, v.order, v.seen, def).0.posts == m.posts + posts
    ensures forall p <- posts :: v.PostBy(def, p)
    ensures posts != [] <==> v.Differs(def)
    ensures v.Differs(def) ==> v.About(def, posts[0])
  {
    hide Data, Differences, Script, Play, DesiredOrgs, IsUuid4, Find, ReconcileGroup;
    if def.uuid.Some? && !IsUuid4(Uuid(def)) {
      posts := [];
      assert m.posts + posts == m.posts;
    } else {
      var (m1, o) := ReconcileGroup(env, m, v.groups, v.order, def);
      var d, t := DesiredOrgs(v.seen, def.orgs), Target(m, v.groups, v.order, def);
      posts := first;
      ReconcileTouches(env, m, v.groups, v.order, def);
      if o != Failed && d.Some? {
        var script := Script(env, t, d.value, v.Current(def));
        ScriptPosts(env, v, def, t) by { MeansTarget(m, v, def); }
        PlayPosts(env, m1, t, script);
        posts := PlayedPosts(env, m1, script, m.posts, first);
      }
    }
  }

  lemma MeansTarget(m: Misp, v: View, def: GroupDef)
    requires Readable(v, m)
    ensures v.Means(def, Target(m, v.groups, v.order, def))
  {
    hide Find;
  }

  /** A script that is played posts a beginning of it, and its first post at least. */
  lemma PlayedPosts(env: Env, m1: Misp, script: seq<Post>, before: seq<Post>, first: seq<Post>)
    returns (posts: seq<Post>)
    requires m1.posts == before + first && m1.posts <= Play(env, m1, script).0.posts <= m1.posts + script
    ensures Play(env, m1, script).0.posts == before + posts && first <= posts
    ensures forall p <- posts :: p in first || p in script
    ensures posts == [] <==> first == [] && script == []
    ensures first == [] && script != [] ==> posts[0] == script[0]
  {
    hide Play;
    var after := Play(env, m1, script).0.posts;
    var more := after[|m1.posts|..];
    posts := first + more;
    assert after == m1.posts + more;
    assert more <= script by {
      forall i | 0 <= i < |more| ensures i < |script| && more[i] == script[i] {
        assert after[|m1.posts| + i] == (m1.posts + script)[|m1.posts| + i];
      }
    }
    forall p | p in more ensures p in script {
      var i :| 0 <= i < |more| && more[i] == p;
      assert script[i] == p;
    }
    if script != [] { FirstIsPlayed(env, m1, script); }
  }

  lemma FirstIsPlayed(env: Env, m: Misp, script: seq<Post>)
    requires script != []
    ensures |Play(env, m, script).0.posts| > |m.posts|
  {
    var (m1, answer) := Send(env, m, script[0]);
    LogGrows(env, m, script[0]);
    PlayGrows(env, m1, script[1..]);
  }

  lemma LogGrows(env: Env, m: Misp, p: Post)
    ensures Send(env, m, p).0.posts == m.posts + [p]
  {
    if p.LoadTaxonomies? { LoadLog(m.(posts := m.posts + [p]), env.shipped); }
  }

  lemma {:induction false} LoadLog(m: Misp, shipped: seq<string>)
    ensures Load(m, shipped).posts == m.posts
    decreases shipped
  {
    if shipped != [] {
      var ref := Ref(Taxonomy, shipped[0]);
      LoadLog(if ref in m.records then m else Insert(m, ref, map["enabled" := Bool(false)]), shipped[1..]);
    }
  }

  lemma {:induction false} PlayGrows(env: Env, m: Misp, script: seq<Post>)
    ensures m.posts <= Play(env, m, script).0.posts
    decreases script
  {
    if script != [] {
      LogGrows(env, m, script[0]);
      PlayGrows(env, Send(env, m, script[0]).0, script[1..]);
    }
  }

  // ---- A step ------------------------------------------------------------------------------

  function ViewOf(run: Run): View { View(run.groups, run.groupOrder, run.seen) }

  ghost predicate Ready(run: Run) { run.misp.Valid() && Readable(ViewOf(run), run.misp) }

  /** One of the posts from m to m' can only be this entry's. */
  ghost predicate PostedOf(v: View, m: Misp, m': Misp, def: GroupDef) {
    exists i :: |m.posts| <= i < |m'.posts| && v.About(def, m'.posts[i])
  }

  ghost predicate PostOfOne(v: View, defs: seq<GroupDef>, p: Post) { exists def <- defs :: v.PostBy(def, p) }

  /** One entry of a step. */
  lemma StepOne(env: Env, run: Run, def: GroupDef) returns (posts: seq<Post>)
    requires Walks(env) && Ready(run)
    ensures var run1 := ApplyOne(env, run, GroupItem(def)).0;
      && run1.misp.posts == run.misp.posts + posts
      && Ready(run1) && ViewOf(run1) == ViewOf(run)
    ensures forall p <- posts :: ViewOf(run).PostBy(def, p)
    ensures posts != [] <==> ViewOf(run).Differs(def)
    ensures ViewOf(run).Differs(def) ==> ViewOf(run).About(def, posts[0])
  {
    hide Find;
    posts := EntryPosts(env, run.misp, ViewOf(run), def);
    GroupOutcome(env, run, def);
    if Find(run.groups, run.groupOrder, def).Some? { FindInGroups(run.groups, run.groupOrder, def); }
    ApplyGroupTouches(env, run.misp, run.groups, run.groupOrder, run.seen, def);
    ApplyGroupFrame(env, run.misp, run.groups, run.groupOrder, run.seen, def);
  }

  /** Every post of a sharing-group step is that of one of its entries, whatever MISP refuses. */
  lemma {:induction false} StepPosts(env: Env, run: Run, defs: seq<GroupDef>)
    requires Walks(env) && Ready(run)
    ensures var m' := Each(env, run, Items(defs)).0.misp;
      && run.misp.posts <= m'.posts
      && forall i :: |run.misp.posts| <= i < |m'.posts| ==> PostOfOne(ViewOf(run), defs, m'.posts[i])
    decreases defs
  {
    hide ApplyOne, Ready;
    if defs != [] {
      var def, rest := defs[0], defs[1..];
      assert Items(defs)[0] == GroupItem(def) && Items(defs)[1..] == Items(rest);
      var posts := StepOne(env, run, def);
      var run1 := ApplyOne(env, run, GroupItem(def)).0;
      var m' := Each(env, run1, Items(rest)).0.misp;
      StepPosts(env, run1, rest);
      forall i | |run.misp.posts| <= i < |m'.posts| ensures PostOfOne(ViewOf(run), defs, m'.posts[i]) {
        if i < |run1.misp.posts| {
          assert m'.posts[i] == posts[i - |run.misp.posts|] && def in defs;
          assert ViewOf(run).PostBy(def, m'.posts[i]);
        } else {
          assert PostOfOne(ViewOf(run1), rest, m'.posts[i]);
          var other :| other in rest && ViewOf(run).PostBy(other, m'.posts[i]);
          assert other in defs;
        }
      }
    }
  }

  /** No other entry's post can be taken for this one's, when the two find different groups. */
  lemma OthersApart(v: View, def: GroupDef, other: GroupDef, p: Post)
    requires def.name != other.name && v.PostBy(other, p)
    requires Find(v.groups, v.order, def).Some? ==> Find(v.groups, v.order, def) != Find(v.groups, v.order, other)
    ensures !v.About(def, p)
  {
    hide Find, DesiredOrgs;
    if Find(v.groups, v.order, def).Some? {
      FindInGroups(v.groups, v.order, def);
    } else {
      assert Data(def)["name"] == Str(def.name) && Data(other)["name"] == Str(other.name);
    }
  }

  lemma PostedSum(v: View, m: Misp, m1: Misp, m2: Misp, def: GroupDef)
    requires m.posts <= m1.posts <= m2.posts
    ensures PostedOf(v, m, m2, def) <==> PostedOf(v, m, m1, def) || PostedOf(v, m1, m2, def)
  {
    if PostedOf(v, m, m1, def) {
      var i :| |m.posts| <= i < |m1.posts| && v.About(def, m1.posts[i]);
      assert v.About(def, m2.posts[i]);
    }
    if PostedOf(v, m, m2, def) {
      var i :| |m.posts| <= i < |m2.posts| && v.About(def, m2.posts[i]);
      if i < |m1.posts| { assert v.About(def, m1.posts[i]); }
    }
  }

  lemma NoneOfOthers(v: View, m: Misp, m': Misp, defs: seq<GroupDef>, def: GroupDef)
    requires m.posts <= m'.posts && forall i :: |m.posts| <= i < |m'.posts| ==> PostOfOne(v, defs, m'.posts[i])
    requires forall other <- defs ::
               def.name != other.name
               && (Find(v.groups, v.order, def).Some? ==> Find(v.groups, v.order, def) != Find(v.groups, v.order, other))
    ensures !PostedOf(v, m, m', def)
  {
    hide Find;
    forall i | |m.posts| <= i < |m'.posts| ensures !v.About(def, m'.posts[i]) {
      assert PostOfOne(v, defs, m'.posts[i]);
      var other :| other in defs && v.PostBy(other, m'.posts[i]);
      OthersApart(v, def, other, m'.posts[i]);
    }
  }

  /** A sharing-group step attempts every entry: whichever posts MISP refuses and whichever entries fail, an entry
      gets a post if and only if it found no group, or one that was not as it asks. */
  lemma {:induction false} StepAttempts(env: Env, run: Run, defs: seq<GroupDef>, k: nat)
    requires Walks(env) && Ready(run) && k < |defs|
    requires DistinctGroups(defs) && DistinctTargets(run.groups, run.groupOrder, defs)
    ensures PostedOf(ViewOf(run), run.misp, Each(env, run, Items(defs)).0.misp, defs[k]) <==> ViewOf(run).Differs(defs[k])
    decreases defs
  {
    hide ApplyOne, Ready, Find, PostedOf;
    var v, def, rest := ViewOf(run), defs[0], defs[1..];
    assert Items(defs)[0] == GroupItem(def) && Items(defs)[1..] == Items(rest);
    var posts := StepOne(env, run, def);
    var run1 := ApplyOne(env, run, GroupItem(def)).0;
    var m1, m' := run1.misp, Each(env, run1, Items(rest)).0.misp;
    StepPosts(env, run1, rest);
    PostedSum(v, run.misp, m1, m', defs[k]);
    RestApart(run, defs);
    if k == 0 {
      FirstPosted(v, run.misp, m1, posts, def);
      NoneOfOthers(v, m1, m', rest, def);
    } else {
      FirstOfOthers(v, run.misp, m1, posts, def);
      assert defs[0].name != defs[k].name;
      NoneOfOthers(v, run.misp, m1, [def], defs[k]) by { assert defs[0] == def; }
      StepAttempts(env, run1, rest, k - 1);
    }
  }

  lemma RestApart(run: Run, defs: seq<GroupDef>)
    requires defs != [] && DistinctGroups(defs) && DistinctTargets(run.groups, run.groupOrder, defs)
    ensures DistinctGroups(defs[1..]) && DistinctTargets(run.groups, run.groupOrder, defs[1..])
    ensures forall other <- defs[1..] ::
              defs[0].name != other.name
              && (Find(run.groups, run.groupOrder, defs[0]).Some? ==>
                    Find(run.groups, run.groupOrder, defs[0]) != Find(run.groups, run.groupOrder, other))
  {
    hide Find;
    forall other | other in defs[1..]
      ensures defs[0].name != other.name
      ensures Find(run.groups, run.groupOrder, defs[0]).Some? ==>
                Find(run.groups, run.groupOrder, defs[0]) != Find(run.groups, run.groupOrder, other)
    {
      var j :| 0 <= j < |defs[1..]| && defs[1..][j] == other;
      assert defs[j + 1] == other;
    }
  }

  lemma FirstPosted(v: View, m: Misp, m1: Misp, posts: seq<Post>, def: GroupDef)
    requires m1.posts == m.posts + posts && (posts != [] <==> v.Differs(def)) && (v.Differs(def) ==> v.About(def, posts[0]))
    ensures PostedOf(v, m, m1, def) <==> v.Differs(def)
  {
    hide Find, Data, DesiredOrgs;
    if posts != [] { assert m1.posts[|m.posts|] == posts[0]; }
  }

  lemma FirstOfOthers(v: View, m: Misp, m1: Misp, posts: seq<Post>, def: GroupDef)
    requires m1.posts == m.posts + posts && forall p <- posts :: v.PostBy(def, p)
    ensures m.posts <= m1.posts && forall i :: |m.posts| <= i < |m1.posts| ==> PostOfOne(v, [def], m1.posts[i])
  {
    hide Find, Data, DesiredOrgs;
    forall i | |m.posts| <= i < |m1.posts| ensures PostOfOne(v, [def], m1.posts[i]) {
      assert m1.posts[i] == posts[i - |m.posts|] && def in [def];
    }
  }

  // ---- What a step leaves alone --------------------------------------------------------------

  ghost predicate SameValue<K, V>(a: map<K, V>, b: map<K, V>, k: K) {
    (k in a <==> k in b) && (k in a ==> a[k] == b[k])
  }

  ghost predicate SetsField(v: View, defs: seq<GroupDef>, g: Id, f: string) {
    exists def <- defs :: Find(v.groups, v.order, def) == Some(g) && f in Data(def)
  }

  ghost predicate SetsMember(v: View, defs: seq<GroupDef>, g: Id, o: Id) {
    exists def <- defs :: Find(v.groups, v.order, def) == Some(g) && v.WantsOrg(def, o)
  }

  ghost predicate Creates(v: View, defs: seq<GroupDef>, g: Id, fields: map<string, Value>) {
    exists def <- defs :: Find(v.groups, v.order, def).None? && fields == map["uuid" := Token(g)] + Data(def)
  }

  /** Of the groups of the snapshot, m differs in the fields and members that an entry which finds the group asks
      for only; every other group is the new one of an entry, with that entry's fields. */
  ghost predicate Bounded(v: View, m: Misp, defs: seq<GroupDef>) {
    && (forall g :: g in v.groups ==> g in m.groups)
    && (forall g, f :: g in v.groups && !SetsField(v, defs, g, f) ==>
          SameValue(v.groups[g].fields, m.groups[g].fields, f))
    && (forall g, o :: g in v.groups && !SetsMember(v, defs, g, o) ==>
          SameValue(v.groups[g].members, m.groups[g].members, o))
    && (forall g :: g in m.groups && g !in v.groups ==> Creates(v, defs, g, m.groups[g].fields))
  }

  lemma {:induction false} PlayMembers(env: Env, m: Misp, g: Id, script: seq<Post>, o: Id)
    requires g in m.groups
    requires forall p <- script :: (p.AddMember? || p.RemoveMember?) && p.group == g && p.org != o
    ensures var m' := Play(env, m, script).0; g in m'.groups && SameValue(m.groups[g].members, m'.groups[g].members, o)
    decreases script
  {
    if script != [] {
      SendMember(env, m, g, script[0]);
      assert script[0] in script;
      var (m1, answer) := Send(env, m, script[0]);
      assert SameValue(m.groups[g].members, m1.groups[g].members, o) by { MemberOnly(env, m, g, script[0], o); }
      PlayMembers(env, m1, g, script[1..], o);
    }
  }

  lemma MemberOnly(env: Env, m: Misp, g: Id, p: Post, o: Id)
    requires g in m.groups && (p.AddMember? || p.RemoveMember?) && p.group == g && p.org != o
    ensures SameValue(m.groups[g].members, Send(env, m, p).0.groups[g].members, o)
  {
  }

  /** What creating or editing does to the entry's group. */
  lemma ReconcileBounds(env: Env, m: Misp, v: View, def: GroupDef)
    requires Readable(v, m) && var g := Find(v.groups, v.order, def); g.Some? ==> g.value in v.groups
    ensures var (m1, o) := ReconcileGroup(env, m, v.groups, v.order, def); var t := Target(m, v.groups, v.order, def);
      && OnlyGroup(m, m1, t) && (o != Failed ==> t in m1.groups)
      && (t in m.groups ==>
            && m1.groups[t].members == m.groups[t].members
            && forall f :: f !in Data(def) ==> SameValue(m.groups[t].fields, m1.groups[t].fields, f))
      && (t !in m.groups && t in m1.groups ==> m1.groups[t].fields == map["uuid" := Token(t)] + Data(def))
  {
    hide Data, Differences, Find;
    ReconcileTouches(env, m, v.groups, v.order, def);
    match Find(v.groups, v.order, def)
    case None =>
    case Some(g) => ChangesWithin(def, v.groups[g].fields);
  }

  lemma ChangesWithin(def: GroupDef, existing: map<string, Value>)
    ensures forall f :: f in Differences(Data(def), existing) ==> f in Data(def)
  {
    hide Data;
  }

  /** What an entry does to its group, whatever MISP refuses. */
  lemma EntryBounds(env: Env, m: Misp, v: View, def: GroupDef)
    requires Walks(env) && Readable(v, m)
    ensures var m' := ApplyGroup(env, m, v.groups, v.order, v.seen, def).0; var t := Target(m, v.groups, v.order, def);
      && OnlyGroup(m, m', t)
      && (t in m.groups ==>
            && (forall f :: f !in Data(def) ==> SameValue(m.groups[t].fields, m'.groups[t].fields, f))
            && (forall o :: !v.WantsOrg(def, o) ==> SameValue(m.groups[t].members, m'.groups[t].members, o)))
      && (t !in m.groups && t in m'.groups ==> m'.groups[t].fields == map["uuid" := Token(t)] + Data(def))
  {
    hide Data, Differences, Find, Script, Play, DesiredOrgs, ReconcileGroup, IsUuid4;
    if Find(v.groups, v.order, def).Some? { FindInGroups(v.groups, v.order, def); }
    var t := Target(m, v.groups, v.order, def);
    ApplyGroupTouches(env, m, v.groups, v.order, v.seen, def);
    ReconcileBounds(env, m, v, def);
    var (m1, outcome) := ReconcileGroup(env, m, v.groups, v.order, def);
    var d := DesiredOrgs(v.seen, def.orgs);
    if outcome != Failed && d.Some? {
      var script := Script(env, t, d.value, v.Current(def));
      MeansTarget(m, v, def);
      ScriptPosts(env, v, def, t);
      PlayPosts(env, m1, t, script);
      forall o | !v.WantsOrg(def, o)
        ensures SameValue(m1.groups[t].members, Play(env, m1, script).0.groups[t].members, o)
      {
        PlayMembers(env, m1, t, script, o);
      }
    }
  }

  lemma BoundsMore(v: View, m: Misp, m': Misp, done: seq<GroupDef>, def: GroupDef, t: Id)
    requires Bounded(v, m, done) && Readable(v, m) && OnlyGroup(m, m', t)
    requires match Find(v.groups, v.order, def) case Some(g) => t == g && g in v.groups case None => t !in m.groups
    requires t in m.groups ==>
               && (forall f :: f !in Data(def) ==> SameValue(m.groups[t].fields, m'.groups[t].fields, f))
               && (forall o :: !v.WantsOrg(def, o) ==> SameValue(m.groups[t].members, m'.groups[t].members, o))
    requires t !in m.groups && t in m'.groups ==> m'.groups[t].fields == map["uuid" := Token(t)] + Data(def)
    ensures Bounded(v, m', done + [def])
  {
    hide Data, Find, DesiredOrgs;
    assert def in done + [def];
    forall d | d in done ensures d in done + [def] {}
    forall g, f | g in v.groups && !SetsField(v, done + [def], g, f)
      ensures SameValue(v.groups[g].fields, m'.groups[g].fields, f)
    {
      assert !SetsField(v, done, g, f);
    }
    forall g, o | g in v.groups && !SetsMember(v, done + [def], g, o)
      ensures SameValue(v.groups[g].members, m'.groups[g].members, o)
    {
      assert !SetsMember(v, done, g, o);
    }
    forall g | g in m'.groups && g !in v.groups ensures Creates(v, done + [def], g, m'.groups[g].fields) {
      if g != t {
        assert Creates(v, done, g, m.groups[g].fields);
      }
    }
  }

  /** Whatever MISP refuses, a sharing-group step stays within the groups and fields of its entries. */
  lemma {:induction false} StepBounds(env: Env, run: Run, done: seq<GroupDef>, defs: seq<GroupDef>)
    requires Walks(env) && Ready(run) && Bounded(ViewOf(run), run.misp, done)
    ensures Bounded(ViewOf(run), Each(env, run, Items(defs)).0.misp, done + defs)
    decreases defs
  {
    hide ApplyOne, Ready, Bounded, Find;
    if defs == [] {
      assert done + defs == done;
    } else {
      var def, rest := defs[0], defs[1..];
      assert Items(defs)[0] == GroupItem(def) && Items(defs)[1..] == Items(rest);
      assert done + defs == (done + [def]) + rest;
      var posts := StepOne(env, run, def);
      BoundOne(env, run, done, def);
      StepBounds(env, ApplyOne(env, run, GroupItem(def)).0, done + [def], rest);
    }
  }

  lemma BoundOne(env: Env, run: Run, done: seq<GroupDef>, def: GroupDef)
    requires Walks(env) && Ready(run) && Bounded(ViewOf(run), run.misp, done)
    ensures Bounded(ViewOf(run), ApplyOne(env, run, GroupItem(def)).0.misp, done + [def])
  {
    hide Bounded, Find, Data, DesiredOrgs, ApplyGroup;
    var v, m := ViewOf(run), run.misp;
    GroupOutcome(env, run, def);
    if Find(v.groups, v.order, def).Some? { FindInGroups(v.groups, v.order, def); }
    EntryBounds(env, m, v, def);
    BoundsMore(v, m, ApplyGroup(env, m, v.groups, v.order, v.seen, def).0, done, def, Target(m, v.groups, v.order, def));
  }

  lemma BoundsStart(run: Run)
    requires run.groups == run.misp.groups
    ensures Bounded(ViewOf(run), run.misp, [])
  {
  }
}
