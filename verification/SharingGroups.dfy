/** Sharing groups of the config file: which group an entry means, and its member organisations. */
module SharingGroups {
  import opened Values
  import opened MispWorld

  datatype OrgRef = OrgRef(uuid: string, extend: bool)

  /** An entry of `sharing_groups`; `fields` holds those of SG_FIELDS that the file sets besides the name. */
  datatype GroupDef = GroupDef(name: string, uuid: Option<string>, fields: map<string, Value>, orgs: seq<OrgRef>)

  /** The dict {org ID: extend}, with its insertion order. */
  datatype Desired = Desired(order: seq<Id>, extend: map<Id, bool>) {
    ghost predicate Valid() {
      && Distinct(order)
      && forall o :: o in order <==> o in extend
    }
  }

  function OrgId(seen: Table, uuid: string): Option<Id> {
    var ref := Ref(Org, Lower(uuid));
    if ref in seen then Some(seen[ref].id) else None
  }

  /** None when an organisation is not in MISP. */
  function DesiredOrgs(seen: Table, orgs: seq<OrgRef>): (d: Option<Desired>)
    ensures d.Some? ==> d.value.Valid()
  {
    if orgs == [] then Some(Desired([], map[])) else
      var init := DesiredOrgs(seen, orgs[..|orgs| - 1]);
      var last := orgs[|orgs| - 1];
      var oid := OrgId(seen, last.uuid);
      if init.None? || oid.None? then None else
        var d := init.value;
        Some(Desired(if oid.value in d.extend then d.order else d.order + [oid.value],
                     d.extend[oid.value := last.extend]))
  }

  /** The i-th reference is the last one to the organisation with this ID. */
  ghost predicate LastReference(seen: Table, orgs: seq<OrgRef>, o: Id, i: int) {
    && 0 <= i < |orgs| && RefersTo(seen, orgs[i], o)
    && forall j :: i < j < |orgs| ==> !RefersTo(seen, orgs[j], o)
  }

  ghost predicate RefersTo(seen: Table, org: OrgRef, o: Id) {
    var ref := Ref(Org, Lower(org.uuid));
    ref in seen && seen[ref].id == o
  }

  /** The members are the organisations under the lower-cased UUIDs, all of which MISP has, each with the extend of
      the last reference to it. */
  ghost predicate MembersAsked(seen: Table, orgs: seq<OrgRef>, members: map<Id, bool>) {
    && (forall i :: 0 <= i < |orgs| ==> Ref(Org, Lower(orgs[i].uuid)) in seen)
    && (forall i :: 0 <= i < |orgs| ==> seen[Ref(Org, Lower(orgs[i].uuid))].id in members)
    && forall o :: o in members ==> exists i :: LastReference(seen, orgs, o, i) && members[o] == orgs[i].extend
  }

  lemma MembersUnique(seen: Table, orgs: seq<OrgRef>, a: map<Id, bool>, b: map<Id, bool>)
    requires MembersAsked(seen, orgs, a) && MembersAsked(seen, orgs, b)
    ensures a == b
  {
    forall o | o in a ensures o in b && a[o] == b[o] {
      var i :| LastReference(seen, orgs, o, i) && a[o] == orgs[i].extend;
      var j :| LastReference(seen, orgs, o, j) && b[o] == orgs[j].extend;
      assert i == j;
    }
    forall o | o in b ensures o in a {
      var i :| LastReference(seen, orgs, o, i) && b[o] == orgs[i].extend;
    }
  }

  lemma OneMoreOrg(seen: Table, orgs: seq<OrgRef>, members: map<Id, bool>, org: OrgRef, oid: Id)
    requires MembersAsked(seen, orgs, members) && RefersTo(seen, org, oid)
    ensures MembersAsked(seen, orgs + [org], members[oid := org.extend])
  {
    var more, members' := orgs + [org], members[oid := org.extend];
    forall o | o in members' ensures exists i :: LastReference(seen, more, o, i) && members'[o] == more[i].extend {
      if o == oid {
        assert LastReference(seen, more, o, |orgs|);
      } else {
        var i :| LastReference(seen, orgs, o, i) && members[o] == orgs[i].extend;
        assert more[|orgs|] == org && LastReference(seen, more, o, i);
      }
    }
  }

  lemma {:induction false} NoneIfMissing(seen: Table, orgs: seq<OrgRef>)
    ensures DesiredOrgs(seen, orgs).None? <==> exists i :: 0 <= i < |orgs| && Ref(Org, Lower(orgs[i].uuid)) !in seen
    decreases orgs
  {
    hide Lower;
    if orgs != [] {
      var init, last := orgs[..|orgs| - 1], orgs[|orgs| - 1];
      NoneIfMissing(seen, init);
      if DesiredOrgs(seen, init).None? {
        var i :| 0 <= i < |init| && Ref(Org, Lower(init[i].uuid)) !in seen;
        assert orgs[i] == init[i];
      } else {
        assert forall i :: 0 <= i < |init| ==> orgs[i] == init[i];
      }
    }
  }

  lemma {:induction false} SomeAsAsked(seen: Table, orgs: seq<OrgRef>)
    ensures var d := DesiredOrgs(seen, orgs); d.Some? ==> MembersAsked(seen, orgs, d.value.extend)
    decreases orgs
  {
    hide MembersAsked, Lower;
    if orgs == [] {
      NoMembers(seen);
    } else {
      var init, last := orgs[..|orgs| - 1], orgs[|orgs| - 1];
      SomeAsAsked(seen, init);
      assert orgs == init + [last];
      var d, oid := DesiredOrgs(seen, init), OrgId(seen, last.uuid);
      if d.Some? && oid.Some? { OneMoreOrg(seen, init, d.value.extend, last, oid.value); }
    }
  }

  lemma NoMembers(seen: Table)
    ensures MembersAsked(seen, [], map[])
  {
  }

  /** None if and only if MISP lacks one of the organisations; otherwise the members asked for. */
  lemma DesiredOrgsMean(seen: Table, orgs: seq<OrgRef>)
    ensures var d := DesiredOrgs(seen, orgs);
      && (d.None? <==> exists i :: 0 <= i < |orgs| && Ref(Org, Lower(orgs[i].uuid)) !in seen)
      && (d.Some? ==> MembersAsked(seen, orgs, d.value.extend))
  {
    NoneIfMissing(seen, orgs);
    SomeAsAsked(seen, orgs);
  }

  /** The organisations are in the order of the first reference to each. */
  lemma {:induction false} DesiredInOrder(seen: Table, orgs: seq<OrgRef>, n: nat)
    requires n <= |orgs| && DesiredOrgs(seen, orgs).Some?
    ensures var d := DesiredOrgs(seen, orgs[..n]); d.Some? && d.value.order <= DesiredOrgs(seen, orgs).value.order
    decreases |orgs| - n
  {
    if n == |orgs| {
      assert orgs[..n] == orgs;
    } else {
      DesiredInOrder(seen, orgs, n + 1);
      assert orgs[..n + 1][..n] == orgs[..n];
    }
  }

  // ---- Membership --------------------------------------------------------------------------

  function Keep(s: seq<Id>, keep: set<Id>): (r: seq<Id>)
    ensures forall o :: o in r <==> o in s && o in keep
    ensures Distinct(s) ==> Distinct(r)
  {
    if s == [] then [] else
      var init, last := Keep(s[..|s| - 1], keep), s[|s| - 1];
      if last in keep then init + [last] else init
  }

  function Removals(g: Id, orgs: seq<Id>): seq<Post> {
    seq(|orgs|, i requires 0 <= i < |orgs| => RemoveMember(g, orgs[i]))
  }

  function Additions(g: Id, orgs: seq<Id>, extend: map<Id, bool>): seq<Post>
    requires forall o :: o in orgs ==> o in extend
  {
    seq(|orgs|, i requires 0 <= i < |orgs| => AddMember(g, orgs[i], extend[orgs[i]]))
  }

  /** The members whose extend differs: addOrg refuses a member, so they go and come back. */
  function ChangedSet(d: Desired, current: map<Id, bool>): set<Id> {
    set o | o in d.extend && o in current && current[o] != d.extend[o]
  }

  function MissingSet(d: Desired, current: map<Id, bool>): set<Id> {
    ChangedSet(d, current) + (d.extend.Keys - current.Keys)
  }

  function Kept(d: Desired, current: map<Id, bool>): map<Id, bool> {
    current - ChangedSet(d, current)
  }

  /** The posts that turn `current` into the desired membership: addOrg refuses a member, so a changed
      extend is a removal and an addition. */
  function Script(env: Env, g: Id, d: Desired, current: map<Id, bool>): seq<Post>
    requires d.Valid()
  {
    var kept := Kept(d, current).Keys;
    Removals(g, Keep(d.order, ChangedSet(d, current)))
    + Additions(g, Keep(d.order, MissingSet(d, current)), d.extend)
    + Removals(g, Keep(env.walk(kept), kept - d.extend.Keys))
  }

  /** Sends posts in order, up to the first failure; an addition MISP already has is none. */
  function Play(env: Env, m: Misp, script: seq<Post>): (Misp, bool)
    decreases script
  {
    if script == [] then (m, true) else
      var (m', answer) := Send(env, m, script[0]);
      if answer == Accepted || (answer == Already && script[0].AddMember?)
      then Play(env, m', script[1..]) else (m', false)
  }

  function Members(m: Misp, g: Id): map<Id, bool>
    requires g in m.groups
  {
    m.groups[g].members
  }

  /** m' differs from m in the members of group g and the log of posts only. */
  ghost predicate OnlyMembers(m: Misp, m': Misp, g: Id)
    requires g in m.groups
  {
    && g in m'.groups
    && m.posts <= m'.posts
    && m' == m.(groups := m.groups[g := m.groups[g].(members := m'.groups[g].members)], posts := m'.posts)
  }

  lemma {:induction false} PlayConcat(env: Env, m: Misp, a: seq<Post>, b: seq<Post>)
    ensures Play(env, m, a + b) == var (m', ok) := Play(env, m, a); if ok then Play(env, m', b) else (m', false)
    decreases a
  {
    if a == [] {
      assert a + b == b;
    } else {
      var (m', answer) := Send(env, m, a[0]);
      assert (a + b)[0] == a[0] && (a + b)[1..] == a[1..] + b;
      PlayConcat(env, m', a[1..], b);
    }
  }

  lemma SendMember(env: Env, m: Misp, g: Id, p: Post)
    requires g in m.groups
    requires (p.AddMember? || p.RemoveMember?) && p.group == g
    ensures var (m1, answer) := Send(env, m, p);
      && OnlyMembers(m, m1, g) && g in m1.groups
      && m1.posts == m.posts + [p]
      && (answer == Accepted && p.RemoveMember? ==> Members(m1, g) == Members(m, g) - {p.org})
      && (answer == Accepted && p.AddMember? ==> Members(m1, g) == Members(m, g)[p.org := p.extend])
      && (answer == Already ==> p.AddMember? && p.org in Members(m, g))
  {
    var logged := m.(posts := m.posts + [p]);
    var (m1, answer) := Send(env, m, p);
    assert m.groups[g := m.groups[g].(members := m.groups[g].members)] == m.groups;
    if answer == Accepted {
      assert m1.groups == m.groups[g := m.groups[g].(members := m1.groups[g].members)];
      assert m1 == logged.(groups := m1.groups);
    } else {
      assert m1 == logged;
    }
  }

  /** Every post of a script is sent until one fails, and posts go to group g only. */
  lemma {:induction false} PlayPosts(env: Env, m: Misp, g: Id, script: seq<Post>)
    requires g in m.groups
    requires forall p <- script :: (p.AddMember? || p.RemoveMember?) && p.group == g
    ensures var (m', ok) := Play(env, m, script);
      && OnlyMembers(m, m', g)
      && m'.posts <= m.posts + script
      && (ok ==> m'.posts == m.posts + script)
    decreases script
  {
    if script != [] {
      var (m1, answer) := Send(env, m, script[0]);
      SendMember(env, m, g, script[0]);
      if answer == Accepted || (answer == Already && script[0].AddMember?) {
        PlayPosts(env, m1, g, script[1..]);
        assert m.posts + script == m1.posts + script[1..];
      } else {
        assert m.posts + script == m1.posts + script[1..];
      }
    }
  }

  lemma {:induction false} PlayRemovals(env: Env, m: Misp, g: Id, orgs: seq<Id>)
    requires g in m.groups && Distinct(orgs)
    requires forall o <- orgs :: o in Members(m, g)
    ensures var (m', ok) := Play(env, m, Removals(g, orgs));
      ok ==> g in m'.groups && Members(m', g) == Members(m, g) - (set o | o in orgs)
    decreases orgs
  {
    hide Send, OnlyMembers;
    if orgs != [] {
      var (m1, answer) := Send(env, m, RemoveMember(g, orgs[0]));
      SendMember(env, m, g, RemoveMember(g, orgs[0]));
      assert Removals(g, orgs)[1..] == Removals(g, orgs[1..]);
      if answer == Accepted {
        forall o | o in orgs[1..] ensures o in Members(m1, g) {
          var i :| 0 <= i < |orgs[1..]| && orgs[1..][i] == o;
          assert orgs[i + 1] == o && orgs[0] != orgs[i + 1];
        }
        PlayRemovals(env, m1, g, orgs[1..]);
      }
    }
  }

  lemma {:induction false} PlayAdditions(env: Env, m: Misp, g: Id, orgs: seq<Id>, extend: map<Id, bool>)
    requires g in m.groups && Distinct(orgs)
    requires forall o <- orgs :: o in extend && o !in Members(m, g)
    ensures var (m', ok) := Play(env, m, Additions(g, orgs, extend));
      ok ==> g in m'.groups && Members(m', g) == Members(m, g) + (map o | o in orgs :: extend[o])
    decreases orgs
  {
    hide Send, OnlyMembers;
    if orgs != [] {
      var (m1, answer) := Send(env, m, AddMember(g, orgs[0], extend[orgs[0]]));
      SendMember(env, m, g, AddMember(g, orgs[0], extend[orgs[0]]));
      assert Additions(g, orgs, extend)[1..] == Additions(g, orgs[1..], extend);
      if answer == Accepted {
        assert Members(m1, g) == Members(m, g)[orgs[0] := extend[orgs[0]]];
        forall o | o in orgs[1..] ensures o !in Members(m1, g) {
          var i :| 0 <= i < |orgs[1..]| && orgs[1..][i] == o;
          assert orgs[i + 1] == o && orgs[0] != orgs[i + 1];
        }
        PlayAdditions(env, m1, g, orgs[1..], extend);
      }
    }
  }

  /** Removing the changed, adding the missing and removing the extra organisations leaves the desired ones. */
  lemma MembersAfterPhases(d: Desired, current: map<Id, bool>, missing: seq<Id>, extra: seq<Id>)
    requires d.Valid()
    requires forall o :: o in missing <==> o in MissingSet(d, current)
    requires forall o :: o in extra <==> o in Kept(d, current) && o !in d.extend
    ensures (Kept(d, current) + (map o | o in missing :: d.extend[o])) - (set o | o in extra) == d.extend
  {
    var kept := Kept(d, current);
    var after := (kept + (map o | o in missing :: d.extend[o])) - (set o | o in extra);
    forall o ensures o in after <==> o in d.extend {
      if o in d.extend && o !in missing { assert o in kept; }
    }
    forall o | o in d.extend ensures after[o] == d.extend[o] {
      if o !in missing { assert o !in ChangedSet(d, current); }
    }
  }

  /** A membership sync that no post fails ends at exactly the desired members. Failing or not, it touches
      nothing but this group's members, and its posts are those of the script up to the failure. */
  lemma SyncReachesDesired(env: Env, m: Misp, g: Id, d: Desired)
    requires Walks(env) && d.Valid() && g in m.groups
    ensures var (m', ok) := Play(env, m, Script(env, g, d, Members(m, g)));
      && OnlyMembers(m, m', g)
      && (ok ==> Members(m', g) == d.extend && m'.posts == m.posts + Script(env, g, d, Members(m, g)))
      && m'.posts <= m.posts + Script(env, g, d, Members(m, g))
  {
    var current := Members(m, g);
    PlayPosts(env, m, g, Script(env, g, d, current));
    if Play(env, m, Script(env, g, d, current)).1 {
      SyncPhases(env, m, g, d);
    }
  }

  lemma SyncPhases(env: Env, m: Misp, g: Id, d: Desired)
    requires Walks(env) && d.Valid() && g in m.groups
    requires Play(env, m, Script(env, g, d, Members(m, g))).1
    ensures var m' := Play(env, m, Script(env, g, d, Members(m, g))).0;
      g in m'.groups && Members(m', g) == d.extend
  {
    var current := Members(m, g);
    var kept := Kept(d, current).Keys;
    assert WalkOf(env, kept);
    var changed := Keep(d.order, ChangedSet(d, current));
    var missing := Keep(d.order, MissingSet(d, current));
    var extra := Keep(env.walk(kept), kept - d.extend.Keys);
    var (a, b, c) := (Removals(g, changed), Additions(g, missing, d.extend), Removals(g, extra));
    assert Script(env, g, d, current) == a + (b + c);
    PlayConcat(env, m, a, b + c);
    PlayPosts(env, m, g, a);
    PlayRemovals(env, m, g, changed);
    assert (set o | o in changed) == ChangedSet(d, current);
    LaterPhases(env, Play(env, m, a).0, g, d, current, missing, extra);
  }

  lemma LaterPhases(env: Env, m: Misp, g: Id, d: Desired, current: map<Id, bool>, missing: seq<Id>, extra: seq<Id>)
    requires d.Valid() && g in m.groups && Members(m, g) == Kept(d, current)
    requires Distinct(missing) && forall o :: o in missing <==> o in MissingSet(d, current)
    requires Distinct(extra) && forall o :: o in extra <==> o in Kept(d, current) && o !in d.extend
    requires Play(env, m, Additions(g, missing, d.extend) + Removals(g, extra)).1
    ensures var m' := Play(env, m, Additions(g, missing, d.extend) + Removals(g, extra)).0;
      g in m'.groups && Members(m', g) == d.extend
  {
    var b, c := Additions(g, missing, d.extend), Removals(g, extra);
    PlayConcat(env, m, b, c);
    PlayPosts(env, m, g, b);
    PlayAdditions(env, m, g, missing, d.extend);
    PlayRemovals(env, Play(env, m, b).0, g, extra);
    MembersAfterPhases(d, current, missing, extra);
  }

  /** A group with the desired members gets no post. */
  lemma SyncOfSettledPostsNothing(env: Env, g: Id, d: Desired)
    requires Walks(env) && d.Valid()
    ensures Script(env, g, d, d.extend) == []
  {
    assert ChangedSet(d, d.extend) == {} && MissingSet(d, d.extend) == {};
    assert Kept(d, d.extend).Keys - d.extend.Keys == {};
    EmptyKeep(d.order);
    EmptyKeep(env.walk(Kept(d, d.extend).Keys));
  }

  lemma EmptyKeep(s: seq<Id>)
    ensures Keep(s, {}) == []
  {
    if s != [] { EmptyKeep(s[..|s| - 1]); }
  }

  lemma {:induction false} CountKept(s: seq<Id>, keep: set<Id>)
    requires Distinct(s) && forall o :: o in keep ==> o in s
    ensures |Keep(s, keep)| == |keep|
    decreases s
  {
    if s == [] {
      assert keep == {};
    } else {
      var init, last := s[..|s| - 1], s[|s| - 1];
      forall o | o in keep - {last} ensures o in init {
        var i :| 0 <= i < |s| && s[i] == o;
        assert init[i] == o;
      }
      CountKept(init, keep - {last});
      KeepOthers(init, keep, last);
    }
  }

  lemma {:induction false} KeepOthers(s: seq<Id>, keep: set<Id>, x: Id)
    requires x !in s
    ensures Keep(s, keep) == Keep(s, keep - {x})
    decreases s
  {
    if s != [] {
      assert s[|s| - 1] in s;
      KeepOthers(s[..|s| - 1], keep, x);
    }
  }

  /** Two posts for each changed extend and one for each missing and each extra organisation; no organisation
      is added while a member or removed while none. */
  lemma ScriptCost(env: Env, g: Id, d: Desired, current: map<Id, bool>)
    requires Walks(env) && d.Valid()
    ensures |Script(env, g, d, current)|
      == 2 * |ChangedSet(d, current)| + |d.extend.Keys - current.Keys| + |current.Keys - d.extend.Keys|
  {
    var changed, absent := ChangedSet(d, current), d.extend.Keys - current.Keys;
    var kept := Kept(d, current).Keys;
    assert kept - d.extend.Keys == current.Keys - d.extend.Keys;
    CountKept(d.order, changed);
    CountKept(d.order, changed + absent);
    DisjointSum(changed, absent);
    assert WalkOf(env, kept);
    CountKept(env.walk(kept), kept - d.extend.Keys);
  }

  lemma DisjointSum(a: set<Id>, b: set<Id>)
    requires a !! b
    ensures |a + b| == |a| + |b|
  {
  }

  // ---- An entry and its group --------------------------------------------------------------

  /** A field of SG_FIELDS besides the name. */
  predicate GroupField(f: string) { f in {"description", "releasability", "active", "roaming", "local"} }

  datatype Finder = ByUuid(uuid: string) | ByName(name: string)

  /** The group fields an entry asks for: those of SG_FIELDS it sets, its name, and its UUID if it has one. */
  function Data(def: GroupDef): map<string, Value> {
    (map f | f in def.fields && GroupField(f) :: def.fields[f])
    + map["name" := Str(def.name)]
    + (if def.uuid.Some? then map["uuid" := Str(Uuid(def))] else map[])
  }

  function Uuid(def: GroupDef): string
    requires def.uuid.Some?
  {
    Lower(Strip(def.uuid.value))
  }

  predicate Matches(fields: map<string, Value>, f: Finder) {
    match f
    case ByUuid(u) => Field(fields, "uuid").Scalar() && Lower(Show(Field(fields, "uuid"))) == u
    case ByName(n) => Field(fields, "name").Scalar() && Show(Field(fields, "name")) == n
  }

  /** The last listed group that matches, as a dict built over the list finds it. */
  function Last(groups: map<Id, Group>, order: seq<Id>, f: Finder): Option<Id>
    decreases order
  {
    if order == [] then None else
      var g := order[|order| - 1];
      if g in groups && Matches(groups[g].fields, f) then Some(g) else Last(groups, order[..|order| - 1], f)
  }

  /** The group of an entry: by its UUID, else by its name. */
  function Find(groups: map<Id, Group>, order: seq<Id>, def: GroupDef): Option<Id> {
    var byUuid := if def.uuid.Some? then Last(groups, order, ByUuid(Uuid(def))) else None;
    if byUuid.Some? then byUuid else Last(groups, order, ByName(def.name))
  }

  function SyncOrgs(env: Env, m: Misp, g: Id, orgs: Option<Desired>, current: map<Id, bool>): (Misp, bool)
    requires orgs.Some? ==> orgs.value.Valid()
  {
    if orgs.None? then (m, false) else Play(env, m, Script(env, g, orgs.value, current))
  }

  /** The group an entry means: the one it finds, else the one MISP creates next. */
  function Target(m: Misp, groups: map<Id, Group>, order: seq<Id>, def: GroupDef): Id {
    match Find(groups, order, def)
    case Some(g) => g
    case None => m.next
  }

  /** Creates the group of an entry, or edits the fields that differ in the snapshot. */
  function ReconcileGroup(env: Env, m: Misp, groups: map<Id, Group>, order: seq<Id>, def: GroupDef): (Misp, Outcome) {
    var data := Data(def);
    match Find(groups, order, def)
    case None =>
      var (m1, answer) := Send(env, m, AddGroup(data));
      (m1, if answer == Accepted && env.named(|m.posts|) then Created else Failed)
    case Some(g) =>
      var changes := if g in groups then Differences(data, groups[g].fields) else data;
      if changes == map[] then (m, Unchanged) else
        var (m1, answer) := Send(env, m, EditGroup(g, changes));
        (m1, if answer == Accepted then Updated else Failed)
  }

  /** One entry, against the groups of the snapshot and the organisations `seen`. */
  function ApplyGroup(env: Env, m: Misp, groups: map<Id, Group>, order: seq<Id>, seen: Table, def: GroupDef)
    : (Misp, Outcome)
  {
    if def.uuid.Some? && !IsUuid4(Uuid(def)) then (m, Failed) else
      var (m1, outcome) := ReconcileGroup(env, m, groups, order, def);
      if outcome == Failed then (m1, Failed) else
        var g := Target(m, groups, order, def);
        var current := if Find(groups, order, def).Some? && g in groups then groups[g].members else map[];
        var (m2, ok) := SyncOrgs(env, m1, g, DesiredOrgs(seen, def.orgs), current);
        (m2, if ok then outcome else Failed)
  }

  /** Group g is as the entry asks. */
  ghost predicate GroupHeld(m: Misp, g: Id, def: GroupDef, seen: Table) {
    && g in m.groups
    && Holds(m.groups[g].fields, Data(def))
    && var orgs := DesiredOrgs(seen, def.orgs);
       orgs.Some? && m.groups[g].members == orgs.value.extend
  }

  /** Apart from the entry's fields, a group is as before, or has the UUID that MISP drew for it. */
  ghost predicate OtherFieldsKept(m: Misp, groups: map<Id, Group>, g: Id, def: GroupDef) {
    && g in m.groups
    && var base := if g in groups then groups[g].fields else map["uuid" := Token(g)];
       forall f :: f !in Data(def) ==> Field(m.groups[g].fields, f) == Field(base, f)
  }

  ghost predicate GroupSettled(m: Misp, def: GroupDef, seen: Table) {
    && (def.uuid.Some? ==> IsUuid4(Uuid(def)))
    && Find(m.groups, m.groupOrder, def).Some?
    && GroupHeld(m, Find(m.groups, m.groupOrder, def).value, def, seen)
  }

  /** m' differs from m in group g and the log of posts only; g may be new. */
  ghost predicate OnlyGroup(m: Misp, m': Misp, g: Id) {
    && m.posts <= m'.posts
    && m'.groups.Keys == m.groups.Keys + (if g in m'.groups then {g} else {})
    && (forall h :: h in m.groups && h != g ==> m'.groups[h] == m.groups[h])
    && m' == m.(groups := m'.groups, groupOrder := m'.groupOrder, next := m'.next, posts := m'.posts)
    && (if g in m.groups || g !in m'.groups then m'.groupOrder == m.groupOrder && m'.next == m.next
        else g == m.next && m'.groupOrder == m.groupOrder + [g] && m'.next == g + 1)
  }

  lemma {:induction false} LastInOrder(groups: map<Id, Group>, order: seq<Id>, f: Finder)
    ensures var g := Last(groups, order, f); g.Some? ==>
      g.value in order && g.value in groups && Matches(groups[g.value].fields, f)
    decreases order
  {
    if order != [] { LastInOrder(groups, order[..|order| - 1], f); }
  }

  lemma ReconcileGroupReaches(env: Env, m: Misp, groups: map<Id, Group>, order: seq<Id>, def: GroupDef)
    requires m.next !in m.groups
    requires var g := Find(groups, order, def); g.Some? ==>
      g.value in groups && g.value in m.groups && m.groups[g.value] == groups[g.value]
    ensures var (m1, outcome) := ReconcileGroup(env, m, groups, order, def);
      var t := Target(m, groups, order, def);
      && OnlyGroup(m, m1, t)
      && (outcome != Failed ==>
            && OtherFieldsKept(m1, m.groups, t, def)
            && Holds(m1.groups[t].fields, Data(def))
            && m1.groups[t].members == if t in m.groups then m.groups[t].members else map[])
  {
    if Find(groups, order, def).None? {
      CreateGroupReaches(env, m, Data(def));
    } else {
      EditGroupReaches(env, m, Target(m, groups, order, def), Data(def));
    }
  }

  lemma CreateGroupReaches(env: Env, m: Misp, data: map<string, Value>)
    requires m.next !in m.groups
    ensures var (m1, answer) := Send(env, m, AddGroup(data));
      && OnlyGroup(m, m1, m.next)
      && (answer == Accepted ==>
            && m.next in m1.groups && m1.groups[m.next].members == map[]
            && m1.groups[m.next].fields == map["uuid" := Token(m.next)] + data
            && Holds(m1.groups[m.next].fields, data))
  {
    StoredHolds(data, map["uuid" := Token(m.next)]);
  }

  lemma EditGroupReaches(env: Env, m: Misp, g: Id, data: map<string, Value>)
    requires g in m.groups
    ensures var changes := Differences(data, m.groups[g].fields);
      var (m1, answer) := if changes == map[] then (m, Accepted) else Send(env, m, EditGroup(g, changes));
      && OnlyGroup(m, m1, g)
      && (answer == Accepted ==>
            && g in m1.groups && m1.groups[g].members == m.groups[g].members
            && m1.groups[g].fields == m.groups[g].fields + changes
            && Holds(m1.groups[g].fields, data))
  {
    var changes := Differences(data, m.groups[g].fields);
    NoDifferences(data, m.groups[g].fields);
    OverwriteHolds(data, m.groups[g].fields, map[]);
    assert changes + map[] == changes;
    assert m.groups[g].fields + map[] == m.groups[g].fields;
  }

  /** An entry touches its own group only, and a successful one leaves it as asked. */
  lemma ApplyGroupReaches(env: Env, m: Misp, groups: map<Id, Group>, order: seq<Id>, seen: Table, def: GroupDef)
    requires Walks(env) && m.next !in m.groups
    requires var g := Find(groups, order, def); g.Some? ==>
      g.value in groups && g.value in m.groups && m.groups[g.value] == groups[g.value]
    ensures var (m', outcome) := ApplyGroup(env, m, groups, order, seen, def);
      var t := Target(m, groups, order, def);
      && OnlyGroup(m, m', t)
      && (outcome != Failed ==> GroupHeld(m', t, def, seen) && OtherFieldsKept(m', m.groups, t, def))
  {
    hide ReconcileGroup, DesiredOrgs, Play, Script, Data, Send, Holds, IsUuid4, Uuid;
    var orgs, t := DesiredOrgs(seen, def.orgs), Target(m, groups, order, def);
    ReconcileGroupReaches(env, m, groups, order, def);
    var (m1, outcome) := ReconcileGroup(env, m, groups, order, def);
    if outcome != Failed && orgs.Some? {
      SyncReachesDesired(env, m1, t, orgs.value);
      MembersAfter(m, m1, Play(env, m1, Script(env, t, orgs.value, Members(m1, t))).0, t);
    }
  }

  lemma MembersAfter(m: Misp, m1: Misp, m2: Misp, g: Id)
    requires g in m1.groups && OnlyGroup(m, m1, g) && OnlyMembers(m1, m2, g)
    ensures OnlyGroup(m, m2, g) && m2.groups[g].fields == m1.groups[g].fields
  {
  }

  ghost predicate GroupPost(p: Post) { !p.Add? && !p.Edit? && !p.LoadTaxonomies? }

  /** m' differs from m in its groups and in posts about groups. */
  ghost predicate OnlyGroups(m: Misp, m': Misp) {
    && m' == m.(groups := m'.groups, groupOrder := m'.groupOrder, next := m'.next, posts := m'.posts)
    && m.next <= m'.next
    && m.posts <= m'.posts
    && (forall i :: |m.posts| <= i < |m'.posts| ==> GroupPost(m'.posts[i]))
    && (m.Valid() ==> m'.Valid())
  }

  lemma {:induction false} PlayFrame(env: Env, m: Misp, script: seq<Post>)
    requires forall p <- script :: GroupPost(p)
    ensures OnlyGroups(m, Play(env, m, script).0)
    decreases script
  {
    if script != [] {
      var m1 := Send(env, m, script[0]).0;
      SendGroups(env, m, script[0]);
      PlayFrame(env, m1, script[1..]);
      GroupsTrans(m, m1, Play(env, m1, script[1..]).0);
    }
  }

  lemma SendGroups(env: Env, m: Misp, p: Post)
    requires GroupPost(p)
    ensures OnlyGroups(m, Send(env, m, p).0)
  {
    var logged := m.(posts := m.posts + [p]);
    var (m1, answer) := Send(env, m, p);
    if answer != Accepted {
      assert m1 == logged;
    } else if p.AddGroup? {
      assert m1.groupOrder[|m.groupOrder|] == m.next;
      assert forall g <- m.groupOrder :: g in m1.groupOrder;
    }
  }

  lemma GroupsTrans(m: Misp, m1: Misp, m2: Misp)
    requires OnlyGroups(m, m1) && OnlyGroups(m1, m2)
    ensures OnlyGroups(m, m2)
  {
  }

  /** Whatever MISP refuses, an entry touches groups only. */
  lemma ApplyGroupFrame(env: Env, m: Misp, groups: map<Id, Group>, order: seq<Id>, seen: Table, def: GroupDef)
    ensures OnlyGroups(m, ApplyGroup(env, m, groups, order, seen, def).0)
  {
    var (m1, outcome) := ReconcileGroup(env, m, groups, order, def);
    assert OnlyGroups(m, m1) by {
      var data, g := Data(def), Target(m, groups, order, def);
      SendGroups(env, m, AddGroup(data));
      SendGroups(env, m, EditGroup(g, if g in groups then Differences(data, groups[g].fields) else data));
    }
    var g := Target(m, groups, order, def);
    var current := if Find(groups, order, def).Some? && g in groups then groups[g].members else map[];
    SyncOrgsFrame(env, m1, g, DesiredOrgs(seen, def.orgs), current);
  }

  lemma SyncOrgsFrame(env: Env, m: Misp, g: Id, orgs: Option<Desired>, current: map<Id, bool>)
    requires orgs.Some? ==> orgs.value.Valid()
    ensures OnlyGroups(m, SyncOrgs(env, m, g, orgs, current).0)
  {
    if orgs.Some? { PlayFrame(env, m, Script(env, g, orgs.value, current)); }
  }

  lemma StoredHolds(data: map<string, Value>, base: map<string, Value>)
    ensures Holds(base + data, data)
  {
    forall f | f in data ensures ValuesEqual(data[f], Field(base + data, f)) { StoredValueIsEqual(data[f]); }
  }

  /** An entry whose group is as asked posts nothing. */
  lemma SettledGroupIsQuiet(env: Env, m: Misp, seen: Table, def: GroupDef)
    requires Walks(env) && GroupSettled(m, def, seen)
    ensures ApplyGroup(env, m, m.groups, m.groupOrder, seen, def) == (m, Unchanged)
  {
    var g := Find(m.groups, m.groupOrder, def).value;
    NoDifferences(Data(def), m.groups[g].fields);
    SyncOfSettledPostsNothing(env, g, DesiredOrgs(seen, def.orgs).value);
  }

  // ---- Entries keep their groups -----------------------------------------------------------

  lemma {:induction false} LastUnique(groups: map<Id, Group>, order: seq<Id>, f: Finder, t: Id)
    requires t in order && t in groups && Matches(groups[t].fields, f)
    requires forall h <- order :: h in groups && Matches(groups[h].fields, f) ==> h == t
    ensures Last(groups, order, f) == Some(t)
    decreases order
  {
    var g := order[|order| - 1];
    assert g in order;
    if g != t { LastUnique(groups, order[..|order| - 1], f, t); }
  }

  lemma {:induction false} LastNone(groups: map<Id, Group>, order: seq<Id>, f: Finder)
    ensures Last(groups, order, f).None? <==> forall h <- order :: h in groups ==> !Matches(groups[h].fields, f)
    decreases order
  {
    if order != [] { LastNone(groups, order[..|order| - 1], f); }
  }

  /** The last match stays the last when no other group starts to match. */
  lemma {:induction false} LastStable(groups: map<Id, Group>, order: seq<Id>, groups': map<Id, Group>,
                                      f: Finder, t: Id)
    requires Last(groups, order, f) == Some(t)
    requires t in groups' && Matches(groups'[t].fields, f)
    requires forall h <- order :: h != t && h in groups' && Matches(groups'[h].fields, f) ==>
      h in groups && Matches(groups[h].fields, f)
    ensures Last(groups', order, f) == Some(t)
    decreases order
  {
    var g := order[|order| - 1];
    assert g in order;
    if g != t { LastStable(groups, order[..|order| - 1], groups', f, t); }
  }

  lemma {:induction false} LastAppend(groups: map<Id, Group>, order: seq<Id>, more: seq<Id>, f: Finder)
    requires forall h <- more :: h in groups ==> !Matches(groups[h].fields, f)
    ensures Last(groups, order + more, f) == Last(groups, order, f)
    decreases more
  {
    if more == [] {
      assert order + more == order;
    } else {
      assert more[|more| - 1] in more;
      assert (order + more)[..|order + more| - 1] == order + more[..|more| - 1];
      LastAppend(groups, order, more[..|more| - 1], f);
    }
  }
}
