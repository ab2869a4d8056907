/** The steps of a run one by one: the records each leaves current in the snapshot, reaches, and touches. */
module SyncSwept {
  import opened Values
  import opened MispWorld
  import opened SharingGroups
  import opened SyncItems
  import opened SyncSteps
  import opened SyncPosts
  import opened SyncRun

  /** The snapshot is MISP's state, but for records of the stale kinds. */
  ghost predicate Fresh(run: Run, stale: set<Kind>) {
    && Extends(run.seen, run.misp.records)
    && forall r: Ref :: r.kind !in stale ==> SeenSame(run, r)
  }

  /** Records of other kinds that the snapshot held as they are, it still does. */
  ghost predicate KeepsSeen(run: Run, run': Run, kind: Kind) {
    forall r: Ref :: r.kind != kind && SeenSame(run, r) ==> SeenSame(run', r)
  }

  ghost predicate OfKind(items: seq<Item>, kind: Kind) {
    forall i <- items :: ItemRef(i).kind == kind
  }

  lemma KindTouches(items: seq<Item>, kind: Kind, q: Ref)
    requires OfKind(items, kind) && q.kind != kind
    ensures !MayTouch(items, q)
  {
  }

  lemma FreshRefresh(run: Run, stale: set<Kind>, kind: Kind)
    requires Fresh(run, stale)
    ensures Fresh(Refresh(run, kind), stale - {kind})
  {
    RefreshSeen(run, kind);
  }

  ghost predicate GroupsKept(run: Run, run': Run) {
    && SameGroups(run.misp, run'.misp) && run'.groups == run.groups && run'.groupOrder == run.groupOrder
  }

  /** From run to run' a step over these items of one kind was made. */
  ghost predicate DidStep(run: Run, run': Run, items: seq<Item>, kind: Kind, stale: set<Kind>) {
    && Fresh(run', stale + {kind})
    && Frame(run.misp, run'.misp, items) && SentFrame(run.sent, run'.sent, items)
    && GroupsKept(run, run')
    && (forall r :: !MayTouch(items, r) && SeenSame(run, r) ==> SeenSame(run', r))
    && KeepsSeen(run, run', kind)
    && (kind != Server ==> run'.sent == run.sent)
  }

  lemma DoStep(env: Env, run: Run, items: seq<Item>, kind: Kind, stale: set<Kind>)
    requires Fresh(run, stale) && OfKind(items, kind) && kind != NoRecord
    requires kind != Server ==> forall i <- items :: !i.ServerItem?
    ensures DidStep(run, Do(env, run, items).run, items, kind, stale)
  {
    forall i | i in items ensures !i.GroupItem? { assert ItemRef(i).kind == kind; }
    EachFrame(env, run, items);
    EachSeen(env, run, items);
    forall r: Ref | r.kind != kind ensures !MayTouch(items, r) { KindTouches(items, kind, r); }
    if kind != Server { EachSent(env, run, items); }
  }

  /** A step over distinct records that the snapshot holds as they are. */
  lemma DoReaches(env: Env, run: Run, items: seq<Item>, kind: Kind, stale: set<Kind>)
    requires Fresh(run, stale) && OfKind(items, kind) && kind != NoRecord && kind !in stale && DistinctRefs(items)
    ensures var s := Do(env, run, items); s.ok ==> forall i <- items :: Held(s.run.misp, s.run.sent, i)
  {
    if Do(env, run, items).ok {
      forall i | i in items ensures SeenAt(run, i) && !i.GroupItem? { assert ItemRef(i).kind == kind; }
      EachReaches(env, run, items);
    }
  }

  lemma {:induction false} EachSent(env: Env, run: Run, items: seq<Item>)
    requires forall i <- items :: !i.ServerItem?
    ensures Each(env, run, items).0.sent == run.sent
    decreases items
  {
    if items != [] {
      assert items[0] in items;
      SentElsewhere(env, run, items[0]);
      EachSent(env, ApplyOne(env, run, items[0]).0, items[1..]);
    }
  }

  // ---- Sweeps ------------------------------------------------------------------------------

  lemma {:induction false} SweepsDistinct(seen: Table, order: seq<Ref>, kind: Kind, named: set<Ref>)
    requires Distinct(order)
    ensures DistinctRefs(SweepItems(seen, order, kind, named))
    ensures forall i <- SweepItems(seen, order, kind, named) :: ItemRef(i) in order
    decreases order
  {
    hide Unnamed, SweepFields;
    SweepsListed(seen, order, kind, named);
    if order != [] {
      var init, q := order[..|order| - 1], order[|order| - 1];
      SweepsDistinct(seen, init, kind, named);
      SweepsListed(seen, init, kind, named);
      assert q !in init;
      var r0 := SweepItems(seen, init, kind, named);
      forall k | 0 <= k < |r0| ensures ItemRef(r0[k]) != q { assert r0[k] in r0; }
    }
  }

  lemma SweptIsNotDue(m: Misp, sent: map<string, string>, kind: Kind, q: Ref)
    requires q.kind == kind && Held(m, sent, Sweep(q, SweepFields(kind)))
    ensures !SweepDue(kind, m.records[q])
  {
    var fields := m.records[q].fields;
    match kind
    case User => assert "disabled" in SweepFields(kind) && fields["disabled"] == Bool(true);
    case Server =>
      assert "push" in SweepFields(kind) && fields["push"] == Bool(false);
      assert "pull" in SweepFields(kind) && fields["pull"] == Bool(false);
    case _ => assert "enabled" in SweepFields(kind) && fields["enabled"] == Bool(false);
  }

  /** A sweep touches no named record. */
  lemma SweepFrame(env: Env, run: Run, kind: Kind, named: set<Ref>, stale: set<Kind>)
    requires Fresh(run, stale) && kind != NoRecord
    ensures var items := SweepItems(run.seen, run.misp.order, kind, named);
      && DidStep(run, Do(env, run, items).run, items, kind, stale)
      && OfKind(items, kind) && (forall q <- named :: !MayTouch(items, q))
  {
    hide *;
    var items := SweepItems(run.seen, run.misp.order, kind, named);
    SweepItemsAre(run.seen, run.misp.order, kind, named);
    SweepsApart(items, run.seen, kind, named);
    DoStep(env, run, items, kind, stale);
  }

  lemma SweepsApart(items: seq<Item>, seen: Table, kind: Kind, named: set<Ref>)
    requires forall i <- items :: SweepFor(i, seen, kind, named)
    ensures OfKind(items, kind) && (forall i <- items :: !i.ServerItem?) && (forall q <- named :: !MayTouch(items, q))
  {
  }

  /** A sweep that succeeds leaves no unnamed record of its kind to disable. */
  lemma SweepsHold(env: Env, run: Run, kind: Kind, named: set<Ref>, stale: set<Kind>)
    requires Fresh(run, stale) && run.misp.Valid()
    requires forall q: Ref :: q.kind == kind && q !in named ==> SeenSame(run, q)
    requires Do(env, run, SweepItems(run.seen, run.misp.order, kind, named)).ok
    ensures NothingToSweep(Do(env, run, SweepItems(run.seen, run.misp.order, kind, named)).run.misp, kind, named)
  {
    var items := SweepItems(run.seen, run.misp.order, kind, named);
    var run' := Do(env, run, items).run;
    SweepsDistinct(run.seen, run.misp.order, kind, named);
    SweepItemsAre(run.seen, run.misp.order, kind, named);
    forall i | i in items ensures SeenAt(run, i) && !i.GroupItem? { assert i.ref !in named; }
    EachReaches(env, run, items);
    EachFrame(env, run, items);
    forall q | q in run'.misp.records && q.kind == kind && q !in named
      ensures !SweepDue(kind, run'.misp.records[q])
    {
      SweptOne(run, run', items, kind, named, q);
    }
  }

  lemma SweptOne(run: Run, run': Run, items: seq<Item>, kind: Kind, named: set<Ref>, q: Ref)
    requires run.misp.Valid() && items == SweepItems(run.seen, run.misp.order, kind, named)
    requires Frame(run.misp, run'.misp, items) && forall i <- items :: Held(run'.misp, run'.sent, i)
    requires q in run'.misp.records && q.kind == kind && q !in named && SeenSame(run, q)
    requires forall i <- items :: i.Sweep? && (i.ref in run.seen ==> i.ref in run.misp.records)
    ensures !SweepDue(kind, run'.misp.records[q])
  {
    SweepItemsAre(run.seen, run.misp.order, kind, named);
    if q in run.misp.records && SweepDue(kind, run.misp.records[q]) {
      assert Sweep(q, SweepFields(kind)) in items;
      SweptIsNotDue(run'.misp, run'.sent, kind, q);
    }
  }

  // ---- Taxonomies --------------------------------------------------------------------------

  function LoadedItems(shipped: seq<string>): seq<Item> {
    seq(|shipped|, i requires 0 <= i < |shipped| => Loaded(Ref(Taxonomy, shipped[i])))
  }

  /** The named taxonomies, and those a load may bring in. */
  function TaxonomyWork(names: seq<string>, shipped: seq<string>): seq<Item> { TaxonomyItems(names) + LoadedItems(shipped) }

  lemma InsertFrame(m: Misp, ref: Ref, fields: map<string, Value>)
    requires ref !in m.records
    ensures Frame(m, Insert(m, ref, fields), [Loaded(ref)])
  {
    var m1 := Insert(m, ref, fields);
    assert m1.order[|m.order|] == ref && m.order <= m1.order;
    assert forall r <- m.order :: r in m1.order;
    assert m.Valid() ==> ref !in m.order;
    SingleFrame(m, m1, Loaded(ref));
  }

  lemma FrameExtends(m: Misp, m': Misp, items: seq<Item>)
    ensures Frame(m, m', items) ==> Extends(m.records, m'.records)
  {
  }

  lemma {:induction false} LoadFrame(m: Misp, shipped: seq<string>)
    ensures Frame(m, Load(m, shipped), LoadedItems(shipped))
    ensures SameGroups(m, Load(m, shipped))
    ensures Load(m, shipped).posts == m.posts && Load(m, shipped).sent == m.sent
    ensures forall n <- shipped :: Ref(Taxonomy, n) in Load(m, shipped).records
    decreases shipped
  {
    hide Frame;
    var items := LoadedItems(shipped);
    if shipped == [] {
      FrameSelf(m, items);
    } else {
      var ref := Ref(Taxonomy, shipped[0]);
      var m1 := if ref in m.records then m else Insert(m, ref, map["enabled" := Bool(false)]);
      if ref in m.records { FrameSelf(m, [Loaded(ref)]); }
      else { InsertFrame(m, ref, map["enabled" := Bool(false)]); }
      LoadFrame(m1, shipped[1..]);
      FrameExtends(m1, Load(m1, shipped[1..]), LoadedItems(shipped[1..]));
      FrameTrans(m, m1, Load(m1, shipped[1..]), [Loaded(ref)], LoadedItems(shipped[1..]));
      assert items == [Loaded(ref)] + LoadedItems(shipped[1..]);
    }
  }

  lemma LoadPostFrame(env: Env, m: Misp, items: seq<Item>)
    requires Targeted(items, LoadTaxonomies) && forall i <- LoadedItems(env.shipped) :: i in items
    ensures var m' := Send(env, m, LoadTaxonomies).0; Frame(m, m', items) && SameGroups(m, m')
  {
    var logged := m.(posts := m.posts + [LoadTaxonomies]);
    LoggedFrame(m, logged, items);
    LoadFrame(logged, env.shipped);
    var m' := Load(logged, env.shipped);
    FrameWiden(logged, m', LoadedItems(env.shipped), items);
    FrameTrans(m, logged, m', items, items);
    FrameWiden(m, m', items + items, items);
  }

  lemma LoadSent(env: Env, run: Run, names: seq<string>, stale: set<Kind>)
    requires Fresh(run, stale) && Taxonomy !in stale && names != []
    ensures var m, items := Send(env, run.misp, LoadTaxonomies).0, TaxonomyWork(names, env.shipped);
      && Frame(run.misp, m, items) && SameGroups(run.misp, m)
      && Fresh(Refresh(run.(misp := m), Taxonomy), stale)
      && KeepsSeen(run, Refresh(run.(misp := m), Taxonomy), Taxonomy)
      && (Send(env, run.misp, LoadTaxonomies).1 != Accepted ==> m.records == run.misp.records)
  {
    hide KeepsSeen, Refresh, Load, Targeted, MayEdit, KeysOf, SameField, SameSent;
    var items := TaxonomyWork(names, env.shipped);
    assert items[0] == Enable(Ref(Taxonomy, names[0]));
    assert TargetedBy(items[0], LoadTaxonomies) && items[0] in items;
    LoadPostFrame(env, run.misp, items);
    var m := Send(env, run.misp, LoadTaxonomies).0;
    forall q: Ref | q.kind != Taxonomy ensures !MayTouch(items, q) { KindTouches(items, Taxonomy, q); }
    LoadFresh(run, run.(misp := m), stale);
  }

  lemma LoadStepFrame(env: Env, run: Run, names: seq<string>, stale: set<Kind>)
    requires Fresh(run, stale) && Taxonomy !in stale
    ensures var s := LoadStep(env, run, names);
      && Frame(run.misp, s.run.misp, TaxonomyWork(names, env.shipped)) && s.run.sent == run.sent
      && GroupsKept(run, s.run)
      && Fresh(s.run, stale) && KeepsSeen(run, s.run, Taxonomy)
  {
    if forall n <- names :: Ref(Taxonomy, n) in run.seen {
      FrameSelf(run.misp, TaxonomyWork(names, env.shipped));
    } else {
      LoadSent(env, run, names, stale);
    }
  }

  lemma LoggedFrame(m: Misp, m': Misp, items: seq<Item>)
    requires m' == m.(posts := m.posts + [LoadTaxonomies]) && Targeted(items, LoadTaxonomies)
    ensures Frame(m, m', items)
  {
  }

  lemma LoadFresh(run: Run, run1: Run, stale: set<Kind>)
    requires Fresh(run, stale) && Taxonomy !in stale && run1.seen == run.seen
    requires Extends(run.misp.records, run1.misp.records)
    requires forall q: Ref :: q.kind != Taxonomy ==>
               (q in run.misp.records <==> q in run1.misp.records)
               && (q in run.misp.records ==> run1.misp.records[q] == run.misp.records[q])
    ensures Fresh(Refresh(run1, Taxonomy), stale) && KeepsSeen(run, Refresh(run1, Taxonomy), Taxonomy)
  {
    assert Extends(run1.seen, run1.misp.records);
    RefreshSeen(run1, Taxonomy);
    forall r: Ref | r.kind !in stale ensures SeenSame(Refresh(run1, Taxonomy), r) {
      assert SeenSame(run, r);
      if r.kind != Taxonomy { assert SeenSame(run1, r); }
    }
  }

  // ---- Enabling, with names that may repeat ------------------------------------------------

  ghost predicate EnabledAt(m: Misp, q: Ref) { q in m.records && SyncItems.Enabled(m.records[q].fields) }

  ghost predicate SeenEnabled(run: Run, q: Ref) {
    q in run.seen ==>
      q in run.misp.records && (SyncItems.Enabled(run.seen[q].fields) ==> EnabledAt(run.misp, q))
  }

  lemma EnableOne(env: Env, run: Run, item: Item, q: Ref)
    requires item.Enable?
    ensures var run1 := ApplyOne(env, run, item).0;
      run1.seen == run.seen && (EnabledAt(run.misp, q) ==> EnabledAt(run1.misp, q))
      && (q in run.misp.records ==> q in run1.misp.records)
  {
  }

  lemma {:induction false} EnablesReach(env: Env, run: Run, items: seq<Item>)
    requires forall i <- items :: i.Enable? && SeenEnabled(run, i.ref)
    ensures var (run', os) := Each(env, run, items);
      && (forall q :: EnabledAt(run.misp, q) ==> EnabledAt(run'.misp, q))
      && (Failed !in os ==> forall i <- items :: EnabledAt(run'.misp, i.ref))
    decreases items
  {
    if items != [] {
      var first, rest := items[0], items[1..];
      var (run1, outcome) := ApplyOne(env, run, first);
      assert first in items;
      forall q {
        EnableOne(env, run, first, q);
      }
      forall i | i in rest
        ensures i.Enable? && SeenEnabled(run1, i.ref)
      {
        assert i in items;
        EnableOne(env, run, first, i.ref);
      }
      EnablesReach(env, run1, rest);
      var (run2, os) := Each(env, run1, rest);
      if outcome != Failed { assert EnabledAt(run1.misp, first.ref); }
      assert Each(env, run, items).1 == [outcome] + os;
    }
  }

  lemma EnableStep(env: Env, run: Run, names: seq<string>, stale: set<Kind>)
    requires Fresh(run, stale) && Taxonomy !in stale
    ensures var items := TaxonomyItems(names); var s := Do(env, run, items);
      && DidStep(run, s.run, items, Taxonomy, stale)
      && (s.ok ==> forall i <- items :: EnabledAt(s.run.misp, i.ref))
  {
    var items := TaxonomyItems(names);
    DoStep(env, run, items, Taxonomy, stale);
    EnablesReach(env, run, items);
  }

  // ---- Steps that sweep --------------------------------------------------------------------

  /** A sweep of a record that was unnamed and enabled in m. */
  ghost predicate SweepOf(m: Misp, i: Item, kind: Kind, named: set<Ref>) {
    && i.Sweep? && i.ref.kind == kind && i.ref !in named && i.fields == SweepFields(kind)
    && i.ref in m.records && SweepDue(kind, m.records[i.ref])
  }

  /** What happened before a sweep changed no record it is due for. */
  lemma SweepsOfStart(m: Misp, run: Run, before: seq<Item>, kind: Kind, named: set<Ref>)
    requires Frame(m, run.misp, before)
    requires forall q: Ref :: q.kind == kind && q !in named ==> SeenSame(run, q)
    requires forall q: Ref ::
               q.kind == kind && q !in named && MayTouch(before, q) && q in run.misp.records
               && SweepDue(kind, run.misp.records[q])
               ==> q in m.records && m.records[q] == run.misp.records[q]
    ensures forall i <- SweepItems(run.seen, run.misp.order, kind, named) :: SweepOf(m, i, kind, named)
  {
    SweepItemsAre(run.seen, run.misp.order, kind, named);
    forall i | i in SweepItems(run.seen, run.misp.order, kind, named) ensures SweepOf(m, i, kind, named) {
      assert SeenSame(run, i.ref);
      if !MayTouch(before, i.ref) { assert i.ref in m.records; }
    }
  }

  /** The items a sweep runs: none after a failed step. */
  function Swept(s: Step, kind: Kind, named: set<Ref>): seq<Item> {
    if s.ok then SweepItems(s.run.seen, s.run.misp.order, kind, named) else []
  }

  /** A taxonomy that only the load brought in is disabled. */
  lemma {:induction false} LoadedIsOff(m: Misp, shipped: seq<string>, q: Ref)
    requires q in Load(m, shipped).records
    ensures SyncItems.Enabled(Load(m, shipped).records[q].fields) ==>
              q in m.records && Load(m, shipped).records[q] == m.records[q]
    decreases shipped
  {
    if shipped != [] {
      var ref := Ref(Taxonomy, shipped[0]);
      var m1 := if ref in m.records then m else Insert(m, ref, map["enabled" := Bool(false)]);
      LoadedIsOff(m1, shipped[1..], q);
    }
  }

  lemma LoadStepOff(env: Env, run: Run, names: seq<string>, q: Ref)
    requires var m := LoadStep(env, run, names).run.misp;
      q in m.records && SyncItems.Enabled(m.records[q].fields)
    ensures var m := LoadStep(env, run, names).run.misp;
      q in run.misp.records && m.records[q] == run.misp.records[q]
  {
    var logged := run.misp.(posts := run.misp.posts + [LoadTaxonomies]);
    if q in Load(logged, env.shipped).records { LoadedIsOff(logged, env.shipped, q); }
  }

  /** What a step that sweeps does: it touches its named items and sweeps, none of them if it failed before. */
  ghost predicate SweepingStep(run: Run, s: Step, items: seq<Item>, swept: seq<Item>, kind: Kind, named: set<Ref>,
                               stale: set<Kind>)
  {
    && Fresh(s.run, stale + {kind}) && KeepsSeen(run, s.run, kind)
    && Frame(run.misp, s.run.misp, items + swept) && s.run.sent == run.sent && GroupsKept(run, s.run)
    && OfKind(items + swept, kind)
    && (forall i <- swept :: SweepOf(run.misp, i, kind, named))
    && (s.ok ==> NothingToSweep(s.run.misp, kind, named))
  }

  lemma SweepAfter(env: Env, run: Run, done: Step, items: seq<Item>, kind: Kind, named: set<Ref>, stale: set<Kind>)
    returns (swept: seq<Item>)
    requires kind !in {NoRecord, Server} && done.run.misp.Valid() && OfKind(items, kind)
    requires Fresh(done.run, stale + {kind}) && Frame(run.misp, done.run.misp, items)
    requires KeepsSeen(run, done.run, kind)
    requires done.run.sent == run.sent && GroupsKept(run, done.run)
    requires forall q: Ref :: q.kind == kind && q !in named ==> SeenSame(done.run, q)
    requires forall q: Ref ::
               q.kind == kind && q !in named && MayTouch(items, q) && q in done.run.misp.records
               && SweepDue(kind, done.run.misp.records[q])
               ==> q in run.misp.records && run.misp.records[q] == done.run.misp.records[q]
    ensures SweepingStep(run, SweepStep(env, done, kind, named), items, swept, kind, named, stale)
    ensures swept == Swept(done, kind, named)
    ensures forall q <- named :: !MayTouch(swept, q)
    ensures Frame(done.run.misp, SweepStep(env, done, kind, named).run.misp, swept)
  {
    hide *;
    SweepCases(env, done, kind, named);
    swept := Swept(done, kind, named);
    SweepsOfStart(run.misp, done.run, items, kind, named);
    if done.ok {
      SweepFrame(env, done.run, kind, named, stale + {kind});
      if SweepStep(env, done, kind, named).ok { SweepsHold(env, done.run, kind, named, stale + {kind}); }
    } else {
      NoSweep(done.run, kind, named, stale + {kind});
    }
    SweepComposed(run, done.run, SweepStep(env, done, kind, named), items, swept, kind, named, stale);
  }

  lemma SweepCases(env: Env, done: Step, kind: Kind, named: set<Ref>)
    ensures done.ok ==>
      && Swept(done, kind, named) == SweepItems(done.run.seen, done.run.misp.order, kind, named)
      && SweepStep(env, done, kind, named) == Do(env, done.run, Swept(done, kind, named))
    ensures !done.ok ==> Swept(done, kind, named) == [] && SweepStep(env, done, kind, named) == done
  {
  }

  lemma NoSweep(run: Run, kind: Kind, named: set<Ref>, stale: set<Kind>)
    requires Fresh(run, stale)
    ensures DidStep(run, run, [], kind, stale) && OfKind([], kind) && forall q <- named :: !MayTouch([], q)
  {
  }

  lemma SweepComposed(run: Run, run1: Run, s: Step, items: seq<Item>, swept: seq<Item>, kind: Kind, named: set<Ref>,
                      stale: set<Kind>)
    requires Frame(run.misp, run1.misp, items) && run1.sent == run.sent && GroupsKept(run, run1)
    requires KeepsSeen(run, run1, kind)
    requires DidStep(run1, s.run, swept, kind, stale + {kind}) && kind != Server
    requires OfKind(items, kind) && OfKind(swept, kind)
    requires forall i <- swept :: SweepOf(run.misp, i, kind, named)
    requires s.ok ==> NothingToSweep(s.run.misp, kind, named)
    ensures SweepingStep(run, s, items, swept, kind, named, stale)
    ensures Frame(run1.misp, s.run.misp, swept)
  {
    hide NothingToSweep, SweepOf, Frame;
    FrameTrans(run.misp, run1.misp, s.run.misp, items, swept);
    assert stale + {kind} + {kind} == stale + {kind};
  }

  function LoadAndEnable(env: Env, run: Run, names: seq<string>): Step {
    var loaded := LoadStep(env, run, names);
    if loaded.ok then Do(env, loaded.run, TaxonomyItems(names)) else loaded
  }

  lemma LoadAndEnableReaches(env: Env, run: Run, names: seq<string>, stale: set<Kind>)
    requires Fresh(run, stale) && Taxonomy !in stale
    ensures var done, items := LoadAndEnable(env, run, names), TaxonomyItems(names);
      && Fresh(done.run, stale + {Taxonomy}) && KeepsSeen(run, done.run, Taxonomy)
      && Frame(run.misp, done.run.misp, TaxonomyWork(names, env.shipped))
      && done.run.sent == run.sent && GroupsKept(run, done.run)
      && (forall q: Ref :: q.kind == Taxonomy && !MayTouch(items, q) ==> SeenSame(done.run, q))
      && (done.ok ==> forall i <- items :: EnabledAt(done.run.misp, i.ref))
  {
    var items, all := TaxonomyItems(names), TaxonomyWork(names, env.shipped);
    var loaded, done := LoadStep(env, run, names), LoadAndEnable(env, run, names);
    LoadStepFrame(env, run, names, stale);
    if loaded.ok {
      EnableStep(env, loaded.run, names, stale);
      FrameTrans(run.misp, loaded.run.misp, done.run.misp, all, items);
      FrameWiden(run.misp, done.run.misp, all + items, all);
    }
  }

  lemma DueBeforeLoad(env: Env, run: Run, names: seq<string>, stale: set<Kind>, q: Ref)
    requires Fresh(run, stale) && Taxonomy !in stale
    requires var m := LoadAndEnable(env, run, names).run.misp;
      && q.kind == Taxonomy && !MayTouch(TaxonomyItems(names), q)
      && q in m.records && SweepDue(Taxonomy, m.records[q])
    ensures var m := LoadAndEnable(env, run, names).run.misp;
      q in run.misp.records && run.misp.records[q] == m.records[q]
  {
    var loaded := LoadStep(env, run, names);
    LoadStepFrame(env, run, names, stale);
    if loaded.ok { EnableStep(env, loaded.run, names, stale); }
    assert q in loaded.run.misp.records;
    LoadStepOff(env, run, names, q);
  }

  lemma TaxonomyStepReaches(env: Env, run: Run, config: Config, stale: set<Kind>) returns (swept: seq<Item>)
    requires Fresh(run, stale) && Taxonomy !in stale && run.misp.Valid() && config.taxonomies.Some?
    ensures var names := config.taxonomies.value; var s := TaxonomyStep(env, run, config);
      && SweepingStep(run, s, TaxonomyWork(names, env.shipped), swept, Taxonomy, Refs(TaxonomyItems(names)), stale)
      && (s.ok ==> AllHeld(s.run.misp, TaxonomyItems(names)))
      && swept == Swept(LoadAndEnable(env, run, names), Taxonomy, Refs(TaxonomyItems(names)))
  {
    var names := config.taxonomies.value;
    swept := TaxonomiesSwept(env, run, names, stale);
    var done, named := LoadAndEnable(env, run, names), Refs(TaxonomyItems(names));
    var s := SweepStep(env, done, Taxonomy, named);
    assert TaxonomyStep(env, run, config) == s;
    if s.ok { StillEnabled(done.run.misp, s.run.misp, swept, TaxonomyItems(names), named); }
  }

  lemma TaxonomiesSwept(env: Env, run: Run, names: seq<string>, stale: set<Kind>) returns (swept: seq<Item>)
    requires Fresh(run, stale) && Taxonomy !in stale && run.misp.Valid()
    ensures var done, named := LoadAndEnable(env, run, names), Refs(TaxonomyItems(names));
      var s := SweepStep(env, done, Taxonomy, named);
      && SweepingStep(run, s, TaxonomyWork(names, env.shipped), swept, Taxonomy, named, stale)
      && swept == Swept(done, Taxonomy, named)
      && Frame(done.run.misp, s.run.misp, swept) && (forall q <- named :: !MayTouch(swept, q))
      && (s.ok ==> forall i <- TaxonomyItems(names) :: EnabledAt(done.run.misp, i.ref))
  {
    hide LoadAndEnable, SweepingStep, Frame, Fresh, KeepsSeen, GroupsKept, Swept, SweepDue, MayTouch, Do;
    var named, done := Refs(TaxonomyItems(names)), LoadAndEnable(env, run, names);
    WorkKinds(names, env.shipped);
    FrameValid(run.misp, done.run.misp, TaxonomyWork(names, env.shipped));
    LoadAndEnableReaches(env, run, names, stale);
    forall q: Ref | q.kind == Taxonomy && q !in named && q in done.run.misp.records
                    && SweepDue(Taxonomy, done.run.misp.records[q])
      ensures q in run.misp.records && run.misp.records[q] == done.run.misp.records[q]
    {
      DueBeforeLoad(env, run, names, stale, q);
    }
    swept := SweepAfter(env, run, done, TaxonomyWork(names, env.shipped), Taxonomy, named, stale);
  }

  lemma WorkKinds(names: seq<string>, shipped: seq<string>)
    ensures OfKind(TaxonomyWork(names, shipped), Taxonomy)
  {
  }

  lemma FrameValid(m: Misp, m': Misp, items: seq<Item>)
    ensures Frame(m, m', items) && m.Valid() ==> m'.Valid()
  {
  }

  lemma StillEnabled(m: Misp, m': Misp, swept: seq<Item>, items: seq<Item>, named: set<Ref>)
    requires Frame(m, m', swept) && forall q <- named :: !MayTouch(swept, q)
    requires forall i <- items :: i.Enable? && i.ref in named && EnabledAt(m, i.ref)
    ensures AllHeld(m', items)
  {
    forall i | i in items ensures Held(m', m'.sent, i) {
      assert EnabledAt(m, i.ref) && !MayTouch(swept, i.ref);
      assert m'.records[i.ref] == m.records[i.ref];
    }
  }

  lemma ListStepReaches(env: Env, run: Run, config: Config, stale: set<Kind>) returns (swept: seq<Item>)
    requires Fresh(run, stale) && Warninglist !in stale && run.misp.Valid() && config.warninglists.Some?
    ensures var items := ListItems(config.warninglists.value); var s := ListStep(env, run, config);
      && SweepingStep(run, s, items, swept, Warninglist, Refs(items), stale)
      && (s.ok && DistinctRefs(items) ==> AllHeld(s.run.misp, items))
      && swept == Swept(Do(env, run, items), Warninglist, Refs(items))
  {
    var items := ListItems(config.warninglists.value);
    var named, done := Refs(items), Do(env, run, items);
    ListItemKinds(config.warninglists.value);
    DoStep(env, run, items, Warninglist, stale);
    swept := SweepAfter(env, run, done, items, Warninglist, named, stale);
    var s := ListStep(env, run, config);
    assert s == SweepStep(env, done, Warninglist, named);
    if s.ok && DistinctRefs(items) {
      DoReaches(env, run, items, Warninglist, stale);
      forall i | i in items ensures Held(s.run.misp, s.run.misp.sent, i) {
        assert ItemRef(i) in named && !i.ServerItem?;
        HeldStable(done.run.misp, done.run.sent, s.run.misp, s.run.sent, swept, i);
      }
    }
  }

  lemma ListItemKinds(entries: seq<ListEntry>)
    ensures OfKind(ListItems(entries), Warninglist)
    ensures forall i <- ListItems(entries) :: i.Enable? || i.ListItem? || i.Malformed?
  {
    forall i | i in ListItems(entries) ensures ItemRef(i).kind == Warninglist && (i.Enable? || i.ListItem? || i.Malformed?) {
      var k :| 0 <= k < |entries| && EntryItem(entries[k]) == i;
    }
  }
}
