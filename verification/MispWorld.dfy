/** What org-sync reads and writes: MISP behind its REST API, and the rows it keeps in the database. */
module MispWorld {
  import opened Values

  datatype Kind = Role | Org | Tag | User | Server | Taxonomy | Warninglist | NoRecord

  /** A record's kind and the natural key the client indexes it by. */
  datatype Ref = Ref(kind: Kind, key: string)

  type Id = n: int | 0 < n witness 1

  datatype Record = Record(id: Id, fields: map<string, Value>)

  datatype Group = Group(fields: map<string, Value>, members: map<Id, bool>)

  type Table = map<Ref, Record>

  datatype Post =
    | Add(ref: Ref, fields: map<string, Value>)
    | Edit(ref: Ref, fields: map<string, Value>)
    | LoadTaxonomies
    | AddGroup(fields: map<string, Value>)
    | EditGroup(group: Id, fields: map<string, Value>)
    | AddMember(group: Id, org: Id, extend: bool)
    | RemoveMember(group: Id, org: Id)

  /** How an item of a step ended. */
  datatype Outcome = Failed | Created | Updated | Unchanged | Enabled | Disabled | Applied

  datatype Answer = Accepted | Refused | Already

  /** What a run cannot know in advance: which posts MISP refuses, which answers name the new
      record, which taxonomies the image ships, and the order in which a set is walked. */
  datatype Env = Env(refuse: nat -> bool, named: nat -> bool, shipped: seq<string>,
                     walk: set<Id> -> seq<Id>)

  /** MISP's state. `order` is the order in which it lists records, `posts` every post it ever got,
      `authkeys` the live auth_keys of each user, `sent` the system_settings row of the server keys. */
  datatype Misp = Misp(records: Table, order: seq<Ref>, groups: map<Id, Group>, groupOrder: seq<Id>,
                       next: Id, authkeys: map<Ref, set<string>>, sent: map<string, string>,
                       posts: seq<Post>)
  {
    ghost predicate Valid() {
      && (forall r <- records :: r in order)
      && (forall r <- order :: r in records)
      && Distinct(order)
      && (forall g <- groups :: g in groupOrder && g < next)
      && (forall g <- groupOrder :: g in groups)
    }
  }

  /** `walk` lists each element of a set once. */
  ghost predicate Walks(env: Env) {
    forall s :: WalkOf(env, s)
  }

  ghost predicate WalkOf(env: Env, s: set<Id>) {
    Distinct(env.walk(s)) && forall x :: x in env.walk(s) <==> x in s
  }

  ghost predicate Distinct<T>(s: seq<T>) {
    forall i, j :: 0 <= i < j < |s| ==> s[i] != s[j]
  }

  /** `record.get(field, "")` */
  function Field(fields: map<string, Value>, f: string): Value {
    if f in fields then fields[f] else Str("")
  }

  /** The desired fields that the existing ones differ from. */
  function Differences(desired: map<string, Value>, existing: map<string, Value>): map<string, Value> {
    map f | f in desired && !ValuesEqual(desired[f], Field(existing, f)) :: desired[f]
  }

  ghost predicate Holds(fields: map<string, Value>, desired: map<string, Value>) {
    forall f :: f in desired ==> ValuesEqual(desired[f], Field(fields, f))
  }

  lemma NoDifferences(desired: map<string, Value>, existing: map<string, Value>)
    ensures Differences(desired, existing) == map[] <==> Holds(existing, desired)
  {
    var d := Differences(desired, existing);
    if d == map[] {
      forall f | f in desired ensures ValuesEqual(desired[f], Field(existing, f)) {
        assert f !in d;
      }
    }
  }

  /** Overwriting the differing fields leaves every desired field as desired. */
  lemma OverwriteHolds(desired: map<string, Value>, existing: map<string, Value>, more: map<string, Value>)
    requires desired.Keys !! more.Keys
    ensures Holds(existing + (Differences(desired, existing) + more), desired)
  {
    forall f | f in desired
      ensures ValuesEqual(desired[f], Field(existing + (Differences(desired, existing) + more), f))
    {
      StoredValueIsEqual(desired[f]);
    }
  }

  function Load(m: Misp, shipped: seq<string>): Misp
    decreases shipped
  {
    if shipped == [] then m else
      var ref := Ref(Taxonomy, shipped[0]);
      Load(if ref in m.records then m else Insert(m, ref, map["enabled" := Bool(false)]), shipped[1..])
  }

  function Insert(m: Misp, ref: Ref, fields: map<string, Value>): Misp {
    m.(records := m.records[ref := Record(m.next, fields)], order := m.order + [ref], next := m.next + 1)
  }

  /** A post MISP gets: an add stores the posted fields, an edit overwrites the posted fields only. */
  function Effect(env: Env, m: Misp, post: Post): (Misp, Answer) {
    match post
    case Add(ref, fields) =>
      if ref in m.records then (m, Already) else (Insert(m, ref, fields), Accepted)
    case Edit(ref, fields) =>
      if ref !in m.records then (m, Refused) else
        var was := m.records[ref];
        (m.(records := m.records[ref := was.(fields := was.fields + fields)]), Accepted)
    case LoadTaxonomies => (Load(m, env.shipped), Accepted)
    case AddGroup(fields) =>
      if exists g :: g in m.groups && "uuid" in fields && Field(m.groups[g].fields, "uuid") == fields["uuid"]
      then (m, Already)
      else (m.(groups := m.groups[m.next := Group(map["uuid" := Token(m.next)] + fields, map[])],
               groupOrder := m.groupOrder + [m.next], next := m.next + 1), Accepted)
    case EditGroup(g, fields) =>
      if g !in m.groups then (m, Refused) else
        var was := m.groups[g];
        (m.(groups := m.groups[g := was.(fields := was.fields + fields)]), Accepted)
    case AddMember(g, org, extend) =>
      if g !in m.groups then (m, Refused) else
        var was := m.groups[g];
        if org in was.members then (m, Already)
        else (m.(groups := m.groups[g := was.(members := was.members[org := extend])]), Accepted)
    case RemoveMember(g, org) =>
      if g !in m.groups || org !in m.groups[g].members then (m, Refused) else
        var was := m.groups[g];
        (m.(groups := m.groups[g := was.(members := was.members - {org})]), Accepted)
  }

  /** One post through the client. A refused post changes nothing but the log of posts. */
  function Send(env: Env, m: Misp, post: Post): (Misp, Answer) {
    var logged := m.(posts := m.posts + [post]);
    if env.refuse(|m.posts|) then (logged, Refused) else Effect(env, logged, post)
  }

  /** Records never go away and keep their IDs; the lists only grow at their end. */
  ghost predicate Extends(t: Table, t': Table) {
    forall r :: r in t ==> r in t' && t'[r].id == t[r].id
  }
}
