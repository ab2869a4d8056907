/** The release script's versions: git tags, and chart versions under SemVer. */
module Release {
  import opened Values

  datatype Version = Version(major: nat, minor: nat, patch: nat)

  /** A pre-release of a version, or its release with the number of its revision, 0 for the first. */
  datatype Stage = Pre(n: nat) | Rev(n: nat)

  datatype Tag = Tag(v: Version, stage: Stage)

  datatype Chart = Chart(v: Version, pre: Option<nat>)

  datatype Kind = Breaking | Normal | Hotfix

  /** What the Dockerfile pins: a work in progress, or a MISP release. */
  datatype Pin = Wip(major: nat, minor: nat) | Misp(v: Version)

  // ---- Orders ------------------------------------------------------------------------------

  predicate Below(a: Version, b: Version) {
    a.major < b.major || (a.major == b.major && (a.minor < b.minor || (a.minor == b.minor && a.patch < b.patch)))
  }

  /** The order of tag_key: by version, a pre-release before the release, then by number. */
  predicate TagBelow(a: Tag, b: Tag) {
    Below(a.v, b.v) || (a.v == b.v && ((a.stage.Pre? && b.stage.Rev?)
                                       || (a.stage.Pre? == b.stage.Pre? && a.stage.n < b.stage.n)))
  }

  /** An identifier of a SemVer pre-release. */
  datatype Ident = Numeric(n: nat) | Word(s: string)

  predicate TextBelow(a: string, b: string) {
    b != "" && (a == "" || a[0] < b[0] || (a[0] == b[0] && TextBelow(a[1..], b[1..])))
  }

  /** Section 11 of SemVer 2.0.0, item 4: numbers by value, words by character, numbers before words. */
  predicate IdentBelow(a: Ident, b: Ident) {
    match (a, b)
    case (Numeric(m), Numeric(n)) => m < n
    case (Word(s), Word(t)) => TextBelow(s, t)
    case (Numeric(_), Word(_)) => true
    case (Word(_), Numeric(_)) => false
  }

  /** The first identifier that differs decides; a longer pre-release is higher than its beginning. */
  predicate PreBelow(a: seq<Ident>, b: seq<Ident>) {
    b != [] && (a == [] || IdentBelow(a[0], b[0]) || (a[0] == b[0] && PreBelow(a[1..], b[1..])))
  }

  /** Precedence of SemVer, section 11: a pre-release is lower than its version. */
  predicate Precedes(v: Version, pre: seq<Ident>, w: Version, pre': seq<Ident>) {
    Below(v, w) || (v == w && ((pre != [] && pre' == []) || (pre != [] && pre' != [] && PreBelow(pre, pre'))))
  }

  function Idents(c: Chart): seq<Ident> { if c.pre.None? then [] else [Word("wip"), Numeric(c.pre.value)] }

  predicate ChartBelow(a: Chart, b: Chart) { Precedes(a.v, Idents(a), b.v, Idents(b)) }

  lemma SameWord(s: string)
    ensures !TextBelow(s, s)
  {
    if s != "" { SameWord(s[1..]); }
  }

  lemma ChartBelowIs(a: Chart, b: Chart)
    ensures ChartBelow(a, b) <==>
            Below(a.v, b.v) || (a.v == b.v && a.pre.Some? && (b.pre.None? || a.pre.value < b.pre.value))
  {
    SameWord("wip");
    if a.pre.Some? && b.pre.Some? {
      var x, y := Idents(a), Idents(b);
      assert x[1..] == [Numeric(a.pre.value)] && y[1..] == [Numeric(b.pre.value)];
      assert PreBelow(x, y) == PreBelow(x[1..], y[1..]);
      assert PreBelow(x[1..], y[1..]) <==> a.pre.value < b.pre.value
                                           || (a.pre.value == b.pre.value && PreBelow(x[1..][1..], y[1..][1..]));
      assert y[1..][1..] == [];
    }
  }

  // ---- The script --------------------------------------------------------------------------

  datatype Release = Release(tag: Tag, chart: Option<Chart>)

  /** The largest number of the tags of this version at this stage, or None. */
  function Largest(tags: seq<Release>, v: Version, pre: bool): Option<nat> {
    if tags == [] then None else
      var init, t := Largest(tags[..|tags| - 1], v, pre), tags[|tags| - 1].tag;
      if t.v == v && t.stage.Pre? == pre && (init.None? || init.value < t.stage.n) then Some(t.stage.n) else init
  }

  function NextTag(pin: Pin, tags: seq<Release>): Tag {
    match pin
    case Wip(major, minor) =>
      var v := Version(major, minor, 0);
      var last := Largest(tags, v, true);
      Tag(v, Pre((if last.None? then 0 else last.value) + 1))
    case Misp(v) =>
      var last := Largest(tags, v, false);
      Tag(v, Rev(if last.None? then 0 else last.value + 1))
  }

  /** The newest release: the highest tag. */
  function Latest(tags: seq<Release>): Option<Release> {
    if tags == [] then None else
      var init, t := Latest(tags[..|tags| - 1]), tags[|tags| - 1];
      if init.None? || TagBelow(init.value.tag, t.tag) then Some(t) else init
  }

  function Raised(v: Version, kind: Kind): Version {
    match kind
    case Breaking => Version(v.major + 1, 0, 0)
    case Normal => Version(v.major, v.minor + 1, 0)
    case Hotfix => Version(v.major, v.minor, v.patch + 1)
  }

  /** What a release of this kind has to be: of a later major version, of a later minor of the same major, or of a
      later patch of the same minor. */
  predicate Raises(v: Version, kind: Kind, w: Version) {
    match kind
    case Breaking => w.major > v.major
    case Normal => w.major == v.major && w.minor > v.minor
    case Hotfix => w.major == v.major && w.minor == v.minor && w.patch > v.patch
  }

  /** The lowest version that does. */
  ghost predicate LowestLater(v: Version, kind: Kind, r: Version) {
    Raises(v, kind, r) && forall w :: Raises(v, kind, w) ==> w == r || Below(r, w)
  }

  lemma RaisedIsNext(v: Version, kind: Kind)
    ensures LowestLater(v, kind, Raised(v, kind))
  {
  }

  /** Raises one part of a version and sets those after it to 0, in place: the lowest later version of its kind. */
  method RaisePart(v: Version, kind: Kind) returns (r: Version)
    ensures r == Raised(v, kind) && Below(v, r) && LowestLater(v, kind, r)
  {
    var parts := new nat[3](i => if i == 0 then v.major else if i == 1 then v.minor else v.patch);
    var raised := match kind case Breaking => 0 case Normal => 1 case Hotfix => 2;
    parts[raised] := parts[raised] + 1;
    for i := raised + 1 to 3
      invariant parts[raised] == (match kind case Breaking => v.major + 1 case Normal => v.minor + 1 case Hotfix => v.patch + 1)
      invariant forall j :: 0 <= j < raised ==> parts[j] == if j == 0 then v.major else v.minor
      invariant forall j :: raised < j < i ==> parts[j] == 0
    {
      parts[i] := 0;
    }
    r := Version(parts[0], parts[1], parts[2]);
    RaisedIsNext(v, kind);
  }

  function NextChart(previous: Option<Chart>, current: Version, kind: Kind): Chart {
    if previous.None? then Chart(current, None)
    else if previous.value.pre.Some? then Chart(previous.value.v, None)
    else Chart(Raised(previous.value.v, kind), None)
  }

  function WipChart(previous: Option<Chart>, tag: Tag, kind: Kind): Chart
    requires tag.stage.Pre?
  {
    var base := if previous.None? then tag.v else if previous.value.pre.Some? then previous.value.v
                else Raised(previous.value.v, kind);
    Chart(base, Some(tag.stage.n))
  }

  /** What the script would release, after these releases. `current` is the chart version in the tree. */
  function Next(tags: seq<Release>, pin: Pin, kind: Kind, current: Version): Release {
    var tag, previous := NextTag(pin, tags), Latest(tags);
    var chart := if previous.None? then None else previous.value.chart;
    Release(tag, Some(if pin.Wip? then WipChart(chart, tag, kind) else NextChart(chart, current, kind)))
  }

  /** One use of the script. */
  datatype Use = Use(pin: Pin, kind: Kind, current: Version)

  /** The releases after the script was used so; `olds` are those from before the chart existed. */
  function After(olds: seq<Tag>, uses: seq<Use>): seq<Release> {
    if uses == [] then seq(|olds|, i requires 0 <= i < |olds| => Release(olds[i], None)) else
      var tags, u := After(olds, uses[..|uses| - 1]), uses[|uses| - 1];
      tags + [Next(tags, u.pin, u.kind, u.current)]
  }

  // ---- Pins that never go back ---------------------------------------------------------------

  /** The place of a pin, and of the pin that a tag was made under: a work in progress before its version. */
  function PinTag(pin: Pin): Tag { if pin.Wip? then Tag(Version(pin.major, pin.minor, 0), Pre(0)) else Tag(pin.v, Rev(0)) }

  predicate AtMost(a: Tag, b: Tag) { Below(a.v, b.v) || (a.v == b.v && (a.stage.Pre? || b.stage.Rev?)) }

  ghost predicate NeverBack(olds: seq<Tag>, uses: seq<Use>) {
    && (uses != [] ==> forall t <- olds :: AtMost(t, PinTag(uses[0].pin)))
    && forall i :: 0 <= i < |uses| - 1 ==> AtMost(PinTag(uses[i].pin), PinTag(uses[i + 1].pin))
  }

  lemma AtMostTrans(a: Tag, b: Tag, c: Tag)
    requires AtMost(a, b) && AtMost(b, c)
    ensures AtMost(a, c)
  {
  }

  lemma {:induction false} LargestIs(tags: seq<Release>, v: Version, pre: bool)
    ensures var l := Largest(tags, v, pre);
      && (forall r <- tags :: r.tag.v == v && r.tag.stage.Pre? == pre ==> l.Some? && r.tag.stage.n <= l.value)
      && (l.Some? ==> exists r <- tags :: r.tag == Tag(v, if pre then Pre(l.value) else Rev(l.value)))
    decreases tags
  {
    if tags != [] {
      var init, last := tags[..|tags| - 1], tags[|tags| - 1];
      LargestIs(init, v, pre);
      var l := Largest(init, v, pre);
      if l.Some? {
        var r :| r in init && r.tag == Tag(v, if pre then Pre(l.value) else Rev(l.value));
        assert r in tags;
      }
      assert last in tags;
      forall r | r in tags && r.tag.v == v && r.tag.stage.Pre? == pre
        ensures Largest(tags, v, pre).Some? && r.tag.stage.n <= Largest(tags, v, pre).value
      {
        assert r in init || r == last;
      }
    }
  }

  /** The new tag is above every tag, when none was made under a later pin. */
  lemma NextTagIsNewest(pin: Pin, tags: seq<Release>)
    requires forall r <- tags :: AtMost(r.tag, PinTag(pin))
    ensures forall r <- tags :: TagBelow(r.tag, NextTag(pin, tags))
    ensures AtMost(NextTag(pin, tags), PinTag(pin))
  {
    LargestIs(tags, if pin.Wip? then Version(pin.major, pin.minor, 0) else pin.v, pin.Wip?);
  }

  /** The tag is of the pinned version, and its number follows the largest one so far: from 1 on for the pre-releases
      of a work in progress, from 0 on for a release and its revisions. */
  lemma NextTagNumber(pin: Pin, tags: seq<Release>)
    ensures var tag := NextTag(pin, tags); var n := tag.stage.n;
      && tag.v == (if pin.Wip? then Version(pin.major, pin.minor, 0) else pin.v) && tag.stage.Pre? == pin.Wip?
      && (pin.Wip? ==> n >= 1)
      && (forall r <- tags :: r.tag.v == tag.v && r.tag.stage.Pre? == pin.Wip? ==> r.tag.stage.n < n)
      && (n > (if pin.Wip? then 1 else 0) ==>
            exists r <- tags :: r.tag == Tag(tag.v, if pin.Wip? then Pre(n - 1) else Rev(n - 1)))
  {
    LargestIs(tags, if pin.Wip? then Version(pin.major, pin.minor, 0) else pin.v, pin.Wip?);
  }

  /** The chart of the next release: it has the suffix of a pre-release's tag, and it goes on with the version that a
      pre-release prepared, or with the lowest later one of its kind; without a chart so far it is the tree's, or of
      a pre-release the tag's. */
  lemma NextChartMeans(tags: seq<Release>, pin: Pin, kind: Kind, current: Version)
    ensures var r, previous := Next(tags, pin, kind, current), Latest(tags); var chart := r.chart.value;
      && r.tag == NextTag(pin, tags)
      && (if pin.Wip? then chart.pre == Some(r.tag.stage.n) else chart.pre.None?)
      && (if previous.None? || previous.value.chart.None? then chart.v == if pin.Wip? then r.tag.v else current
          else if previous.value.chart.value.pre.Some? then chart.v == previous.value.chart.value.v
          else LowestLater(previous.value.chart.value.v, kind, chart.v))
  {
    hide LowestLater, Largest, Latest;
    var previous := Latest(tags);
    if previous.Some? && previous.value.chart.Some? { RaisedIsNext(previous.value.chart.value.v, kind); }
  }

  lemma {:induction false} LatestIs(tags: seq<Release>)
    ensures var l := Latest(tags);
      && (tags != [] ==> l.Some?)
      && (l.Some? ==> l.value in tags && forall r <- tags :: !TagBelow(l.value.tag, r.tag))
    decreases tags
  {
    if tags != [] {
      var init, last := tags[..|tags| - 1], tags[|tags| - 1];
      LatestIs(init);
      forall r | r in tags ensures !TagBelow(Latest(tags).value.tag, r.tag) {
        assert r in init || r == last;
      }
    }
  }

  lemma LatestIsNew(tags: seq<Release>, r: Release)
    requires forall t <- tags :: TagBelow(t.tag, r.tag)
    ensures Latest(tags + [r]) == Some(r)
  {
    LatestIs(tags);
    assert (tags + [r])[..|tags|] == tags;
  }

  /** What the releases keep: they came from pins up to the last one, the last is the newest, and a chart has the
      suffix of its tag. */
  ghost predicate Kept(olds: seq<Tag>, uses: seq<Use>, tags: seq<Release>) {
    && (if uses == [] then forall r <- tags :: r.chart.None? && r.tag in olds
        else && (forall r <- tags :: AtMost(r.tag, PinTag(uses[|uses| - 1].pin)))
             && tags != [] && Latest(tags) == Some(tags[|tags| - 1]) && tags[|tags| - 1].chart.Some?)
    && forall r <- tags :: Suffixed(r)
  }

  /** The chart of a pre-release has its number, that of a release has none. */
  ghost predicate Suffixed(r: Release) {
    r.chart.Some? ==>
      if r.tag.stage.Pre? then r.chart.value.pre == Some(r.tag.stage.n) && r.tag.stage.n > 0
      else r.chart.value.pre.None?
  }

  lemma {:induction false} ReleasesKept(olds: seq<Tag>, uses: seq<Use>)
    requires NeverBack(olds, uses)
    ensures Kept(olds, uses, After(olds, uses))
    decreases uses
  {
    if uses != [] {
      var init, u := uses[..|uses| - 1], uses[|uses| - 1];
      var tags := After(olds, init);
      ReleasesKept(olds, init);
      PinsAbove(olds, uses, tags);
      var r := Next(tags, u.pin, u.kind, u.current);
      NextTagIsNewest(u.pin, tags);
      LatestIsNew(tags, r);
      LatestIs(tags);
      assert After(olds, uses) == tags + [r];
    }
  }

  /** No tag so far is from a later pin. */
  lemma PinsAbove(olds: seq<Tag>, uses: seq<Use>, tags: seq<Release>)
    requires NeverBack(olds, uses) && uses != [] && Kept(olds, uses[..|uses| - 1], tags)
    ensures forall r <- tags :: AtMost(r.tag, PinTag(uses[|uses| - 1].pin))
  {
    var init := uses[..|uses| - 1];
    if init != [] {
      assert AtMost(PinTag(uses[|uses| - 2].pin), PinTag(uses[|uses| - 2 + 1].pin));
      forall r | r in tags ensures AtMost(r.tag, PinTag(uses[|uses| - 1].pin)) {
        AtMostTrans(r.tag, PinTag(init[|init| - 1].pin), PinTag(uses[|uses| - 1].pin));
      }
    }
  }

  /** The pin goes from one work in progress to another without a release in between. */
  ghost predicate SkipsRelease(before: Tag, tag: Tag) { before.stage.Pre? && tag.stage.Pre? && before.v != tag.v }

  /** Over any run of releases whose pin never goes back: each new tag is above every other and becomes the
      latest release. Its chart version is above the one before it, by SemVer's precedence, if and only if the
      pin did not leave a work in progress for another without that one's release. */
  lemma EveryReleaseIsNewest(olds: seq<Tag>, uses: seq<Use>)
    requires NeverBack(olds, uses) && uses != []
    ensures var before, u := After(olds, uses[..|uses| - 1]), uses[|uses| - 1];
      var r, previous := Next(before, u.pin, u.kind, u.current), Latest(before);
      && (forall t <- before :: TagBelow(t.tag, r.tag) && t.tag != r.tag)
      && Latest(After(olds, uses)) == Some(r)
      && (previous.Some? && previous.value.chart.Some? ==>
            (ChartBelow(previous.value.chart.value, r.chart.value) <==> !SkipsRelease(previous.value.tag, r.tag)))
  {
    var init, u := uses[..|uses| - 1], uses[|uses| - 1];
    var before := After(olds, init);
    ReleasesKept(olds, init);
    ReleasesKept(olds, uses);
    PinsAbove(olds, uses, before);
    NextTagIsNewest(u.pin, before);
    LatestIsNew(before, Next(before, u.pin, u.kind, u.current));
    LatestIs(before);
    if Latest(before).Some? && Latest(before).value.chart.Some? {
      NextChartAbove(before, u);
    }
  }

  lemma NextChartAbove(before: seq<Release>, u: Use)
    requires Latest(before).Some? && Latest(before).value.chart.Some?
    requires forall r <- before :: AtMost(r.tag, PinTag(u.pin)) && Suffixed(r)
    ensures var previous, r := Latest(before).value, Next(before, u.pin, u.kind, u.current);
      ChartBelow(previous.chart.value, r.chart.value) <==> !SkipsRelease(previous.tag, r.tag)
  {
    var previous, r := Latest(before).value, Next(before, u.pin, u.kind, u.current);
    ChartBelowIs(previous.chart.value, r.chart.value);
    LatestIs(before);
    if u.pin.Wip? {
      LargestIs(before, r.tag.v, true);
      if previous.tag.stage.Pre? && previous.tag.v != r.tag.v { NoneOfLine(before, r.tag.v); }
    }
  }

  /** When the latest tag is of another line, this line has no pre-release yet. */
  lemma NoneOfLine(before: seq<Release>, v: Version)
    requires Latest(before).Some? && Latest(before).value.tag.v != v
    requires forall r <- before :: AtMost(r.tag, Tag(v, Pre(0)))
    ensures Largest(before, v, true).None?
  {
    LargestIs(before, v, true);
    LatestIs(before);
  }

  /** A pin that leaves 3.0_wip for 3.1_wip: the chart version stays 3.0.0-wip.1 after one pre-release, and goes from
      3.0.0-wip.2 down to 3.0.0-wip.1 after two. */
  lemma SkippedRelease(current: Version)
    ensures var first, second := Use(Wip(3, 0), Normal, current), Use(Wip(3, 1), Normal, current);
      var one, two := After([], [first]), After([], [first, first]);
      var low, high := Chart(Version(3, 0, 0), Some(1)), Chart(Version(3, 0, 0), Some(2));
      && NeverBack([], [first, second]) && NeverBack([], [first, first, second])
      && Latest(one).value.chart == Some(low) && Next(one, second.pin, Normal, current).chart == Some(low)
      && Latest(two).value.chart == Some(high) && Next(two, second.pin, Normal, current).chart == Some(low)
      && ChartBelow(low, high)
  {
    var first, second := Use(Wip(3, 0), Normal, current), Use(Wip(3, 1), Normal, current);
    var a := Release(Tag(Version(3, 0, 0), Pre(1)), Some(Chart(Version(3, 0, 0), Some(1))));
    var b := Release(Tag(Version(3, 0, 0), Pre(2)), Some(Chart(Version(3, 0, 0), Some(2))));
    assert After([], []) == [] && [first][..0] == [];
    assert Next([], first.pin, Normal, current) == a;
    assert After([], [first]) == [a];
    assert [a][..0] == [];
    assert Largest([a], Version(3, 0, 0), true) == Some(1) && Latest([a]) == Some(a);
    assert Next([a], first.pin, Normal, current) == b;
    assert [first, first][..1] == [first];
    assert After([], [first, first]) == [a] + [b];
    assert ([a] + [b])[..1] == [a];
    assert Latest([a] + [b]) == Some(b);
    assert Largest([a], Version(3, 1, 0), true) == None;
    assert ([a] + [b])[1] == b && Largest([a] + [b], Version(3, 1, 0), true) == None;
    ChartBelowIs(Chart(Version(3, 0, 0), Some(1)), Chart(Version(3, 0, 0), Some(2)));
  }
}
