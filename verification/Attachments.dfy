/** The attachment copy between two buckets: canonical keys, requests that are tried again, one spool file. */
module Attachments {
  import opened Values

  // ---- Keys --------------------------------------------------------------------------------

  /** The non-empty parts of a path. */
  function Parts(path: string): seq<string> {
    if path == "" then [] else
      var init, c := path[..|path| - 1], path[|path| - 1];
      var rest := Parts(init);
      if c == '/' then rest
      else if rest != [] && init[|init| - 1] != '/' then rest[..|rest| - 1] + [rest[|rest| - 1] + [c]]
      else rest + [[c]]
  }

  function Join(parts: seq<string>): string {
    if parts == [] then "" else if |parts| == 1 then parts[0] else Join(parts[..|parts| - 1]) + "/" + parts[|parts| - 1]
  }

  predicate Part(s: string) { s != "" && '/' !in s }

  predicate Digits(s: string) { s != "" && forall c <- s :: '0' <= c <= '9' }

  predicate BucketLevel(s: string) { "bucket_" <= s && Digits(s[7..]) }

  /** MISP's key for a file under an attachments directory: no bucket level, shadow/ kept; None for a file that
      is no attachment. */
  function KeyOf(parts: seq<string>): Option<seq<string>> {
    var shadow := |parts| > 0 && parts[0] == "shadow";
    var rest := if shadow then parts[1..] else parts;
    var named := if rest != [] && BucketLevel(rest[0]) then rest[1..] else rest;
    if |named| < 2 || !Digits(named[0]) then None else Some((if shadow then ["shadow"] else []) + named)
  }

  function AttachmentKey(path: string): Option<string> {
    var key := KeyOf(Parts(path));
    if key.None? then None else Some(Join(key.value))
  }

  lemma {:induction false} PartsAreParts(path: string)
    ensures forall p <- Parts(path) :: Part(p)
    decreases path
  {
    if path != "" {
      var rest, c := Parts(path[..|path| - 1]), path[|path| - 1];
      PartsAreParts(path[..|path| - 1]);
      if rest != [] && c != '/' {
        assert rest[|rest| - 1] in rest && Part(rest[|rest| - 1] + [c]);
      }
    }
  }

  lemma {:induction false} AppendPart(path: string, part: string)
    requires Part(part) && (path != "" ==> path[|path| - 1] == '/')
    ensures Parts(path + part) == Parts(path) + [part]
    decreases part
  {
    var init, c := part[..|part| - 1], part[|part| - 1];
    assert c in part;
    assert path + part == path + init + [c];
    if init == "" {
      assert path + init == path && part == [c];
      FirstChar(path, c);
    } else {
      assert forall d <- init :: d in part;
      AppendPart(path, init);
      assert init[|init| - 1] in init;
      NextChar(path + init, Parts(path), init, c);
      assert init + [c] == part;
    }
  }

  lemma FirstChar(path: string, c: char)
    requires c != '/' && (path != "" ==> path[|path| - 1] == '/')
    ensures Parts(path + [c]) == Parts(path) + [[c]]
  {
    assert (path + [c])[..|path + [c]| - 1] == path;
    if path != "" { assert (path + [c])[|path| - 1] == '/'; }
  }

  lemma NextChar(path: string, before: seq<string>, part: string, c: char)
    requires c != '/' && path != "" && path[|path| - 1] != '/' && Parts(path) == before + [part]
    ensures Parts(path + [c]) == before + [part + [c]]
  {
    assert (path + [c])[..|path + [c]| - 1] == path;
    assert Parts(path)[..|Parts(path)| - 1] == before;
  }

  lemma PartsOfNothing()
    ensures Parts("") == []
  {
  }

  lemma AfterSlash(path: string)
    ensures Parts(path + "/") == Parts(path)
  {
    assert (path + "/")[..|path + "/"| - 1] == path;
  }

  lemma {:induction false} PartsOfJoin(parts: seq<string>)
    requires forall p <- parts :: Part(p)
    ensures Parts(Join(parts)) == parts
    decreases parts
  {
    hide Parts;
    PartsOfNothing();
    if |parts| == 1 {
      AppendPart("", parts[0]);
      assert "" + parts[0] == parts[0];
    } else if |parts| > 1 {
      var init, last := parts[..|parts| - 1], parts[|parts| - 1];
      PartsOfJoin(init);
      var path := Join(init) + "/";
      AfterSlash(Join(init));
      AppendPart(path, last);
      assert Join(parts) == path + last;
      assert init + [last] == parts;
    }
  }

  /** A canonical key is its own key. */
  lemma KeyOfKey(path: string)
    ensures AttachmentKey(path).Some? ==> AttachmentKey(AttachmentKey(path).value) == AttachmentKey(path)
  {
    PartsAreParts(path);
    var key := KeyOf(Parts(path));
    if key.Some? {
      KeyIsCanonical(Parts(path));
      forall p | p in key.value ensures Part(p) {
        if p == "shadow" { assert '/' !in "shadow"; }
      }
      PartsOfJoin(key.value);
    }
  }

  lemma KeyIsCanonical(parts: seq<string>)
    requires KeyOf(parts).Some?
    ensures KeyOf(KeyOf(parts).value) == KeyOf(parts)
    ensures forall p <- KeyOf(parts).value :: p in parts
  {
    var shadow := |parts| > 0 && parts[0] == "shadow";
    var rest := if shadow then parts[1..] else parts;
    var named := if rest != [] && BucketLevel(rest[0]) then rest[1..] else rest;
    var key := KeyOf(parts).value;
    NoDigits();
    assert named[0][0] in named[0];
    assert !BucketLevel(named[0]);
    assert (if shadow then key[1..] else key) == named;
  }

  lemma NoDigits()
    ensures !Digits("shadow")
  {
    assert 's' in "shadow";
  }

  // ---- What a key is -----------------------------------------------------------------------

  /** Text is cut at slashes, and a text without one is its own only part. */
  lemma {:induction false} PartsMean(a: string, b: string)
    ensures Parts(a + "/" + b) == Parts(a) + Parts(b)
    ensures Parts("") == [] && (Part(a) ==> Parts(a) == [a])
    decreases b
  {
    hide Parts;
    PartsOfNothing();
    if Part(a) {
      AppendPart("", a);
      assert "" + a == a;
    }
    PartsApart(a, b);
  }

  /** The parts after one more character: it begins a part, or goes on with the last one. */
  function Extended(parts: seq<string>, begins: bool, c: char): seq<string> {
    if c == '/' then parts
    else if begins || parts == [] then parts + [[c]]
    else parts[..|parts| - 1] + [parts[|parts| - 1] + [c]]
  }

  lemma {:induction false} OneMoreChar(path: string, c: char)
    ensures Parts(path + [c]) == Extended(Parts(path), path == "" || path[|path| - 1] == '/', c)
    ensures c != '/' ==> Parts(path + [c]) != []
    decreases path
  {
    hide Parts;
    var parts := Parts(path);
    if c == '/' {
      AfterSlash(path);
      assert path + [c] == path + "/";
    } else if path == "" || path[|path| - 1] == '/' {
      FirstChar(path, c);
    } else {
      var init, last := path[..|path| - 1], path[|path| - 1];
      OneMoreChar(init, last);
      assert init + [last] == path;
      assert parts[..|parts| - 1] + [parts[|parts| - 1]] == parts;
      NextChar(path, parts[..|parts| - 1], parts[|parts| - 1], c);
    }
  }

  lemma ExtendedSum(a: seq<string>, b: seq<string>, begins: bool, c: char)
    requires begins || b != []
    ensures Extended(a + b, begins, c) == a + Extended(b, begins, c)
  {
    if !begins { assert (a + b)[..|a + b| - 1] == a + b[..|b| - 1]; }
  }

  lemma {:induction false} PartsApart(a: string, b: string)
    ensures Parts(a + "/" + b) == Parts(a) + Parts(b)
    ensures b != "" && b[|b| - 1] != '/' ==> Parts(b) != []
    decreases b
  {
    hide Parts, Extended;
    PartsOfNothing();
    AfterSlash(a);
    if b == "" {
      assert a + "/" + b == a + "/";
    } else {
      var init, c := b[..|b| - 1], b[|b| - 1];
      PartsApart(a, init);
      var path := a + "/" + init;
      assert init + [c] == b && path + [c] == a + "/" + b;
      OneMoreChar(path, c);
      OneMoreChar(init, c);
      ExtendedSum(Parts(a), Parts(init), init == "" || init[|init| - 1] == '/', c);
    }
  }

  /** The levels of an attachment's path: shadow or not, a bucket or none, the event and at least one more. */
  datatype Levels = Levels(shadow: bool, bucket: Option<string>, event: string, rest: seq<string>)

  ghost predicate WellFormed(l: Levels) {
    Digits(l.event) && l.rest != [] && (l.bucket.Some? ==> "bucket_" <= l.bucket.value && Digits(l.bucket.value[7..]))
  }

  function PathOf(l: Levels): seq<string> {
    (if l.shadow then ["shadow"] else []) + (if l.bucket.Some? then [l.bucket.value] else []) + [l.event] + l.rest
  }

  /** The key of a path is the path without its bucket level; a path of no other form has none. */
  lemma KeyMeans(parts: seq<string>, key: seq<string>)
    ensures KeyOf(parts) == Some(key) <==>
            exists l :: WellFormed(l) && parts == PathOf(l) && key == PathOf(l.(bucket := None))
  {
    if KeyOf(parts) == Some(key) { var l := LevelsOf(parts, key); }
    if l :| WellFormed(l) && parts == PathOf(l) && key == PathOf(l.(bucket := None)) { PathHasKey(l); }
  }

  lemma LevelsOf(parts: seq<string>, key: seq<string>) returns (l: Levels)
    requires KeyOf(parts) == Some(key)
    ensures WellFormed(l) && parts == PathOf(l) && key == PathOf(l.(bucket := None))
  {
    hide Digits;
    var shadow := |parts| > 0 && parts[0] == "shadow";
    var rest := if shadow then parts[1..] else parts;
    var bucket := rest != [] && BucketLevel(rest[0]);
    var named := if bucket then rest[1..] else rest;
    l := Levels(shadow, if bucket then Some(rest[0]) else None, named[0], named[1..]);
    PathFrom(shadow, parts, rest, bucket, named);
  }

  lemma PathFrom(shadow: bool, parts: seq<string>, rest: seq<string>, bucket: bool, named: seq<string>)
    requires named != [] && (bucket ==> rest != []) && named == if bucket then rest[1..] else rest
    requires shadow ==> parts != [] && parts[0] == "shadow"
    requires rest == if shadow then parts[1..] else parts
    ensures var l := Levels(shadow, if bucket then Some(rest[0]) else None, named[0], named[1..]);
      parts == PathOf(l) && (if shadow then ["shadow"] else []) + named == PathOf(l.(bucket := None))
  {
    var first := if shadow then ["shadow"] else [];
    var level := if bucket then [rest[0]] else [];
    assert named == [named[0]] + named[1..];
    assert rest == level + named;
    assert parts == first + rest;
    Regrouped(first, level, named);
  }

  lemma Regrouped(first: seq<string>, level: seq<string>, named: seq<string>)
    requires named != []
    ensures first + (level + named) == first + level + [named[0]] + named[1..]
    ensures first + named == first + [] + [named[0]] + named[1..]
  {
  }

  lemma KeyOfLevels(shadow: bool, rest: seq<string>)
    requires rest != [] && rest[0] != "shadow"
    ensures var named := if BucketLevel(rest[0]) then rest[1..] else rest;
      var first := if shadow then ["shadow"] else [];
      KeyOf(first + rest) == if |named| < 2 || !Digits(named[0]) then None else Some(first + named)
  {
    hide BucketLevel, Digits;
    assert (["shadow"] + rest)[1..] == rest && [] + rest == rest;
  }

  lemma LevelNames(l: Levels)
    requires WellFormed(l)
    ensures l.event != "shadow" && !BucketLevel(l.event)
    ensures l.bucket.Some? ==> l.bucket.value != "shadow" && BucketLevel(l.bucket.value)
  {
    NoDigits();
    assert l.event[0] in l.event;
  }

  lemma PathHasKey(l: Levels)
    requires WellFormed(l)
    ensures KeyOf(PathOf(l)) == Some(PathOf(l.(bucket := None)))
  {
    hide KeyOf, BucketLevel, Digits;
    LevelNames(l);
    var named, first := [l.event] + l.rest, if l.shadow then ["shadow"] else [];
    var rest := (if l.bucket.Some? then [l.bucket.value] else []) + named;
    assert PathOf(l) == first + rest && PathOf(l.(bucket := None)) == first + named;
    assert l.bucket.Some? ==> rest[1..] == named;
    assert l.bucket.None? ==> rest == named;
    KeyOfLevels(l.shadow, rest);
  }

  // ---- Requests ----------------------------------------------------------------------------

  const Attempts: nat := 4

  predicate Retry(status: nat) { status in {0, 500, 502, 503, 504} }

  /** What becomes of one attempt: its status, 200 when it passes; how far a failed upload read its body, and
      whether the store kept the object although the answer was lost; whether a download breaks off, and where. */
  datatype Fate = Fate(status: nat, sent: nat, kept: bool, broken: bool, got: nat)

  /** A download of this object passes and does not break off. */
  predicate Arrives(f: Fate, data: string) { f.status == 200 && !(f.broken && f.got < |data|) }

  /** A file, read through one handle. */
  class File {
    var content: string
    var pos: nat

    constructor ()
      ensures content == "" && pos == 0
    {
      content, pos := "", 0;
    }
  }

  class Bucket {
    var objects: map<string, string>
    var asked: nat
    // The keys whose download was begun, in order
    var fetched: seq<string>
    const fate: nat -> Fate

    constructor (objects: map<string, string>, fate: nat -> Fate)
      ensures this.objects == objects && this.fate == fate && asked == 0 && fetched == []
    {
      this.objects, this.fate, asked, fetched := objects, fate, 0, [];
    }

    /** One upload of what is left of the body. */
    method Put(key: string, body: File) returns (status: nat)
      requires body.pos <= |body.content|
      modifies this`objects, this`asked, body`pos
      ensures asked == old(asked) + 1 && status == fate(old(asked)).status
      ensures body.pos <= |body.content|
      ensures objects == old(objects) || objects == old(objects)[key := body.content[old(body.pos)..]]
      ensures status == 200 ==> objects == old(objects)[key := body.content[old(body.pos)..]]
    {
      var f := fate(asked);
      asked, status := asked + 1, f.status;
      if status == 200 || f.kept { objects := objects[key := body.content[body.pos..]]; }
      body.pos := if status != 200 && f.sent < |body.content| then f.sent else |body.content|;
    }

    /** Uploads a file, trying again after an error that a later attempt can pass, each time from its start. */
    method Upload(key: string, file: File) returns (ok: bool)
      modifies this`objects, this`asked, file`pos
      ensures objects == old(objects) || objects == old(objects)[key := file.content]
      ensures ok ==> objects == old(objects)[key := file.content]
      ensures old(asked) < asked <= old(asked) + 4
      ensures ok <==> fate(asked - 1).status == 200
      ensures forall n :: old(asked) <= n < asked - 1 ==> fate(n).status in {0, 500, 502, 503, 504}
      ensures !ok && asked < old(asked) + 4 ==> fate(asked - 1).status !in {0, 500, 502, 503, 504}
    {
      file.pos := 0;
      var attempt := 0;
      while true
        invariant attempt < Attempts && asked == old(asked) + attempt && file.pos == 0
        invariant objects == old(objects) || objects == old(objects)[key := file.content]
        invariant forall n :: old(asked) <= n < asked ==> Retry(fate(n).status)
        decreases Attempts - attempt
      {
        var status := Put(key, file);
        assert file.content[0..] == file.content;
        ok := status == 200;
        if ok || !Retry(status) || attempt == Attempts - 1 { return; }
        file.pos := 0;
        attempt := attempt + 1;
      }
    }

    /** Downloads an object into a file, which a broken download leaves with a part of it. It succeeds exactly if the
        last attempt does, the object is there and its body does not break off. */
    method Download(key: string, file: File) returns (ok: bool)
      modifies this`asked, this`fetched, file`content
      ensures ok ==> key in objects && file.content == objects[key]
      ensures old(asked) < asked
      ensures ok <==> key in objects && Arrives(fate(asked - 1), objects[key])
      ensures !ok && asked < old(asked) + 4 ==> fate(asked - 1).status !in {0, 500, 502, 503, 504}
      ensures fetched == old(fetched) + [key]
      ensures asked <= old(asked) + 4
      ensures forall n :: old(asked) <= n < asked - 1 ==> fate(n).status in {0, 500, 502, 503, 504}
    {
      fetched := fetched + [key];
      var attempt := 0;
      while true
        invariant attempt < Attempts && asked == old(asked) + attempt && file.content == old(file.content)
        invariant fetched == old(fetched) + [key]
        invariant forall n :: old(asked) <= n < asked ==> Retry(fate(n).status)
        decreases Attempts - attempt
      {
        var f := fate(asked);
        asked := asked + 1;
        if f.status == 200 {
          // Without the key the store answers 404, which is not tried again
          if key !in objects { return false; }
          var data := objects[key];
          file.content := if f.broken && f.got < |data| then data[..f.got] else data;
          return !(f.broken && f.got < |data|);
        }
        if !Retry(f.status) || attempt == Attempts - 1 { return false; }
        attempt := attempt + 1;
      }
    }
  }

  // ---- Listing -----------------------------------------------------------------------------

  /** A page of a listing: its keys, whether more follow, and the token to ask for them. */
  datatype Page = Page(keys: seq<string>, truncated: bool, token: string)

  /** The pages that a store answers with from the first on; an asked-for page may fail. */
  ghost predicate Listing(pages: seq<Page>) {
    && pages != []
    && forall i :: 0 <= i < |pages| ==> (pages[i].truncated && pages[i].token != "" <==> i < |pages| - 1)
  }

  function AllKeys(pages: seq<Page>): seq<string> {
    if pages == [] then [] else AllKeys(pages[..|pages| - 1]) + pages[|pages| - 1].keys
  }

  // ---- The copy ----------------------------------------------------------------------------

  /** The keys of a listing that are attachments. */
  function AttachmentsOf(names: seq<string>): seq<string> {
    if names == [] then [] else
      var init, last := AttachmentsOf(names[..|names| - 1]), names[|names| - 1];
      if AttachmentKey(last).Some? then init + [last] else init
  }

  lemma {:induction false} AttachmentsSum(a: seq<string>, b: seq<string>)
    ensures AttachmentsOf(a + b) == AttachmentsOf(a) + AttachmentsOf(b)
    decreases b
  {
    if b == [] {
      assert a + b == a;
    } else {
      assert (a + b)[..|a + b| - 1] == a + b[..|b| - 1];
      AttachmentsSum(a, b[..|b| - 1]);
    }
  }

  /** The target after these attachments of the source arrived, in order. */
  function Arrived(target: map<string, string>, source: map<string, string>, names: seq<string>): map<string, string> {
    if names == [] then target else
      var init, last := Arrived(target, source, names[..|names| - 1]), names[|names| - 1];
      if last in source && AttachmentKey(last).Some? then init[AttachmentKey(last).value := source[last]] else init
  }

  /** Whatever failed: each key of the target is as it was, or holds an attachment of the source that has it. */
  ghost predicate OnlyCopies(target: map<string, string>, source: map<string, string>, names: seq<string>,
                             now: map<string, string>)
  {
    && target.Keys <= now.Keys
    && forall k :: k in now ==>
         || (k in target && now[k] == target[k])
         || exists name <- names :: AttachmentKey(name) == Some(k) && name in source && now[k] == source[name]
  }

  lemma OnlyCopiesMore(target: map<string, string>, source: map<string, string>, names: seq<string>,
                       now: map<string, string>, name: string, now': map<string, string>)
    requires OnlyCopies(target, source, names, now)
    requires now' == now || (name in source && AttachmentKey(name).Some?
                             && now' == now[AttachmentKey(name).value := source[name]])
    ensures OnlyCopies(target, source, names + [name], now')
  {
    assert name in names + [name];
    forall k | k in now' && !(k in target && now'[k] == target[k])
      ensures exists n <- names + [name] :: AttachmentKey(n) == Some(k) && n in source && now'[k] == source[n]
    {
      if !(now' != now && k == AttachmentKey(name).value) {
        var n :| n in names && AttachmentKey(n) == Some(k) && n in source && now[k] == source[n];
        assert n in names + [name];
      }
    }
  }

  datatype Result = Copied(count: nat) | Failed(count: nat, failed: nat) | Unlisted

  lemma OneMore(names: seq<string>, name: string)
    ensures AttachmentsOf(names + [name])
      == if AttachmentKey(name).Some? then AttachmentsOf(names) + [name] else AttachmentsOf(names)
  {
    assert (names + [name])[..|names|] == names;
  }

  lemma ArrivedMore(target: map<string, string>, source: map<string, string>, names: seq<string>, name: string)
    requires name in source && AttachmentKey(name).Some?
    ensures Arrived(target, source, names + [name])
      == Arrived(target, source, names)[AttachmentKey(name).value := source[name]]
  {
    assert (names + [name])[..|names|] == names;
  }

  /** A store that answers every request in full. */
  ghost predicate Healthy(b: Bucket) { forall n: nat :: b.fate(n).status == 200 && !b.fate(n).broken }

  /** Nothing stands in the way of copying these objects. */
  ghost predicate Clear(source: Bucket, target: Bucket, names: seq<string>)
    reads source
  {
    Healthy(source) && Healthy(target) && forall name <- names :: name in source.objects
  }

  /** One attachment, through the spool. */
  method CopyOne(source: Bucket, target: Bucket, spool: File, name: string, key: string) returns (ok: bool)
    requires source != target
    modifies source`asked, source`fetched, target, spool
    ensures source.fetched == old(source.fetched) + [name]
    ensures target.objects == old(target.objects)
            || (name in source.objects && target.objects == old(target.objects)[key := source.objects[name]])
    ensures ok ==> name in source.objects && target.objects == old(target.objects)[key := source.objects[name]]
    ensures Healthy(source) && Healthy(target) && name in source.objects ==> ok
  {
    ok := source.Download(name, spool);
    if ok { ok := target.Upload(key, spool); }
  }

  /** What a copy has done when it has gone through these keys of the source, with so many failures. */
  ghost predicate Progress(start: map<string, string>, source: map<string, string>, names: seq<string>,
                           now: map<string, string>, failed: nat)
  {
    && OnlyCopies(start, source, AttachmentsOf(names), now)
    && (failed == 0 ==> now == Arrived(start, source, AttachmentsOf(names))
                        && forall name <- AttachmentsOf(names) :: name in source)
  }

  lemma ProgressStep(start: map<string, string>, source: map<string, string>, names: seq<string>,
                     now: map<string, string>, failed: nat, name: string, now': map<string, string>, ok: bool)
    requires Progress(start, source, names, now, failed)
    requires if AttachmentKey(name).None? then now' == now && ok else
               var key := AttachmentKey(name).value;
               && (now' == now || (name in source && now' == now[key := source[name]]))
               && (ok ==> name in source && now' == now[key := source[name]])
    ensures Progress(start, source, names + [name], now', if ok then failed else failed + 1)
  {
    hide AttachmentKey, AttachmentsOf, Arrived, OnlyCopies;
    OneMore(names, name);
    if AttachmentKey(name).Some? {
      OnlyCopiesMore(start, source, AttachmentsOf(names), now, name, now');
      if ok { ArrivedMore(start, source, AttachmentsOf(names), name); }
    }
  }

  /** The attachments of one page, each attempted once. */
  method CopyPage(source: Bucket, target: Bucket, spool: File, keys: seq<string>, copied: nat, failed: nat,
                  ghost start: map<string, string>, ghost done: seq<string>)
    returns (copied': nat, failed': nat)
    requires source != target && Progress(start, source.objects, done, target.objects, failed)
    requires copied + failed == |AttachmentsOf(done)|
    modifies source`asked, source`fetched, target, spool
    ensures Progress(start, source.objects, done + keys, target.objects, failed')
    ensures copied' + failed' == |AttachmentsOf(done + keys)|
    ensures source.fetched == old(source.fetched) + AttachmentsOf(keys)
    ensures Clear(source, target, AttachmentsOf(keys)) ==> failed' == failed
  {
    hide AttachmentKey, AttachmentsOf, Progress, Healthy;
    copied', failed' := copied, failed;
    assert done + keys[..0] == done && keys[..0] == [];
    NoAttachments();
    for i := 0 to |keys|
      invariant source.fetched == old(source.fetched) + AttachmentsOf(keys[..i])
      invariant copied' + failed' == |AttachmentsOf(done + keys[..i])|
      invariant Clear(source, target, AttachmentsOf(keys[..i])) ==> failed' == failed
      invariant Progress(start, source.objects, done + keys[..i], target.objects, failed')
    {
      var name := keys[i];
      ghost var now, names := target.objects, done + keys[..i];
      assert done + keys[..i + 1] == names + [name];
      OneMore(names, name);
      OneMore(keys[..i], name);
      assert keys[..i + 1] == keys[..i] + [name];
      var key := AttachmentKey(name);
      if key.Some? {
        var ok := CopyOne(source, target, spool, name, key.value);
        ProgressStep(start, source.objects, names, now, failed', name, target.objects, ok);
        if ok { copied' := copied' + 1; } else { failed' := failed' + 1; }
      } else {
        ProgressStep(start, source.objects, names, now, failed', name, target.objects, true);
      }
    }
    assert keys[..|keys|] == keys;
  }

  lemma NoAttachments()
    ensures AttachmentsOf([]) == []
  {
  }

  /** Copies every attachment of the source, each attempted once and in the order of the listing; `listed(i)` says
      whether the i-th page could be had. A failure is counted and the copy goes on; a page that cannot be had
      ends it, after the attachments of the pages before it. */
  method CopyAttachments(source: Bucket, target: Bucket, spool: File, pages: seq<Page>, listed: nat -> bool)
    returns (r: Result)
    requires source != target && Listing(pages)
    modifies source`asked, source`fetched, target, spool
    ensures old(source.fetched) <= source.fetched
    ensures var names := AttachmentsOf(AllKeys(pages)); var fetched := source.fetched[|old(source.fetched)|..];
      match r
      case Copied(n) =>
        && n == |names| && fetched == names
        && (forall name <- names :: name in source.objects)
        && target.objects == Arrived(old(target.objects), source.objects, names)
      case Failed(n, failed) =>
        && failed > 0 && n + failed == |names| && fetched == names
        && OnlyCopies(old(target.objects), source.objects, names, target.objects)
      case Unlisted =>
        exists i :: 0 <= i < |pages| && !listed(i) && fetched == AttachmentsOf(AllKeys(pages[..i]))
                    && OnlyCopies(old(target.objects), source.objects, fetched, target.objects)
    ensures Clear(source, target, AttachmentsOf(AllKeys(pages))) && (forall i: nat :: listed(i)) ==> r.Copied?
  {
    hide AttachmentKey, AttachmentsOf, Arrived, OnlyCopies, Healthy;
    var copied, failed, i, more := 0, 0, 0, true;
    Beginning(old(target.objects), source.objects);
    assert AllKeys(pages[..0]) == [];
    ghost var before := source.fetched;
    while more
      invariant 0 <= i <= |pages| && (more <==> i < |pages|)
      invariant source.fetched == before + AttachmentsOf(AllKeys(pages[..i]))
      invariant Progress(old(target.objects), source.objects, AllKeys(pages[..i]), target.objects, failed)
      invariant copied + failed == |AttachmentsOf(AllKeys(pages[..i]))|
      invariant Clear(source, target, AttachmentsOf(AllKeys(pages[..i]))) ==> failed == 0
      decreases |pages| - i
    {
      if !listed(i) { return Unlisted; }
      copied, failed :=
        CopyPage(source, target, spool, pages[i].keys, copied, failed, old(target.objects), AllKeys(pages[..i]));
      assert pages[..i + 1][..i] == pages[..i];
      AttachmentsSum(AllKeys(pages[..i]), pages[i].keys);
      more := pages[i].truncated && pages[i].token != "";
      i := i + 1;
    }
    assert pages[..|pages|] == pages;
    r := if failed > 0 then Failed(copied, failed) else Copied(copied);
  }

  lemma Beginning(start: map<string, string>, source: map<string, string>)
    ensures Progress(start, source, [], start, 0) && AttachmentsOf([]) == []
  {
  }

  /** Where an object ends up: under its canonical key is the last listed object that has it, and every key that
      no attachment has is as it was. */
  lemma {:induction false} ArrivedAt(target: map<string, string>, source: map<string, string>, names: seq<string>,
                                     i: nat)
    requires i < |names| && names[i] in source && AttachmentKey(names[i]).Some?
    requires forall j :: i < j < |names| ==> AttachmentKey(names[j]) != AttachmentKey(names[i])
    ensures var key := AttachmentKey(names[i]).value;
      key in Arrived(target, source, names) && Arrived(target, source, names)[key] == source[names[i]]
    decreases names
  {
    if i < |names| - 1 { ArrivedAt(target, source, names[..|names| - 1], i); }
  }

  lemma {:induction false} OthersStay(target: map<string, string>, source: map<string, string>, names: seq<string>,
                                      key: string)
    requires forall name <- names :: AttachmentKey(name) != Some(key)
    ensures (key in Arrived(target, source, names) <==> key in target)
            && (key in target ==> Arrived(target, source, names)[key] == target[key])
    decreases names
  {
    if names != [] {
      assert names[|names| - 1] in names;
      OthersStay(target, source, names[..|names| - 1], key);
    }
  }
}
