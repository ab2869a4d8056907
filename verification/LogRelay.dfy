/** The log relay: it follows files that grow, emits their lines, and empties the files it has read. */
module LogRelay {
  import opened Values
  import opened ValueMeanings

  // ---- Lines -------------------------------------------------------------------------------

  /** The complete lines of a text, without their newlines, and what follows the last newline. */
  function WholeLines(text: string): seq<string> {
    if text == "" then [] else
      var init, c := text[..|text| - 1], text[|text| - 1];
      if c == '\n' then WholeLines(init) + [Tail(init)] else WholeLines(init)
  }

  function Tail(text: string): (r: string)
    ensures |r| <= |text|
  {
    if text == "" then "" else
      var init, c := text[..|text| - 1], text[|text| - 1];
      if c == '\n' then "" else Tail(init) + [c]
  }

  function Unsplit(lines: seq<string>, tail: string): string {
    if lines == [] then tail else lines[0] + "\n" + Unsplit(lines[1..], tail)
  }

  lemma {:induction false} UnsplitMore(lines: seq<string>, line: string, tail: string)
    ensures Unsplit(lines + [line], tail) == Unsplit(lines, line + "\n" + tail)
    decreases lines
  {
    if lines != [] {
      assert (lines + [line])[1..] == lines[1..] + [line];
      UnsplitMore(lines[1..], line, tail);
    }
  }

  lemma {:induction false} UnsplitTail(lines: seq<string>, tail: string, c: char)
    ensures Unsplit(lines, tail + [c]) == Unsplit(lines, tail) + [c]
    decreases lines
  {
    if lines != [] { UnsplitTail(lines[1..], tail, c); }
  }

  /** Lines and tail are the text cut at each newline. */
  lemma {:induction false} LinesAreTheText(text: string)
    ensures Unsplit(WholeLines(text), Tail(text)) == text
    ensures '\n' !in Tail(text) && forall line <- WholeLines(text) :: '\n' !in line
    decreases text
  {
    if text != "" {
      var init, c := text[..|text| - 1], text[|text| - 1];
      LinesAreTheText(init);
      if c == '\n' {
        UnsplitMore(WholeLines(init), Tail(init), "");
        assert Tail(init) + "\n" + "" == Tail(init) + ['\n'];
        UnsplitTail(WholeLines(init), Tail(init), '\n');
      } else {
        UnsplitTail(WholeLines(init), Tail(init), c);
      }
    }
  }

  /** Reading in pieces, with the tail held in between, gives the lines of the whole. */
  lemma {:induction false} LinesInPieces(a: string, b: string)
    ensures WholeLines(a + b) == WholeLines(a) + WholeLines(Tail(a) + b)
    ensures Tail(a + b) == Tail(Tail(a) + b)
    decreases b
  {
    if b == "" {
      assert a + b == a && Tail(a) + b == Tail(a);
      TailIsOpen(a);
    } else {
      var init, c := b[..|b| - 1], b[|b| - 1];
      assert (a + b)[..|a + b| - 1] == a + init;
      assert (Tail(a) + b)[..|Tail(a) + b| - 1] == Tail(a) + init;
      LinesInPieces(a, init);
    }
  }

  lemma {:induction false} TailIsOpen(text: string)
    ensures WholeLines(Tail(text)) == [] && Tail(Tail(text)) == Tail(text)
    decreases text
  {
    if text != "" && text[|text| - 1] != '\n' {
      TailIsOpen(text[..|text| - 1]);
      assert Tail(text)[..|Tail(text)| - 1] == Tail(text[..|text| - 1]);
    }
  }

  predicate Blank(line: string) { Strip(line) == "" }

  function NonBlank(lines: seq<string>): seq<string> {
    if lines == [] then [] else
      var init, last := NonBlank(lines[..|lines| - 1]), lines[|lines| - 1];
      if Blank(last) then init else init + [last]
  }

  lemma {:induction false} NonBlankSum(a: seq<string>, b: seq<string>)
    ensures NonBlank(a + b) == NonBlank(a) + NonBlank(b)
    decreases b
  {
    if b == [] {
      assert a + b == a;
    } else {
      assert (a + b)[..|a + b| - 1] == a + b[..|b| - 1];
      NonBlankSum(a, b[..|b| - 1]);
    }
  }

  /** `out` is the lines at these positions, in order: exactly those with a character that is not white space. */
  ghost predicate Emits(out: seq<string>, lines: seq<string>, at: seq<nat>) {
    && |at| == |out|
    && (forall i, j :: 0 <= i < j < |at| ==> at[i] < at[j])
    && (forall i :: 0 <= i < |at| ==> at[i] < |lines| && out[i] == lines[at[i]])
    && forall k :: 0 <= k < |lines| ==> (k in at <==> exists c <- lines[k] :: !White(c))
  }

  lemma BlankMeans(line: string)
    ensures Blank(line) <==> !exists c <- line :: !White(c)
  {
    hide White, Strip;
    StripsToNothing(line);
  }

  lemma EmitsMore(out: seq<string>, lines: seq<string>, at: seq<nat>, line: string)
    requires Emits(out, lines, at)
    ensures if exists c <- line :: !White(c) then Emits(out + [line], lines + [line], at + [|lines|])
            else Emits(out, lines + [line], at)
  {
    hide White;
    forall k | 0 <= k < |lines| ensures (lines + [line])[k] == lines[k] {}
    assert (lines + [line])[|lines|] == line && |lines| !in at;
  }

  lemma {:induction false} NonBlankMeans(lines: seq<string>) returns (at: seq<nat>)
    ensures Emits(NonBlank(lines), lines, at)
    decreases lines
  {
    hide Blank, White, Emits;
    if lines == [] {
      at := [];
      EmitsNothing();
    } else {
      var init, last := lines[..|lines| - 1], lines[|lines| - 1];
      at := NonBlankMeans(init);
      BlankMeans(last);
      EmitsMore(NonBlank(init), init, at, last);
      assert init + [last] == lines;
      at := if Blank(last) then at else at + [|init|];
    }
  }

  lemma EmitsNothing()
    ensures Emits([], [], [])
  {
  }

  // ---- One poll ----------------------------------------------------------------------------

  /** The files in the directory, the relay's offsets and held tails, the offsets file, and the lines emitted. */
  datatype Desk = Desk(files: map<string, string>, offsets: map<string, nat>, partial: map<string, string>,
                       saved: Option<map<string, nat>>, out: seq<(string, string)>)

  function Offset(d: Desk, name: string): nat { if name in d.offsets then d.offsets[name] else 0 }

  function Held(d: Desk, name: string): string { if name in d.partial then d.partial[name] else "" }

  function Named(name: string, lines: seq<string>): seq<(string, string)> {
    seq(|lines|, i requires 0 <= i < |lines| => (name, lines[i]))
  }

  /** What the relay does with one file. */
  function PollFile(d: Desk, name: string, maxBytes: nat): Desk {
    if name !in d.files then d.(offsets := d.offsets - {name}) else
      var size := |d.files[name]|;
      // Emptied by someone else: it starts over
      var offset := if size < Offset(d, name) then 0 else Offset(d, name);
      var text := Held(d, name) + d.files[name][offset..];
      var read := if size == offset then d else
        d.(partial := if Tail(text) == "" then d.partial - {name} else d.partial[name := Tail(text)],
           out := d.out + Named(name, NonBlank(WholeLines(text))));
      if size > maxBytes then read.(files := d.files[name := ""], offsets := d.offsets[name := 0])
      else read.(offsets := d.offsets[name := size])
  }

  function PollFiles(d: Desk, names: seq<string>, maxBytes: nat): Desk {
    if names == [] then d else PollFile(PollFiles(d, names[..|names| - 1], maxBytes), names[|names| - 1], maxBytes)
  }

  function PollAll(d: Desk, names: seq<string>, maxBytes: nat): Desk {
    var d' := PollFiles(d, names, maxBytes);
    if d'.offsets != d.offsets then d'.(saved := Some(d'.offsets)) else d'
  }

  class Relay {
    const names: seq<string>
    const maxBytes: nat
    var files: map<string, string>
    var offsets: map<string, nat>
    var partial: map<string, string>
    var saved: Option<map<string, nat>>
    var out: seq<(string, string)>

    function State(): Desk
      reads this
    {
      Desk(files, offsets, partial, saved, out)
    }

    /** A relay that starts over the files and offsets it finds, and holds no tail. */
    constructor (names: seq<string>, maxBytes: nat, found: Desk)
      ensures this.names == names && this.maxBytes == maxBytes && State() == Restarted(found)
    {
      this.names, this.maxBytes := names, maxBytes;
      files, saved, out := found.files, found.saved, found.out;
      offsets := if found.saved.Some? then found.saved.value else map[];
      partial := map[];
    }

    method EmitLines(name: string, lines: seq<string>) returns (relayed: nat)
      modifies this`out
      ensures out == old(out) + Named(name, NonBlank(lines)) && relayed == |NonBlank(lines)|
    {
      relayed := 0;
      for i := 0 to |lines|
        invariant out == old(out) + Named(name, NonBlank(lines[..i])) && relayed == |NonBlank(lines[..i])|
      {
        assert lines[..i + 1][..i] == lines[..i];
        if !Blank(lines[i]) {
          out := out + [(name, lines[i])];
          relayed := relayed + 1;
        }
      }
      assert lines[..|lines|] == lines;
    }

    /** Relays what one file gained since the last poll. */
    method PollOne(name: string) returns (relayed: nat)
      modifies this`files, this`offsets, this`partial, this`out
      ensures State() == PollFile(old(State()), name, maxBytes)
      ensures |out| == |old(out)| + relayed
    {
      relayed := 0;
      if name !in files {
        offsets := offsets - {name};
        return;
      }
      var size := |files[name]|;
      var offset := if name in offsets then offsets[name] else 0;
      if size < offset { offset := 0; }
      if size > offset {
        var data := files[name][offset..size];
        assert data == files[name][offset..];
        offset := offset + |data|;
        var text := (if name in partial then partial[name] else "") + data;
        partial := if Tail(text) == "" then partial - {name} else partial[name := Tail(text)];
        relayed := EmitLines(name, WholeLines(text));
      }
      if offset > maxBytes {
        files := files[name := ""];
        offset := 0;
      }
      offsets := offsets[name := offset];
    }

    /** One poll of every file; returns the number of lines relayed. */
    method Poll() returns (relayed: nat)
      modifies this
      ensures State() == PollAll(old(State()), names, maxBytes)
      ensures |out| == |old(out)| + relayed
    {
      var before := offsets;
      relayed := 0;
      for i := 0 to |names|
        invariant State() == PollFiles(old(State()), names[..i], maxBytes)
        invariant |out| == |old(out)| + relayed
      {
        assert names[..i + 1][..i] == names[..i];
        var n := PollOne(names[i]);
        relayed := relayed + n;
      }
      assert names[..|names|] == names;
      if offsets != before { saved := Some(offsets); }
    }
  }

  // ---- What happens to the relay -------------------------------------------------------------

  /** MISP appends to a file, the relay polls, its container restarts between two polls. */
  datatype Event = Append(name: string, text: string) | Poll | Restart

  function Restarted(d: Desk): Desk {
    d.(offsets := if d.saved.Some? then d.saved.value else map[], partial := map[])
  }

  function Happen(d: Desk, e: Event, names: seq<string>, maxBytes: nat): Desk {
    match e
    case Append(name, text) =>
      d.(files := d.files[name := (if name in d.files then d.files[name] else "") + text])
    case Poll => PollAll(d, names, maxBytes)
    case Restart => Restarted(d)
  }

  /** A first relay over an empty directory, then these events. */
  function After(events: seq<Event>, names: seq<string>, maxBytes: nat): Desk {
    if events == [] then Desk(map[], map[], map[], None, []) else
      Happen(After(events[..|events| - 1], names, maxBytes), events[|events| - 1], names, maxBytes)
  }

  /** All that was ever appended to a file. */
  function Stream(events: seq<Event>, name: string): string {
    if events == [] then "" else
      var init, e := Stream(events[..|events| - 1], name), events[|events| - 1];
      if e.Append? && e.name == name then init + e.text else init
  }

  /** What was appended since the last poll. */
  function Unread(events: seq<Event>, name: string): string {
    if events == [] then "" else
      var init, e := Unread(events[..|events| - 1], name), events[|events| - 1];
      match e
      case Append(n, text) => if n == name then init + text else init
      case Poll => ""
      case Restart => init
  }

  /** What was appended up to the last poll, less the unfinished line at each restart. */
  function Kept(events: seq<Event>, name: string): string {
    if events == [] then "" else
      var past, e := events[..|events| - 1], events[|events| - 1];
      var kept := Kept(past, name);
      match e
      case Append(_, _) => kept
      case Poll => kept + Unread(past, name)
      case Restart => kept[..|kept| - |Tail(kept)|]
  }

  // ---- The relay is exact ------------------------------------------------------------------

  /** The lines emitted for a file. */
  function Of(out: seq<(string, string)>, name: string): seq<string> {
    if out == [] then [] else
      var init, last := Of(out[..|out| - 1], name), out[|out| - 1];
      if last.0 == name then init + [last.1] else init
  }

  lemma {:induction false} OfSum(a: seq<(string, string)>, b: seq<(string, string)>, name: string)
    ensures Of(a + b, name) == Of(a, name) + Of(b, name)
    decreases b
  {
    if b == [] {
      assert a + b == a;
    } else {
      assert (a + b)[..|a + b| - 1] == a + b[..|b| - 1];
      OfSum(a, b[..|b| - 1], name);
    }
  }

  lemma {:induction false} OfNamed(n: string, lines: seq<string>, name: string)
    ensures Of(Named(n, lines), name) == if n == name then lines else []
    decreases lines
  {
    if lines != [] {
      var init := lines[..|lines| - 1];
      OfNamed(n, init, name);
      assert Named(n, lines)[..|Named(n, lines)| - 1] == Named(n, init);
      assert init + [lines[|lines| - 1]] == lines;
    }
  }

  /** All that a poll of one file looks at and changes. */
  datatype View = View(file: Option<string>, offset: Option<nat>, partial: Option<string>, lines: seq<string>)

  function Get<T>(m: map<string, T>, name: string): Option<T> { if name in m then Some(m[name]) else None }

  function ViewOf(d: Desk, name: string): View {
    View(Get(d.files, name), Get(d.offsets, name), Get(d.partial, name), Of(d.out, name))
  }

  /** Where reading a file goes on. */
  function From(d: Desk, name: string): (r: nat)
    requires name in d.files
    ensures r <= |d.files[name]|
  {
    if |d.files[name]| < Offset(d, name) then 0 else Offset(d, name)
  }

  /** The text that a poll of a file has to cut. */
  function Text(d: Desk, name: string): string
    requires name in d.files
  {
    Held(d, name) + d.files[name][From(d, name)..]
  }

  lemma PollState(d: Desk, name: string, maxBytes: nat)
    requires name in d.files
    ensures var d' := PollFile(d, name, maxBytes); var size, idle := |d.files[name]|, |d.files[name]| == From(d, name);
      && d'.files == (if size > maxBytes then d.files[name := ""] else d.files)
      && d'.offsets == d.offsets[name := if size > maxBytes then 0 else size]
      && d'.partial == (if idle then d.partial else if Tail(Text(d, name)) == "" then d.partial - {name}
                        else d.partial[name := Tail(Text(d, name))])
      && d'.out == (if idle then d.out else d.out + Named(name, NonBlank(WholeLines(Text(d, name)))))
  {
    hide WholeLines, NonBlank, Tail, Named;
  }

  lemma PollOfAnother(d: Desk, n: string, maxBytes: nat, name: string)
    requires n != name
    ensures ViewOf(PollFile(d, n, maxBytes), name) == ViewOf(d, name)
  {
    hide WholeLines, NonBlank, Tail, Named, Text, Of;
    if n in d.files {
      hide PollFile;
      PollState(d, n, maxBytes);
      var lines := NonBlank(WholeLines(Text(d, n)));
      OfSum(d.out, Named(n, lines), name);
      OfNamed(n, lines, name);
      assert Of(d.out, name) + [] == Of(d.out, name);
    }
  }

  /** The lines that a poll of a file emits for it. */
  lemma PollLines(d: Desk, name: string, maxBytes: nat)
    requires name in d.files
    ensures Of(PollFile(d, name, maxBytes).out, name)
      == Of(d.out, name) + if |d.files[name]| == From(d, name) then [] else NonBlank(WholeLines(Text(d, name)))
  {
    hide WholeLines, NonBlank, Tail, Named, Text, Of, PollFile;
    PollState(d, name, maxBytes);
    var lines := NonBlank(WholeLines(Text(d, name)));
    OfSum(d.out, Named(name, lines), name);
    OfNamed(name, lines, name);
    assert Of(d.out, name) + [] == Of(d.out, name);
  }

  /** What the relay knows of a file, given what it kept of it and what it has yet to read. */
  ghost predicate Exact(v: View, kept: string, unread: string) {
    && v.lines == NonBlank(WholeLines(kept))
    && (if v.partial.Some? then v.partial.value else "") == Tail(kept)
    && (v.partial.Some? ==> v.partial.value != "")
    && var offset := if v.offset.Some? then v.offset.value else 0;
       match v.file
       case Some(content) => offset <= |content| && content[offset..] == unread
       case None => unread == "" && v.offset.None?
  }

  /** After a poll the whole file was read, and it is small. */
  ghost predicate Settled(v: View, maxBytes: nat) {
    v.file.Some? ==> v.offset == Some(|v.file.value|) && |v.file.value| <= maxBytes
  }

  lemma PollExact(d: Desk, name: string, maxBytes: nat, kept: string, unread: string)
    requires Exact(ViewOf(d, name), kept, unread)
    ensures var v := ViewOf(PollFile(d, name, maxBytes), name); Exact(v, kept + unread, "") && Settled(v, maxBytes)
  {
    hide WholeLines, NonBlank, Of, Tail;
    if name in d.files {
      hide PollFile;
      PollState(d, name, maxBytes);
      PollLines(d, name, maxBytes);
      TextIs(d, name, kept, unread);
      LinesInPieces(kept, unread);
      NonBlankSum(WholeLines(kept), WholeLines(Tail(kept) + unread));
      if unread == "" {
        assert Tail(kept) + unread == Tail(kept) && kept + unread == kept;
        assert NonBlank(WholeLines(kept)) + [] == NonBlank(WholeLines(kept));
      }
    } else {
      assert kept + unread == kept;
    }
  }

  lemma TextIs(d: Desk, name: string, kept: string, unread: string)
    requires Exact(ViewOf(d, name), kept, unread) && name in d.files
    ensures Text(d, name) == Tail(kept) + unread && (unread == "" <==> |d.files[name]| == From(d, name))
  {
    hide WholeLines, NonBlank, Of, Tail;
  }

  lemma {:induction false} PollOfOthers(d: Desk, names: seq<string>, maxBytes: nat, name: string)
    requires name !in names
    ensures ViewOf(PollFiles(d, names, maxBytes), name) == ViewOf(d, name)
    decreases names
  {
    if names != [] {
      PollOfOthers(d, names[..|names| - 1], maxBytes, name);
      PollOfAnother(PollFiles(d, names[..|names| - 1], maxBytes), names[|names| - 1], maxBytes, name);
    }
  }

  /** A poll empties a file that has grown past maxBytes, and no other. */
  lemma PollEmpties(d: Desk, name: string, maxBytes: nat, n: string)
    ensures Get(PollFile(d, name, maxBytes).files, n)
      == if n == name && n in d.files && |d.files[n]| > maxBytes then Some("") else Get(d.files, n)
  {
    hide WholeLines, NonBlank, Tail, Named;
  }

  lemma {:induction false} PollsEmpty(d: Desk, names: seq<string>, maxBytes: nat, n: string)
    ensures Get(PollFiles(d, names, maxBytes).files, n)
      == if n in names && n in d.files && |d.files[n]| > maxBytes then Some("") else Get(d.files, n)
    decreases names
  {
    hide PollFile;
    if names != [] {
      PollsEmpty(d, names[..|names| - 1], maxBytes, n);
      PollEmpties(PollFiles(d, names[..|names| - 1], maxBytes), names[|names| - 1], maxBytes, n);
    }
  }

  /** What a poll does to the files and to the file of offsets: it empties the named files that have grown past
      maxBytes and leaves all others alone, and it writes its offsets if and only if they changed. */
  lemma PollChanges(d: Desk, names: seq<string>, maxBytes: nat, n: string)
    ensures var d' := PollAll(d, names, maxBytes);
      && Get(d'.files, n) == (if n in names && n in d.files && |d.files[n]| > maxBytes then Some("") else Get(d.files, n))
      && d'.saved == (if d'.offsets != d.offsets then Some(d'.offsets) else d.saved)
  {
    hide PollFiles;
    PollsEmpty(d, names, maxBytes, n);
    PollFilesSaves(d, names, maxBytes);
  }

  ghost predicate Once(names: seq<string>) { forall i, j :: 0 <= i < j < |names| ==> names[i] != names[j] }

  lemma {:induction false} PollFilesExact(d: Desk, names: seq<string>, maxBytes: nat, name: string, kept: string,
                                          unread: string)
    requires Once(names) && name in names && Exact(ViewOf(d, name), kept, unread)
    ensures var v := ViewOf(PollFiles(d, names, maxBytes), name); Exact(v, kept + unread, "") && Settled(v, maxBytes)
    decreases names
  {
    var init, last := names[..|names| - 1], names[|names| - 1];
    if last == name {
      PollOfOthers(d, init, maxBytes, name);
      PollExact(PollFiles(d, init, maxBytes), name, maxBytes, kept, unread);
    } else {
      PollFilesExact(d, init, maxBytes, name, kept, unread);
      PollOfAnother(PollFiles(d, init, maxBytes), last, maxBytes, name);
    }
  }

  lemma {:induction false} PollFilesSaves(d: Desk, names: seq<string>, maxBytes: nat)
    ensures PollFiles(d, names, maxBytes).saved == d.saved
    decreases names
  {
    if names != [] { PollFilesSaves(d, names[..|names| - 1], maxBytes); }
  }

  /** Dropping the unfinished line leaves the same complete lines. */
  lemma {:induction false} WithoutTail(text: string)
    ensures var whole := text[..|text| - |Tail(text)|]; WholeLines(whole) == WholeLines(text) && Tail(whole) == ""
    decreases text
  {
    if text != "" && text[|text| - 1] != '\n' {
      var init := text[..|text| - 1];
      WithoutTail(init);
      assert text[..|text| - |Tail(text)|] == init[..|init| - |Tail(init)|];
    } else {
      assert text[..|text| - |Tail(text)|] == text;
    }
  }

  /** The offsets that a restart loads are those the relay had, whatever happened before. */
  lemma {:induction false} OffsetsReload(events: seq<Event>, names: seq<string>, maxBytes: nat)
    ensures var d := After(events, names, maxBytes); Restarted(d).offsets == d.offsets
    decreases events
  {
    if events != [] {
      var past := After(events[..|events| - 1], names, maxBytes);
      OffsetsReload(events[..|events| - 1], names, maxBytes);
      PollFilesSaves(past, names, maxBytes);
    }
  }

  lemma AppendExact(d: Desk, n: string, text: string, name: string, kept: string, unread: string, names: seq<string>,
                    maxBytes: nat)
    requires Exact(ViewOf(d, name), kept, unread)
    ensures Exact(ViewOf(Happen(d, Append(n, text), names, maxBytes), name), kept,
                  if n == name then unread + text else unread)
  {
    hide WholeLines, NonBlank, Of, PollAll;
    if n == name && name in d.files {
      var content, offset := d.files[name], Offset(d, name);
      assert (content + text)[offset..] == content[offset..] + text;
    }
  }

  lemma RestartExact(d: Desk, name: string, kept: string, unread: string)
    requires Exact(ViewOf(d, name), kept, unread) && Restarted(d).offsets == d.offsets
    ensures Exact(ViewOf(Restarted(d), name), kept[..|kept| - |Tail(kept)|], unread)
  {
    WithoutTail(kept);
  }

  lemma SavedApart(d: Desk, names: seq<string>, maxBytes: nat, name: string)
    ensures ViewOf(PollAll(d, names, maxBytes), name) == ViewOf(PollFiles(d, names, maxBytes), name)
  {
  }

  lemma {:induction false} RelayKnows(events: seq<Event>, names: seq<string>, maxBytes: nat, name: string)
    requires Once(names) && name in names
    ensures var v := ViewOf(After(events, names, maxBytes), name);
      && Exact(v, Kept(events, name), Unread(events, name))
      && (events != [] && events[|events| - 1].Poll? ==> Settled(v, maxBytes))
    decreases events
  {
    hide *;
    if events == [] {
      KnowsNothing(names, maxBytes, name);
    } else {
      RelayKnows(events[..|events| - 1], names, maxBytes, name);
      KnowsMore(events, names, maxBytes, name);
    }
  }

  lemma KnowsNothing(names: seq<string>, maxBytes: nat, name: string)
    ensures Exact(ViewOf(After([], names, maxBytes), name), Kept([], name), Unread([], name))
  {
  }

  lemma KnowsMore(events: seq<Event>, names: seq<string>, maxBytes: nat, name: string)
    requires events != [] && Once(names) && name in names
    requires var before := events[..|events| - 1];
      Exact(ViewOf(After(before, names, maxBytes), name), Kept(before, name), Unread(before, name))
    ensures var v := ViewOf(After(events, names, maxBytes), name);
      && Exact(v, Kept(events, name), Unread(events, name))
      && (events[|events| - 1].Poll? ==> Settled(v, maxBytes))
  {
    hide Exact, Settled, ViewOf, PollFiles, Tail, PollAll, Restarted, Happen;
    var before, e := events[..|events| - 1], events[|events| - 1];
    var past := After(before, names, maxBytes);
    var kept, unread := Kept(before, name), Unread(before, name);
    HappenIs(past, e, names, maxBytes);
    match e
    case Append(n, text) => AppendExact(past, n, text, name, kept, unread, names, maxBytes);
    case Poll =>
      PollFilesExact(past, names, maxBytes, name, kept, unread);
      SavedApart(past, names, maxBytes, name);
    case Restart =>
      OffsetsReload(before, names, maxBytes);
      RestartExact(past, name, kept, unread);
  }

  lemma HappenIs(d: Desk, e: Event, names: seq<string>, maxBytes: nat)
    ensures e.Poll? ==> Happen(d, e, names, maxBytes) == PollAll(d, names, maxBytes)
    ensures e.Restart? ==> Happen(d, e, names, maxBytes) == Restarted(d)
  {
  }

  /** Whatever appends, polls and restarts happen: the lines emitted for a file are the complete lines of what was
      appended up to the last poll, less the unfinished line at each restart, that hold a character other than
      white space, in order and each as often as it is there; the relay holds the unfinished line of it; and after
      a poll its offset is the file's size, which is at most maxBytes. How the appends fall between the polls makes
      no difference. */
  lemma RelayIsExact(events: seq<Event>, names: seq<string>, maxBytes: nat, name: string) returns (at: seq<nat>)
    requires Once(names) && name in names
    ensures var d, kept := After(events, names, maxBytes), Kept(events, name);
      && Emits(Of(d.out, name), WholeLines(kept), at)
      && Held(d, name) == Tail(kept)
      && (events != [] && events[|events| - 1].Poll? && name in d.files ==>
            Offset(d, name) == |d.files[name]| <= maxBytes)
  {
    RelayKnows(events, names, maxBytes, name);
    at := NonBlankMeans(WholeLines(Kept(events, name)));
  }

  /** Without a restart, all that was appended up to the last poll is kept. */
  lemma {:induction false} NothingLost(events: seq<Event>, name: string)
    requires Restart !in events
    ensures Kept(events, name) + Unread(events, name) == Stream(events, name)
    decreases events
  {
    if events != [] {
      var before, e := events[..|events| - 1], events[|events| - 1];
      assert e in events;
      NothingLost(before, name);
      if e.Append? && e.name == name {
        assert Kept(events, name) + Unread(events, name) == Kept(before, name) + Unread(before, name) + e.text;
      }
    }
  }

  /** What each restart took from a file: how much was kept before it, and the unfinished line it dropped. */
  function Gaps(events: seq<Event>, name: string): seq<(nat, string)> {
    if events == [] then [] else
      var before, e := events[..|events| - 1], events[|events| - 1];
      var kept := Kept(before, name);
      Gaps(before, name) + if e.Restart? then [(|kept| - |Tail(kept)|, Tail(kept))] else []
  }

  /** A text with the gaps put back, the last one first. */
  function Restored(text: string, gaps: seq<(nat, string)>): string
    decreases gaps
  {
    if gaps == [] then text else
      var (at, gap) := gaps[|gaps| - 1];
      if at > |text| then text else Restored(text[..at], gaps[..|gaps| - 1]) + gap + text[at..]
  }

  /** The gaps are all in the complete lines of what is kept. */
  ghost predicate Behind(gaps: seq<(nat, string)>, kept: string) {
    gaps != [] ==> gaps[|gaps| - 1].0 <= |kept| - |Tail(kept)|
  }

  lemma RestoredMore(text: string, gaps: seq<(nat, string)>, more: string)
    requires gaps != [] ==> gaps[|gaps| - 1].0 <= |text|
    ensures Restored(text + more, gaps) == Restored(text, gaps) + more
  {
    if gaps == [] {
      assert Restored(text, gaps) == text && Restored(text + more, gaps) == text + more;
    } else {
      var (at, gap) := gaps[|gaps| - 1];
      var before := gaps[..|gaps| - 1];
      assert (text + more)[..at] == text[..at] && (text + more)[at..] == text[at..] + more;
      LastGap(text, before, at, gap);
      LastGap(text + more, before, at, gap);
      assert before + [(at, gap)] == gaps;
    }
  }

  lemma LastGap(text: string, before: seq<(nat, string)>, at: nat, gap: string)
    requires at <= |text|
    ensures Restored(text, before + [(at, gap)]) == Restored(text[..at], before) + gap + text[at..]
  {
    assert (before + [(at, gap)])[..|before|] == before;
  }

  lemma TailWithin(kept: string, more: string)
    ensures |kept| - |Tail(kept)| <= |kept + more| - |Tail(kept + more)|
  {
    LinesInPieces(kept, more);
  }

  /** All that was ever appended to a file is what is kept and yet unread, with exactly the unfinished line of each
      restart put back where it was: nothing else is lost, and nothing is there twice. */
  lemma {:induction false} EveryCharacterOnce(events: seq<Event>, name: string)
    ensures Restored(Kept(events, name) + Unread(events, name), Gaps(events, name)) == Stream(events, name)
    ensures Behind(Gaps(events, name), Kept(events, name))
    decreases events
  {
    hide Restored, Behind, Tail;
    if events == [] {
      NoGaps();
      assert Kept(events, name) + Unread(events, name) == "";
    } else {
      var before, e := events[..|events| - 1], events[|events| - 1];
      var kept, unread, gaps := Kept(before, name), Unread(before, name), Gaps(before, name);
      EveryCharacterOnce(before, name);
      assert gaps + [] == gaps;
      match e
      case Append(n, text) =>
        if n == name {
          AppendKeeps(kept, unread, gaps, text);
          assert kept + (unread + text) == kept + unread + text;
        }
      case Poll =>
        PollKeeps(kept, unread, gaps);
        assert kept + unread + "" == kept + unread;
      case Restart => RestartKeeps(kept, unread, gaps);
    }
  }

  lemma NoGaps()
    ensures Restored("", []) == "" && Behind([], "")
  {
  }

  lemma AppendKeeps(kept: string, unread: string, gaps: seq<(nat, string)>, text: string)
    requires Behind(gaps, kept)
    ensures Restored(kept + unread + text, gaps) == Restored(kept + unread, gaps) + text
  {
    hide Restored, Tail;
    RestoredMore(kept + unread, gaps, text);
  }

  lemma PollKeeps(kept: string, unread: string, gaps: seq<(nat, string)>)
    requires Behind(gaps, kept)
    ensures Behind(gaps, kept + unread)
  {
    hide Tail;
    TailWithin(kept, unread);
  }

  lemma RestartKeeps(kept: string, unread: string, gaps: seq<(nat, string)>)
    requires Behind(gaps, kept)
    ensures var whole := kept[..|kept| - |Tail(kept)|];
      var more := gaps + [(|whole|, Tail(kept))];
      Restored(whole + unread, more) == Restored(kept + unread, gaps) && Behind(more, whole)
  {
    hide Restored, Tail;
    WithoutTail(kept);
    TailEnds(kept);
    var whole := kept[..|kept| - |Tail(kept)|];
    var more := gaps + [(|whole|, Tail(kept))];
    LastGap(whole + unread, gaps, |whole|, Tail(kept));
    assert (whole + unread)[..|whole|] == whole && (whole + unread)[|whole|..] == unread;
    RestoredMore(whole, gaps, Tail(kept) + unread);
    assert kept + unread == whole + (Tail(kept) + unread);
    assert Restored(whole, gaps) + Tail(kept) + unread == Restored(whole, gaps) + (Tail(kept) + unread);
  }

  lemma {:induction false} TailEnds(text: string)
    ensures text == text[..|text| - |Tail(text)|] + Tail(text)
    decreases text
  {
    if text != "" && text[|text| - 1] != '\n' {
      var init := text[..|text| - 1];
      TailEnds(init);
      assert text[..|text| - |Tail(text)|] == init[..|init| - |Tail(init)|];
    }
  }
}
