/** config.php: how the settings are printed as PHP literals, and a reader of those literals. */
module PhpConfig {
  import opened Values

  /** A value of the settings tree; the entries of a map are in their order. */
  datatype Setting =
    | Nil
    | Flag(b: bool)
    | Whole(n: int)
    | Words(s: string)
    | List(items: seq<Setting>)
    | Map(entries: seq<Named>)

  datatype Named = Named(name: string, value: Setting)

  // ---- The printer -------------------------------------------------------------------------

  function Escape(s: string): string {
    if s == "" then "" else (if s[0] == '\\' || s[0] == '\'' then ['\\', s[0]] else [s[0]]) + Escape(s[1..])
  }

  function Quote(s: string): string { "'" + Escape(s) + "'" }

  function Decimal(n: int): string { if n < 0 then "-" + Digits(-n) else Digits(n) }

  function Literal(v: Setting): string
    decreases v, 1
  {
    match v
    case Nil => "null"
    case Flag(b) => if b then "true" else "false"
    case Whole(n) => Decimal(n)
    case Words(s) => Quote(s)
    case List(items) => "array(" + Items(items) + ")"
    case Map(entries) => "array(" + Entries(entries) + ")"
  }

  function Items(items: seq<Setting>): string
    decreases items, 0
  {
    if items == [] then "" else
      Literal(items[0]) + if |items| == 1 then "" else ", " + Items(items[1..])
  }

  function Entries(entries: seq<Named>): string
    decreases entries, 0
  {
    if entries == [] then "" else
      Quote(entries[0].name) + " => " + Literal(entries[0].value) + if |entries| == 1 then "" else ", " + Entries(entries[1..])
  }

  /** The lines of a section's keys; the names stand between quotes as they are. */
  function KeyLines(entries: seq<Named>): string {
    if entries == [] then "" else
      "        '" + entries[0].name + "' => " + Literal(entries[0].value) + ",\n" + KeyLines(entries[1..])
  }

  function SectionLines(tree: seq<Named>): string {
    if tree == [] then "" else
      "    '" + tree[0].name + "' => " + SectionValue(tree[0].value) + ",\n" + SectionLines(tree[1..])
  }

  function SectionValue(v: Setting): string {
    if v.Map? then "array(\n" + KeyLines(v.entries) + "    )" else Literal(v)
  }

  function ConfigText(tree: seq<Named>): string {
    "<?php\n$config = array(\n" + SectionLines(tree) + ");\n"
  }

  // ---- The reader --------------------------------------------------------------------------

  /** What PHP makes of a literal: an array holds values with or without a string key. */
  datatype Php = PNull | PBool(b: bool) | PInt(n: int) | PString(s: string) | PArray(entries: seq<Entry>)

  datatype Entry = Entry(key: Option<string>, value: Php)

  type Parsed = Option<(Php, string)>

  predicate White(c: char) { c == ' ' || c == '\n' || c == '\t' || c == '\r' }

  predicate Digit(c: char) { '0' <= c <= '9' }

  function Skip(s: string): (r: string)
    ensures |r| <= |s|
  {
    if s != "" && White(s[0]) then Skip(s[1..]) else s
  }

  /** A single-quoted string, from behind its first quote: a backslash escapes a backslash or a quote. */
  function ReadString(s: string): (r: Option<(string, string)>)
    ensures r.Some? ==> |r.value.1| < |s|
  {
    if s == "" then None
    else if s[0] == '\'' then Some(("", s[1..]))
    else
      var escaped := s[0] == '\\' && |s| > 1 && (s[1] == '\\' || s[1] == '\'');
      var rest := ReadString(if escaped then s[2..] else s[1..]);
      if rest.None? then None else Some(([if escaped then s[1] else s[0]] + rest.value.0, rest.value.1))
  }

  function ReadNat(s: string, n: nat): (r: (nat, string))
    ensures |r.1| <= |s|
  {
    if s != "" && Digit(s[0]) then ReadNat(s[1..], 10 * n + (s[0] as int - '0' as int)) else (n, s)
  }

  predicate Starts(s: string, word: string) { |word| <= |s| && s[..|word|] == word }

  function ReadValue(s: string): (r: Parsed)
    ensures r.Some? ==> |r.value.1| < |s|
    decreases |s|, 0
  {
    if s == "" then None
    else if s[0] == '\'' then
      var r := ReadString(s[1..]);
      if r.None? then None else Some((PString(r.value.0), r.value.1))
    else if Digit(s[0]) then
      var (n, rest) := ReadNat(s[1..], s[0] as int - '0' as int);
      Some((PInt(n), rest))
    else if s[0] == '-' && |s| > 1 && Digit(s[1]) then
      var (n, rest) := ReadNat(s[2..], s[1] as int - '0' as int);
      Some((PInt(-(n as int)), rest))
    else if Starts(s, "null") then Some((PNull, s[4..]))
    else if Starts(s, "true") then Some((PBool(true), s[4..]))
    else if Starts(s, "false") then Some((PBool(false), s[5..]))
    else if Starts(s, "array(") then
      var r := ReadEntries(Skip(s[6..]));
      if r.None? then None else Some((PArray(r.value.0), r.value.1))
    else None
  }

  /** The entries of an array, up to and with its closing bracket; a comma may follow the last. */
  function ReadEntries(s: string): (r: Option<(seq<Entry>, string)>)
    ensures r.Some? ==> |r.value.1| < |s|
    decreases |s|, 2
  {
    if s == "" then None
    else if s[0] == ')' then Some(([], s[1..]))
    else
      var first := ReadEntry(s);
      if first.None? then None else
        var after := Skip(first.value.1);
        if after == "" then None
        else if after[0] == ')' then Some(([first.value.0], after[1..]))
        else if after[0] != ',' then None
        else
          var rest := ReadEntries(Skip(after[1..]));
          if rest.None? then None else Some(([first.value.0] + rest.value.0, rest.value.1))
  }

  function ReadEntry(s: string): (r: Option<(Entry, string)>)
    ensures r.Some? ==> |r.value.1| < |s|
    decreases |s|, 1
  {
    var first := ReadValue(s);
    if first.None? then None else
      var after := Skip(first.value.1);
      if first.value.0.PString? && Starts(after, "=>") then
        var second := ReadValue(Skip(after[2..]));
        if second.None? then None else Some((Entry(Some(first.value.0.s), second.value.0), second.value.1))
      else Some((Entry(None, first.value.0), first.value.1))
  }

  /** What `word` leaves of a text that begins with it, white space aside. */
  function Eat(s: Option<string>, word: string): Option<string> {
    if s.Some? && Starts(Skip(s.value), word) then Some(Skip(s.value)[|word|..]) else None
  }

  /** The entries of $config in a file that assigns it and does nothing else. */
  function ReadConfig(text: string): Option<seq<Entry>> {
    var body := Eat(Eat(Eat(Some(text), "<?php"), "$config"), "=");
    if body.None? then None else
      var config := ReadValue(Skip(body.value));
      if config.None? then None else
        var end := Eat(Some(config.value.1), ";");
        if end.Some? && Skip(end.value) == "" && config.value.0.PArray? then Some(config.value.0.entries) else None
  }

  // ---- What a tree means -------------------------------------------------------------------

  function Meaning(v: Setting): Php
    decreases v, 1
  {
    match v
    case Nil => PNull
    case Flag(b) => PBool(b)
    case Whole(n) => PInt(n)
    case Words(s) => PString(s)
    case List(items) => PArray(Unkeyed(items))
    case Map(entries) => PArray(Pairs(entries))
  }

  function Unkeyed(items: seq<Setting>): seq<Entry>
    decreases items, 0
  {
    if items == [] then [] else [Entry(None, Meaning(items[0]))] + Unkeyed(items[1..])
  }

  function Pairs(entries: seq<Named>): seq<Entry>
    decreases entries, 0
  {
    if entries == [] then [] else [Entry(Some(entries[0].name), Meaning(entries[0].value))] + Pairs(entries[1..])
  }

  /** Printed between quotes as it is, the name reads as itself: no quote, no backslash before another or at the
      end. */
  predicate Plain(name: string) {
    name == "" || (name[0] != '\'' && (name[0] == '\\' ==> |name| > 1 && name[1] != '\\') && Plain(name[1..]))
  }

  /** All names that stand in the file as they are: the sections, and the first-level keys of each. */
  predicate PlainNames(entries: seq<Named>) { forall e <- entries :: Plain(e.name) }

  predicate PlainTree(tree: seq<Named>) {
    PlainNames(tree) && forall e <- tree :: e.value.Map? ==> PlainNames(e.value.entries)
  }

  // ---- Strings and numbers -----------------------------------------------------------------

  lemma {:induction false} ReadEscaped(s: string, rest: string)
    ensures ReadString(Escape(s) + "'" + rest) == Some((s, rest))
    decreases s
  {
    hide *;
    EscapeOf(s);
    if s == "" {
      assert Escape(s) + "'" + rest == "'" + rest;
      ReadEnd(rest);
    } else {
      var c, tail := s[0], Escape(s[1..]) + "'" + rest;
      ReadEscaped(s[1..], rest);
      EscapedChar(c, tail);
      assert Escape(s) + "'" + rest == (if c == '\\' || c == '\'' then ['\\', c] else [c]) + tail;
      assert [c] + s[1..] == s;
    }
  }

  lemma EscapeOf(s: string)
    ensures Escape(s) == if s == "" then "" else
      (if s[0] == '\\' || s[0] == '\'' then ['\\', s[0]] else [s[0]]) + Escape(s[1..])
  {
  }

  lemma ReadEnd(rest: string)
    ensures ReadString("'" + rest) == Some(("", rest))
  {
    assert ("'" + rest)[1..] == rest;
  }

  lemma EscapedChar(c: char, tail: string)
    ensures var r := ReadString(tail);
      ReadString((if c == '\\' || c == '\'' then ['\\', c] else [c]) + tail)
        == if r.None? then None else Some(([c] + r.value.0, r.value.1))
  {
    hide ReadValue, ReadEntries, ReadEntry, ReadNat, Skip, Literal;
    assert (['\\', c] + tail)[2..] == tail && ([c] + tail)[1..] == tail;
  }

  lemma {:induction false} ReadPlain(name: string, rest: string)
    requires Plain(name)
    ensures ReadString(name + "'" + rest) == Some((name, rest))
    decreases name
  {
    if name == "" {
      assert name + "'" + rest == "'" + rest;
    } else {
      var text := name + "'" + rest;
      assert text[1..] == name[1..] + "'" + rest;
      ReadPlain(name[1..], rest);
      if |name| > 1 { assert name[1] != '\''; }
      assert [name[0]] + name[1..] == name;
    }
  }

  function Slashes(n: nat): string { if n == 0 then "" else "\\" + Slashes(n - 1) }

  lemma {:induction false} SlashAfter(n: nat, s: string)
    ensures Slashes(n) + ("\\" + s) == Slashes(n + 1) + s
    decreases n
  {
    if n > 0 {
      SlashAfter(n - 1, s);
      assert Slashes(n) + ("\\" + s) == "\\" + (Slashes(n - 1) + ("\\" + s));
    } else {
      assert Slashes(1) == "\\";
    }
  }

  /** An escaped backslash takes two characters for one, which no later reading makes up for. */
  lemma {:induction false} NeverBehind(d: nat, s: string, rest: string)
    requires d > 0
    ensures ReadString(s + "'" + rest).Some? ==> ReadString(s + "'" + rest).value.0 != Slashes(d) + s
    decreases s
  {
    var text := s + "'" + rest;
    assert (Slashes(d) + s)[0] == '\\';
    if s != "" && s[0] == '\\' && text[1] == '\\' {
      assert s[1] == '\\';
      assert text[2..] == s[2..] + "'" + rest;
      assert s == "\\" + ("\\" + s[2..]);
      SlashAfter(d, "\\" + s[2..]);
      SlashAfter(d + 1, s[2..]);
      NeverBehind(d + 1, s[2..], rest);
      var tail := ReadString(text[2..]);
      assert Slashes(d) + s == "\\" + (Slashes(d + 1) + s[2..]);
      if tail.Some? {
        assert ReadString(text).value.0 == ['\\'] + tail.value.0;
        assert (['\\'] + tail.value.0)[1..] == tail.value.0;
        assert ("\\" + (Slashes(d + 1) + s[2..]))[1..] == Slashes(d + 1) + s[2..];
      }
    } else if s != "" && s[0] == '\\' && text[1] != '\'' {
      assert text[1..] == s[1..] + "'" + rest;
      assert s == "\\" + s[1..];
      SlashAfter(d, s[1..]);
      NeverBehind(d, s[1..], rest);
      var tail := ReadString(text[1..]);
      assert Slashes(d) + s == "\\" + (Slashes(d) + s[1..]);
      if tail.Some? {
        assert ReadString(text).value.0 == ['\\'] + tail.value.0;
        assert (['\\'] + tail.value.0)[1..] == tail.value.0;
        assert ("\\" + (Slashes(d) + s[1..]))[1..] == Slashes(d) + s[1..];
      }
    } else if ReadString(text).Some? && ReadString(text).value.0 != "" {
      assert ReadString(text).value.0[0] != '\\';
    }
  }

  /** A name that reads as itself is plain. */
  lemma {:induction false} OnlyPlain(name: string, rest: string)
    requires ReadString(name + "'" + rest).Some? && ReadString(name + "'" + rest).value.0 == name
    ensures Plain(name)
    decreases name
  {
    var text := name + "'" + rest;
    if name != "" {
      assert name[0] != '\'';
      assert name == [name[0]] + name[1..];
      if name[0] == '\\' && text[1] == '\\' {
        assert text[2..] == name[2..] + "'" + rest;
        assert name[1..] == Slashes(1) + name[2..];
        NeverBehind(1, name[2..], rest);
        assert false;
      } else {
        assert !(name[0] == '\\' && text[1] == '\'');
        assert text[1..] == name[1..] + "'" + rest;
        OnlyPlain(name[1..], rest);
      }
    }
  }

  function DigitChar(d: nat): (c: char)
    requires d < 10
    ensures Digit(c) && c as int - '0' as int == d
  {
    "0123456789"[d]
  }

  lemma DigitsOf(n: nat)
    ensures Digits(n) == (if n < 10 then [] else Digits(n / 10)) + [DigitChar(n % 10)]
  {
    if n < 10 { assert Digits(n) == [DigitChar(n)]; }
  }

  lemma ReadDigit(c: char, rest: string, n: nat)
    requires Digit(c)
    ensures ReadNat([c] + rest, n) == ReadNat(rest, 10 * n + (c as int - '0' as int))
  {
    assert ([c] + rest)[1..] == rest;
  }

  lemma {:induction false} ReadDigits(n: nat, rest: string)
    ensures Digits(n) != "" && Digit(Digits(n)[0])
    ensures ReadNat(Digits(n) + rest, 0) == ReadNat(rest, n)
    decreases n
  {
    hide *;
    var c := DigitChar(n % 10);
    DigitsOf(n);
    if n < 10 {
      ReadDigit(c, rest, 0);
      assert Digits(n) == [c];
    } else {
      var init := Digits(n / 10);
      ReadDigits(n / 10, [c] + rest);
      assert Digits(n) + rest == init + ([c] + rest);
      ReadDigit(c, rest, n / 10);
    }
  }

  /** A text that begins with a digit reads as a number, as does a minus before it. */
  lemma ReadNumber(text: string)
    requires text != "" && Digit(text[0])
    ensures var (n, rest) := ReadNat(text, 0);
      ReadValue(text) == Some((PInt(n), rest)) && ReadValue("-" + text) == Some((PInt(-(n as int)), rest))
  {
    hide ReadEntries, ReadEntry, ReadString, Skip, Starts;
    assert ("-" + text)[1] == text[0] && ("-" + text)[2..] == text[1..];
  }

  lemma ReadDecimal(n: int, rest: string)
    requires rest == "" || !Digit(rest[0])
    ensures ReadValue(Decimal(n) + rest) == Some((PInt(n), rest))
  {
    hide ReadValue, Digits, ReadNat;
    var m: nat := if n < 0 then -n else n;
    var text := Digits(m) + rest;
    ReadDigits(m, rest);
    NoMoreDigits(m, rest);
    assert text[0] == Digits(m)[0];
    ReadNumber(text);
    assert Decimal(n) + rest == if n < 0 then "-" + text else text;
  }

  lemma NoMoreDigits(n: nat, rest: string)
    requires rest == "" || !Digit(rest[0])
    ensures ReadNat(rest, n) == (n, rest)
  {
  }

  // ---- Literals ----------------------------------------------------------------------------

  /** What may follow a literal. */
  predicate Stop(rest: string) { rest != "" && (rest[0] == ',' || rest[0] == ')' || rest[0] == ';') }

  lemma StartsWith(word: string, rest: string)
    ensures Starts(word + rest, word) && (word + rest)[|word|..] == rest
  {
  }

  /** A literal begins with no bracket and no white space. */
  lemma LiteralBegins(v: Setting)
    ensures Literal(v) != "" && Literal(v)[0] != ')' && !White(Literal(v)[0])
  {
    match v
    case Whole(n) => ReadDigits(if n < 0 then -n else n, "");
    case _ =>
  }

  /** Reading a literal back gives what the value means, whatever follows. */
  lemma {:induction false} ReadLiteral(v: Setting, rest: string)
    requires Stop(rest)
    ensures ReadValue(Literal(v) + rest) == Some((Meaning(v), rest))
    decreases v, 1
  {
    hide ReadEntries, ReadEntry, Skip, Items, Entries, Escape, Digits, ReadNat, ReadString, ReadValue, Decimal;
    match v
    case Nil => ReadWord("null", rest);
    case Flag(b) => ReadWord(if b then "true" else "false", rest);
    case Whole(n) => ReadDecimal(n, rest);
    case Words(s) =>
      ReadEscaped(s, rest);
      ReadQuoted(Escape(s), s, rest);
    case List(items) =>
      ReadItems(items, rest);
      ReadArray(Items(items), Unkeyed(items), rest);
    case Map(entries) =>
      ReadPairs(entries, rest);
      ReadArray(Entries(entries), Pairs(entries), rest);
  }

  lemma ReadWord(word: string, rest: string)
    requires word in {"null", "true", "false"}
    ensures ReadValue(word + rest) == Some((if word == "null" then PNull else PBool(word == "true"), rest))
  {
    hide ReadEntries, ReadEntry, Skip, ReadNat, ReadString;
    StartsWith(word, rest);
    assert (word + rest)[0] == word[0];
  }

  lemma ReadQuoted(quoted: string, s: string, rest: string)
    requires ReadString(quoted + "'" + rest) == Some((s, rest))
    ensures ReadValue("'" + quoted + "'" + rest) == Some((PString(s), rest))
  {
    hide ReadEntries, ReadEntry, Skip, ReadNat, ReadString;
    assert ("'" + quoted + "'" + rest)[1..] == quoted + "'" + rest;
  }

  lemma ReadArray(inner: string, entries: seq<Entry>, rest: string)
    requires ReadEntries(Skip(inner + ")" + rest)) == Some((entries, rest))
    ensures ReadValue("array(" + inner + ")" + rest) == Some((PArray(entries), rest))
  {
    hide ReadEntries, ReadEntry, Skip, ReadNat, ReadString;
    StartsWith("array(", inner + ")" + rest);
    assert "array(" + inner + ")" + rest == "array(" + (inner + ")" + rest);
  }

  lemma SkipSpace(s: string)
    ensures Skip(" " + s) == Skip(s)
  {
    assert (" " + s)[1..] == s;
  }

  /** An entry, and what a comma or a bracket after it makes of the rest. */
  lemma EntryThen(text: string, e: Entry, after: string)
    requires text != "" && text[0] != ')' && ReadEntry(text) == Some((e, after))
    requires after != "" && (after[0] == ',' || after[0] == ')')
    ensures ReadEntries(text) ==
      if after[0] == ')' then Some(([e], after[1..])) else
        var rest := ReadEntries(Skip(after[1..]));
        if rest.None? then None else Some(([e] + rest.value.0, rest.value.1))
  {
    hide ReadEntry, ReadValue;
    assert Skip(after) == after;
  }

  lemma UnkeyedEntry(text: string, v: Php, after: string)
    requires ReadValue(text) == Some((v, after)) && after != "" && (after[0] == ',' || after[0] == ')')
    ensures ReadEntry(text) == Some((Entry(None, v), after))
  {
    hide ReadEntries, ReadValue;
    assert Skip(after) == after && !Starts(after, "=>");
  }

  /** An entry with a key: `quoted` stands between the quotes and reads as `name`. */
  lemma KeyedEntry(quoted: string, name: string, literal: string, after: string)
    requires ReadString(quoted + "'" + (" => " + literal + after)) == Some((name, " => " + literal + after))
    requires literal != "" && !White(literal[0])
    ensures var v := ReadValue(literal + after);
      ReadEntry("'" + quoted + "' => " + literal + after)
        == if v.None? then None else Some((Entry(Some(name), v.value.0), v.value.1))
  {
    hide ReadEntries, ReadNat, ReadString, ReadValue;
    var text, rest := "'" + quoted + "' => " + literal + after, " => " + literal + after;
    ReadQuoted(quoted, name, rest);
    assert text == "'" + quoted + "'" + rest;
    assert rest == " " + ("=> " + literal + after);
    SkipSpace("=> " + literal + after);
    var arrow := "=> " + literal + after;
    assert Skip(rest) == arrow && Starts(arrow, "=>");
    assert arrow[2..] == " " + (literal + after);
    SkipSpace(literal + after);
    assert Skip(literal + after) == literal + after;
  }

  lemma Closing(rest: string)
    ensures ReadEntries(Skip(")" + rest)) == Some(([], rest))
  {
    assert (")" + rest)[1..] == rest;
  }

  lemma {:induction false} ReadItems(items: seq<Setting>, rest: string)
    ensures ReadEntries(Skip(Items(items) + ")" + rest)) == Some((Unkeyed(items), rest))
    decreases items, 0
  {
    hide ReadValue, ReadEntry, ReadEntries, ReadString, ReadNat, Literal, Meaning, Escape;
    if items != [] {
      var more := if |items| == 1 then "" else ", " + Items(items[1..]);
      var after := more + ")" + rest;
      var text := Literal(items[0]) + after;
      LiteralBegins(items[0]);
      ReadLiteral(items[0], after);
      assert Items(items) + ")" + rest == text;
      UnkeyedEntry(text, Meaning(items[0]), after);
      EntryThen(text, Entry(None, Meaning(items[0])), after);
      assert Skip(text) == text;
      if |items| > 1 {
        ReadItems(items[1..], rest);
        assert after[1..] == " " + (Items(items[1..]) + ")" + rest);
        SkipSpace(Items(items[1..]) + ")" + rest);
      } else {
        assert after[1..] == rest && Unkeyed(items) == [Entry(None, Meaning(items[0]))];
      }
    } else {
      assert Items(items) + ")" + rest == ")" + rest;
      Closing(rest);
    }
  }

  lemma {:induction false} ReadPairs(entries: seq<Named>, rest: string)
    ensures ReadEntries(Skip(Entries(entries) + ")" + rest)) == Some((Pairs(entries), rest))
    decreases entries, 0
  {
    hide ReadValue, ReadEntry, ReadEntries, ReadString, ReadNat, Literal, Meaning, Escape;
    if entries != [] {
      var Named(name, value) := entries[0];
      var more := if |entries| == 1 then "" else ", " + Entries(entries[1..]);
      var after := more + ")" + rest;
      var text := "'" + Escape(name) + "' => " + Literal(value) + after;
      LiteralBegins(value);
      ReadLiteral(value, after);
      ReadEscaped(name, " => " + Literal(value) + after);
      KeyedEntry(Escape(name), name, Literal(value), after);
      assert Entries(entries) + ")" + rest == text;
      EntryThen(text, Entry(Some(name), Meaning(value)), after);
      assert Skip(text) == text;
      if |entries| > 1 {
        ReadPairs(entries[1..], rest);
        assert after[1..] == " " + (Entries(entries[1..]) + ")" + rest);
        SkipSpace(Entries(entries[1..]) + ")" + rest);
      } else {
        assert after[1..] == rest && Pairs(entries) == [Entry(Some(name), Meaning(value))];
      }
    } else {
      assert Entries(entries) + ")" + rest == ")" + rest;
      Closing(rest);
    }
  }

  // ---- The file ----------------------------------------------------------------------------

  /** An entry whose name stands in the file as it is, and a comma: if the name is plain, the entry reads as the
      name and the value; and whatever is read under this name, the name is plain. */
  lemma RawEntry(name: string, literal: string, more: string)
    requires literal != "" && !White(literal[0])
    ensures var text := "'" + name + "' => " + literal + ",\n" + more; var r := ReadEntries(text);
      && (Plain(name) ==>
            var v := ReadValue(literal + (",\n" + more));
            ReadEntry(text) == if v.None? then None else Some((Entry(Some(name), v.value.0), v.value.1)))
      && (r.Some? && r.value.0 != [] && r.value.0[0].key == Some(name) ==> Plain(name))
      && (r.Some? ==> ReadEntry(text).Some? && r.value.0 != [] && r.value.0[0] == ReadEntry(text).value.0)
  {
    hide ReadNat, Plain, Skip;
    var after := ",\n" + more;
    var text, rest := "'" + name + "' => " + literal + ",\n" + more, " => " + literal + after;
    assert text == "'" + name + "' => " + literal + after && text[1..] == name + "'" + rest;
    if Plain(name) {
      ReadPlain(name, rest);
      KeyedEntry(name, name, literal, after);
    }
    var r := ReadEntries(text);
    if r.Some? && r.value.0 != [] && r.value.0[0].key == Some(name) {
      assert ReadEntry(text).Some?;
      assert ReadValue(text).Some?;
      assert text[0] == '\'' && ReadString(text[1..]).Some?;
      OnlyPlain(name, rest);
    }
  }

  lemma SkipFour(s: string)
    ensures Skip("    " + s) == Skip(s)
  {
    hide *;
    assert "    " + s == " " + ("   " + s) && "   " + s == " " + ("  " + s) && "  " + s == " " + (" " + s);
    SkipSpace(s);
    SkipSpace(" " + s);
    SkipSpace("  " + s);
    SkipSpace("   " + s);
  }

  lemma SkipIndent(s: string)
    ensures Skip("    " + s) == Skip(s) && Skip("        " + s) == Skip(s) && Skip("\n" + s) == Skip(s)
  {
    assert ("\n" + s)[1..] == s;
    hide Skip;
    SkipFour(s);
    SkipFour("    " + s);
    assert "        " + s == "    " + ("    " + s);
  }

  /** The entry and what follows it: reads are right up to here, and go on behind the comma. */
  lemma RawStep(name: string, literal: string, v: Php, more: string)
    requires literal != "" && !White(literal[0]) && Plain(name)
    requires ReadValue(literal + (",\n" + more)) == Some((v, ",\n" + more))
    ensures var rest := ReadEntries(Skip(more));
      ReadEntries("'" + name + "' => " + literal + ",\n" + more)
        == if rest.None? then None else Some(([Entry(Some(name), v)] + rest.value.0, rest.value.1))
  {
    hide *;
    var after := ",\n" + more;
    var text := "'" + name + "' => " + literal + ",\n" + more;
    assert text[0] == '\'' && after[0] == ',';
    RawEntry(name, literal, more);
    assert literal + after == literal + (",\n" + more);
    EntryThen(text, Entry(Some(name), v), after);
    assert after[1..] == "\n" + more;
    SkipIndent(more);
  }

  /** The keys of a section read back as they are if and only if their names are plain. */
  lemma {:induction false} ReadKeys(entries: seq<Named>, rest: string)
    ensures var r := ReadEntries(Skip(KeyLines(entries) + ("    )" + rest)));
      if PlainNames(entries) then r == Some((Pairs(entries), rest)) else r.None? || r.value.0 != Pairs(entries)
    decreases entries
  {
    hide ReadNat, ReadString, ReadValue, ReadEntry, ReadEntries, Plain, Skip, Literal, Meaning;
    if entries == [] {
      assert KeyLines(entries) + ("    )" + rest) == "    " + (")" + rest);
      SkipIndent(")" + rest);
      Closing(rest);
    } else {
      var Named(name, value) := entries[0];
      var more := KeyLines(entries[1..]) + ("    )" + rest);
      var text := "'" + name + "' => " + Literal(value) + ",\n" + more;
      assert KeyLines(entries) + ("    )" + rest) == "        " + text;
      SkipIndent(text);
      SkipQuote(name, Literal(value), more);
      LiteralBegins(value);
      ReadLiteral(value, ",\n" + more);
      RawEntry(name, Literal(value), more);
      ReadKeys(entries[1..], rest);
      PlainFirst(entries);
      if Plain(name) { RawStep(name, Literal(value), Meaning(value), more); }
      PairsFirst(entries);
    }
  }

  lemma SkipQuote(name: string, literal: string, more: string)
    ensures var text := "'" + name + "' => " + literal + ",\n" + more; Skip(text) == text
  {
  }

  lemma PlainFirst(entries: seq<Named>)
    requires entries != []
    ensures PlainNames(entries) <==> Plain(entries[0].name) && PlainNames(entries[1..])
  {
    hide Plain;
    assert entries == [entries[0]] + entries[1..];
  }

  lemma PairsFirst(entries: seq<Named>)
    requires entries != []
    ensures Pairs(entries)[0] == Entry(Some(entries[0].name), Meaning(entries[0].value))
    ensures Pairs(entries)[1..] == Pairs(entries[1..])
  {
  }

  /** A section's value reads back if and only if the names of its keys are plain. */
  lemma ReadSection(v: Setting, after: string)
    requires Stop(after)
    ensures var r := ReadValue(SectionValue(v) + after);
      if v.Map? && !PlainNames(v.entries) then r.None? || r.value.0 != Meaning(v) else r == Some((Meaning(v), after))
    ensures SectionValue(v) != "" && !White(SectionValue(v)[0])
  {
    hide ReadNat, ReadString, ReadEntry, ReadEntries, Plain, Skip, Literal;
    LiteralBegins(v);
    if v.Map? {
      var keys := KeyLines(v.entries) + ("    )" + after);
      ReadKeys(v.entries, after);
      SkipIndent(keys);
      StartsWith("array(", "\n" + keys);
      assert SectionValue(v) + after == "array(" + ("\n" + keys);
    } else {
      ReadLiteral(v, after);
    }
  }

  lemma {:induction false} ReadSections(tree: seq<Named>, rest: string)
    ensures var r := ReadEntries(Skip(SectionLines(tree) + (")" + rest)));
      if PlainTree(tree) then r == Some((Pairs(tree), rest)) else r.None? || r.value.0 != Pairs(tree)
    decreases tree
  {
    hide ReadNat, ReadString, ReadValue, ReadEntry, ReadEntries, Plain, Skip, SectionValue, Meaning, PlainNames;
    if tree == [] {
      NoNames();
      assert SectionLines(tree) + (")" + rest) == ")" + rest;
      Closing(rest);
    } else {
      var Named(name, value) := tree[0];
      var literal := SectionValue(value);
      var more := SectionLines(tree[1..]) + (")" + rest);
      var text := "'" + name + "' => " + literal + ",\n" + more;
      assert SectionLines(tree) + (")" + rest) == "    " + text;
      SkipIndent(text);
      SkipQuote(name, literal, more);
      ReadSection(value, ",\n" + more);
      RawEntry(name, literal, more);
      ReadSections(tree[1..], rest);
      PlainTreeFirst(tree);
      PairsFirst(tree);
      if Plain(name) && (value.Map? ==> PlainNames(value.entries)) { RawStep(name, literal, Meaning(value), more); }
    }
  }

  lemma NoNames()
    ensures PlainTree([])
  {
  }

  lemma PlainTreeFirst(tree: seq<Named>)
    requires tree != []
    ensures PlainTree(tree) <==>
            && Plain(tree[0].name) && (tree[0].value.Map? ==> PlainNames(tree[0].value.entries))
            && PlainTree(tree[1..])
  {
    hide Plain, PlainNames;
    PlainFirst(tree);
    assert tree == [tree[0]] + tree[1..];
  }

  lemma EatWord(space: string, word: string, rest: string)
    requires space in {"", " ", "\n"} && word != "" && !White(word[0])
    ensures Eat(Some(space + (word + rest)), word) == Some(rest)
  {
    StartsWith(word, rest);
    assert (space + (word + rest))[|space|..] == word + rest;
    assert Skip(word + rest) == word + rest;
    if space == "" { assert space + (word + rest) == word + rest; }
  }

  /** config.php reads back as the tree, for every tree, if and only if no section and no first-level key holds a
      quote, a backslash before another, or a backslash at its end. Deeper keys may hold anything. */
  lemma ReadsBack(tree: seq<Named>)
    ensures ReadConfig(ConfigText(tree)) == Some(Pairs(tree)) <==> PlainTree(tree)
  {
    hide ReadNat, ReadString, ReadEntry, ReadEntries, ReadValue, ReadConfig, Plain, Meaning, PlainTree, Pairs, Eat, Skip;
    var inner := SectionLines(tree) + (")" + ";\n");
    assert ConfigText(tree) == "<?php\n$config = array(\n" + inner;
    ReadsEntries(inner);
    ReadSections(tree, ";\n");
    EatEnd();
  }

  /** Reading the file is reading the entries behind its first bracket, and the end of the statement. */
  lemma ReadsEntries(inner: string)
    ensures var r := ReadEntries(Skip(inner));
      ReadConfig("<?php\n$config = array(\n" + inner) ==
        if r.None? then None else
          var end := Eat(Some(r.value.1), ";");
          if end.Some? && Skip(end.value) == "" then Some(r.value.0) else None
  {
    hide ReadNat, ReadString, ReadEntry, ReadEntries, ReadValue, Eat, Skip;
    var body := "\n" + inner;
    var value := " " + ("array(" + body);
    var config := " " + ("=" + value);
    var file := "\n" + ("$config" + config);
    assert "<?php\n$config = array(\n" + inner == "" + ("<?php" + file);
    EatWord("", "<?php", file);
    EatWord("\n", "$config", config);
    EatWord(" ", "=", value);
    SkipSpace("array(" + body);
    SkipArray(body);
    SkipIndent(inner);
    ReadBracket(body);
  }

  lemma ReadBracket(body: string)
    ensures var r := ReadEntries(Skip(body));
      ReadValue("array(" + body) == if r.None? then None else Some((PArray(r.value.0), r.value.1))
  {
    hide ReadNat, ReadString, ReadEntry, ReadEntries, Skip;
    StartsWith("array(", body);
  }

  /** A section whose name ends with a backslash, and one whose name holds a quote: neither file reads back. */
  lemma NamesThatDoNot(value: Setting)
    ensures var a, b := [Named("Security\\", value)], [Named("it's", value)];
      ReadConfig(ConfigText(a)) != Some(Pairs(a)) && ReadConfig(ConfigText(b)) != Some(Pairs(b))
  {
    hide ReadConfig, ConfigText, Pairs, Plain, PlainTree;
    var a, b := [Named("Security\\", value)], [Named("it's", value)];
    ReadsBack(a);
    ReadsBack(b);
    NamesArePlain(a);
    NamesArePlain(b);
    EndsWithSlash("Security");
    HoldsQuote("it", "s");
    assert "Security" + "\\" == a[0].name && "it" + "'" + "s" == b[0].name;
    assert !PlainTree(a) && !PlainTree(b);
  }

  lemma NamesArePlain(tree: seq<Named>)
    ensures PlainTree(tree) ==> forall i :: 0 <= i < |tree| ==> Plain(tree[i].name)
  {
    hide Plain;
    if PlainTree(tree) {
      forall i | 0 <= i < |tree| ensures Plain(tree[i].name) { assert tree[i] in tree; }
    }
  }

  lemma {:induction false} EndsWithSlash(s: string)
    ensures !Plain(s + "\\")
    decreases s
  {
    if s != "" {
      assert (s + "\\")[1..] == s[1..] + "\\";
      EndsWithSlash(s[1..]);
    }
  }

  lemma {:induction false} HoldsQuote(s: string, t: string)
    ensures !Plain(s + "'" + t)
    decreases s
  {
    if s != "" {
      assert (s + "'" + t)[1..] == s[1..] + "'" + t;
      HoldsQuote(s[1..], t);
    }
  }

  lemma SkipArray(body: string)
    ensures Skip("array(" + body) == "array(" + body
  {
  }

  lemma EatEnd()
    ensures Eat(Some(";\n"), ";") == Some("\n") && Skip("\n") == ""
  {
    EatWord("", ";", "\n");
    assert "" + (";" + "\n") == ";\n";
    assert "\n"[1..] == "";
  }

  // ---- The printer's loops -------------------------------------------------------------------

  function Joined(lines: seq<string>): string {
    if lines == [] then "" else Joined(lines[..|lines| - 1]) + lines[|lines| - 1] + "\n"
  }

  lemma JoinedMore(lines: seq<string>, line: string)
    ensures Joined(lines + [line]) == Joined(lines) + line + "\n"
  {
    assert (lines + [line])[..|lines|] == lines;
  }

  lemma {:induction false} KeyLinesMore(entries: seq<Named>, e: Named)
    ensures KeyLines(entries + [e]) == KeyLines(entries) + ("        '" + e.name + "' => " + Literal(e.value) + ",\n")
    decreases entries
  {
    if entries == [] {
      assert entries + [e] == [e] && KeyLines([]) == "";
    } else {
      assert (entries + [e])[1..] == entries[1..] + [e];
      KeyLinesMore(entries[1..], e);
    }
  }

  lemma {:induction false} SectionLinesMore(tree: seq<Named>, e: Named)
    ensures SectionLines(tree + [e]) == SectionLines(tree) + ("    '" + e.name + "' => " + SectionValue(e.value) + ",\n")
    decreases tree
  {
    if tree == [] {
      assert tree + [e] == [e] && SectionLines([]) == "";
    } else {
      assert (tree + [e])[1..] == tree[1..] + [e];
      SectionLinesMore(tree[1..], e);
    }
  }

  lemma FirstLines()
    ensures Joined(["<?php", "$config = array("]) == "<?php\n$config = array(\n" && SectionLines([]) == ""
  {
    JoinedMore([], "<?php");
    JoinedMore(["<?php"], "$config = array(");
    assert [] + ["<?php"] == ["<?php"] && ["<?php"] + ["$config = array("] == ["<?php", "$config = array("];
  }

  /** Prints the file line by line. */
  method RenderConfig(tree: seq<Named>) returns (text: string)
    ensures text == ConfigText(tree)
  {
    hide Literal, KeyLines, SectionLines, Joined, SectionValue, ConfigText;
    var lines := ["<?php", "$config = array("];
    ghost var head := Joined(lines);
    FirstLines();
    for i := 0 to |tree|
      invariant Joined(lines) == head + SectionLines(tree[..i])
    {
      SectionLinesMore(tree[..i], tree[i]);
      assert tree[..i + 1] == tree[..i] + [tree[i]];
      lines := RenderEntry(lines, tree[i]);
    }
    assert tree[..|tree|] == tree;
    text := Finished(lines, tree);
  }

  method Finished(lines: seq<string>, tree: seq<Named>) returns (text: string)
    requires Joined(lines) == Joined(["<?php", "$config = array("]) + SectionLines(tree)
    ensures text == ConfigText(tree)
  {
    hide Literal, KeyLines, SectionLines, Joined, SectionValue;
    FirstLines();
    JoinedMore(lines, ");");
    text := Joined(lines + [");"]);
    assert text == "<?php\n$config = array(\n" + SectionLines(tree) + (");" + "\n");
  }

  method RenderEntry(before: seq<string>, e: Named) returns (lines: seq<string>)
    ensures Joined(lines) == Joined(before) + ("    '" + e.name + "' => " + SectionValue(e.value) + ",\n")
  {
    hide Literal, KeyLines, SectionLines, Joined;
    if e.value.Map? {
      lines := RenderSection(before, e.name, e.value.entries);
    } else {
      var line := "    '" + e.name + "' => " + Literal(e.value) + ",";
      JoinedMore(before, line);
      lines := before + [line];
    }
  }

  lemma NoKeys()
    ensures KeyLines([]) == ""
  {
  }

  method RenderSection(before: seq<string>, name: string, entries: seq<Named>) returns (lines: seq<string>)
    ensures Joined(lines) == Joined(before) + "    '" + name + "' => array(\n" + KeyLines(entries) + "    ),\n"
  {
    hide Literal, Joined, KeyLines;
    JoinedMore(before, "    '" + name + "' => array(");
    lines := before + ["    '" + name + "' => array("];
    ghost var head := Joined(lines);
    NoKeys();
    for i := 0 to |entries|
      invariant Joined(lines) == head + KeyLines(entries[..i])
    {
      KeyLinesMore(entries[..i], entries[i]);
      assert entries[..i + 1] == entries[..i] + [entries[i]];
      var line := "        '" + entries[i].name + "' => " + Literal(entries[i].value) + ",";
      JoinedMore(lines, line);
      assert line + "\n" == "        '" + entries[i].name + "' => " + Literal(entries[i].value) + ",\n";
      lines := lines + [line];
    }
    assert entries[..|entries|] == entries;
    JoinedMore(lines, "    ),");
    lines := lines + ["    ),"];
  }
}
