/** The values a config file and MISP's answers hold, and how org-sync compares them. */
module Values {

  datatype Option<+T> = None | Some(value: T)

  /** A scalar of the YAML file or of MISP's JSON.
      `Rules` stands for the JSON text of a server's pull or push rules, `Lines` for the entries
      of a warninglist and `Token` for a value drawn at random (by the sync or by MISP). */
  datatype Value =
    | Null
    | Bool(b: bool)
    | Int(n: int)
    | Str(s: string)
    | Rules(pull: bool, wanted: seq<Value>, unwanted: seq<Value>)
    | Lines(lines: seq<string>)
    | Token(nonce: nat)
  {
    predicate Scalar() { Null? || Bool? || Int? || Str? }

    /** Python's truth value. */
    predicate Truthy() {
      match this
      case Null => false
      case Bool(b) => b
      case Int(n) => n != 0
      case Str(s) => s != ""
      case Lines(lines) => lines != []
      case _ => true
    }
  }

  function Digits(n: nat): string {
    if n < 10 then ["0123456789"[n]] else Digits(n / 10) + ["0123456789"[n % 10]]
  }

  /** Python's `str(value)` for a scalar. */
  function Show(v: Value): string
    requires v.Scalar()
  {
    match v
    case Null => "None"
    case Bool(b) => if b then "True" else "False"
    case Int(n) => if n < 0 then "-" + Digits(-n) else Digits(n)
    case Str(s) => s
  }

  function LowerChar(c: char): char {
    if 'A' <= c <= 'Z' then (c as int + 32) as char else c
  }

  function Lower(s: string): (r: string)
    ensures |r| == |s|
  {
    seq(|s|, i requires 0 <= i < |s| => LowerChar(s[i]))
  }

  /** MISP stores a flag as "1" or "0", as "true" or "false", or as a flag. */
  predicate ValuesEqual(desired: Value, current: Value) {
    if desired.Bool? then
      current.Scalar() &&
      var text := Lower(Show(current));
      text == (if desired.b then "true" else "false") || text == (if desired.b then "1" else "0")
    else if desired.Scalar() && current.Scalar() then
      Show(desired) == Show(current)
    else
      desired == current
  }

  /** Every spelling in which MISP stores a flag equals that flag, and no spelling of the other one does. */
  lemma FlagSpellings(desired: bool, b: bool)
    ensures var digit, word, text :=
        if b then "1" else "0", if b then "true" else "false", if b then "True" else "False";
      forall v :: v in {Bool(b), Int(if b then 1 else 0), Str(digit), Str(word), Str(text)} ==>
        (ValuesEqual(Bool(desired), v) <==> desired == b)
  {
    assert Lower("True") == "true" && Lower("False") == "false";
    assert Lower("true") == "true" && Lower("false") == "false" && Lower("1") == "1" && Lower("0") == "0";
    assert Show(Int(1)) == "1" && Show(Int(0)) == "0";
    assert "true" != "false" && "1" != "0" && |"true"| != |"1"| && |"false"| != |"0"|;
  }

  /** A stored value reads back as the value that was posted. */
  lemma StoredValueIsEqual(v: Value)
    ensures ValuesEqual(v, v)
  {
    if v.Bool? {
      assert Lower("True") == "true";
      assert Lower("False") == "false";
    }
  }

  /** The ASCII characters `str.strip()` takes as whitespace. */
  predicate IsSpace(c: char) {
    c == ' ' || '\t' <= c <= '\r' || '\U{1c}' <= c <= '\U{1f}'
  }

  function TrimLeft(s: string): string {
    if s != "" && IsSpace(s[0]) then TrimLeft(s[1..]) else s
  }

  function Strip(s: string): string {
    if s != "" && IsSpace(s[|s| - 1]) then Strip(s[..|s| - 1]) else TrimLeft(s)
  }

  predicate IsHex(c: char) { '0' <= c <= '9' || 'a' <= c <= 'f' }

  /** A lower-case UUID of version 4. */
  predicate IsUuid4(s: string) {
    && |s| == 36
    && (forall i :: 0 <= i < 36 ==> if i in {8, 13, 18, 23} then s[i] == '-' else IsHex(s[i]))
    && s[14] == '4'
    && s[19] in {'8', '9', 'a', 'b'}
  }

  function TrimSlashes(url: string): string {
    if url != "" && url[|url| - 1] == '/' then TrimSlashes(url[..|url| - 1]) else url
  }
}
