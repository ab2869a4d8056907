/** What the comparisons and texts of `Values` mean, said of characters and digits. */
module ValueMeanings {
  import opened Values

  // ---- Letter case -------------------------------------------------------------------------

  /** The text is the other one, in any letter case; `lower` and `upper` spell it. */
  predicate AnyCase(s: string, lower: string, upper: string)
    requires |lower| == |upper|
  {
    |s| == |lower| && forall i :: 0 <= i < |s| ==> s[i] == lower[i] || s[i] == upper[i]
  }

  lemma LowerMeans(s: string)
    ensures |Lower(s)| == |s|
    ensures forall i :: 0 <= i < |s| ==>
              Lower(s)[i] as int == s[i] as int + if 'A' <= s[i] <= 'Z' then 'a' as int - 'A' as int else 0
  {
  }

  lemma LowerIs(s: string, lower: string, upper: string)
    requires |lower| == |upper|
    requires forall i :: 0 <= i < |lower| ==> 'a' <= lower[i] <= 'z' && upper[i] as int == lower[i] as int - 32
    ensures Lower(s) == lower <==> AnyCase(s, lower, upper)
  {
    if AnyCase(s, lower, upper) {
      forall i | 0 <= i < |s| ensures Lower(s)[i] == lower[i] {}
      assert Lower(s) == lower;
    }
  }

  // ---- Numbers -----------------------------------------------------------------------------

  /** The value of decimal digits. */
  function Amount(s: string): int {
    if s == "" then 0 else 10 * Amount(s[..|s| - 1]) + (s[|s| - 1] as int - '0' as int)
  }

  predicate IsDigits(s: string) { s != "" && forall c <- s :: '0' <= c <= '9' }

  /** The decimal numeral of n: digits whose value is n, without a leading zero. */
  predicate Numeral(s: string, n: nat) { IsDigits(s) && (|s| > 1 ==> s[0] != '0') && Amount(s) == n }

  lemma {:induction false} DigitsMean(n: nat)
    ensures Numeral(Digits(n), n) && (n > 0 ==> Digits(n)[0] != '0')
    decreases n
  {
    var s := Digits(n);
    if n < 10 {
      assert s[..|s| - 1] == "" && Amount("") == 0;
    } else {
      DigitsMean(n / 10);
      assert s[..|s| - 1] == Digits(n / 10);
    }
  }

  lemma DigitChar(c: char)
    requires '0' <= c <= '9'
    ensures "0123456789"[c as int - '0' as int] == c
  {
  }

  lemma LastDigit(tens: nat, c: char)
    requires '0' <= c <= '9'
    ensures var n := 10 * tens + (c as int - '0' as int);
      Digits(n) == (if tens == 0 then "" else Digits(tens)) + [c]
  {
    var n := 10 * tens + (c as int - '0' as int);
    DigitChar(c);
    assert n / 10 == tens && n % 10 == c as int - '0' as int;
  }

  lemma {:induction false} NumeralIsDigits(s: string, n: nat)
    requires Numeral(s, n)
    ensures s == Digits(n)
    decreases s
  {
    hide Digits;
    var init, last := s[..|s| - 1], s[|s| - 1];
    assert last in s && s == init + [last] && forall c <- init :: c in s;
    assert Amount("") == 0;
    if init != "" {
      Positive(init);
      NumeralIsDigits(init, Amount(init));
    }
    LastDigit(Amount(init), last);
  }

  lemma {:induction false} Positive(s: string)
    requires IsDigits(s) && s[0] != '0'
    ensures Amount(s) > 0
    decreases s
  {
    var init := s[..|s| - 1];
    assert s[|s| - 1] in s && Amount("") == 0;
    if init != "" {
      assert forall c <- init :: c in s;
      Positive(init);
    }
  }

  /** The text of a scalar: of a number its decimal numeral, with a sign if it is below zero. */
  predicate TextOf(v: Value, s: string) {
    match v
    case Null => s == "None"
    case Bool(b) => s == (if b then "True" else "False")
    case Int(n) => if n < 0 then s != "" && s[0] == '-' && Numeral(s[1..], -n) else Numeral(s, n)
    case Str(t) => s == t
    case _ => false
  }

  lemma ShowMeans(v: Value, s: string)
    requires v.Scalar()
    ensures Show(v) == s <==> TextOf(v, s)
  {
    hide Digits, Numeral;
    if v.Int? {
      var n := if v.n < 0 then -v.n else v.n;
      DigitsMean(n);
      if v.n >= 0 && Numeral(s, n) { NumeralIsDigits(s, n); }
      if v.n < 0 && s != "" && Numeral(s[1..], n) { NumeralIsDigits(s[1..], n); assert s == [s[0]] + s[1..]; }
      if v.n < 0 { assert ("-" + Digits(n))[1..] == Digits(n); }
    }
  }

  // ---- Comparisons -------------------------------------------------------------------------

  /** A stored value that stands for a flag: the flag, 1 or 0, "1" or "0", or the word in any letter case. */
  predicate Flag(v: Value, b: bool) {
    match v
    case Bool(flag) => flag == b
    case Int(n) => n == (if b then 1 else 0)
    case Str(s) => s == (if b then "1" else "0") || (if b then AnyCase(s, "true", "TRUE") else AnyCase(s, "false", "FALSE"))
    case _ => false
  }

  lemma FlagText(s: string, b: bool)
    ensures Lower(s) == (if b then "true" else "false")
            <==> if b then AnyCase(s, "true", "TRUE") else AnyCase(s, "false", "FALSE")
    ensures Lower(s) == (if b then "1" else "0") <==> s == (if b then "1" else "0")
  {
    var digit := if b then "1" else "0";
    if b { LowerIs(s, "true", "TRUE"); } else { LowerIs(s, "false", "FALSE"); }
    LowerMeans(s);
    if Lower(s) == digit { assert |s| == 1 && Lower(s)[0] == digit[0] && s == [s[0]]; }
    if s == digit { assert Lower(s) == digit; }
  }

  lemma NumberText(n: int, b: bool)
    ensures var s := Show(Int(n)); !(if b then AnyCase(s, "true", "TRUE") else AnyCase(s, "false", "FALSE"))
    ensures Show(Int(n)) == (if b then "1" else "0") <==> n == if b then 1 else 0
  {
    var s := Show(Int(n));
    ShowMeans(Int(n), s);
    assert s[0] == '-' || s[0] in s;
    ShowMeans(Int(n), if b then "1" else "0");
    DigitsMean(1);
    DigitsMean(0);
  }

  /** A value compares equal to a flag if and only if it stands for that flag. */
  lemma FlagMeans(b: bool, v: Value)
    ensures ValuesEqual(Bool(b), v) <==> Flag(v, b)
  {
    if v.Scalar() { FlagText(Show(v), b); }
    match v
    case Int(n) => NumberText(n, b);
    case Bool(flag) => assert Lower("True") == "true" && Lower("False") == "false"; assert |"true"| != |"false"|;
    case Null => assert Show(v) == "None" && |"None"| != |"false"|; assert "None"[0] == 'N';
    case _ =>
  }

  /** Any other two scalars compare equal if and only if they have one text. */
  lemma TextMeans(asked: Value, v: Value, s: string)
    requires !asked.Bool? && asked.Scalar() && v.Scalar() && TextOf(asked, s)
    ensures ValuesEqual(asked, v) <==> TextOf(v, s)
  {
    ShowMeans(asked, s);
    ShowMeans(v, s);
  }

  // ---- Trimming ----------------------------------------------------------------------------

  /** The ASCII white space of Python. */
  predicate White(c: char) { c in " \t\n\U{b}\U{c}\r\U{1c}\U{1d}\U{1e}\U{1f}" }

  predicate AllWhite(s: string) { forall c <- s :: White(c) }

  lemma WhiteMeans(c: char)
    ensures IsSpace(c) <==> White(c)
  {
    var s := " \t\n\U{b}\U{c}\r\U{1c}\U{1d}\U{1e}\U{1f}";
    assert s[0] == ' ' && s[1] == '\t' && s[2] == '\n' && s[3] == '\U{b}' && s[4] == '\U{c}' && s[5] == '\r';
    assert s[6] == '\U{1c}' && s[7] == '\U{1d}' && s[8] == '\U{1e}' && s[9] == '\U{1f}';
  }

  lemma {:induction false} TrimLeftMeans(s: string) returns (left: string)
    ensures s == left + TrimLeft(s) && AllWhite(left) && (TrimLeft(s) != "" ==> !White(TrimLeft(s)[0]))
    decreases s
  {
    hide White;
    left := "";
    if s != "" {
      WhiteMeans(s[0]);
      if IsSpace(s[0]) {
        left := TrimLeftMeans(s[1..]);
        left := [s[0]] + left;
        assert s == [s[0]] + s[1..];
      }
    }
  }

  /** strip takes the white space off both ends, and nothing else. */
  lemma {:induction false} StripMeans(s: string) returns (left: string, right: string)
    ensures s == left + Strip(s) + right && AllWhite(left) && AllWhite(right)
    ensures Strip(s) != "" ==> !White(Strip(s)[0]) && !White(Strip(s)[|Strip(s)| - 1])
    decreases s
  {
    hide White;
    right := "";
    if s != "" { WhiteMeans(s[|s| - 1]); }
    if s != "" && IsSpace(s[|s| - 1]) {
      left, right := StripMeans(s[..|s| - 1]);
      right := right + [s[|s| - 1]];
      assert s == s[..|s| - 1] + [s[|s| - 1]];
    } else {
      left := TrimLeftMeans(s);
      assert left + Strip(s) + right == left + Strip(s);
      if Strip(s) != "" { assert s[|s| - 1] == Strip(s)[|Strip(s)| - 1]; }
    }
  }

  /** A line strips to nothing if and only if all of it is white space. */
  lemma {:induction false} StripsToNothing(s: string)
    ensures Strip(s) == "" <==> AllWhite(s)
  {
    hide White, Strip;
    var left, right := StripMeans(s);
    var middle := Strip(s);
    if middle != "" { assert s[|left|] == middle[0] && s[|left|] in s; }
    forall c | c in s && middle == "" ensures White(c) { assert c in left || c in right; }
  }

  /** rstrip("/") takes the slashes off the end, and nothing else. */
  lemma {:induction false} TrimSlashesMeans(url: string)
    ensures var t := TrimSlashes(url);
      && t <= url && (forall c <- url[|t|..] :: c == '/')
      && (t != "" ==> t[|t| - 1] != '/')
    decreases url
  {
    if url != "" && url[|url| - 1] == '/' {
      var init := url[..|url| - 1];
      TrimSlashesMeans(init);
      assert url[|TrimSlashes(url)|..] == init[|TrimSlashes(url)|..] + ['/'];
    }
  }

  predicate AllHex(s: string) { forall c <- s :: c in "0123456789abcdef" }

  lemma HexMeans(c: char)
    ensures IsHex(c) <==> c in "0123456789abcdef"
  {
    var s := "0123456789abcdef";
    assert s[0] == '0' && s[1] == '1' && s[2] == '2' && s[3] == '3' && s[4] == '4' && s[5] == '5' && s[6] == '6' && s[7] == '7';
    assert s[8] == '8' && s[9] == '9' && s[10] == 'a' && s[11] == 'b' && s[12] == 'c' && s[13] == 'd' && s[14] == 'e';
    assert s[15] == 'f';
  }

  /** Five groups of 8, 4, 4, 4 and 12 hexadecimal digits between hyphens, the third with a 4 at its start and the
      fourth with an 8, 9, a or b. */
  lemma UuidMeans(s: string)
    ensures IsUuid4(s) <==>
      && |s| == 36 && s[8] == s[13] == s[18] == s[23] == '-'
      && AllHex(s[..8]) && AllHex(s[9..13]) && AllHex(s[14..18]) && AllHex(s[19..23]) && AllHex(s[24..])
      && s[14] == '4' && s[19] in "89ab"
  {
    if |s| == 36 {
      var v := "89ab";
      assert v[0] == '8' && v[1] == '9' && v[2] == 'a' && v[3] == 'b';
      HexParts(s);
    }
  }

  lemma HexParts(s: string)
    requires |s| == 36
    ensures AllHex(s[..8]) && AllHex(s[9..13]) && AllHex(s[14..18]) && AllHex(s[19..23]) && AllHex(s[24..])
            <==> forall i :: 0 <= i < 36 && i !in {8, 13, 18, 23} ==> IsHex(s[i])
  {
    hide IsHex;
    HexPart(s, 0, 8);
    HexPart(s, 9, 13);
    HexPart(s, 14, 18);
    HexPart(s, 19, 23);
    HexPart(s, 24, 36);
    assert s[0..8] == s[..8] && s[24..36] == s[24..];
  }

  lemma HexPart(s: string, lo: nat, hi: nat)
    requires lo <= hi <= |s|
    ensures AllHex(s[lo..hi]) <==> forall i :: lo <= i < hi ==> IsHex(s[i])
  {
    hide IsHex;
    forall i | lo <= i < hi ensures IsHex(s[i]) <==> s[i] in "0123456789abcdef" { HexMeans(s[i]); }
    forall i | lo <= i < hi ensures s[i] in s[lo..hi] { assert s[lo..hi][i - lo] == s[i]; }
  }
}
