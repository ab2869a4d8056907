/** The copy of one table: rows fetched in batches, coerced, and inserted in statements of limited size. */
module TableCopy {

  const Limit: nat := 32767
  const Nul: char := '\0'

  datatype Cell = Null | Truth(b: bool) | Number(n: int) | Text(s: string) | Bytes(b8: string)

  type Row = seq<Cell>

  /** The conversion that a column's PostgreSQL type asks for. */
  datatype Coercer = Pass | ToBool | ToTimestamp | ToBytes | ToText

  function CoercerOf(dataType: string): Coercer {
    if dataType == "boolean" then ToBool
    else if dataType in {"timestamp without time zone", "timestamp with time zone", "date"} then ToTimestamp
    else if dataType == "bytea" then ToBytes
    else if dataType in {"text", "character varying", "character"} then ToText
    else Pass
  }

  function Coercers(types: seq<string>): (r: seq<Coercer>)
    ensures |r| == |types|
  {
    seq(|types|, i requires 0 <= i < |types| => CoercerOf(types[i]))
  }

  const ZeroDate := "0000-00-00"

  function WithoutNul(s: string): (r: string)
    ensures Nul !in r
    ensures Nul !in s ==> r == s
  {
    if s == "" then "" else WithoutNul(s[..|s| - 1]) + if s[|s| - 1] == Nul then "" else [s[|s| - 1]]
  }

  /** The value that a column takes for a source value. */
  function Coerced(c: Coercer, v: Cell): Cell {
    match c
    case Pass => v
    case ToBytes => v
    case ToBool => (
      match v
      case Null => Null
      case Bytes(s) => Truth(s != "" && s != "0")
      case Text(s) => Truth(s != "" && s != "0")
      case Truth(b) => v
      case Number(n) => Truth(n != 0))
    case ToTimestamp => if v.Text? && ZeroDate <= v.s then Null else v
    case ToText => if v.Text? then Text(WithoutNul(v.s)) else v
  }

  predicate HeldNul(c: Coercer, v: Cell) { c.ToText? && v.Text? && Nul in v.s }

  function CoercedRow(coercers: seq<Coercer>, row: Row): (r: Row)
    requires |row| == |coercers|
    ensures |r| == |row|
  {
    seq(|row|, i requires 0 <= i < |row| => Coerced(coercers[i], row[i]))
  }

  function CoercedRows(coercers: seq<Coercer>, rows: seq<Row>): seq<Row>
    requires forall row <- rows :: |row| == |coercers|
  {
    seq(|rows|, i requires 0 <= i < |rows| => CoercedRow(coercers, rows[i]))
  }

  /** How many text values of a row held a NUL byte, in its first n columns. */
  function NulsIn(coercers: seq<Coercer>, row: Row, n: nat): nat
    requires n <= |row| == |coercers|
  {
    if n == 0 then 0 else NulsIn(coercers, row, n - 1) + if HeldNul(coercers[n - 1], row[n - 1]) then 1 else 0
  }

  function Nuls(coercers: seq<Coercer>, rows: seq<Row>): nat
    requires forall row <- rows :: |row| == |coercers|
  {
    if rows == [] then 0 else Nuls(coercers, rows[..|rows| - 1]) + NulsIn(coercers, rows[|rows| - 1], |coercers|)
  }

  lemma {:induction false} NulsSum(coercers: seq<Coercer>, a: seq<Row>, b: seq<Row>)
    requires forall row <- a + b :: |row| == |coercers|
    ensures (forall row <- a :: row in a + b) && forall row <- b :: row in a + b
    ensures Nuls(coercers, a + b) == Nuls(coercers, a) + Nuls(coercers, b)
    decreases b
  {
    assert forall row <- a :: row in a + b;
    assert forall row <- b :: row in a + b;
    if b == [] {
      assert a + b == a;
    } else {
      assert (a + b)[..|a + b| - 1] == a + b[..|b| - 1];
      NulsSum(coercers, a, b[..|b| - 1]);
    }
  }

  // ---- What a column takes -----------------------------------------------------------------

  /** t is the characters of s at these positions, in order: exactly those that are no NUL. */
  ghost predicate Keeps(s: string, t: string, at: seq<nat>) {
    && |at| == |t|
    && (forall i, j :: 0 <= i < j < |at| ==> at[i] < at[j])
    && (forall i :: 0 <= i < |at| ==> at[i] < |s| && t[i] == s[at[i]])
    && forall k :: 0 <= k < |s| ==> (k in at <==> s[k] != '\0')
  }

  /** r is what a column of this PostgreSQL type takes for v: a flag, no zero date, no NUL in a text; any other value
      as it is. */
  ghost predicate Taken(dataType: string, v: Cell, r: Cell) {
    if dataType == "boolean" then
      match v
      case Number(n) => r == Truth(n != 0)
      case Text(s) => r == Truth(s !in {"", "0"})
      case Bytes(s) => r == Truth(s !in {"", "0"})
      case _ => r == v
    else if dataType in {"timestamp without time zone", "timestamp with time zone", "date"} then
      r == if v.Text? && |v.s| >= 10 && v.s[..10] == "0000-00-00" then Null else v
    else if dataType in {"text", "character varying", "character"} && v.Text? then
      r.Text? && exists at :: Keeps(v.s, r.s, at)
    else
      r == v
  }

  lemma {:induction false} WithoutNulMeans(s: string) returns (at: seq<nat>)
    ensures Keeps(s, WithoutNul(s), at)
    decreases s
  {
    hide Keeps, WithoutNul;
    if s == "" {
      at := [];
      KeepsNothing();
    } else {
      var init, c := s[..|s| - 1], s[|s| - 1];
      at := WithoutNulMeans(init);
      KeepsMore(init, WithoutNul(init), at, c);
      LastChar(init, c);
      assert init + [c] == s;
      at := if c == Nul then at else at + [|init|];
    }
  }

  lemma LastChar(s: string, c: char)
    ensures WithoutNul("") == ""
    ensures WithoutNul(s + [c]) == if c == Nul then WithoutNul(s) else WithoutNul(s) + [c]
  {
    assert (s + [c])[..|s|] == s;
  }

  lemma KeepsNothing()
    ensures Keeps("", WithoutNul(""), [])
  {
  }

  lemma KeepsMore(s: string, t: string, at: seq<nat>, c: char)
    requires Keeps(s, t, at)
    ensures if c == '\0' then Keeps(s + [c], t, at) else Keeps(s + [c], t + [c], at + [|s|])
  {
    forall k | 0 <= k < |s| ensures (s + [c])[k] == s[k] {}
    assert (s + [c])[|s|] == c && |s| !in at;
  }

  lemma CoercedMeans(dataType: string, v: Cell)
    ensures Taken(dataType, v, Coerced(CoercerOf(dataType), v))
  {
    hide Keeps;
    if v.Text? { var at := WithoutNulMeans(v.s); }
    assert v.Text? ==> (ZeroDate <= v.s <==> |v.s| >= 10 && v.s[..10] == "0000-00-00");
  }

  lemma AllTaken(types: seq<string>, rows: seq<Row>)
    requires forall row <- rows :: |row| == |types|
    ensures forall i, j :: 0 <= i < |rows| && 0 <= j < |types| ==>
              Taken(types[j], rows[i][j], CoercedRows(Coercers(types), rows)[i][j])
  {
    hide Taken, Coerced, CoercerOf;
    forall i, j | 0 <= i < |rows| && 0 <= j < |types|
      ensures Taken(types[j], rows[i][j], CoercedRows(Coercers(types), rows)[i][j])
    {
      CoercedMeans(types[j], rows[i][j]);
    }
  }

  /** The text cells, by row and column, that hold a NUL. */
  ghost function NulCells(types: seq<string>, rows: seq<Row>): set<(int, int)>
    requires forall row <- rows :: |row| == |types|
  {
    set i, j | 0 <= i < |rows| && 0 <= j < |types| && NulAt(types[j], rows[i][j]) :: (i, j)
  }

  predicate NulAt(dataType: string, v: Cell) {
    dataType in {"text", "character varying", "character"} && v.Text? && '\0' in v.s
  }

  lemma NulMeans(dataType: string, v: Cell)
    ensures HeldNul(CoercerOf(dataType), v) <==> NulAt(dataType, v)
  {
  }

  lemma OneMoreCell(before: set<(int, int)>, cell: (int, int))
    requires cell !in before
    ensures |before + {cell}| == |before| + 1 && before + {} == before
  {
  }

  lemma {:induction false} NulsInCount(types: seq<string>, row: Row, i: int, n: nat)
    requires n <= |row| == |types|
    ensures NulsIn(Coercers(types), row, n) == |set j | 0 <= j < n && NulAt(types[j], row[j]) :: (i, j)|
    decreases n
  {
    hide NulAt, HeldNul, CoercerOf;
    var cells := set j | 0 <= j < n && NulAt(types[j], row[j]) :: (i, j);
    if n == 0 {
      assert cells == {};
    } else {
      var before := set j | 0 <= j < n - 1 && NulAt(types[j], row[j]) :: (i, j);
      NulsInCount(types, row, i, n - 1);
      NulMeans(types[n - 1], row[n - 1]);
      OneMoreCell(before, (i, n - 1));
      if NulAt(types[n - 1], row[n - 1]) { assert cells == before + {(i, n - 1)}; } else { assert cells == before; }
    }
  }

  /** nul_values is the number of text cells that hold a NUL. */
  lemma {:induction false} NulsCount(types: seq<string>, rows: seq<Row>)
    requires forall row <- rows :: |row| == |types|
    ensures Nuls(Coercers(types), rows) == |NulCells(types, rows)|
    decreases rows
  {
    if rows == [] {
      assert NulCells(types, rows) == {};
    } else {
      hide NulAt, NulsIn, CoercerOf;
      var init, last, i := rows[..|rows| - 1], rows[|rows| - 1], |rows| - 1;
      NulsCount(types, init);
      NulsInCount(types, last, i, |types|);
      LastRowCells(types, rows);
    }
  }

  lemma LastRowCells(types: seq<string>, rows: seq<Row>)
    requires rows != [] && forall row <- rows :: |row| == |types|
    ensures var init, last, i := rows[..|rows| - 1], rows[|rows| - 1], |rows| - 1;
      var more := set j | 0 <= j < |types| && NulAt(types[j], last[j]) :: (i, j);
      |NulCells(types, rows)| == |NulCells(types, init)| + |more|
  {
    hide NulAt;
    var init, last, i := rows[..|rows| - 1], rows[|rows| - 1], |rows| - 1;
    var more := set j | 0 <= j < |types| && NulAt(types[j], last[j]) :: (i, j);
    assert NulCells(types, rows) == NulCells(types, init) + more;
    assert NulCells(types, init) !! more;
  }

  // ---- Statements --------------------------------------------------------------------------

  /** The values of rows one after the other. */
  function Flat(rows: seq<Row>): seq<Cell> {
    if rows == [] then [] else Flat(rows[..|rows| - 1]) + rows[|rows| - 1]
  }

  /** The rows that a statement with this many row marks of this width inserts. */
  function Cut(values: seq<Cell>, width: nat, marks: nat): seq<Row>
    requires |values| == width * marks
  {
    if marks == 0 then [] else
      var head := width * (marks - 1);
      assert head + width == width * marks;
      Cut(values[..head], width, marks - 1) + [values[head..]]
  }

  lemma {:induction false} FlatLength(rows: seq<Row>, width: nat)
    requires forall row <- rows :: |row| == width
    ensures |Flat(rows)| == width * |rows|
    decreases rows
  {
    if rows != [] {
      var init, last := rows[..|rows| - 1], rows[|rows| - 1];
      FlatLength(init, width);
      assert last in rows && Flat(rows) == Flat(init) + last;
      OneMoreRow(width, |rows|);
    }
  }

  lemma OneMoreRow(width: nat, n: nat)
    requires n > 0
    ensures width * n == width * (n - 1) + width
  {
  }

  /** A statement inserts the rows whose values it was given. */
  lemma {:induction false} CutFlat(rows: seq<Row>, width: nat)
    requires forall row <- rows :: |row| == width
    ensures |Flat(rows)| == width * |rows| && Cut(Flat(rows), width, |rows|) == rows
    decreases rows
  {
    FlatLength(rows, width);
    if rows != [] {
      var init := rows[..|rows| - 1];
      FlatLength(init, width);
      CutFlat(init, width);
      var head := width * (|rows| - 1);
      assert Flat(rows)[..head] == Flat(init) && Flat(rows)[head..] == rows[|rows| - 1];
      assert init + [rows[|rows| - 1]] == rows;
    }
  }

  /** The target's table; `sizes` holds the number of parameters of each statement that was sent. */
  class Target {
    var rows: seq<Row>
    var sizes: seq<nat>

    ghost predicate Accepted()
      reads this
    {
      forall n <- sizes :: 0 < n <= 32767
    }

    method Execute(width: nat, marks: nat, values: seq<Cell>)
      requires |values| == width * marks
      modifies this
      ensures rows == old(rows) + Cut(values, width, marks) && sizes == old(sizes) + [|values|]
    {
      rows, sizes := rows + Cut(values, width, marks), sizes + [|values|];
    }
  }

  class Copier {
    var nulValues: nat

    constructor ()
      ensures nulValues == 0
    {
      nulValues := 0;
    }

    method CoerceCell(c: Coercer, v: Cell) returns (r: Cell)
      modifies this
      ensures r == Coerced(c, v) && nulValues == old(nulValues) + if HeldNul(c, v) then 1 else 0
    {
      if c.ToText? && v.Text? {
        if Nul in v.s { nulValues := nulValues + 1; }
        r := Text(WithoutNul(v.s));
      } else {
        r := Coerced(c, v);
      }
    }

    method CoerceRow(coercers: seq<Coercer>, row: Row) returns (r: Row)
      requires |row| == |coercers|
      modifies this
      ensures r == CoercedRow(coercers, row) && nulValues == old(nulValues) + NulsIn(coercers, row, |row|)
    {
      r := [];
      for i := 0 to |row|
        invariant r == CoercedRow(coercers[..i], row[..i])
        invariant nulValues == old(nulValues) + NulsIn(coercers, row, i)
      {
        var v := CoerceCell(coercers[i], row[i]);
        r := r + [v];
      }
      assert coercers[..|row|] == coercers && row[..|row|] == row;
    }

    method CoerceRows(coercers: seq<Coercer>, rows: seq<Row>) returns (r: seq<Row>)
      requires forall row <- rows :: |row| == |coercers|
      modifies this
      ensures r == CoercedRows(coercers, rows) && nulValues == old(nulValues) + Nuls(coercers, rows)
    {
      r := [];
      for i := 0 to |rows|
        invariant |r| == i && forall k :: 0 <= k < i ==> r[k] == CoercedRow(coercers, rows[k])
        invariant nulValues == old(nulValues) + Nuls(coercers, rows[..i])
      {
        assert rows[..i + 1][..i] == rows[..i];
        var row := CoerceRow(coercers, rows[i]);
        r := r + [row];
      }
      assert rows[..|rows|] == rows;
    }

    /** Inserts rows as multi-row statements within the limit of parameters. */
    method InsertRows(target: Target, columns: nat, rows: seq<Row>)
      requires 0 < columns <= Limit && forall row <- rows :: |row| == columns
      requires target.Accepted()
      modifies target
      ensures target.rows == old(target.rows) + rows && target.Accepted()
      // No row more would fit into any statement but the last
      ensures old(target.sizes) <= target.sizes
      ensures forall i :: |old(target.sizes)| <= i < |target.sizes| - 1 ==> target.sizes[i] + columns > 32767
    {
      hide Cut, Flat;
      var perStatement := if Limit / columns > 1 then Limit / columns else 1;
      assert perStatement * columns <= Limit;
      var start := 0;
      while start < |rows|
        invariant 0 <= start <= |rows|
        invariant target.rows == old(target.rows) + rows[..start] && target.Accepted()
        invariant old(target.sizes) <= target.sizes
        invariant forall i :: |old(target.sizes)| <= i < |target.sizes| - (if start < |rows| then 0 else 1) ==>
                    target.sizes[i] + columns > 32767
        decreases |rows| - start
      {
        var end := if start + perStatement < |rows| then start + perStatement else |rows|;
        var chunk := rows[start..end];
        CutFlat(chunk, columns);
        Fits(columns, |chunk|, perStatement);
        Full(columns, |chunk|, perStatement);
        target.Execute(columns, |chunk|, Flat(chunk));
        assert rows[..end] == rows[..start] + chunk;
        start := end;
      }
      assert rows[..|rows|] == rows;
    }

    /** Copies the rows that the source yields, a batch at a time, each value as the type of its column asks; returns
        the number of rows. */
    method CopyTable(source: seq<Row>, target: Target, types: seq<string>, batch: nat) returns (total: nat)
      requires 0 < |types| <= Limit && 0 < batch
      requires (forall row <- source :: |row| == |types|) && target.Accepted()
      modifies this, target
      ensures target.rows == old(target.rows) + CoercedRows(Coercers(types), source)
      ensures forall i, j :: 0 <= i < |source| && 0 <= j < |types| ==>
                Taken(types[j], source[i][j], CoercedRows(Coercers(types), source)[i][j])
      ensures target.Accepted() && total == |source| && nulValues == |NulCells(types, source)|
    {
      var columns, coercers := |types|, Coercers(types);
      hide CoercedRow, Nuls, NulCells, Taken;
      AllTaken(types, source);
      NulsCount(types, source);
      nulValues, total := 0, 0;
      NoRows(coercers);
      while total < |source|
        invariant 0 <= total <= |source| && target.Accepted()
        invariant target.rows == old(target.rows) + CoercedRows(coercers, source[..total])
        invariant nulValues == Nuls(coercers, source[..total])
        decreases |source| - total
      {
        var end := if total + batch < |source| then total + batch else |source|;
        var rows := source[total..end];
        Batch(coercers, source, total, end);
        var coerced := CoerceRows(coercers, rows);
        InsertRows(target, columns, coerced);
        total := end;
      }
      assert source[..|source|] == source;
    }
  }

  lemma NoRows(coercers: seq<Coercer>)
    ensures Nuls(coercers, []) == 0
  {
  }

  /** One more batch of the source. */
  lemma Batch(coercers: seq<Coercer>, source: seq<Row>, from: nat, to: nat)
    requires from <= to <= |source| && forall row <- source :: |row| == |coercers|
    ensures forall row <- source[from..to] :: |row| == |coercers|
    ensures CoercedRows(coercers, source[..to]) == CoercedRows(coercers, source[..from]) + CoercedRows(coercers, source[from..to])
    ensures Nuls(coercers, source[..to]) == Nuls(coercers, source[..from]) + Nuls(coercers, source[from..to])
    ensures forall row <- CoercedRows(coercers, source[from..to]) :: |row| == |coercers|
  {
    hide CoercedRow, Nuls, NulsIn;
    assert source[..to] == source[..from] + source[from..to];
    NulsSum(coercers, source[..from], source[from..to]);
    CoercedSum(coercers, source[..from], source[from..to]);
  }

  lemma CoercedSum(coercers: seq<Coercer>, a: seq<Row>, b: seq<Row>)
    requires (forall row <- a :: |row| == |coercers|) && forall row <- b :: |row| == |coercers|
    ensures CoercedRows(coercers, a + b) == CoercedRows(coercers, a) + CoercedRows(coercers, b)
    ensures forall row <- CoercedRows(coercers, b) :: |row| == |coercers|
  {
    hide CoercedRow;
  }

  lemma Full(columns: nat, rows: nat, perStatement: nat)
    requires 0 < columns <= Limit && perStatement == if Limit / columns > 1 then Limit / columns else 1
    ensures rows == perStatement ==> columns * rows + columns > Limit
  {
    assert Limit / columns >= 1;
    if rows == perStatement { assert columns * (Limit / columns) + Limit % columns == Limit; }
  }

  lemma Fits(columns: nat, rows: nat, perStatement: nat)
    requires 0 < rows <= perStatement && perStatement * columns <= Limit && 0 < columns
    ensures 0 < columns * rows <= Limit
  {
    assert columns * rows <= columns * perStatement;
  }
}
