/**
  The part of a pandas DataFrame the evaluation's preprocessing touches: an ordered
  list of named columns of cells, with column drop, rename, element-wise mapping and
  the integer cast `astype(int)`. A column name may occur more than once; every
  operation applies to each column that bears the name.
*/
module DataFrames {
  import opened Outcomes

  /** One value of a column; `Missing` is pandas' NaN. */
  datatype Cell = Text(s: string) | Int(i: int) | Float(x: real) | Bool(b: bool) | Missing
  datatype Column = Column(name: string, cells: seq<Cell>)
  datatype Frame = Frame(columns: seq<Column>)

  /** `name in df.columns`. */
  predicate HasColumn(f: Frame, name: string) {
    exists i :: 0 <= i < |f.columns| && f.columns[i].name == name
  }

  /**
    The column filter that `df.drop(name, axis=1)` applies when the frame has the label:
    every column called `name` goes, the others stay in order. (`Drop` adds the KeyError
    pandas raises for an absent label.)
  */
  function Without(cols: seq<Column>, name: string): (r: seq<Column>)
    ensures forall c :: c in r <==> c in cols && c.name != name
    ensures |r| <= |cols|
    ensures (forall i :: 0 <= i < |cols| ==> cols[i].name != name) ==> r == cols
  {
    if cols == [] then []
    else if cols[0].name == name then Without(cols[1..], name)
    else [cols[0]] + Without(cols[1..], name)
  }

  /** Dropping works column by column: the kept columns of a concatenation keep their relative order. */
  lemma {:induction false} WithoutConcat(a: seq<Column>, b: seq<Column>, name: string)
    ensures Without(a + b, name) == Without(a, name) + Without(b, name)
  {
    if a != [] {
      assert (a + b)[1..] == a[1..] + b;
      WithoutConcat(a[1..], b, name);
    } else {
      assert a + b == b;
    }
  }

  /**
    `df.drop(name, axis=1)` with pandas' default `errors='raise'`: KeyError when no column
    bears the label, otherwise the frame without every column of that name.
  */
  function Drop(f: Frame, name: string): (r: Result<Frame>)
    ensures r.Ok? <==> HasColumn(f, name)
    ensures r.Err? ==> r.error == KeyError(name)
    ensures r.Ok? ==> !HasColumn(r.value, name) &&
                      forall c :: c in r.value.columns <==> c in f.columns && c.name != name
  {
    if HasColumn(f, name) then
      var r := Frame(Without(f.columns, name));
      assert forall i :: 0 <= i < |r.columns| ==> r.columns[i] in r.columns;
      Ok(r)
    else Err(KeyError(name))
  }

  /** `df[name]` as a Series: the cells of the first column called `name`, if there is one. */
  function Lookup(cols: seq<Column>, name: string): (r: Option<seq<Cell>>)
    ensures r.Some? <==> exists i :: 0 <= i < |cols| && cols[i].name == name
    ensures r.Some? ==> exists i :: 0 <= i < |cols| && cols[i].name == name && cols[i].cells == r.value &&
                                    forall k :: 0 <= k < i ==> cols[k].name != name
  {
    if cols == [] then None
    else if cols[0].name == name then Some(cols[0].cells)
    else
      var r := Lookup(cols[1..], name);
      assert forall i :: 1 <= i < |cols| ==> cols[i] == cols[1..][i - 1];
      r
  }

  /** `df.rename(columns=renames)`: labels the map does not mention are kept. */
  function Rename(f: Frame, renames: map<string, string>): Frame {
    Frame(seq(|f.columns|, i requires 0 <= i < |f.columns| =>
      var c := f.columns[i];
      Column(if c.name in renames then renames[c.name] else c.name, c.cells)))
  }

  /** `df[name] = df[name].map(g)`: `g` applied to every cell of the columns called `name`. */
  function MapCells(f: Frame, name: string, g: Cell -> Cell): Frame {
    Frame(seq(|f.columns|, i requires 0 <= i < |f.columns| =>
      var c := f.columns[i];
      if c.name == name then Column(name, seq(|c.cells|, j requires 0 <= j < |c.cells| => g(c.cells[j])))
      else c))
  }

  /**
    numpy's conversion of one value to `int`, as `astype(int)` does it; None where it
    raises. numpy converts into int64, where a float beyond its range gives an undefined
    value; here `int` is unbounded, so such floats convert exactly.
  */
  function AsInt(c: Cell): Option<int> {
    match c
    case Int(i) => Some(i)
    case Bool(b) => Some(if b then 1 else 0)
    case Float(x) => Some(if x >= 0.0 then x.Floor else -((-x).Floor))  // truncation toward zero
    case Text(_) => None
    case Missing => None
  }

  predicate Castable(c: Column) {
    forall j :: 0 <= j < |c.cells| ==> AsInt(c.cells[j]).Some?
  }

  /** The column after `astype(int)`, for a column every cell of which converts. */
  function AsIntColumn(c: Column): Column {
    Column(c.name, seq(|c.cells|, j requires 0 <= j < |c.cells| =>
      match AsInt(c.cells[j])
      case Some(i) => Int(i)
      case None => c.cells[j]))
  }

  /** `df[name] = df[name].astype(int)` for a frame that has the column: raises unless every cell converts. */
  function CastColumn(f: Frame, name: string): Result<Frame> {
    if forall i :: 0 <= i < |f.columns| && f.columns[i].name == name ==> Castable(f.columns[i])
    then Ok(Frame(seq(|f.columns|, i requires 0 <= i < |f.columns| =>
           if f.columns[i].name == name then AsIntColumn(f.columns[i]) else f.columns[i])))
    else Err(CastError(name))
  }

  /** `for col in names: if col in df.columns: df[col] = df[col].astype(int)`, the first failing cast raising. */
  function CastAll(f: Frame, names: seq<string>): Result<Frame>
    decreases |names|
  {
    if names == [] then Ok(f)
    else if !HasColumn(f, names[0]) then CastAll(f, names[1..])
    else
      match CastColumn(f, names[0])
      case Err(e) => Err(e)
      case Ok(g) => CastAll(g, names[1..])
  }

  /** `g` is `f` with exactly the columns whose names are in `names` cast to integers. */
  ghost predicate CastsOnly(f: Frame, names: seq<string>, g: Frame) {
    && |g.columns| == |f.columns|
    && forall i :: 0 <= i < |f.columns| ==>
         g.columns[i] == if f.columns[i].name in names then AsIntColumn(f.columns[i]) else f.columns[i]
  }

  /** Casting an integer-valued column again changes nothing. */
  lemma AsIntColumnIdempotent(c: Column)
    requires Castable(c)
    ensures Castable(AsIntColumn(c)) && AsIntColumn(AsIntColumn(c)) == AsIntColumn(c)
  {
    var d := AsIntColumn(c);
    assert forall j :: 0 <= j < |d.cells| ==> d.cells[j].Int?;
    assert AsIntColumn(d).cells == d.cells;
  }

  /**
    The cast loop succeeds exactly when every column named in `names` converts, and
    then it changes those columns and no others.
  */
  lemma {:induction false} CastAllSpec(f: Frame, names: seq<string>)
    ensures CastAll(f, names).Ok? <==>
              forall i :: 0 <= i < |f.columns| && f.columns[i].name in names ==> Castable(f.columns[i])
    ensures CastAll(f, names).Ok? ==> CastsOnly(f, names, CastAll(f, names).value)
    decreases |names|
  {
    if names == [] {
      return;
    }
    var n, rest := names[0], names[1..];
    assert forall x :: x in names <==> x == n || x in rest;
    CastAllSpec(f, rest);
    if !HasColumn(f, n) {
      assert CastAll(f, names) == CastAll(f, rest);
    } else {
      var cast := CastColumn(f, n);
      if cast.Ok? {
        var g := cast.value;
        assert CastAll(f, names) == CastAll(g, rest);
        CastAllSpec(g, rest);
        forall i | 0 <= i < |f.columns| && f.columns[i].name == n
          ensures Castable(g.columns[i]) && g.columns[i].name == n
          ensures f.columns[i].name in rest ==> AsIntColumn(g.columns[i]) == AsIntColumn(f.columns[i])
        {
          AsIntColumnIdempotent(f.columns[i]);
        }
        assert forall i :: 0 <= i < |f.columns| && f.columns[i].name != n ==> g.columns[i] == f.columns[i];
      } else {
        assert CastAll(f, names) == Err(CastError(n));
      }
    }
  }
}
