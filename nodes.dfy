/**
 * autorobot/nodes.py: the node server's `create`, `from_array` and `table`, and the
 * ordering rule of `ExtendedNode.closest`.
 *
 * Coordinates are exact reals. `closest` ranks nodes by squared Euclidean distance, which
 * orders them exactly as the Euclidean distance the source computes.
 */
module Nodes {
  import opened Errors
  import opened Servers

  datatype Node = Node(x: real, y: real, z: real)

  /**
   * The node `Create(num, float(x), float(y), float(z))` hands to the host, where each
   * coordinate is given as what `float(...)` makes of it; the first conversion that raises
   * decides the error.
   */
  function Coordinates(x: Result<real>, y: Result<real>, z: Result<real>): (r: Result<Node>)
    ensures r.Ok? <==> x.Ok? && y.Ok? && z.Ok?
    ensures r.Ok? ==> r.value == Node(x.value, y.value, z.value)
    ensures x.Err? ==> r == Err(x.error)
    ensures x.Ok? && y.Err? ==> r == Err(y.error)
    ensures x.Ok? && y.Ok? && z.Err? ==> r == Err(z.error)
  {
    if x.Err? then Err(x.error)
    else if y.Err? then Err(y.error)
    else if z.Err? then Err(z.error)
    else Ok(Node(x.value, y.value, z.value))
  }

  /**
   * `ExtendedNodeServer.create`. The coordinates are converted only after the delete that
   * `overwrite` triggers.
   */
  method Create(s: Server<Node>, x: Result<real>, y: Result<real>, z: Result<real>, num: Option<Arg>,
                obj: bool, overwrite: bool)
    returns (r: Result<Handle<Node>>)
    requires s.Valid()
    modifies s
    ensures s.Valid()
    ensures r == Created(old(s.State()), Coordinates(x, y, z), num, obj, overwrite).result
    ensures s.State() == Created(old(s.State()), Coordinates(x, y, z), num, obj, overwrite).after
  {
    var placed := s.Place(num, overwrite, Coordinates(x, y, z));
    if placed.Err? {
      return Err(placed.error);
    }
    r := Ok(Returned(s.items, placed.value, obj));
  }

  /** `int(node)`: the node's number, which `int()` also yields for the node as an argument. */
  function NodeNumber(h: Handle<Node>): (r: int)
    ensures ToInt(IntLike(r)) == Ok(h.number)
  {
    h.number
  }

  /** A successfully created node converts to the number it was created at. */
  lemma CreatedNodeNumber(st: Store<Node>, made: Result<Node>, a: Arg, obj: bool, overwrite: bool)
    requires Created(st, made, Some(a), obj, overwrite).result.Ok?
    ensures Ok(NodeNumber(Created(st, made, Some(a), obj, overwrite).result.value)) == ToInt(a)
  {
  }

  // ---------------------------------------------------------------- table

  /** A row `[Number, X, Y, Z]` of a node table. */
  datatype NodeRow = NodeRow(number: int, x: real, y: real, z: real)

  function RowsOf(sel: seq<(int, Node)>): (rows: seq<NodeRow>)
    ensures |rows| == |sel|
    ensures forall i :: 0 <= i < |sel| ==>
      rows[i] == NodeRow(sel[i].0, sel[i].1.x, sel[i].1.y, sel[i].1.z)
  {
    if sel == [] then [] else [NodeRow(sel[0].0, sel[0].1.x, sel[0].1.y, sel[0].1.z)] + RowsOf(sel[1..])
  }

  /**
   * `table(s)`: one row per selected node, in selection order. Stacking no rows at all
   * raises ValueError.
   */
  function Table(items: map<int, Node>, sel: seq<int>): (r: Result<seq<NodeRow>>)
    ensures r.Err? <==> Selected(items, sel) == []
    ensures r.Err? ==> r.error == ValueError
    ensures r.Ok? ==> forall i :: 0 <= i < |r.value| ==>
      var row := r.value[i];
      row.number in items && items[row.number] == Node(row.x, row.y, row.z)
    ensures r.Ok? && (forall i :: 0 <= i < |sel| ==> sel[i] in items) ==>
      |r.value| == |sel| && forall i :: 0 <= i < |sel| ==> r.value[i].number == sel[i]
  {
    var chosen := Selected(items, sel);
    if chosen == [] then Err(ValueError) else Ok(RowsOf(chosen))
  }

  // ---------------------------------------------------------------- closest

  function Sq(d: real): real { d * d }

  /** The squared distance from `p` to a row's coordinates. */
  function SqDist(p: Node, row: NodeRow): real
  {
    Sq(row.x - p.x) + Sq(row.y - p.y) + Sq(row.z - p.z)
  }

  /** A selected node's distance from `p` paired with its number. */
  type Keyed = (real, int)

  /** The distance column `cdist` computes, each entry paired with its row's number. */
  function KeyedRows(p: Node, rows: seq<NodeRow>): (ks: seq<Keyed>)
    ensures |ks| == |rows|
    ensures forall i :: 0 <= i < |rows| ==> ks[i] == (SqDist(p, rows[i]), rows[i].number)
  {
    if rows == [] then [] else [(SqDist(p, rows[0]), rows[0].number)] + KeyedRows(p, rows[1..])
  }

  /** `np.argmin`: the first index of the smallest distance. */
  function ArgMin(ks: seq<Keyed>): (k: nat)
    requires |ks| > 0
    ensures k < |ks|
    ensures forall j :: 0 <= j < |ks| ==> ks[k].0 <= ks[j].0
    ensures forall j :: 0 <= j < k ==> ks[k].0 < ks[j].0
  {
    if |ks| == 1 then 0
    else
      var m := ArgMin(ks[..|ks| - 1]);
      assert forall j :: 0 <= j < |ks| - 1 ==> ks[..|ks| - 1][j] == ks[j];
      if ks[|ks| - 1].0 < ks[m].0 then |ks| - 1 else m
  }

  predicate Ascending(ks: seq<Keyed>)
  {
    forall i, j :: 0 <= i < j < |ks| ==> ks[i].0 <= ks[j].0
  }

  /** Puts `k` into a list already in ascending distance, after the entries no farther than it. */
  function Insert(k: Keyed, sorted: seq<Keyed>): seq<Keyed>
  {
    if sorted == [] then [k]
    else if k.0 < sorted[0].0 then [k] + sorted
    else [sorted[0]] + Insert(k, sorted[1..])
  }

  lemma {:induction false} InsertKeeps(k: Keyed, sorted: seq<Keyed>)
    ensures multiset(Insert(k, sorted)) == multiset(sorted) + multiset{k}
  {
    if sorted != [] && k.0 >= sorted[0].0 {
      InsertKeeps(k, sorted[1..]);
      assert sorted == [sorted[0]] + sorted[1..];
    }
  }

  lemma {:induction false} InsertSorted(k: Keyed, sorted: seq<Keyed>)
    requires Ascending(sorted)
    ensures Ascending(Insert(k, sorted))
  {
    if sorted != [] && k.0 >= sorted[0].0 {
      var rest := Insert(k, sorted[1..]);
      InsertSorted(k, sorted[1..]);
      InsertKeeps(k, sorted[1..]);
      forall i | 0 <= i < |rest| ensures sorted[0].0 <= rest[i].0 {
        assert rest[i] in multiset(rest);
        if rest[i] != k {
          assert rest[i] in sorted[1..];
        }
      }
    }
  }

  /** `argsort` of the distances: the entries ordered from closest to farthest. */
  function Rank(ks: seq<Keyed>): (r: seq<Keyed>)
    ensures Ascending(r)
    ensures multiset(r) == multiset(ks)
  {
    if ks == [] then []
    else
      var init, last := ks[..|ks| - 1], ks[|ks| - 1];
      assert ks == init + [last];
      InsertKeeps(last, Rank(init));
      InsertSorted(last, Rank(init));
      Insert(last, Rank(init))
  }

  function NumbersOf(ks: seq<Keyed>): (ns: seq<int>)
    ensures |ns| == |ks|
    ensures forall i :: 0 <= i < |ks| ==> ns[i] == ks[i].1
  {
    if ks == [] then [] else [ks[0].1] + NumbersOf(ks[1..])
  }

  /** `s[:k]` on a Python list: a negative `k` drops that many items from the end. */
  function PyPrefix<T>(s: seq<T>, k: int): seq<T>
  {
    if k >= 0 then s[..if k < |s| then k else |s|]
    else s[..if |s| + k > 0 then |s| + k else 0]
  }

  /** What `closest` returns: one node number, or a list of them. */
  datatype Nearest = Single(number: int) | Ranked(numbers: seq<int>)

  /**
   * `closest(s, count)` from the node at `p`, on the node table of the selection. A
   * count of 1 gives the number of the first row of minimum distance (`argmin`), -1 all
   * numbers from closest to farthest, any other count that prefix of the ranking.
   */
  function Closest(p: Node, items: map<int, Node>, sel: seq<int>, count: int): (r: Result<Nearest>)
    ensures Table(items, sel).Err? <==> r.Err?
    ensures r.Err? ==> r.error == ValueError
    ensures r.Ok? && count == 1 ==> (
      var rows := Table(items, sel).value;
      && r.value.Single?
      && exists i :: 0 <= i < |rows| && rows[i].number == r.value.number
           && (forall j :: 0 <= j < |rows| ==> SqDist(p, rows[i]) <= SqDist(p, rows[j]))
           && (forall j :: 0 <= j < i ==> SqDist(p, rows[i]) < SqDist(p, rows[j])))
    ensures r.Ok? && count != 1 ==> r.value.Ranked?
  {
    match Table(items, sel)
    case Err(e) => Err(e)
    case Ok(rows) =>
      var ks := KeyedRows(p, rows);
      if count == 1 then
        var k := ArgMin(ks);
        assert rows[k].number == ks[k].1;
        Ok(Single(ks[k].1))
      else
        var ranked := NumbersOf(Rank(ks));
        Ok(Ranked(if count == -1 then ranked else PyPrefix(ranked, count)))
  }

  /**
   * For count -1 the ranking lists every selected node once, each with its own distance,
   * in ascending order of distance.
   */
  lemma ClosestRanksAll(p: Node, items: map<int, Node>, sel: seq<int>)
    requires Table(items, sel).Ok?
    ensures var ks := KeyedRows(p, Table(items, sel).value);
      && Closest(p, items, sel, -1) == Ok(Ranked(NumbersOf(Rank(ks))))
      && multiset(Rank(ks)) == multiset(ks)
      && Ascending(Rank(ks))
  {
  }

  /** For any other count k, the result is the first k numbers of the full ranking. */
  lemma ClosestPrefix(p: Node, items: map<int, Node>, sel: seq<int>, k: int)
    requires Table(items, sel).Ok? && k != 1 && k != -1
    ensures var ranked := NumbersOf(Rank(KeyedRows(p, Table(items, sel).value)));
      && Closest(p, items, sel, k).Ok?
      && var got := Closest(p, items, sel, k).value.numbers;
      && |got| <= |ranked|
      && got == ranked[..|got|]
      && (0 <= k <= |ranked| ==> |got| == k)
  {
  }

  // ---------------------------------------------------------------- from_array

  /** The shape of the array handed to `from_array`. */
  datatype NodeArray =
    | Vector(values: seq<real>)
    | Matrix(rows: seq<seq<real>>, width: nat)
    | ZeroDim
    | Higher

  /** Every row of a 2-D array has the array's width. */
  predicate Rectangular(rows: seq<seq<real>>, width: nat)
  {
    forall i :: 0 <= i < |rows| ==> |rows[i]| == width
  }

  predicate WellShaped(a: NodeArray)
  {
    a.Matrix? ==> Rectangular(a.rows, a.width)
  }

  /** The `num` argument of `from_array`. */
  datatype NumSpec = NoNum | Scalar(arg: Arg) | Several(args: seq<Arg>)

  /** The numbers `iter(num)` yields, when `num` is iterable; a string yields its characters. */
  function Iterated(num: NumSpec): Option<seq<Arg>>
  {
    match num
    case Several(args) => Some(args)
    case Scalar(TextArg(s)) => Some(seq(|s|, i requires 0 <= i < |s| => TextArg([s[i]])))
    case _ => None
  }

  /** The number `next(num)` gives for row `i`. */
  function RowNumber(row: seq<real>, width: nat, it: Option<seq<Arg>>, i: nat): (r: Result<Option<Arg>>)
    requires |row| == width
    ensures width > 3 ==> r == Ok(Some(IntArg(Truncate(row[0]))))
  {
    if width > 3 then Ok(Some(IntArg(Truncate(row[0]))))
    else if it.None? then Ok(None)
    else if i < |it.value| then Ok(Some(it.value[i]))
    else Err(StopIteration)
  }

  /** The coordinates `row[:3]` supplies (after the number column, when there is one). */
  function RowNode(row: seq<real>, width: nat): (r: Result<Node>)
    requires |row| == width
    ensures r.Err? <==> width < 3
  {
    if width > 3 then Ok(Node(row[1], row[2], row[3]))
    else if width == 3 then Ok(Node(row[0], row[1], row[2]))
    else Err(TypeError)
  }

  /** Row `i` of a 2-D array created on a container in state `st`. A failure changes nothing. */
  function RowStep(st: Store<Node>, row: seq<real>, width: nat, it: Option<seq<Arg>>, i: nat,
                   obj: bool, overwrite: bool): (o: Outcome<Handle<Node>, Node>)
    requires |row| == width
    ensures o.result.Err? ==> o.after == st
    ensures Fresh(st) ==> Fresh(o.after)
  {
    match RowNumber(row, width, it, i)
    case Err(e) => Outcome(Err(e), st)
    case Ok(num) =>
      match RowNode(row, width)
      case Err(e) => Outcome(Err(e), st)
      case Ok(node) => Created(st, Ok(node), num, obj, overwrite)
  }

  /** The first `n` rows of a 2-D array, created one after another; the first failure stops it. */
  function Batch(st: Store<Node>, rows: seq<seq<real>>, width: nat, it: Option<seq<Arg>>,
                 obj: bool, overwrite: bool, n: nat): (o: Outcome<seq<Handle<Node>>, Node>)
    requires n <= |rows| && Rectangular(rows, width)
    ensures Fresh(st) ==> Fresh(o.after)
    ensures o.result.Ok? ==> |o.result.value| == n
  {
    if n == 0 then Outcome(Ok([]), st)
    else
      var prev := Batch(st, rows, width, it, obj, overwrite, n - 1);
      if prev.result.Err? then prev
      else
        var o := RowStep(prev.after, rows[n - 1], width, it, n - 1, obj, overwrite);
        if o.result.Err? then Outcome(Err(o.result.error), o.after)
        else Outcome(Ok(prev.result.value + [o.result.value]), o.after)
  }

  /** Once a row fails, the batch stops: later rows change neither the result nor the container. */
  lemma {:induction false} BatchStops(st: Store<Node>, rows: seq<seq<real>>, width: nat, it: Option<seq<Arg>>,
                                      obj: bool, overwrite: bool, n: nat, m: nat)
    requires n <= m <= |rows| && Rectangular(rows, width)
    requires Batch(st, rows, width, it, obj, overwrite, n).result.Err?
    ensures Batch(st, rows, width, it, obj, overwrite, m) == Batch(st, rows, width, it, obj, overwrite, n)
    decreases m
  {
    if m > n {
      BatchStops(st, rows, width, it, obj, overwrite, n, m - 1);
    }
  }

  /** What `from_array` returns: one node (1-D array) or one result per row (2-D array). */
  datatype Made = One(handle: Handle<Node>) | PerRow(handles: seq<Handle<Node>>)

  /** `from_array(a, num, obj, overwrite)`. */
  method FromArray(s: Server<Node>, a: NodeArray, num: NumSpec, obj: bool, overwrite: bool)
    returns (r: Result<Made>)
    requires s.Valid() && WellShaped(a)
    modifies s
    ensures s.Valid()
    ensures a.ZeroDim? ==> r == Err(IndexError) && s.State() == old(s.State())
    ensures a.Higher? ==> r == Err(AutoValueError) && s.State() == old(s.State())
    ensures a.Vector? && |a.values| < 3 ==> r == Err(TypeError) && s.State() == old(s.State())
    ensures a.Vector? && |a.values| >= 3 ==>
      var o := Created(old(s.State()), Ok(Node(a.values[0], a.values[1], a.values[2])),
                          if num.NoNum? then None else if num.Scalar? then Some(num.arg) else Some(OtherArg),
                          obj, overwrite);
      && s.State() == o.after
      && (o.result.Ok? ==> r == Ok(One(o.result.value)))
      && (o.result.Err? ==> r == Err(o.result.error))
    ensures a.Matrix? ==>
      var o := Batch(old(s.State()), a.rows, a.width, if a.width > 3 then None else Iterated(num),
                     obj, overwrite, |a.rows|);
      && s.State() == o.after
      && (o.result.Ok? ==> r == Ok(PerRow(o.result.value)))
      && (o.result.Err? ==> r == Err(o.result.error))
  {
    match a
    case ZeroDim =>
      return Err(IndexError);
    case Higher =>
      return Err(AutoValueError);
    case Vector(values) =>
      if |values| < 3 {
        return Err(TypeError);
      }
      var n := if num.NoNum? then None else if num.Scalar? then Some(num.arg) else Some(OtherArg);
      var h := Create(s, Ok(values[0]), Ok(values[1]), Ok(values[2]), n, obj, overwrite);
      if h.Err? {
        return Err(h.error);
      }
      return Ok(One(h.value));
    case Matrix(rows, width) =>
      var made := CreateRows(s, rows, width, if width > 3 then None else Iterated(num), obj, overwrite);
      if made.Err? {
        return Err(made.error);
      }
      return Ok(PerRow(made.value));
  }

  /** The loop of `from_array` over the rows of a 2-D array, numbers drawn from `it`. */
  method CreateRows(s: Server<Node>, rows: seq<seq<real>>, width: nat, it: Option<seq<Arg>>, obj: bool, overwrite: bool)
    returns (r: Result<seq<Handle<Node>>>)
    requires s.Valid() && Rectangular(rows, width)
    modifies s
    ensures s.Valid()
    ensures Batch(old(s.State()), rows, width, it, obj, overwrite, |rows|) == Outcome(r, s.State())
  {
    ghost var st0 := s.State();
    r := Ok([]);
    var i := 0;
    while i < |rows| && r.Ok?
      invariant 0 <= i <= |rows|
      invariant s.Valid()
      invariant Batch(st0, rows, width, it, obj, overwrite, i) == Outcome(r, s.State())
    {
      var h := CreateRow(s, rows[i], width, it, i, obj, overwrite);
      r := if h.Err? then Err(h.error) else Ok(r.value + [h.value]);
      i := i + 1;
    }
    if r.Err? {
      BatchStops(st0, rows, width, it, obj, overwrite, i, |rows|);
    }
  }

  /** One pass of the loop: `self.create(*row[:3], num=next(num), obj=obj, overwrite=overwrite)`. */
  method CreateRow(s: Server<Node>, row: seq<real>, width: nat, it: Option<seq<Arg>>, i: nat, obj: bool, overwrite: bool)
    returns (r: Result<Handle<Node>>)
    requires s.Valid() && |row| == width
    modifies s
    ensures s.Valid()
    ensures RowStep(old(s.State()), row, width, it, i, obj, overwrite) == Outcome(r, s.State())
  {
    var number := RowNumber(row, width, it, i);
    if number.Err? {
      return Err(number.error);
    }
    var node := RowNode(row, width);
    if node.Err? {
      return Err(node.error);
    }
    r := Create(s, Ok(node.value.x), Ok(node.value.y), Ok(node.value.z), number.value, obj, overwrite);
  }

  /**
   * With more than three columns the first column numbers the rows: every result is
   * the truncated first value of its row, in row order.
   */
  lemma {:induction false} NumberColumnNumbers(st: Store<Node>, rows: seq<seq<real>>, width: nat,
                                               obj: bool, overwrite: bool, n: nat)
    requires n <= |rows| && width > 3 && Rectangular(rows, width)
    requires Batch(st, rows, width, None, obj, overwrite, n).result.Ok?
    ensures var hs := Batch(st, rows, width, None, obj, overwrite, n).result.value;
      forall i :: 0 <= i < n ==> hs[i].number == Truncate(rows[i][0])
  {
    if n > 0 {
      NumberColumnNumbers(st, rows, width, obj, overwrite, n - 1);
    }
  }

  /** Numbers taken from an iterable `num` go to the rows in order. */
  lemma {:induction false} IteratedNumbers(st: Store<Node>, rows: seq<seq<real>>, width: nat, args: seq<Arg>,
                                           obj: bool, overwrite: bool, n: nat)
    requires n <= |rows| && width <= 3 && Rectangular(rows, width)
    requires Batch(st, rows, width, Some(args), obj, overwrite, n).result.Ok?
    ensures n <= |args|
    ensures var hs := Batch(st, rows, width, Some(args), obj, overwrite, n).result.value;
      forall i :: 0 <= i < n ==> Ok(hs[i].number) == ToInt(args[i])
  {
    if n > 0 {
      IteratedNumbers(st, rows, width, args, obj, overwrite, n - 1);
    }
  }

  /**
   * Without numbers, every row of a three-column array is created at a fresh free number:
   * the numbers increase from row to row, none was in use before, and nothing fails.
   */
  lemma {:induction false} FreeNumbersIncrease(st: Store<Node>, rows: seq<seq<real>>,
                                               obj: bool, overwrite: bool, n: nat)
    requires Fresh(st) && n <= |rows| && Rectangular(rows, 3)
    ensures var o := Batch(st, rows, 3, None, obj, overwrite, n);
      && o.result.Ok?
      && (forall i :: 0 <= i < n ==> st.free <= o.result.value[i].number < o.after.free)
      && (forall i, j :: 0 <= i < j < n ==> o.result.value[i].number < o.result.value[j].number)
      && o.after.free >= st.free
  {
    if n > 0 {
      FreeNumbersIncrease(st, rows, obj, overwrite, n - 1);
      var prev := Batch(st, rows, 3, None, obj, overwrite, n - 1);
      assert prev.after.free !in prev.after.items;
    }
  }
}
