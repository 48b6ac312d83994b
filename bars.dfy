/**
 * autorobot/bars.py: the bar server's `create`, which normalises both endpoints to node
 * numbers before applying the shared numbering rule, and its `table`.
 */
module Bars {
  import opened Errors
  import opened Servers

  /** A bar of the host model: the numbers of its start and end nodes. */
  datatype Bar = Bar(startNode: int, endNode: int)

  /**
   * An endpoint as `create` receives it: an object with a `Number` attribute (a wrapped
   * or host node), or any other value, which is handed to `int`.
   */
  datatype Endpoint = Numbered(number: int) | Plain(arg: Arg)

  /** `n.Number if hasattr(n, 'Number') else int(n)`. */
  function EndpointNumber(e: Endpoint): Result<int>
  {
    match e
    case Numbered(n) => Ok(n)
    case Plain(a) => ToInt(a)
  }

  /**
   * Both endpoints as node numbers; any failure while converting either one is re-raised
   * as AutoRobotValueError.
   */
  function Endpoints(start: Endpoint, end: Endpoint): (r: Result<Bar>)
    ensures r.Ok? <==> EndpointNumber(start).Ok? && EndpointNumber(end).Ok?
    ensures r.Ok? ==> r.value == Bar(EndpointNumber(start).value, EndpointNumber(end).value)
    ensures r.Err? ==> r.error == AutoValueError
  {
    match (EndpointNumber(start), EndpointNumber(end))
    case (Ok(a), Ok(b)) => Ok(Bar(a, b))
    case _ => Err(AutoValueError)
  }

  /** The bar the host's `Create(num, start, end)` makes, unless the host raises `refusal`. */
  function Hosted(bar: Bar, refusal: Option<Error>): (r: Result<Bar>)
    ensures r.Ok? <==> refusal.None?
    ensures r.Ok? ==> r.value == bar
    ensures r.Err? ==> r.error == refusal.value
  {
    if refusal.Some? then Err(refusal.value) else Ok(bar)
  }

  /**
   * `create(start, end, num, obj, overwrite)` on a container in state `st`, where
   * `refusal` is the exception the host's own `Create` raises, if any (after the delete
   * that `overwrite` triggers).
   */
  function CreateBar(st: Store<Bar>, start: Endpoint, end: Endpoint, num: Option<Arg>, obj: bool, overwrite: bool,
                     refusal: Option<Error>): (o: Outcome<Handle<Bar>, Bar>)
    ensures Endpoints(start, end).Err? ==> o == Outcome(Err(AutoValueError), st)
    ensures o.result.Err? ==> o.after.free == st.free
    ensures o.result.Err? ==> forall m :: m in o.after.items ==> m in st.items && o.after.items[m] == st.items[m]
    ensures Fresh(st) ==> Fresh(o.after)
  {
    match Endpoints(start, end)
    case Err(e) => Outcome(Err(e), st)
    case Ok(bar) => Created(st, Hosted(bar, refusal), num, obj, overwrite)
  }

  /** `ExtendedBarServer.create`. */
  method Create(s: Server<Bar>, start: Endpoint, end: Endpoint, num: Option<Arg>, obj: bool, overwrite: bool,
                refusal: Option<Error>)
    returns (r: Result<Handle<Bar>>)
    requires s.Valid()
    modifies s
    ensures s.Valid()
    ensures r == CreateBar(old(s.State()), start, end, num, obj, overwrite, refusal).result
    ensures s.State() == CreateBar(old(s.State()), start, end, num, obj, overwrite, refusal).after
  {
    var bar := Endpoints(start, end);
    if bar.Err? {
      return Err(bar.error);
    }
    var placed := s.Place(num, overwrite, Hosted(bar.value, refusal));
    if placed.Err? {
      return Err(placed.error);
    }
    r := Ok(Returned(s.items, placed.value, obj));
  }

  /**
   * An endpoint that cannot be normalised raises AutoRobotValueError before the number is
   * even looked at, and the container is left as it was.
   */
  lemma BadEndpointRefused(st: Store<Bar>, start: Endpoint, end: Endpoint, num: Option<Arg>, obj: bool, overwrite: bool,
                           refusal: Option<Error>)
    requires EndpointNumber(start).Err? || EndpointNumber(end).Err?
    ensures CreateBar(st, start, end, num, obj, overwrite, refusal) == Outcome(Err(AutoValueError), st)
  {
  }

  /**
   * Once both endpoints are normalised, the numbering rule and then the host decide. A
   * numbering error changes nothing; a host refusal comes after the delete, so it leaves
   * the settled number empty. On success the new bar joins the normalised start and end
   * nodes, and `get(num).Number == num`.
   */
  lemma CreatedBarJoinsEndpoints(st: Store<Bar>, start: Endpoint, end: Endpoint, num: Option<Arg>, obj: bool, overwrite: bool,
                                 refusal: Option<Error>)
    requires Endpoints(start, end).Ok?
    ensures var o := CreateBar(st, start, end, num, obj, overwrite, refusal);
      var rule := Numbering(st.items.Keys, st.free, num, overwrite);
      && (o.result.Ok? <==> rule.Ok? && refusal.None?)
      && (rule.Err? ==> o.result.error == rule.error && o.after == st)
      && (rule.Ok? && refusal.Some? ==>
            o.result.error == refusal.value && o.after == Store(st.items - {rule.value}, st.free))
      && (o.result.Ok? ==>
            && o.result.value.number == rule.value
            && o.after.items == st.items[rule.value := Bar(EndpointNumber(start).value, EndpointNumber(end).value)]
            && o.after.items[rule.value].startNode == EndpointNumber(start).value
            && o.after.items[rule.value].endNode == EndpointNumber(end).value)
  {
    CreatedSpec(st, Hosted(Endpoints(start, end).value, refusal), num, obj, overwrite);
  }

  /**
   * A wrapped node, a host node and a plain integer naming the same node number are
   * interchangeable as endpoints.
   */
  lemma EndpointKindsAgree(st: Store<Bar>, k: int, end: Endpoint, num: Option<Arg>, obj: bool, overwrite: bool,
                           refusal: Option<Error>)
    ensures CreateBar(st, Numbered(k), end, num, obj, overwrite, refusal)
         == CreateBar(st, Plain(IntArg(k)), end, num, obj, overwrite, refusal)
    ensures CreateBar(st, end, Numbered(k), num, obj, overwrite, refusal)
         == CreateBar(st, end, Plain(IntArg(k)), num, obj, overwrite, refusal)
  {
  }

  /** A row `[Number, StartNode, EndNode]` of a bar table. */
  datatype BarRow = BarRow(number: int, startNode: int, endNode: int)

  function RowsOf(sel: seq<(int, Bar)>): (rows: seq<BarRow>)
    ensures |rows| == |sel|
    ensures forall i :: 0 <= i < |sel| ==> rows[i] == BarRow(sel[i].0, sel[i].1.startNode, sel[i].1.endNode)
  {
    if sel == [] then [] else [BarRow(sel[0].0, sel[0].1.startNode, sel[0].1.endNode)] + RowsOf(sel[1..])
  }

  /**
   * `table(s)`: one row per selected bar, in selection order. Stacking no rows at all
   * raises ValueError.
   */
  function Table(items: map<int, Bar>, sel: seq<int>): (r: Result<seq<BarRow>>)
    ensures r.Err? <==> Selected(items, sel) == []
    ensures r.Err? ==> r.error == ValueError
    ensures r.Ok? ==> forall i :: 0 <= i < |r.value| ==>
      var row := r.value[i];
      row.number in items && items[row.number] == Bar(row.startNode, row.endNode)
    ensures r.Ok? && (forall i :: 0 <= i < |sel| ==> sel[i] in items) ==>
      |r.value| == |sel| && forall i :: 0 <= i < |sel| ==> r.value[i].number == sel[i]
  {
    var chosen := Selected(items, sel);
    if chosen == [] then Err(ValueError) else Ok(RowsOf(chosen))
  }
}
