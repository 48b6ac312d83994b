/**
 * The host's numbered object containers (node, bar and case servers) as the wrappers in
 * autorobot/nodes.py, autorobot/bars.py and autorobot/cases.py use them: `Exist`,
 * `Delete`, `Create`, `FreeNumber`, `get` and `select`, plus the numbering rule the three
 * wrappers share when they create an object.
 *
 * The container itself belongs to the host application; here it is a map from numbers
 * to objects plus the number `FreeNumber` hands out next. A selection string is resolved
 * by the host, so a selection is given as the sequence of numbers it names.
 */
module Servers {
  import opened Errors
  import PyText

  /**
   * A Python value that the code hands to `int(...)`: an int, a float, a string, an object
   * with `__int__` or `__index__` (a bool, a numpy integer, an `ExtendedNode`) standing for
   * the integer it converts to, or anything else.
   */
  datatype Arg = IntArg(i: int) | RealArg(r: real) | TextArg(s: string) | IntLike(n: int) | OtherArg

  /** `int(x)` for a float: truncation toward zero. */
  function Truncate(x: real): (n: int)
    ensures 0.0 <= x ==> n as real <= x < n as real + 1.0
    ensures x < 0.0 ==> n as real - 1.0 < x <= n as real
  {
    if x >= 0.0 then x.Floor else -((-x).Floor)
  }

  /**
   * `int(a)`: ints pass, floats truncate, strings are parsed, objects convert through
   * `__int__`, anything else is a TypeError.
   */
  function ToInt(a: Arg): (r: Result<int>)
    ensures a.IntArg? ==> r == Ok(a.i)
    ensures a.RealArg? ==> r.Ok? && r.value == Truncate(a.r)
    ensures a.TextArg? ==> r == PyText.ParseInt(a.s)
    ensures a.IntLike? ==> r == Ok(a.n)
    ensures a.OtherArg? ==> r == Err(TypeError)
  {
    match a
    case IntArg(i) => Ok(i)
    case RealArg(x) => Ok(Truncate(x))
    case TextArg(s) => PyText.ParseInt(s)
    case IntLike(n) => Ok(n)
    case OtherArg => Err(TypeError)
  }

  /** `num = self.FreeNumber if num is None else num; num = int(num)`. */
  function Requested(free: int, num: Option<Arg>): (r: Result<int>)
    ensures num.None? ==> r == Ok(free)
    ensures num.Some? && (num.value.IntArg? || num.value.IntLike?) ==> r.Ok?
    ensures num.Some? && num.value.OtherArg? ==> r == Err(TypeError)
  {
    if num.None? then Ok(free) else ToInt(num.value)
  }

  /**
   * The number a create call settles on: the requested number, unless it is taken and
   * `overwrite` is not set, which raises AutoRobotIdError.
   */
  function Numbering(used: set<int>, free: int, num: Option<Arg>, overwrite: bool): (r: Result<int>)
    ensures num.None? && free !in used ==> r == Ok(free)
    ensures r.Ok? <==> Requested(free, num).Ok? && (Requested(free, num).value !in used || overwrite)
    ensures r.Ok? ==> r.value == Requested(free, num).value
    ensures r.Err? && Requested(free, num).Ok? ==> r.error == IdError
    ensures r.Err? && Requested(free, num).Err? ==> r.error == Requested(free, num).error
  {
    match Requested(free, num)
    case Err(e) => Err(e)
    case Ok(n) => if n in used && !overwrite then Err(IdError) else Ok(n)
  }

  /** A container's contents together with the number `FreeNumber` hands out next. */
  datatype Store<E> = Store(items: map<int, E>, free: int)

  /** Every number in use lies below the free number, so the free number is never in use. */
  ghost predicate Fresh<E>(st: Store<E>)
  {
    forall n :: n in st.items ==> n < st.free
  }

  /** The host's `Create(n, ...)`: the object is put at `n`; the free number moves past it. */
  function Put<E>(st: Store<E>, n: int, e: E): (r: Store<E>)
    ensures Fresh(st) ==> Fresh(r)
  {
    Store(st.items[n := e], if n < st.free then st.free else n + 1)
  }

  /** The outcome of a create call: the number (or the error) and the container after it. */
  datatype Placement<E> = Placement(result: Result<int>, after: Store<E>)

  /**
   * The shared create rule: settle the number, delete the old object there when
   * `overwrite` is set, then create the new one. `made` is what happens after the delete:
   * the arguments of the host's `Create` are converted and the host creates the object,
   * and either step may raise. A numbering error leaves the container as it was; an error
   * after the delete leaves the settled number empty.
   */
  function Placed<E>(st: Store<E>, num: Option<Arg>, overwrite: bool, made: Result<E>): (p: Placement<E>)
    ensures var rule := Numbering(st.items.Keys, st.free, num, overwrite);
      && (p.result.Ok? <==> rule.Ok? && made.Ok?)
      && (rule.Err? ==> p == Placement(rule, st))
      && (rule.Ok? && made.Err? ==>
            p.result == Err(made.error) && p.after == Store(st.items - {rule.value}, st.free))
      && (p.result.Ok? ==> p.result.value == rule.value && p.after.items == st.items[rule.value := made.value])
    ensures Fresh(st) ==> Fresh(p.after)
  {
    match Numbering(st.items.Keys, st.free, num, overwrite)
    case Err(err) => Placement(Err(err), st)
    case Ok(n) =>
      var cleared := Store(st.items - {n}, st.free);
      match made
      case Err(err) => Placement(Err(err), cleared)
      case Ok(e) =>
        assert cleared.items[n := e] == st.items[n := e];
        Placement(Ok(n), Put(cleared, n, e))
  }

  /** What a create call returns: `get(num)` when `obj` is set, else the number itself. */
  datatype Handle<E> = Object(number: int, entity: E) | Number(number: int)

  /** `self.get(num) if obj else num`, for a number known to be present. */
  function Returned<E>(items: map<int, E>, n: int, obj: bool): (h: Handle<E>)
    requires n in items
    ensures h.number == n
    ensures obj <==> h.Object?
    ensures h.Object? ==> h.entity == items[n]
  {
    if obj then Object(n, items[n]) else Number(n)
  }

  /**
   * The objects a selection names, as (number, object) pairs in selection order; a number
   * with no object behind it contributes nothing.
   */
  function Selected<E>(items: map<int, E>, sel: seq<int>): (r: seq<(int, E)>)
    ensures |r| <= |sel|
    ensures forall i :: 0 <= i < |r| ==> r[i].0 in items && r[i].1 == items[r[i].0]
    ensures (forall i :: 0 <= i < |sel| ==> sel[i] in items) ==>
      |r| == |sel| && forall i :: 0 <= i < |r| ==> r[i].0 == sel[i]
  {
    if sel == [] then []
    else
      var rest := Selected(items, sel[1..]);
      if sel[0] in items then
        var r := [(sel[0], items[sel[0]])] + rest;
        assert forall i :: 0 <= i < |rest| ==> r[i + 1] == rest[i];
        assert forall i :: 0 <= i < |sel| - 1 ==> sel[1..][i] == sel[i + 1];
        r
      else
        rest
  }

  /** A call's result together with the container state it leaves behind. */
  datatype Outcome<T, E> = Outcome(result: Result<T>, after: Store<E>)

  /**
   * A wrapper's `create(..., num, obj, overwrite)` on a container in state `st`: the
   * shared create rule, then `get(num)` or `num`.
   */
  function Created<E>(st: Store<E>, made: Result<E>, num: Option<Arg>, obj: bool, overwrite: bool): (o: Outcome<Handle<E>, E>)
    ensures var rule := Numbering(st.items.Keys, st.free, num, overwrite);
      && (o.result.Ok? <==> rule.Ok? && made.Ok?)
      && (rule.Err? ==> o == Outcome(Err(rule.error), st))
    ensures o.result.Err? ==> o.after.free == st.free
    ensures o.result.Err? ==> forall m :: m in o.after.items ==> m in st.items && o.after.items[m] == st.items[m]
    ensures Fresh(st) ==> Fresh(o.after)
  {
    var p := Placed(st, num, overwrite, made);
    match p.result
    case Err(err) => Outcome(Err(err), p.after)
    case Ok(n) => Outcome(Ok(Returned(p.after.items, n, obj)), p.after)
  }

  /**
   * `create` succeeds exactly when the numbering rule does and nothing raises after the
   * delete. The new object then sits at the settled number, every other number is
   * untouched, and the call returns that object or its number. A numbering failure raises
   * the rule's error and changes nothing; a later failure raises its own error after the
   * settled number has been cleared.
   */
  lemma CreatedSpec<E>(st: Store<E>, made: Result<E>, num: Option<Arg>, obj: bool, overwrite: bool)
    ensures var o := Created(st, made, num, obj, overwrite);
      var rule := Numbering(st.items.Keys, st.free, num, overwrite);
      && (o.result.Ok? <==> rule.Ok? && made.Ok?)
      && (rule.Err? ==> o.result.error == rule.error && o.after == st)
      && (rule.Ok? && made.Err? ==>
            o.result.error == made.error && o.after == Store(st.items - {rule.value}, st.free))
      && (o.result.Ok? ==>
            && o.result.value.number == rule.value
            && (obj <==> o.result.value.Object?)
            && (obj ==> o.result.value.entity == made.value)
            && o.after.items == st.items[rule.value := made.value])
  {
  }

  /** A host container of numbered objects. */
  class Server<E> {
    var items: map<int, E>
    var free: int

    ghost predicate Valid()
      reads this
    {
      Fresh(Store(items, free))
    }

    function State(): Store<E>
      reads this
    {
      Store(items, free)
    }

    constructor ()
      ensures Valid() && items == map[] && free == 1
    {
      items := map[];
      free := 1;
    }

    /** `FreeNumber`: a number no object uses. */
    function FreeNumber(): (n: int)
      reads this
      requires Valid()
      ensures n !in items
    {
      free
    }

    predicate Exist(n: int): (r: bool)
      reads this
      ensures r <==> Get(n).Ok?
      ensures Valid() && r ==> n != FreeNumber()
    {
      n in items
    }

    /** `get(n)`; an unknown number raises the base registry's lookup error. */
    function Get(n: int): (r: Result<E>)
      reads this
      ensures r.Ok? <==> n in items
      ensures r.Ok? ==> r.value == items[n]
    {
      if n in items then Ok(items[n]) else Err(LookupError)
    }

    method Delete(n: int)
      requires Valid()
      modifies this
      ensures Valid()
      ensures items == old(items) - {n} && free == old(free)
    {
      items := items - {n};
    }

    method Create(n: int, e: E)
      requires Valid()
      modifies this
      ensures Valid()
      ensures State() == Put(old(State()), n, e)
    {
      items := items[n := e];
      if n >= free {
        free := n + 1;
      }
    }

    /** An attribute write on a stored object: the object at `n` changes, nothing else. */
    method Update(n: int, e: E)
      requires Valid() && n in items
      modifies this
      ensures Valid()
      ensures items == old(items)[n := e] && free == old(free)
    {
      items := items[n := e];
    }

    /**
     * The create rule of nodes.py, bars.py and cases.py; `made` is the object the host
     * creates, or what raises once the old object is deleted. Either the new object sits
     * at the settled number and every other number is untouched, or the rule raised and
     * nothing changed, or a later step raised and the settled number is empty.
     */
    method Place(num: Option<Arg>, overwrite: bool, made: Result<E>) returns (r: Result<int>)
      requires Valid()
      modifies this
      ensures Valid()
      ensures r == Placed(old(State()), num, overwrite, made).result
      ensures State() == Placed(old(State()), num, overwrite, made).after
    {
      var n: int;
      if num.None? {
        n := FreeNumber();
      } else {
        var c := ToInt(num.value);
        if c.Err? {
          return Err(c.error);
        }
        n := c.value;
      }
      if Exist(n) {
        if overwrite {
          Delete(n);
        } else {
          return Err(IdError);
        }
      }
      assert items == old(items) - {n};
      if made.Err? {
        return Err(made.error);
      }
      Create(n, made.value);
      assert items == old(items)[n := made.value];
      return Ok(n);
    }

    /** `select(s)`: the selected objects in selection order. */
    function Select(sel: seq<int>): (r: seq<(int, E)>)
      reads this
      ensures |r| <= |sel|
      ensures forall i :: 0 <= i < |r| ==> Exist(r[i].0) && r[i].1 == items[r[i].0]
      ensures (forall i :: 0 <= i < |sel| ==> Exist(sel[i])) ==>
        |r| == |sel| && forall i :: 0 <= i < |r| ==> r[i].0 == sel[i]
    {
      Selected(items, sel)
    }
  }

  /** With no number, the free number is taken and the call cannot fail. */
  lemma FreeNumberTaken<E>(st: Store<E>, overwrite: bool, e: E)
    requires Fresh(st)
    ensures Placed(st, None, overwrite, Ok(e)).result == Ok(st.free)
    ensures Placed(st, None, overwrite, Ok(e)).after.items.Keys == st.items.Keys + {st.free}
  {
    assert st.free !in st.items;
  }

  /**
   * After a successful create the new object is found at its number, and every other
   * number holds what it held before.
   */
  lemma PlaceFrame<E>(st: Store<E>, num: Option<Arg>, overwrite: bool, e: E, m: int)
    requires Placed(st, num, overwrite, Ok(e)).result.Ok?
    ensures var p := Placed(st, num, overwrite, Ok(e));
      && p.result.value in p.after.items && p.after.items[p.result.value] == e
      && (m != p.result.value ==> (m in p.after.items <==> m in st.items))
      && (m != p.result.value && m in st.items ==> p.after.items[m] == st.items[m])
  {
  }

  /** A taken number without `overwrite` raises AutoRobotIdError and changes nothing. */
  lemma TakenNumberRefused<E>(st: Store<E>, a: Arg, made: Result<E>)
    requires ToInt(a).Ok? && ToInt(a).value in st.items
    ensures Placed(st, Some(a), false, made) == Placement(Err(IdError), st)
  {
  }

  /** With `overwrite`, a taken number ends up holding exactly the new object. */
  lemma OverwriteReplaces<E>(st: Store<E>, a: Arg, e: E)
    requires ToInt(a).Ok?
    ensures Placed(st, Some(a), true, Ok(e)).result == Ok(ToInt(a).value)
    ensures Placed(st, Some(a), true, Ok(e)).after.items == (st.items - {ToInt(a).value})[ToInt(a).value := e]
  {
  }

  /**
   * With `overwrite`, a taken number is deleted before anything else can raise: when a
   * later step raises, the old object is gone and nothing replaces it.
   */
  lemma FailedOverwriteLosesObject<E>(st: Store<E>, a: Arg, err: Error)
    requires ToInt(a).Ok? && ToInt(a).value in st.items
    ensures Placed(st, Some(a), true, Err(err)).result == Err(err)
    ensures ToInt(a).value !in Placed(st, Some(a), true, Err(err)).after.items
    ensures |Placed(st, Some(a), true, Err(err)).after.items| == |st.items| - 1
  {
  }
}
