/**
 * The host's label servers as the release, support, section and material wrappers use
 * them: labels are kept under their names, `Create(type, name)` makes a label that is not
 * stored until `Store`/`StoreWithName`, and `exist`, `delete` and `get` work by name.
 */
module Labels {
  import opened Errors

  /** The result of a call on a label server together with the labels it leaves behind. */
  datatype LabelOutcome<T, D> = LabelOutcome(result: Result<T>, after: map<string, D>)

  /** A host label server holding labels whose data are of type `D`. */
  class LabelServer<D> {
    var labels: map<string, D>

    constructor ()
      ensures labels == map[]
    {
      labels := map[];
    }

    predicate Exist(name: string): (r: bool)
      reads this
      ensures r <==> name in labels
    {
      name in labels
    }

    /** `get(name)`; an unknown name raises the base registry's lookup error. */
    function Get(name: string): (r: Result<D>)
      reads this
      ensures r.Ok? <==> Exist(name)
      ensures r.Ok? ==> r.value == labels[name]
    {
      if name in labels then Ok(labels[name]) else Err(LookupError)
    }

    /** `delete(name)`: afterwards `exist(name)` is false and every other label is kept. */
    method Delete(name: string)
      modifies this
      ensures !Exist(name)
      ensures labels == old(labels) - {name}
    {
      labels := labels - {name};
    }

    /** `StoreWithName(label, name)`, and `Store(label)` for a label created under `name`. */
    method StoreWithName(name: string, d: D)
      modifies this
      ensures Exist(name) && Get(name) == Ok(d)
      ensures labels == old(labels)[name := d]
    {
      labels := labels[name := d];
    }
  }

  /** The host's 1-based names array read as `[names.Get(i) for i in range(1, names.Count + 1)]`. */
  function HostNames(count: nat, get: int -> string): (names: seq<string>)
    ensures |names| == count
    ensures forall i :: 1 <= i <= count ==> names[i - 1] == get(i)
  {
    seq(count, j requires 0 <= j < count => get(j + 1))
  }

  /** `[name for name in names if func(name)]`. */
  function Kept(names: seq<string>, keep: string -> bool): (r: seq<string>)
    ensures |r| <= |names|
    ensures forall x :: x in r <==> x in names && keep(x)
  {
    if names == [] then []
    else
      var rest := Kept(names[1..], keep);
      assert forall x :: x in names <==> x == names[0] || x in names[1..] by {
        assert names == [names[0]] + names[1..];
      }
      if keep(names[0]) then [names[0]] + rest else rest
  }

  /**
   * A names array of the host filtered by `func`, as `db_list` and `get_db_names` return it:
   * a name is listed iff the array holds it at some index 1..Count and it passes the filter.
   */
  function Listed(count: nat, get: int -> string, keep: string -> bool): (r: seq<string>)
    ensures |r| <= count
    ensures forall x :: x in r <==> (exists i :: 1 <= i <= count && get(i) == x) && keep(x)
  {
    var names := HostNames(count, get);
    assert forall x :: x in names <==> exists i :: 1 <= i <= count && get(i) == x by {
      forall x | x in names ensures exists i :: 1 <= i <= count && get(i) == x {
        var j :| 0 <= j < |names| && names[j] == x;
        assert get(j + 1) == x;
      }
    }
    Kept(names, keep)
  }

  /** Filtering keeps index order: the names kept from a concatenation are those of each part, in turn. */
  lemma {:induction false} KeptInOrder(a: seq<string>, b: seq<string>, keep: string -> bool)
    ensures Kept(a + b, keep) == Kept(a, keep) + Kept(b, keep)
  {
    if a != [] {
      assert (a + b)[1..] == a[1..] + b;
      KeptInOrder(a[1..], b, keep);
    } else {
      assert a + b == b;
    }
  }

  /** The default filter `lambda s: True` keeps every name. */
  lemma {:induction false} KeepAll(names: seq<string>)
    ensures Kept(names, _ => true) == names
  {
    if names != [] {
      KeepAll(names[1..]);
    }
  }
}
