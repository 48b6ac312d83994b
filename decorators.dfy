/**
 * autorobot/decorators.py: `requires_init`, the guard that refuses to run a function before
 * the package is initialized, and `abstract_attributes`, the class decorator that makes a
 * list of class attributes mandatory for every concrete subclass.
 *
 * Python classes are mutable objects: the decorator assigns attributes on the class it
 * decorates and rebinds its `__init_subclass__`. A `Hierarchy` holds every class defined so
 * far, each known by its position; a class's bases come before it, so attribute lookup
 * through the bases terminates. The attribute `__init_subclass__` holds a `Hook`, the
 * class-creation hook Python runs on every new subclass.
 */
module Decorators {
  import opened Errors

  /** Class creation hooks, as the decorator builds them. */
  datatype Hook =
      /** `object.__init_subclass__`: takes no positional argument, does nothing. */
    | ObjectHook
      /** A hook written by the user; `outcome` is the exception it raises, if any. */
    | UserHook(acceptsPositional: bool, outcome: Option<Error>)
      /**
       * `new_init_subclass` installed by `abstract_attributes(*names)` on class `owner`;
       * `prev` is the hook `owner.__init_subclass__` gave before, bound to `owner`.
       */
    | ContractHook(names: seq<string>, prev: Hook, owner: ClassId)

  /** The class attribute values the decorator tells apart. */
  datatype Value = NotImplemented | NoneValue | Defined(v: int) | HookValue(h: Hook)

  type ClassId = nat

  datatype ClassInfo = ClassInfo(name: string, bases: seq<ClassId>, attrs: map<string, Value>)

  /** `abc.ABC`, the first class of every hierarchy. */
  const ABC: ClassId := 0
  const AbcInfo: ClassInfo := ClassInfo("ABC", [], map[])
  const InitSubclass: string := "__init_subclass__"

  ghost predicate BasesBelow(cs: seq<ClassInfo>)
  {
    forall c, b :: 0 <= c < |cs| && b in cs[c].bases ==> b < c
  }

  ghost predicate HookValid(h: Hook, n: nat)
  {
    match h
    case ContractHook(_, prev, owner) => owner < n && HookValid(prev, n)
    case _ => true
  }

  ghost predicate ValueValid(v: Value, n: nat)
  {
    v.HookValue? ==> HookValid(v.h, n)
  }

  ghost predicate AttrsValid(attrs: map<string, Value>, n: nat)
  {
    forall k :: k in attrs ==> ValueValid(attrs[k], n)
  }

  ghost predicate WellFormed(cs: seq<ClassInfo>)
  {
    && |cs| > 0
    && BasesBelow(cs)
    && (forall c :: 0 <= c < |cs| ==> AttrsValid(cs[c].attrs, |cs|))
  }

  // ---------------------------------------------------------------- attribute lookup

  /** `cls.name`: the class's own attribute, else the first base (depth first) that has it. */
  function Lookup(cs: seq<ClassInfo>, c: ClassId, n: string): (r: Option<Value>)
    requires BasesBelow(cs) && c < |cs|
    ensures n in cs[c].attrs ==> r == Some(cs[c].attrs[n])
    ensures n !in cs[c].attrs && cs[c].bases == [] ==> r.None?
    decreases c, 1
  {
    if n in cs[c].attrs then Some(cs[c].attrs[n]) else LookupBases(cs, cs[c].bases, c, n)
  }

  function LookupBases(cs: seq<ClassInfo>, bs: seq<ClassId>, bound: nat, n: string): Option<Value>
    requires BasesBelow(cs) && bound <= |cs|
    requires forall b :: b in bs ==> b < bound
    decreases bound, 0, |bs|
  {
    if bs == [] then None
    else
      assert bs[0] in bs;
      assert forall b :: b in bs[1..] ==> b in bs;
      match Lookup(cs, bs[0], n)
      case Some(v) => Some(v)
      case None => LookupBases(cs, bs[1..], bound, n)
  }

  /** `getattr(cls, n, NotImplemented)`. */
  function GetAttr(cs: seq<ClassInfo>, c: ClassId, n: string): (r: Value)
    requires BasesBelow(cs) && c < |cs|
    ensures Lookup(cs, c, n).None? ==> r == NotImplemented
    ensures Lookup(cs, c, n).Some? ==> r == Lookup(cs, c, n).value
    ensures n in cs[c].attrs ==> r == cs[c].attrs[n]
  {
    match Lookup(cs, c, n)
    case Some(v) => v
    case None => NotImplemented
  }

  /** `getattr(cls, n, NotImplemented) is NotImplemented`. */
  predicate Missing(cs: seq<ClassInfo>, c: ClassId, n: string): (r: bool)
    requires BasesBelow(cs) && c < |cs|
    ensures n in cs[c].attrs ==> (r <==> cs[c].attrs[n] == NotImplemented)
    ensures Lookup(cs, c, n).None? ==> r
  {
    GetAttr(cs, c, n) == NotImplemented
  }

  /** The hook a class's `__init_subclass__` attribute gives; `object`'s when none is set. */
  function HookOf(v: Option<Value>): Hook
  {
    if v.Some? && v.value.HookValue? then v.value.h else ObjectHook
  }

  // ---------------------------------------------------------------- the contract check

  /** The first listed name that `c` lacks, in list order. */
  function FirstMissing(cs: seq<ClassInfo>, c: ClassId, names: seq<string>): (r: Option<string>)
    requires BasesBelow(cs) && c < |cs|
    ensures r.None? <==> forall n :: n in names ==> !Missing(cs, c, n)
    ensures r.Some? ==> exists i :: (0 <= i < |names| && names[i] == r.value && Missing(cs, c, names[i])
      && forall j :: 0 <= j < i ==> !Missing(cs, c, names[j]))
  {
    if names == [] then None
    else if Missing(cs, c, names[0]) then Some(names[0])
    else
      var r := FirstMissing(cs, c, names[1..]);
      assert forall n :: n in names ==> n == names[0] || n in names[1..];
      if r.Some? then
        var i :| 0 <= i < |names[1..]| && names[1..][i] == r.value && Missing(cs, c, names[1..][i])
          && forall j :: 0 <= j < i ==> !Missing(cs, c, names[1..][j]);
        assert names[i + 1] == r.value;
        assert forall j :: 0 < j < i + 1 ==> names[j] == names[1..][j - 1];
        r
      else r
  }

  /** The message of the NotImplementedError, naming the attribute and the class. */
  function Message(n: string, className: string): (r: string)
    ensures |r| == |n| + |className| + 35
    ensures r[1..|n| + 1] == n
    ensures r[|r| - |className| - 2..|r| - 2] == className
  {
    "`" + n + "` must be a class attribute of `" + className + "`."
  }

  /**
   * The message as decorators.py:53-54 builds it: the second literal lacks the `f` prefix,
   * so the class name placeholder is left in the text uninterpolated.
   */
  function MessageAsWritten(n: string, className: string): (r: string)
    ensures |r| == |n| + 49
    ensures r[1..|n| + 1] == n
    ensures r[|r| - 17..] == "`{cls.__name__}`."
  {
    "`" + n + "` must be a class attribute of " + "`{cls.__name__}`."
  }

  /** The check of `new_init_subclass` on class `c`: skipped when ABC is a direct base. */
  function Check(cs: seq<ClassInfo>, c: ClassId, names: seq<string>): (r: Result<()>)
    requires BasesBelow(cs) && c < |cs|
    ensures r.Ok? <==> ABC in cs[c].bases || forall n :: n in names ==> !Missing(cs, c, n)
    ensures r.Err? ==> exists n :: (n in names && Missing(cs, c, n) &&
      r.error == NotImplementedError(Message(n, cs[c].name)))
  {
    if ABC in cs[c].bases then Ok(())
    else
      match FirstMissing(cs, c, names)
      case None => Ok(())
      case Some(n) => Err(NotImplementedError(Message(n, cs[c].name)))
  }

  // ---------------------------------------------------------------- running the hooks

  /**
   * Runs hook `h` bound to class `self`, as decorators.py:43-55 does: the previous hook is
   * called with `self` as an extra positional argument, and on TypeError again without it;
   * that previous hook was bound to the class decorated earlier (`owner`), not to `self`.
   */
  function RunAsWritten(cs: seq<ClassInfo>, h: Hook, self: ClassId, extra: bool): (r: Result<()>)
    requires BasesBelow(cs) && self < |cs| && HookValid(h, |cs|)
    ensures extra && !h.UserHook? ==> r == Err(TypeError)
    ensures h.ContractHook? && r.Ok? ==> Check(cs, self, h.names).Ok?
    decreases h
  {
    match h
    case ObjectHook => if extra then Err(TypeError) else Ok(())
    case UserHook(acceptsPositional, outcome) =>
      if extra && !acceptsPositional then Err(TypeError)
      else if outcome.Some? then Err(outcome.value) else Ok(())
    case ContractHook(names, prev, owner) =>
      if extra then Err(TypeError)
      else
        var first := RunAsWritten(cs, prev, owner, true);
        var r := if first == Err(TypeError) then RunAsWritten(cs, prev, owner, false) else first;
        if r.Err? then r else Check(cs, self, names)
  }

  /**
   * Runs hook `h` on the new class `self` as the decorator intends: every hook of the chain,
   * earliest first, sees the new class.
   */
  function Run(cs: seq<ClassInfo>, h: Hook, self: ClassId): (r: Result<()>)
    requires BasesBelow(cs) && self < |cs|
    ensures r.Ok? ==> UserFailure(h).None?
    ensures h.ContractHook? && r.Ok? ==> Check(cs, self, h.names).Ok?
    decreases h
  {
    match h
    case ObjectHook => Ok(())
    case UserHook(_, outcome) => if outcome.Some? then Err(outcome.value) else Ok(())
    case ContractHook(names, prev, _) =>
      var r := Run(cs, prev, self);
      if r.Err? then r else Check(cs, self, names)
  }

  /** The names every contract of the chain lists. */
  function Contracts(h: Hook): seq<string>
  {
    match h
    case ContractHook(names, prev, _) => Contracts(prev) + names
    case _ => []
  }

  /** The exception the earliest failing user hook of the chain raises, if any. */
  function UserFailure(h: Hook): Option<Error>
  {
    match h
    case ObjectHook => None
    case UserHook(_, outcome) => outcome
    case ContractHook(_, prev, _) => UserFailure(prev)
  }

  /**
   * A new class is created exactly when no user hook of the chain fails and, unless ABC is
   * one of its direct bases, it has every name every contract of the chain lists.
   */
  lemma {:induction false} RunEnforcesContracts(cs: seq<ClassInfo>, h: Hook, self: ClassId)
    requires BasesBelow(cs) && self < |cs|
    ensures Run(cs, h, self).Ok? <==>
      UserFailure(h).None? && (ABC in cs[self].bases || forall n :: n in Contracts(h) ==> !Missing(cs, self, n))
    ensures UserFailure(h).Some? ==> Run(cs, h, self) == Err(UserFailure(h).value)
  {
    match h
    case ObjectHook =>
    case UserHook(_, _) =>
    case ContractHook(names, prev, _) =>
      RunEnforcesContracts(cs, prev, self);
      assert forall n :: n in Contracts(h) <==> n in Contracts(prev) || n in names;
  }

  /** With a single contract over `object`'s hook, the code as written and the intent agree. */
  lemma SingleContractAgrees(cs: seq<ClassInfo>, names: seq<string>, owner: ClassId, self: ClassId)
    requires BasesBelow(cs) && self < |cs| && owner < |cs|
    ensures RunAsWritten(cs, ContractHook(names, ObjectHook, owner), self, false)
         == Run(cs, ContractHook(names, ObjectHook, owner), self)
         == Check(cs, self, names)
  {
  }

  /** The previous hook runs first: an exception it raises (other than TypeError) surfaces unchanged. */
  lemma PreviousHookFirst(cs: seq<ClassInfo>, names: seq<string>, prev: Hook, owner: ClassId, self: ClassId, e: Error)
    requires BasesBelow(cs) && self < |cs| && owner < |cs| && HookValid(prev, |cs|)
    requires e != TypeError && RunAsWritten(cs, prev, owner, true) == Err(e)
    ensures RunAsWritten(cs, ContractHook(names, prev, owner), self, false) == Err(e)
  {
  }

  // ---------------------------------------------------------------- decoration

  /** The attributes after `setattr(cls, name, NotImplemented)` for each name in turn. */
  function Abstracted(attrs: map<string, Value>, names: seq<string>): (r: map<string, Value>)
    ensures forall n :: n in names ==> n in r && r[n] == NotImplemented
    ensures attrs.Keys <= r.Keys
  {
    if names == [] then attrs
    else Abstracted(attrs, names[..|names| - 1])[names[|names| - 1] := NotImplemented]
  }

  lemma {:induction false} AbstractedSpec(attrs: map<string, Value>, names: seq<string>)
    ensures Abstracted(attrs, names).Keys == attrs.Keys + set n | n in names
    ensures forall n :: n in names ==> Abstracted(attrs, names)[n] == NotImplemented
    ensures forall n :: n in attrs && n !in names ==> Abstracted(attrs, names)[n] == attrs[n]
  {
    if names != [] {
      var init := names[..|names| - 1];
      AbstractedSpec(attrs, init);
      assert forall n :: n in names <==> n in init || n == names[|names| - 1] by {
        assert names == init + [names[|names| - 1]];
      }
    }
  }

  /** The classes after `abstract_attributes(*names)` is applied to class `c`. */
  function Decorated(cs: seq<ClassInfo>, c: ClassId, names: seq<string>): (r: seq<ClassInfo>)
    requires BasesBelow(cs) && c < |cs|
    ensures |r| == |cs|
    ensures forall d :: 0 <= d < |cs| && d != c ==> r[d] == cs[d]
    ensures r[c].name == cs[c].name && r[c].bases == cs[c].bases
    ensures forall n :: n in names && n != InitSubclass ==> n in r[c].attrs && r[c].attrs[n] == NotImplemented
    ensures InitSubclass in r[c].attrs && r[c].attrs[InitSubclass].HookValue?
    ensures r[c].attrs[InitSubclass].h.ContractHook?
    ensures r[c].attrs[InitSubclass].h.names == names && r[c].attrs[InitSubclass].h.owner == c
  {
    var marked := cs[c := cs[c].(attrs := Abstracted(cs[c].attrs, names))];
    var hook := ContractHook(names, HookOf(Lookup(marked, c, InitSubclass)), c);
    marked[c := marked[c].(attrs := marked[c].attrs[InitSubclass := HookValue(hook)])]
  }

  lemma LookupHookValid(cs: seq<ClassInfo>, c: ClassId)
    requires WellFormed(cs) && c < |cs|
    ensures HookValid(HookOf(Lookup(cs, c, InitSubclass)), |cs|)
  {
    var v := Lookup(cs, c, InitSubclass);
    if v.Some? {
      LookupFound(cs, c, InitSubclass);
    }
  }

  /** Whatever a lookup finds is an attribute value of some class of the hierarchy. */
  lemma {:induction false} LookupFound(cs: seq<ClassInfo>, c: ClassId, n: string)
    requires BasesBelow(cs) && c < |cs| && Lookup(cs, c, n).Some?
    ensures exists d :: 0 <= d < |cs| && n in cs[d].attrs && cs[d].attrs[n] == Lookup(cs, c, n).value
    decreases c, 1
  {
    if n !in cs[c].attrs {
      LookupBasesFound(cs, cs[c].bases, c, n);
    }
  }

  lemma {:induction false} LookupBasesFound(cs: seq<ClassInfo>, bs: seq<ClassId>, bound: nat, n: string)
    requires BasesBelow(cs) && bound <= |cs|
    requires forall b :: b in bs ==> b < bound
    requires LookupBases(cs, bs, bound, n).Some?
    ensures exists d :: 0 <= d < |cs| && n in cs[d].attrs && cs[d].attrs[n] == LookupBases(cs, bs, bound, n).value
    decreases bound, 0, |bs|
  {
    assert bs[0] in bs;
    assert forall b :: b in bs[1..] ==> b in bs;
    if Lookup(cs, bs[0], n).Some? {
      LookupFound(cs, bs[0], n);
    } else {
      LookupBasesFound(cs, bs[1..], bound, n);
    }
  }

  lemma {:induction false} HookValidGrows(h: Hook, n: nat, m: nat)
    requires HookValid(h, n) && n <= m
    ensures HookValid(h, m)
  {
    if h.ContractHook? {
      HookValidGrows(h.prev, n, m);
    }
  }

  lemma AttrsValidGrows(attrs: map<string, Value>, n: nat, m: nat)
    requires AttrsValid(attrs, n) && n <= m
    ensures AttrsValid(attrs, m)
  {
    forall k | k in attrs && attrs[k].HookValue? ensures HookValid(attrs[k].h, m) {
      HookValidGrows(attrs[k].h, n, m);
    }
  }

  /**
   * The hierarchy of classes defined so far. `Define` is a class statement; `Decorate`
   * applies `abstract_attributes` to an existing class.
   */
  class Hierarchy {
    var classes: seq<ClassInfo>

    ghost predicate Valid()
      reads this
    {
      WellFormed(classes)
    }

    constructor()
      ensures Valid() && classes == [AbcInfo]
    {
      classes := [AbcInfo];
    }

    /**
     * `abstract_attributes(*names)(cls)`: assigns NotImplemented to each name on the class
     * itself, then rebinds its `__init_subclass__` to a contract hook that keeps the
     * previous one. The decorated class itself is not checked.
     */
    method Decorate(c: ClassId, names: seq<string>)
      requires Valid() && c < |classes|
      modifies this
      ensures Valid()
      ensures classes == Decorated(old(classes), c, names)
    {
      var i := 0;
      while i < |names|
        invariant 0 <= i <= |names|
        invariant classes == old(classes)[c := old(classes)[c].(attrs := Abstracted(old(classes)[c].attrs, names[..i]))]
      {
        assert names[..i + 1][..i] == names[..i];
        classes := classes[c := classes[c].(attrs := classes[c].attrs[names[i] := NotImplemented])];
        i := i + 1;
      }
      assert names[..i] == names;
      assert WellFormed(classes) by {
        AbstractedSpec(old(classes)[c].attrs, names);
        assert AttrsValid(classes[c].attrs, |classes|);
      }
      var orig := HookOf(Lookup(classes, c, InitSubclass));
      LookupHookValid(classes, c);
      classes := classes[c := classes[c].(attrs := classes[c].attrs[InitSubclass := HookValue(ContractHook(names, orig, c))])];
    }

    /** The check loop of `new_init_subclass`. */
    method CheckContract(c: ClassId, names: seq<string>) returns (r: Result<()>)
      requires Valid() && c < |classes|
      ensures r == Check(classes, c, names)
    {
      if ABC in classes[c].bases {
        return Ok(());
      }
      var i := 0;
      while i < |names|
        invariant 0 <= i <= |names|
        invariant forall j :: 0 <= j < i ==> !Missing(classes, c, names[j])
      {
        if GetAttr(classes, c, names[i]) == NotImplemented {
          FirstMissingIs(classes, c, names, i);
          return Err(NotImplementedError(Message(names[i], classes[c].name)));
        }
        i := i + 1;
      }
      return Ok(());
    }

    /** Runs the hook chain on the new class `self`, earliest hook first. */
    method RunHook(h: Hook, self: ClassId) returns (r: Result<()>)
      requires Valid() && self < |classes|
      ensures r == Run(classes, h, self)
      decreases h
    {
      match h
      case ObjectHook =>
        r := Ok(());
      case UserHook(_, outcome) =>
        r := if outcome.Some? then Err(outcome.value) else Ok(());
      case ContractHook(names, prev, _) =>
        r := RunHook(prev, self);
        if r.Ok? {
          r := CheckContract(self, names);
        }
    }

    /**
     * A class statement `class name(*bases): attrs`. The class exists while the hook its bases
     * provide runs on it; if the hook raises, the statement fails and nothing is defined.
     */
    method Define(name: string, bases: seq<ClassId>, attrs: map<string, Value>) returns (r: Result<ClassId>)
      requires Valid()
      requires forall b :: b in bases ==> b < |classes|
      requires AttrsValid(attrs, |classes|)
      modifies this
      ensures Valid()
      ensures var cs := old(classes) + [ClassInfo(name, bases, attrs)];
        r.Ok? <==> Run(cs, HookOf(LookupBases(cs, bases, |old(classes)|, InitSubclass)), |old(classes)|).Ok?
      ensures r.Ok? ==> r.value == |old(classes)| && classes == old(classes) + [ClassInfo(name, bases, attrs)]
      ensures r.Err? ==> classes == old(classes)
    {
      var saved := classes;
      var id := |classes|;
      var cs := classes + [ClassInfo(name, bases, attrs)];
      assert WellFormed(cs) by {
        forall d | 0 <= d < |cs| ensures AttrsValid(cs[d].attrs, |cs|) {
          AttrsValidGrows(cs[d].attrs, id, |cs|);
        }
      }
      classes := cs;
      var hook := HookOf(LookupBases(cs, bases, id, InitSubclass));
      var outcome := RunHook(hook, id);
      if outcome.Err? {
        classes := saved;
        r := Err(outcome.error);
      } else {
        r := Ok(id);
      }
    }
  }

  lemma FirstMissingIs(cs: seq<ClassInfo>, c: ClassId, names: seq<string>, i: nat)
    requires BasesBelow(cs) && c < |cs| && i < |names|
    requires Missing(cs, c, names[i]) && forall j :: 0 <= j < i ==> !Missing(cs, c, names[j])
    ensures FirstMissing(cs, c, names) == Some(names[i])
  {
    var r := FirstMissing(cs, c, names);
    assert names[i] in names;
    var k :| 0 <= k < |names| && names[k] == r.value && Missing(cs, c, names[k])
      && forall j :: 0 <= j < k ==> !Missing(cs, c, names[j]);
  }

  // ---------------------------------------------------------------- properties

  /** Decorating assigns NotImplemented to each listed name on the class and changes no other class. */
  lemma DecorateMarksNames(cs: seq<ClassInfo>, c: ClassId, names: seq<string>)
    requires BasesBelow(cs) && c < |cs|
    ensures |Decorated(cs, c, names)| == |cs|
    ensures forall d :: 0 <= d < |cs| && d != c ==> Decorated(cs, c, names)[d] == cs[d]
    ensures Decorated(cs, c, names)[c].bases == cs[c].bases
    ensures forall n :: n in names && n != InitSubclass ==>
      n in Decorated(cs, c, names)[c].attrs && Decorated(cs, c, names)[c].attrs[n] == NotImplemented
    ensures Decorated(cs, c, names)[c].attrs[InitSubclass].HookValue?
    ensures Decorated(cs, c, names)[c].attrs[InitSubclass].h.names == names
  {
    AbstractedSpec(cs[c].attrs, names);
  }

  /**
   * A direct subclass of a class decorated once (over `object`'s hook) is created exactly
   * when ABC is among its direct bases or it assigns every listed name a value other than
   * NotImplemented, `None` included; the created class then has those values.
   */
  lemma SubclassOfDecorated(cs: seq<ClassInfo>, c: ClassId, names: seq<string>, name: string, attrs: map<string, Value>, abstractBase: bool)
    requires BasesBelow(cs) && c < |cs| && c != ABC
    requires HookOf(Lookup(cs[c := cs[c].(attrs := Abstracted(cs[c].attrs, names))], c, InitSubclass)) == ObjectHook
    requires InitSubclass !in names
    ensures var d := Decorated(cs, c, names);
      var bases := if abstractBase then [c, ABC] else [c];
      var e := d + [ClassInfo(name, bases, attrs)];
      && (Run(e, HookOf(LookupBases(e, bases, |d|, InitSubclass)), |d|).Ok? <==>
          abstractBase || forall n :: n in names ==> n in attrs && attrs[n] != NotImplemented)
      && forall n :: n in attrs ==> GetAttr(e, |d|, n) == attrs[n]
  {
    var d := Decorated(cs, c, names);
    var bases := if abstractBase then [c, ABC] else [c];
    var e := d + [ClassInfo(name, bases, attrs)];
    AbstractedSpec(cs[c].attrs, names);
    assert BasesBelow(d);
    assert BasesBelow(e);
    assert forall n :: n in d[c].attrs ==> Lookup(e, c, n) == Some(d[c].attrs[n]) by {
      assert e[c] == d[c];
    }
    var hook := ContractHook(names, ObjectHook, c);
    assert Lookup(e, c, InitSubclass) == Some(HookValue(hook));
    assert LookupBases(e, bases, |d|, InitSubclass) == Some(HookValue(hook));
    forall n | n in names ensures Missing(e, |d|, n) <==> !(n in attrs && attrs[n] != NotImplemented) {
      if n !in attrs {
        assert n in d[c].attrs && d[c].attrs[n] == NotImplemented;
        assert Lookup(e, c, n) == Some(NotImplemented);
        assert LookupBases(e, bases, |d|, n) == Some(NotImplemented);
      }
    }
  }

  /** Appending a class changes no lookup on the classes before it. */
  lemma {:induction false} LookupAppend(cs: seq<ClassInfo>, x: ClassInfo, c: ClassId, n: string)
    requires BasesBelow(cs) && BasesBelow(cs + [x]) && c < |cs|
    ensures Lookup(cs + [x], c, n) == Lookup(cs, c, n)
    decreases c, 1
  {
    assert (cs + [x])[c] == cs[c];
    if n !in cs[c].attrs {
      LookupBasesAppend(cs, x, cs[c].bases, c, n);
    }
  }

  lemma {:induction false} LookupBasesAppend(cs: seq<ClassInfo>, x: ClassInfo, bs: seq<ClassId>, bound: nat, n: string)
    requires BasesBelow(cs) && BasesBelow(cs + [x]) && bound <= |cs|
    requires forall b :: b in bs ==> b < bound
    ensures LookupBases(cs + [x], bs, bound, n) == LookupBases(cs, bs, bound, n)
    decreases bound, 0, |bs|
  {
    if bs != [] {
      assert bs[0] in bs;
      assert forall b :: b in bs[1..] ==> b in bs;
      LookupAppend(cs, x, bs[0], n);
      LookupBasesAppend(cs, x, bs[1..], bound, n);
    }
  }

  /**
   * A value inherited from a compliant ancestor satisfies the check: a new class whose base
   * has every listed name lacks none of the names it does not assign itself.
   */
  lemma InheritedValueSatisfies(cs: seq<ClassInfo>, b: ClassId, name: string, attrs: map<string, Value>, names: seq<string>)
    requires BasesBelow(cs) && b < |cs|
    requires forall n :: n in names ==> !Missing(cs, b, n)
    ensures BasesBelow(cs + [ClassInfo(name, [b], attrs)])
    ensures forall n :: n in names && n !in attrs ==>
      GetAttr(cs + [ClassInfo(name, [b], attrs)], |cs|, n) == GetAttr(cs, b, n) &&
      !Missing(cs + [ClassInfo(name, [b], attrs)], |cs|, n)
  {
    var e := cs + [ClassInfo(name, [b], attrs)];
    assert BasesBelow(e);
    forall n | n in names && n !in attrs ensures GetAttr(e, |cs|, n) == GetAttr(cs, b, n) {
      LookupAppend(cs, ClassInfo(name, [b], attrs), b, n);
      assert LookupBases(e, [b], |cs|, n) == Lookup(e, b, n);
    }
  }

  // ---------------------------------------------------------------- findings

  /**
   * Two nested contracts, built with the model's own steps: `Outer` is decorated with
   * `a`; `Inner(Outer, ABC)` is defined (exempt) and decorated with `b`; `Leaf(Inner)`
   * assigns `b` only.
   */
  function NestedWorld(): seq<ClassInfo>
  {
    var w1 := [AbcInfo, ClassInfo("Outer", [], map[])];
    var w2 := Decorated(w1, 1, ["a"]);
    var w3 := w2 + [ClassInfo("Inner", [1, ABC], map[])];
    var w4 := Decorated(w3, 2, ["b"]);
    w4 + [ClassInfo("Leaf", [2], map["b" := Defined(1)])]
  }

  /**
   * As written, creating `Leaf` succeeds although it still lacks `a`: the outer contract is
   * re-run bound to `Inner`, which lists ABC, instead of on `Leaf`. The intended run
   * rejects `Leaf`.
   */
  lemma NestedContractBypassed()
    ensures BasesBelow(NestedWorld()) && |NestedWorld()| == 4
    ensures var w := NestedWorld();
      var hook := HookOf(LookupBases(w, [2], 3, InitSubclass));
      && HookValid(hook, 4)
      && Missing(w, 3, "a")
      && RunAsWritten(w, hook, 3, false) == Ok(())
      && Run(w, hook, 3) == Err(NotImplementedError(Message("a", "Leaf")))
  {
    var w1 := [AbcInfo, ClassInfo("Outer", [], map[])];
    var h1 := ContractHook(["a"], ObjectHook, 1);
    var w2 := Decorated(w1, 1, ["a"]);
    assert w2[1].attrs == map["a" := NotImplemented, InitSubclass := HookValue(h1)];
    var w3 := w2 + [ClassInfo("Inner", [1, ABC], map[])];
    assert BasesBelow(w3);
    var h2 := ContractHook(["b"], h1, 2);
    assert Lookup(w3, 1, InitSubclass) == Some(HookValue(h1));
    assert Lookup(w3, 2, InitSubclass) == Some(HookValue(h1));
    var marked := w3[2 := w3[2].(attrs := Abstracted(w3[2].attrs, ["b"]))];
    assert marked[2].attrs == map["b" := NotImplemented];
    assert marked[1] == w3[1];
    assert Lookup(marked, 1, InitSubclass) == Some(HookValue(h1));
    assert Lookup(marked, 2, InitSubclass) == Some(HookValue(h1));
    var w4 := Decorated(w3, 2, ["b"]);
    assert w4[2].attrs == map["b" := NotImplemented, InitSubclass := HookValue(h2)];
    var w := NestedWorld();
    assert w == w4 + [ClassInfo("Leaf", [2], map["b" := Defined(1)])];
    assert BasesBelow(w);
    assert Lookup(w, 2, InitSubclass) == Some(HookValue(h2));
    assert LookupBases(w, [2], 3, InitSubclass) == Some(HookValue(h2));
    assert Lookup(w, 1, "a") == Some(NotImplemented);
    assert Lookup(w, 2, "a") == Some(NotImplemented);
    assert Lookup(w, 3, "a") == Some(NotImplemented);
    assert Lookup(w, 3, "b") == Some(Defined(1));
    assert RunAsWritten(w, h1, 2, true) == Err(TypeError);
    assert RunAsWritten(w, h1, 2, false) == Ok(());
  }

  /** As written, the message is the same whatever the class: its name is never interpolated. */
  lemma MessageAsWrittenIgnoresClass(n: string, c1: string, c2: string)
    ensures MessageAsWritten(n, c1) == MessageAsWritten(n, c2)
  {
  }

  /** The intended message names the class: two classes of different names get different messages. */
  lemma MessageNamesClass(n: string, c1: string, c2: string)
    requires c1 != c2
    ensures Message(n, c1) != Message(n, c2)
  {
    var p := "`" + n + "` must be a class attribute of `";
    assert Message(n, c1) == p + c1 + "`.";
    assert Message(n, c2) == p + c2 + "`.";
    if |c1| == |c2| {
      assert (p + c1 + "`.")[|p|..|p| + |c1|] == c1;
      assert (p + c2 + "`.")[|p|..|p| + |c2|] == c2;
    }
  }

  // ---------------------------------------------------------------- requires_init

  /**
   * `requires_init(func)(...)` as written: the guard raises the tuple
   * `(AutoRobotInitError, message)`, which Python 3 rejects with TypeError.
   */
  function RequiresInitAsWritten<T>(initialized: bool, call: Result<T>): (r: Result<T>)
    ensures !initialized ==> r.Err? && r.error != InitError
    ensures initialized ==> r == call
  {
    if !initialized then Err(TypeError) else call
  }

  /**
   * `requires_init(func)(...)`: `call` is what `func(*args, **kwargs)` would give. Before
   * initialization the guard raises AutoRobotInitError whatever `func` would do; after it,
   * `func`'s result or exception passes through unchanged.
   */
  function RequiresInit<T>(initialized: bool, call: Result<T>): (r: Result<T>)
    ensures !initialized ==> r == Err(InitError)
    ensures initialized ==> r == call
  {
    if !initialized then Err(InitError) else call
  }

  /** As written, an uninitialized call raises TypeError, never AutoRobotInitError. */
  lemma RequiresInitRaisesTypeError<T>(call: Result<T>)
    ensures RequiresInitAsWritten(false, call) == Err(TypeError)
    ensures RequiresInitAsWritten(false, call) != RequiresInit(false, call)
  {
  }
}
