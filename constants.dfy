/**
 * The alias tables of autorobot/constants.py. Each table (`RProjType` ... `RLicenseStatus`)
 * wraps one host enumeration type as a string-keyed lookup table: every member name of the
 * host enumeration, plus the custom aliases the module lists. A table is also callable
 * (build a value of the host type from an integer code) and iterable (one value per
 * distinct integer code).
 *
 * The host enumerations live in the host application, so their members and codes are not
 * known here: a `SourceEnum` value stands for one, and a table is built from it by `Build`.
 */
module Constants {
  import opened Errors

  /** The host enumeration types wrapped by the sixteen tables. */
  datatype EnumKind =
    | ProjectType | QuitOption | ObjectType | LabelType | CaseNature | CaseType
    | CombinationType | CaseAnalizeType | LoadRecordType | MaterialType
    | BarEndReleaseValue | DeadRecordValues | BarUniformRecordValues
    | BarForceConcentrateRecordValues | LicenseEntitlement | LicenseEntitlementStatus

  /** A value of a host enumeration: its type and its integer code, `int(value)`. */
  datatype EnumValue = EnumValue(kind: EnumKind, code: int)

  /** A host enumeration: its member names in `GetNames` order and each member's code. */
  datatype SourceEnum = SourceEnum(kind: EnumKind, names: seq<string>, codes: map<string, int>)

  predicate Distinct(s: seq<string>)
  {
    forall i, j :: 0 <= i < j < |s| ==> s[i] != s[j]
  }

  ghost predicate ValidSource(src: SourceEnum)
  {
    Distinct(src.names) && (forall n :: n in src.codes <==> n in src.names)
  }

  /** The member of the host enumeration called `name`. */
  function SourceValue(src: SourceEnum, name: string): EnumValue
    requires name in src.codes
  {
    EnumValue(src.kind, src.codes[name])
  }

  /**
   * What a custom alias stands for: the name of a host member, or a raw integer code that
   * is converted to a value of the host type without checking.
   */
  datatype Target = Member(name: string) | RawCode(code: int)

  /** A custom alias: a new key and what it stands for. */
  type Alias = (string, Target)

  /**
   * A table: the host type it wraps, its keys in insertion order, the mapping itself,
   * and `custom_index`, the part of the mapping that came from custom aliases.
   */
  datatype AliasTable = AliasTable(
    source: SourceEnum,
    keys: seq<string>,
    index: map<string, EnumValue>,
    customIndex: map<string, EnumValue>)

  ghost predicate ValidTable(t: AliasTable)
  {
    && Distinct(t.keys)
    && (forall k :: k in t.index <==> k in t.keys)
    && (forall k :: k in t.customIndex ==> k in t.index && t.customIndex[k] == t.index[k])
    && (forall k :: k in t.index ==> t.index[k].kind == t.source.kind)
  }

  /** The table before any custom alias: exactly the members of the host type. */
  function Seed(src: SourceEnum): (t: AliasTable)
    requires ValidSource(src)
    ensures ValidTable(t) && t.source == src && t.customIndex == map[]
    ensures t.index.Keys == set n | n in src.names
    ensures forall n :: n in src.codes ==> t.index[n] == SourceValue(src, n)
  {
    AliasTable(src, src.names, map n | n in src.codes :: SourceValue(src, n), map[])
  }

  /**
   * The value an alias stands for: the member it names, where a name the host type lacks
   * raises ValueError, or the host value with its raw code, which always succeeds.
   */
  function ResolveAlias(src: SourceEnum, target: Target): (r: Result<EnumValue>)
    ensures target.Member? ==> (r.Ok? <==> target.name in src.codes)
    ensures target.Member? && r.Ok? ==> r.value == SourceValue(src, target.name)
    ensures target.Member? && r.Err? ==> r.error == ValueError
    ensures target.RawCode? ==> r == Ok(EnumValue(src.kind, target.code))
  {
    match target
    case Member(n) => if n in src.codes then Ok(SourceValue(src, n)) else Err(ValueError)
    case RawCode(c) => Ok(EnumValue(src.kind, c))
  }

  /** Dictionary assignment `t[name] = v`: an existing key keeps its place. */
  function Put(t: AliasTable, name: string, v: EnumValue): AliasTable
  {
    t.(keys := if name in t.index then t.keys else t.keys + [name],
       index := t.index[name := v],
       customIndex := t.customIndex[name := v])
  }

  function AliasNames(aliases: seq<Alias>): set<string>
  {
    set a | a in aliases :: a.0
  }

  predicate Resolvable(src: SourceEnum, aliases: seq<Alias>)
  {
    forall a :: a in aliases ==> ResolveAlias(src, a.1).Ok?
  }

  /** Merges the custom aliases in order; a later alias overwrites an earlier key. */
  function Merge(t: AliasTable, aliases: seq<Alias>): (r: Result<AliasTable>)
    ensures r.Ok? <==> Resolvable(t.source, aliases)
    ensures r.Err? ==> r.error == ValueError
    ensures r.Ok? ==> r.value.source == t.source
    decreases |aliases|
  {
    if aliases == [] then Ok(t)
    else
      assert forall a :: a in aliases <==> a == aliases[0] || a in aliases[1..] by {
        assert aliases == [aliases[0]] + aliases[1..];
      }
      match ResolveAlias(t.source, aliases[0].1)
      case Err(e) => Err(e)
      case Ok(v) => Merge(Put(t, aliases[0].0, v), aliases[1..])
  }

  /** Assigning a value of the host type keeps a table well formed. */
  lemma PutValid(t: AliasTable, name: string, v: EnumValue)
    requires ValidTable(t) && v.kind == t.source.kind
    ensures ValidTable(Put(t, name, v))
  {
  }

  /**
   * After merging, the keys are the old keys plus the alias names, `custom_index` grows by
   * the alias names, and a key no alias names keeps its value.
   */
  lemma {:induction false} MergeInvariant(t: AliasTable, aliases: seq<Alias>)
    requires ValidTable(t) && Merge(t, aliases).Ok?
    ensures ValidTable(Merge(t, aliases).value)
    ensures Merge(t, aliases).value.index.Keys == t.index.Keys + AliasNames(aliases)
    ensures Merge(t, aliases).value.customIndex.Keys == t.customIndex.Keys + AliasNames(aliases)
    ensures forall k :: k in t.index && k !in AliasNames(aliases) ==>
      Merge(t, aliases).value.index[k] == t.index[k]
    decreases |aliases|
  {
    if aliases != [] {
      var v := ResolveAlias(t.source, aliases[0].1).value;
      var t' := Put(t, aliases[0].0, v);
      PutValid(t, aliases[0].0, v);
      assert Merge(t, aliases) == Merge(t', aliases[1..]);
      assert AliasNames(aliases) == {aliases[0].0} + AliasNames(aliases[1..]) by {
        assert aliases == [aliases[0]] + aliases[1..];
      }
      MergeInvariant(t', aliases[1..]);
    }
  }

  /** `EnumCapsule(source, custom)`: seed with the host members, then merge the aliases. */
  function Build(src: SourceEnum, aliases: seq<Alias>): (r: Result<AliasTable>)
    requires ValidSource(src)
    ensures r.Ok? <==> Resolvable(src, aliases)
    ensures r.Err? ==> r.error == ValueError
    ensures r.Ok? ==> ValidTable(r.value) && r.value.source == src
    ensures r.Ok? ==> r.value.index.Keys == (set n | n in src.names) + AliasNames(aliases)
    ensures r.Ok? ==> r.value.customIndex.Keys == AliasNames(aliases)
  {
    var r := Merge(Seed(src), aliases);
    assert r.Ok? ==> && ValidTable(r.value)
                     && r.value.index.Keys == (set n | n in src.names) + AliasNames(aliases)
                     && r.value.customIndex.Keys == AliasNames(aliases) by {
      if r.Ok? {
        MergeInvariant(Seed(src), aliases);
      }
    }
    r
  }

  /** `table[name]`: the value under a key; any other name raises KeyError. */
  function Get(t: AliasTable, name: string): (r: Result<EnumValue>)
    ensures r.Ok? <==> name in t.index
    ensures r.Ok? ==> r.value == t.index[name]
    ensures r.Err? ==> r.error == KeyError
  {
    if name in t.index then Ok(t.index[name]) else Err(KeyError)
  }

  /** `table.NAME`: a key first, then an attribute of the host type, else AttributeError. */
  function Attr(t: AliasTable, name: string): (r: Result<EnumValue>)
    ensures r.Ok? <==> name in t.index || name in t.source.codes
    ensures name in t.index ==> r == Get(t, name)
    ensures name !in t.index && name in t.source.codes ==> r == Ok(SourceValue(t.source, name))
    ensures r.Err? ==> r.error == AttributeError(name)
  {
    if name in t.index then Ok(t.index[name])
    else if name in t.source.codes then Ok(SourceValue(t.source, name))
    else Err(AttributeError(name))
  }

  /**
   * `table(code, unchecked)`; unchecked is the default. An unchecked call builds the host
   * value with any code; a checked one only with a code the host type defines.
   */
  function Call(t: AliasTable, code: int, unchecked: bool := true): (r: Result<EnumValue>)
    ensures r.Ok? <==> unchecked || code in t.source.codes.Values
    ensures r.Ok? ==> r.value.kind == t.source.kind && r.value.code == code
    ensures r.Err? ==> r.error == ValueError
  {
    if unchecked || code in t.source.codes.Values then Ok(EnumValue(t.source.kind, code))
    else Err(ValueError)
  }

  /** The values of the table, in key order. */
  function ValuesOf(keys: seq<string>, index: map<string, EnumValue>): (vs: seq<EnumValue>)
    requires forall k :: k in keys ==> k in index
    ensures |vs| == |keys|
    ensures forall i :: 0 <= i < |keys| ==> vs[i] == index[keys[i]]
  {
    if keys == [] then [] else [index[keys[0]]] + ValuesOf(keys[1..], index)
  }

  function Values(t: AliasTable): seq<EnumValue>
    requires ValidTable(t)
  {
    ValuesOf(t.keys, t.index)
  }

  function Codes(vs: seq<EnumValue>): set<int>
  {
    set v | v in vs :: v.code
  }

  predicate DistinctCodes(vs: seq<EnumValue>)
  {
    forall i, j :: 0 <= i < j < |vs| ==> vs[i].code != vs[j].code
  }

  /**
   * The values in order, keeping the first of each integer code not in `seen`. Codes are
   * compared with `int(value)`, never with the values' own hash or equality.
   */
  function DedupByCode(vs: seq<EnumValue>, seen: set<int>): (r: seq<EnumValue>)
    ensures forall v :: v in r ==> v in vs
    ensures Codes(r) == Codes(vs) - seen
    ensures DistinctCodes(r)
  {
    if vs == [] then []
    else
      assert Codes(vs) == {vs[0].code} + Codes(vs[1..]) by {
        assert vs == [vs[0]] + vs[1..];
      }
      if vs[0].code in seen then DedupByCode(vs[1..], seen)
      else
        var rest := DedupByCode(vs[1..], seen + {vs[0].code});
        assert forall i :: 0 <= i < |rest| ==> rest[i].code in Codes(rest);
        assert Codes([vs[0]] + rest) == {vs[0].code} + Codes(rest) by {
          assert forall v :: v in [vs[0]] + rest <==> v == vs[0] || v in rest;
        }
        [vs[0]] + rest
  }

  /** `iter(table)`: one value per distinct integer code, in key order. */
  function Iterate(t: AliasTable): (r: seq<EnumValue>)
    requires ValidTable(t)
    ensures Codes(r) == Codes(Values(t))
    ensures DistinctCodes(r)
  {
    DedupByCode(Values(t), {})
  }

  function MaxCode(vs: seq<EnumValue>): (m: int)
    requires vs != []
    ensures m in Codes(vs)
    ensures forall v :: v in vs ==> v.code <= m
  {
    if |vs| == 1 then vs[0].code
    else
      var m := MaxCode(vs[1..]);
      assert forall v :: v in vs[1..] ==> v in vs;
      if vs[0].code > m then vs[0].code else m
  }

  // ---------------------------------------------------------------- properties

  /** Every member name of the host type is a key, and keeps its member unless a custom alias reuses the name. */
  lemma SourcePairsKept(src: SourceEnum, aliases: seq<Alias>, t: AliasTable, n: string)
    requires ValidSource(src) && Build(src, aliases) == Ok(t)
    requires n in src.names
    ensures n in t.index
    ensures n !in AliasNames(aliases) ==> t.index[n] == SourceValue(src, n)
  {
    MergeInvariant(Seed(src), aliases);
    assert n in Seed(src).index;
  }

  /** `custom_index` holds exactly the keys that are not member names, when no alias reuses a member name. */
  lemma CustomIndexKeys(src: SourceEnum, aliases: seq<Alias>, t: AliasTable)
    requires ValidSource(src) && Build(src, aliases) == Ok(t)
    requires forall a :: a in aliases ==> a.0 !in src.codes
    ensures t.customIndex.Keys == t.index.Keys - (set n | n in src.names)
  {
  }

  /** One step of `Merge`: the first alias resolves, and the rest merges into the updated table. */
  lemma MergeStep(t: AliasTable, aliases: seq<Alias>) returns (v: EnumValue)
    requires ValidTable(t) && aliases != [] && Merge(t, aliases).Ok?
    ensures ResolveAlias(t.source, aliases[0].1) == Ok(v)
    ensures ValidTable(Put(t, aliases[0].0, v)) && Put(t, aliases[0].0, v).source == t.source
    ensures Merge(t, aliases) == Merge(Put(t, aliases[0].0, v), aliases[1..])
  {
    v := ResolveAlias(t.source, aliases[0].1).value;
    PutValid(t, aliases[0].0, v);
  }

  /** The first alias, not repeated later, keeps the value it resolved to. */
  lemma MergeAliasHead(t: AliasTable, aliases: seq<Alias>)
    requires ValidTable(t) && Merge(t, aliases).Ok?
    requires 0 < |aliases|
    requires forall j :: 0 < j < |aliases| ==> aliases[j].0 != aliases[0].0
    ensures ResolveAlias(t.source, aliases[0].1).Ok?
    ensures aliases[0].0 in Merge(t, aliases).value.index
    ensures Merge(t, aliases).value.index[aliases[0].0] == ResolveAlias(t.source, aliases[0].1).value
  {
    var v := MergeStep(t, aliases);
    var t' := Put(t, aliases[0].0, v);
    var rest := aliases[1..];
    assert aliases[0].0 !in AliasNames(rest) by {
      forall a | a in rest ensures a.0 != aliases[0].0 {
        var j :| 0 <= j < |rest| && rest[j] == a;
        assert aliases[j + 1] == a;
      }
    }
    MergeInvariant(t', rest);
  }

  /** An alias that no later alias overwrites keeps the value it resolved to. */
  lemma {:induction false} MergeAliasValue(t: AliasTable, aliases: seq<Alias>, i: nat)
    requires ValidTable(t) && Merge(t, aliases).Ok?
    requires i < |aliases|
    requires forall j :: i < j < |aliases| ==> aliases[j].0 != aliases[i].0
    ensures ResolveAlias(t.source, aliases[i].1).Ok?
    ensures aliases[i].0 in Merge(t, aliases).value.index
    ensures Merge(t, aliases).value.index[aliases[i].0] == ResolveAlias(t.source, aliases[i].1).value
    decreases |aliases|
  {
    if i == 0 {
      MergeAliasHead(t, aliases);
    } else {
      var v := MergeStep(t, aliases);
      var t' := Put(t, aliases[0].0, v);
      var rest := aliases[1..];
      assert rest[i - 1] == aliases[i];
      forall j | i - 1 < j < |rest| ensures rest[j].0 != rest[i - 1].0 {
        assert rest[j] == aliases[j + 1];
      }
      MergeAliasValue(t', rest, i - 1);
    }
  }

  /**
   * A custom alias given as a member name resolves to that member; when the member name is
   * not itself reused as an alias, both keys give the same value (`RProjType.SHELL ==
   * RProjType.I_PT_SHELL`).
   */
  lemma CustomAliasResolves(src: SourceEnum, aliases: seq<Alias>, t: AliasTable, i: nat, n: string)
    requires ValidSource(src) && Build(src, aliases) == Ok(t)
    requires i < |aliases| && aliases[i].1 == Member(n)
    requires forall j :: i < j < |aliases| ==> aliases[j].0 != aliases[i].0
    ensures aliases[i].0 in t.index && n in t.index
    ensures t.index[aliases[i].0] == SourceValue(src, n)
    ensures n !in AliasNames(aliases) ==> t.index[aliases[i].0] == t.index[n]
  {
    MergeAliasValue(Seed(src), aliases, i);
    assert aliases[i] in aliases;
    SourcePairsKept(src, aliases, t, n);
  }

  /**
   * A custom alias given as a raw integer holds the value an unchecked call with that code
   * builds, whether or not the host type defines the code.
   */
  lemma RawCodeAliasIsUnchecked(src: SourceEnum, aliases: seq<Alias>, t: AliasTable, i: nat, code: int)
    requires ValidSource(src) && Build(src, aliases) == Ok(t)
    requires i < |aliases| && aliases[i].1 == RawCode(code)
    requires forall j :: i < j < |aliases| ==> aliases[j].0 != aliases[i].0
    ensures aliases[i].0 in t.index
    ensures Ok(t.index[aliases[i].0]) == Call(t, code)
  {
    MergeAliasValue(Seed(src), aliases, i);
  }

  /** Every key is also readable as an attribute of the table. */
  lemma KeysAreAttributes(t: AliasTable, k: string)
    requires k in t.index
    ensures Attr(t, k) == Get(t, k) == Ok(t.index[k])
  {
  }

  function IndexCodes(t: AliasTable): set<int>
  {
    set k | k in t.index :: t.index[k].code
  }

  /** The codes of the values, taken in key order, are the codes stored under the keys. */
  lemma ValuesCodes(t: AliasTable)
    requires ValidTable(t)
    ensures Codes(Values(t)) == IndexCodes(t)
  {
    var vs := Values(t);
    forall c | c in Codes(vs) ensures c in IndexCodes(t) {
      var v :| v in vs && v.code == c;
      var i :| 0 <= i < |vs| && vs[i] == v;
      assert t.keys[i] in t.index;
    }
    forall c | c in IndexCodes(t) ensures c in Codes(vs) {
      var k :| k in t.index && t.index[k].code == c;
      var i :| 0 <= i < |t.keys| && t.keys[i] == k;
      assert vs[i] in vs;
    }
  }

  /** Every value stored in, or iterated from, a table is a value of the host type. */
  lemma MemberType(t: AliasTable)
    requires ValidTable(t)
    ensures forall k :: k in t.index ==> t.index[k].kind == t.source.kind
    ensures forall v :: v in Iterate(t) ==> v.kind == t.source.kind
  {
    forall v | v in Iterate(t) ensures v.kind == t.source.kind {
      var vs := Values(t);
      assert v in vs;
      var i :| 0 <= i < |vs| && vs[i] == v;
      assert t.keys[i] in t.index;
    }
  }

  lemma {:induction false} DistinctCodesCount(vs: seq<EnumValue>)
    requires DistinctCodes(vs)
    ensures |Codes(vs)| == |vs|
  {
    if vs != [] {
      var rest := vs[1..];
      assert vs == [vs[0]] + rest;
      assert Codes(vs) == {vs[0].code} + Codes(rest);
      assert vs[0].code !in Codes(rest) by {
        forall v | v in rest ensures v.code != vs[0].code {
          var j :| 0 <= j < |rest| && rest[j] == v;
          assert vs[j + 1] == v;
        }
      }
      DistinctCodesCount(rest);
    }
  }

  /**
   * Iteration yields exactly one value per distinct integer code among the table's values,
   * and covers all of them.
   */
  lemma IterationDistinctCodes(t: AliasTable)
    requires ValidTable(t)
    ensures DistinctCodes(Iterate(t))
    ensures Codes(Iterate(t)) == IndexCodes(t)
    ensures |Iterate(t)| == |IndexCodes(t)|
  {
    ValuesCodes(t);
    DistinctCodesCount(Iterate(t));
  }

  /** Calling a table with any integer (unchecked) builds the host value with that code. */
  lemma UncheckedCall(t: AliasTable, code: int)
    ensures Call(t, code).Ok?
    ensures Call(t, code).value.kind == t.source.kind && Call(t, code).value.code == code
  {
  }

  lemma {:induction false} MergeKeepsDefinedCodes(t: AliasTable, aliases: seq<Alias>)
    requires ValidTable(t) && Merge(t, aliases).Ok?
    requires IndexCodes(t) <= t.source.codes.Values
    requires forall a :: a in aliases ==> a.1.Member?
    ensures IndexCodes(Merge(t, aliases).value) <= t.source.codes.Values
    decreases |aliases|
  {
    if aliases != [] {
      var v := MergeStep(t, aliases);
      assert aliases[0] in aliases;
      assert v == SourceValue(t.source, aliases[0].1.name);
      var t' := Put(t, aliases[0].0, v);
      var rest := aliases[1..];
      assert IndexCodes(t') <= t.source.codes.Values by {
        forall c | c in IndexCodes(t') ensures c in t.source.codes.Values {
          var k :| k in t'.index && t'.index[k].code == c;
          if k != aliases[0].0 {
            assert c in IndexCodes(t);
          }
        }
      }
      MergeKeepsDefinedCodes(t', rest);
    }
  }

  /**
   * When every custom alias names a member and no alias reuses a member name, the codes a
   * table iterates over are exactly the codes the host type defines.
   */
  lemma IterationCodesAreDefined(src: SourceEnum, aliases: seq<Alias>, t: AliasTable)
    requires ValidSource(src) && Build(src, aliases) == Ok(t)
    requires forall a :: a in aliases ==> a.0 !in src.codes && a.1.Member?
    ensures Codes(Iterate(t)) == src.codes.Values
  {
    var seed := Seed(src);
    assert IndexCodes(seed) <= src.codes.Values by {
      forall c | c in IndexCodes(seed) ensures c in src.codes.Values {
        var k :| k in seed.index && seed.index[k].code == c;
      }
    }
    MergeKeepsDefinedCodes(seed, aliases);
    assert IndexCodes(t) <= src.codes.Values;
    assert src.codes.Values <= IndexCodes(t) by {
      forall c | c in src.codes.Values ensures c in IndexCodes(t) {
        var n :| n in src.codes && src.codes[n] == c;
        SourcePairsKept(src, aliases, t, n);
      }
    }
    IterationDistinctCodes(t);
  }

  /** With `unchecked=False`, calling succeeds on the code of every iterated value. */
  lemma CheckedCallIterated(src: SourceEnum, aliases: seq<Alias>, t: AliasTable)
    requires ValidSource(src) && Build(src, aliases) == Ok(t)
    requires forall a :: a in aliases ==> a.0 !in src.codes && a.1.Member?
    ensures forall v :: v in Iterate(t) ==> Call(t, v.code, false) == Ok(v)
  {
    IterationCodesAreDefined(src, aliases, t);
    MemberType(t);
    forall v | v in Iterate(t) ensures Call(t, v.code, false) == Ok(v) {
      assert v.code in Codes(Iterate(t));
    }
  }

  /** With `unchecked=False`, calling with one more than the largest iterated code raises ValueError. */
  lemma CheckedCallPastMax(src: SourceEnum, aliases: seq<Alias>, t: AliasTable)
    requires ValidSource(src) && Build(src, aliases) == Ok(t)
    requires forall a :: a in aliases ==> a.0 !in src.codes && a.1.Member?
    requires src.names != []
    ensures Iterate(t) != []
    ensures Call(t, MaxCode(Iterate(t)) + 1, false) == Err(ValueError)
  {
    IterationCodesAreDefined(src, aliases, t);
    assert src.codes[src.names[0]] in src.codes.Values;
    PastMaxRejected(t);
  }

  lemma PastMaxRejected(t: AliasTable)
    requires ValidTable(t) && Iterate(t) != [] && Codes(Iterate(t)) == t.source.codes.Values
    ensures Call(t, MaxCode(Iterate(t)) + 1, false) == Err(ValueError)
  {
    MaxCodeIsMaximal(Iterate(t));
  }

  lemma MaxCodeIsMaximal(vs: seq<EnumValue>)
    requires vs != []
    ensures forall c :: c in Codes(vs) ==> c <= MaxCode(vs)
    ensures MaxCode(vs) + 1 !in Codes(vs)
  {
    forall c | c in Codes(vs) ensures c <= MaxCode(vs) {
      var v :| v in vs && v.code == c;
    }
  }

  // ---------------------------------------------------------------- the tables

  const ProjTypeAliases: seq<Alias> := [
    ("BUILDING", Member("I_PT_BUILDING")), ("FRAME_2D", Member("I_PT_FRAME_2D")),
    ("FRAME_3D", Member("I_PT_FRAME_3D")), ("SHELL", Member("I_PT_SHELL")),
    ("TRUSS_2D", Member("I_PT_TRUSS_2D")), ("TRUSS_3D", Member("I_PT_TRUSS_3D"))]

  const QuitOptAliases: seq<Alias> := [
    ("DISCARD", Member("I_QO_DISCARD_CHANGES")), ("PROMPT", Member("I_QO_PROMPT_TO_SAVE_CHANGES")),
    ("SAVE", Member("I_QO_SAVE_CHANGES"))]

  const ObjectTypeAliases: seq<Alias> := [
    ("BAR", Member("I_OT_BAR")), ("CASE", Member("I_OT_CASE")), ("NODE", Member("I_OT_NODE"))]

  const LabelTypeAliases: seq<Alias> := [
    ("BAR_SECT", Member("I_LT_BAR_SECTION")), ("MAT", Member("I_LT_MATERIAL")),
    ("SUPPORT", Member("I_LT_SUPPORT")), ("RELEASE", Member("I_LT_BAR_RELEASE"))]

  const CaseNatureAliases: seq<Alias> := [
    ("PERM", Member("I_CN_PERMANENT")), ("IMPOSED", Member("I_CN_EXPLOATATION")),
    ("WIND", Member("I_CN_WIND")), ("SNOW", Member("I_CN_SNOW")), ("ACC", Member("I_CN_ACCIDENTAL"))]

  const CaseTypeAliases: seq<Alias> := [
    ("SIMPLE", Member("I_CT_SIMPLE")), ("COMB", Member("I_CT_COMBINATION"))]

  const CombTypeAliases: seq<Alias> := [
    ("SLS", Member("I_CBT_SLS")), ("ULS", Member("I_CBT_ULS"))]

  const AnalysisTypeAliases: seq<Alias> := [
    ("LINEAR", Member("I_CAT_STATIC_LINEAR")), ("NON_LIN", Member("I_CAT_STATIC_NONLINEAR")),
    ("COMB_LINEAR", Member("I_CAT_COMB")), ("COMB_NON_LIN", Member("I_CAT_COMB_NONLINEAR"))]

  const LoadTypeAliases: seq<Alias> := [
    ("DEAD", Member("I_LRT_DEAD")), ("NODAL", Member("I_LRT_NODE_FORCE")),
    ("BAR_UDL", Member("I_LRT_BAR_UNIFORM")), ("BAR_PL", Member("I_LRT_BAR_FORCE_CONCENTRATED"))]

  const MatTypeAliases: seq<Alias> := [
    ("STEEL", Member("I_MT_STEEL")), ("ALUM", Member("I_MT_ALUMINIUM")),
    ("TIMBER", Member("I_MT_TIMBER")), ("CONCRETE", Member("I_MT_CONCRETE")),
    ("OTHER", Member("I_MT_OTHER"))]

  const ReleaseValuesAliases: seq<Alias> := [
    ("NONE", Member("I_BERV_NONE")), ("STD", Member("I_BERV_STD")), ("FIXED", Member("I_BERV_FIXED"))]

  const DeadValuesAliases: seq<Alias> := [
    ("X", Member("I_DRV_X")), ("Y", Member("I_DRV_Y")), ("Z", Member("I_DRV_Z")),
    ("COEFF", Member("I_DRV_COEFF")), ("ENTIRE_STRUCT", Member("I_DRV_ENTIRE_STRUCTURE"))]

  const BarUDLValuesAliases: seq<Alias> := [
    ("FX", Member("I_BURV_PX")), ("FY", Member("I_BURV_PY")), ("FZ", Member("I_BURV_PZ")),
    ("ALPHA", Member("I_BURV_ALPHA")), ("BETA", Member("I_BURV_BETA")),
    ("GAMMA", Member("I_BURV_GAMMA")), ("IS_LOC", Member("I_BURV_LOCAL")),
    ("IS_PROJ", Member("I_BURV_PROJECTION")), ("IS_REL", Member("I_BURV_RELATIVE")),
    ("OFFSET_Y", Member("I_BURV_OFFSET_Y")), ("OFFSET_Z", Member("I_BURV_OFFSET_Z"))]

  const BarPLValuesAliases: seq<Alias> := [
    ("X", Member("I_BFCRV_X")), ("FX", Member("I_BFCRV_FX")), ("FY", Member("I_BFCRV_FY")),
    ("FZ", Member("I_BFCRV_FZ")), ("CX", Member("I_BFCRV_CX")), ("CY", Member("I_BFCRV_CY")),
    ("CZ", Member("I_BFCRV_CZ")), ("ALPHA", Member("I_BFCRV_ALPHA")),
    ("BETA", Member("I_BFCRV_BETA")), ("GAMMA", Member("I_BFCRV_GAMMA")),
    ("GEN_NODE", Member("I_BFCRV_GENERATE_CALC_NODE")), ("IS_LOC", Member("I_BFCRV_LOC")),
    ("IS_REL", Member("I_BFCRV_REL")), ("OFFSET_Y", Member("I_BFCRV_OFFSET_Y")),
    ("OFFSET_Z", Member("I_BFCRV_OFFSET_Z"))]

  const LicenseAliases: seq<Alias> := [
    ("LOCAL", Member("I_LE_LOCAL_SOLVE")), ("CLOUD", Member("I_LE_CLOUD_SOLVE"))]

  const LicenseStatusAliases: seq<Alias> := [("OK", Member("I_LES_ENTITLED"))]

  /** The tables other modules read values from. */
  datatype Tables = Tables(
    projType: AliasTable,
    quitOpt: AliasTable,
    caseNature: AliasTable,
    caseType: AliasTable,
    combType: AliasTable,
    analysisType: AliasTable,
    releaseValues: AliasTable,
    license: AliasTable,
    licenseStatus: AliasTable)

  /** `t` wraps a host type of `kind` and holds every alias name of `aliases`. */
  ghost predicate Holds(t: AliasTable, kind: EnumKind, aliases: seq<Alias>)
  {
    ValidTable(t) && t.source.kind == kind && forall i :: 0 <= i < |aliases| ==> aliases[i].0 in t.index
  }

  /** The tables as constants.py builds them. */
  ghost predicate Loaded(k: Tables)
  {
    && Holds(k.projType, ProjectType, ProjTypeAliases)
    && Holds(k.quitOpt, QuitOption, QuitOptAliases)
    && Holds(k.caseNature, CaseNature, CaseNatureAliases)
    && Holds(k.caseType, CaseType, CaseTypeAliases)
    && Holds(k.combType, CombinationType, CombTypeAliases)
    && Holds(k.analysisType, CaseAnalizeType, AnalysisTypeAliases)
    && Holds(k.releaseValues, BarEndReleaseValue, ReleaseValuesAliases)
    && Holds(k.license, LicenseEntitlement, LicenseAliases)
    && Holds(k.licenseStatus, LicenseEntitlementStatus, LicenseStatusAliases)
  }

  /** The quit options and the licence status app.py reads are keys of their tables. */
  lemma LoadedKeys(k: Tables)
    requires Loaded(k)
    ensures "DISCARD" in k.quitOpt.index && "PROMPT" in k.quitOpt.index && "SAVE" in k.quitOpt.index
    ensures "OK" in k.licenseStatus.index
  {
    assert QuitOptAliases[0].0 in k.quitOpt.index;
    assert QuitOptAliases[1].0 in k.quitOpt.index;
    assert QuitOptAliases[2].0 in k.quitOpt.index;
    assert LicenseStatusAliases[0].0 in k.licenseStatus.index;
  }

  /** The case types and case natures cases.py reads are keys of their tables. */
  lemma CaseKeys(k: Tables)
    requires Loaded(k)
    ensures "SIMPLE" in k.caseType.index && "COMB" in k.caseType.index
    ensures forall i :: 0 <= i < |CaseNatureAliases| ==> CaseNatureAliases[i].0 in k.caseNature.index
  {
    assert CaseTypeAliases[0].0 in k.caseType.index;
    assert CaseTypeAliases[1].0 in k.caseType.index;
  }

  /** A successfully built table holds its aliases, so `Loaded` is what constants.py establishes. */
  lemma BuiltTableHolds(src: SourceEnum, aliases: seq<Alias>, t: AliasTable)
    requires ValidSource(src) && Build(src, aliases) == Ok(t)
    ensures Holds(t, src.kind, aliases)
  {
    forall i | 0 <= i < |aliases| ensures aliases[i].0 in t.index {
      assert aliases[i] in aliases;
    }
  }
}
