/**
 * autorobot/synonyms.py: `ColanderDict`, a dictionary whose lookup of a missing key returns
 * the key itself, and `synonyms`, the shorthand table from short names such as 'SHELL' or
 * 'PERM' to the constants of four alias tables.
 */
module Synonyms {
  import opened Constants

  /** The Python values that reach a `synonyms` lookup. */
  datatype PyValue = Str(s: string) | Int(i: int) | Enum(e: EnumValue) | NoneValue

  type ColanderDict = map<PyValue, PyValue>

  /** `d[key]`: the stored value, or `__missing__`'s answer, the key itself. Never fails. */
  function Lookup(d: ColanderDict, key: PyValue): (r: PyValue)
    ensures key in d ==> r == d[key]
    ensures key !in d ==> r == key
    ensures r == key || r in d.Values
  {
    if key in d then d[key] else key
  }

  /** The four alias tables `synonyms` reads from. */
  datatype Family = ProjFamily | NatureFamily | CombFamily | AnalysisFamily

  function FamilyTable(k: Tables, f: Family): AliasTable
  {
    match f
    case ProjFamily => k.projType
    case NatureFamily => k.caseNature
    case CombFamily => k.combType
    case AnalysisFamily => k.analysisType
  }

  /** The host enumeration type of each family's table. */
  function FamilyKind(f: Family): EnumKind
  {
    match f
    case ProjFamily => ProjectType
    case NatureFamily => CaseNature
    case CombFamily => CombinationType
    case AnalysisFamily => CaseAnalizeType
  }

  lemma FamilyTableValid(k: Tables, f: Family)
    requires Loaded(k)
    ensures ValidTable(FamilyTable(k, f)) && FamilyTable(k, f).source.kind == FamilyKind(f)
  {
  }

  type Entry = (string, Family)

  /** Each alias name of `aliases`, paired with the table it is read from. */
  function Tagged(aliases: seq<Alias>, f: Family): (es: seq<Entry>)
    ensures |es| == |aliases|
    ensures forall i :: 0 <= i < |es| ==> es[i] == (aliases[i].0, f)
  {
    seq(|aliases|, i requires 0 <= i < |aliases| => (aliases[i].0, f))
  }

  /**
   * The entries of `synonyms`, in source order. Its short names are exactly the custom alias
   * names of RProjType, RCaseNature, RCombType and RAnalysisType, each mapped to the alias
   * of the same name.
   */
  const Entries: seq<Entry> :=
    Tagged(ProjTypeAliases, ProjFamily) + Tagged(CaseNatureAliases, NatureFamily)
    + Tagged(CombTypeAliases, CombFamily) + Tagged(AnalysisTypeAliases, AnalysisFamily)

  predicate EntriesDefined(k: Tables, es: seq<Entry>)
  {
    forall i :: 0 <= i < |es| ==> es[i].0 in FamilyTable(k, es[i].1).index
  }

  /** The value a ColanderDict built from `es` stores under `key`: some entry's alias. */
  ghost predicate FromSomeEntry(k: Tables, es: seq<Entry>, key: PyValue, v: PyValue)
    requires EntriesDefined(k, es)
  {
    exists i :: 0 <= i < |es| && key == Str(es[i].0) && v == Enum(FamilyTable(k, es[i].1).index[es[i].0])
  }

  lemma PrefixEntry(k: Tables, es: seq<Entry>, key: PyValue, v: PyValue)
    requires EntriesDefined(k, es) && es != []
    requires FromSomeEntry(k, es[..|es| - 1], key, v)
    ensures FromSomeEntry(k, es, key, v)
  {
    var p := es[..|es| - 1];
    var i :| 0 <= i < |p| && key == Str(p[i].0) && v == Enum(FamilyTable(k, p[i].1).index[p[i].0]);
    assert p[i] == es[i];
  }

  /** The dictionary display `{name: table.name, ...}`; a repeated key keeps its last value. */
  function FromEntries(k: Tables, es: seq<Entry>): (d: ColanderDict)
    requires EntriesDefined(k, es)
    ensures forall i :: 0 <= i < |es| ==> Str(es[i].0) in d
    ensures forall key :: key in d ==> FromSomeEntry(k, es, key, d[key])
  {
    if es == [] then map[]
    else
      var last := es[|es| - 1];
      var d := FromEntries(k, es[..|es| - 1]);
      var v := Enum(FamilyTable(k, last.1).index[last.0]);
      assert forall i :: 0 <= i < |es| - 1 ==> es[..|es| - 1][i] == es[i];
      assert forall key :: key in d ==> FromSomeEntry(k, es, key, d[key]) by {
        forall key | key in d ensures FromSomeEntry(k, es, key, d[key]) {
          PrefixEntry(k, es, key, d[key]);
        }
      }
      assert FromSomeEntry(k, es, Str(last.0), v);
      d[Str(last.0) := v]
  }

  lemma TaggedDefined(k: Tables, f: Family, kind: EnumKind, aliases: seq<Alias>)
    requires Holds(FamilyTable(k, f), kind, aliases)
    ensures EntriesDefined(k, Tagged(aliases, f))
  {
  }

  lemma ConcatDefined(k: Tables, a: seq<Entry>, b: seq<Entry>)
    requires EntriesDefined(k, a) && EntriesDefined(k, b)
    ensures EntriesDefined(k, a + b)
  {
    forall i | 0 <= i < |a + b| ensures (a + b)[i].0 in FamilyTable(k, (a + b)[i].1).index {
      if i >= |a| {
        assert (a + b)[i] == b[i - |a|];
      }
    }
  }

  lemma EntriesAreDefined(k: Tables)
    requires Loaded(k)
    ensures EntriesDefined(k, Entries)
  {
    var p := Tagged(ProjTypeAliases, ProjFamily);
    var n := Tagged(CaseNatureAliases, NatureFamily);
    var c := Tagged(CombTypeAliases, CombFamily);
    var a := Tagged(AnalysisTypeAliases, AnalysisFamily);
    TaggedDefined(k, ProjFamily, ProjectType, ProjTypeAliases);
    TaggedDefined(k, NatureFamily, CaseNature, CaseNatureAliases);
    TaggedDefined(k, CombFamily, CombinationType, CombTypeAliases);
    TaggedDefined(k, AnalysisFamily, CaseAnalizeType, AnalysisTypeAliases);
    ConcatDefined(k, p, n);
    ConcatDefined(k, p + n, c);
    ConcatDefined(k, p + n + c, a);
  }

  /** Every key of a table built from entries is a short name mapped to the alias of that name. */
  lemma SameNamedAlias(k: Tables, es: seq<Entry>, n: string)
    requires EntriesDefined(k, es) && Str(n) in FromEntries(k, es)
    ensures exists f :: n in FamilyTable(k, f).index && FromEntries(k, es)[Str(n)] == Enum(FamilyTable(k, f).index[n])
  {
    var d := FromEntries(k, es);
    assert FromSomeEntry(k, es, Str(n), d[Str(n)]);
    var i :| 0 <= i < |es| && Str(n) == Str(es[i].0) &&
      d[Str(n)] == Enum(FamilyTable(k, es[i].1).index[es[i].0]);
    assert n in FamilyTable(k, es[i].1).index;
  }

  /** The `synonyms` table, over the alias tables `k`. */
  function SynonymTable(k: Tables): (d: ColanderDict)
    requires Loaded(k)
    ensures forall key :: key in d ==> key.Str?
    ensures forall v :: v in d.Values ==> v.Enum?
    ensures forall i :: 0 <= i < |Entries| ==> Str(Entries[i].0) in d
  {
    EntriesAreDefined(k);
    FromEntries(k, Entries)
  }

  /** `synonyms[key]`: a short name gives its constant, anything else passes through. */
  function Resolve(k: Tables, key: PyValue): (r: PyValue)
    requires Loaded(k)
    ensures key in SynonymTable(k) ==> r.Enum? && r == SynonymTable(k)[key]
    ensures key !in SynonymTable(k) ==> r == key
  {
    Lookup(SynonymTable(k), key)
  }

  /** A dictionary none of whose values is also a key resolves every key in at most one step. */
  lemma LookupIdempotent(d: ColanderDict, key: PyValue)
    requires forall v :: v in d.Values ==> v !in d
    ensures Lookup(d, Lookup(d, key)) == Lookup(d, key)
  {
    if key in d {
      assert d[key] in d.Values;
    }
  }

  /** Resolving an already resolved constant returns it unchanged. */
  lemma ResolveIdempotent(k: Tables, key: PyValue)
    requires Loaded(k)
    ensures Resolve(k, Resolve(k, key)) == Resolve(k, key)
  {
    LookupIdempotent(SynonymTable(k), key);
  }

  /** A constant given directly, rather than by its short name, passes through unchanged. */
  lemma ConstantPassesThrough(k: Tables, e: EnumValue)
    requires Loaded(k)
    ensures Resolve(k, Enum(e)) == Enum(e)
  {
  }

  /**
   * Each short name resolves to the alias of the same name in the project-type, case-nature,
   * combination-type or analysis-type table, a constant of that table's host type.
   */
  lemma ShortNameIsSameNamedAlias(k: Tables, n: string)
    requires Loaded(k) && Str(n) in SynonymTable(k)
    ensures exists f :: && n in FamilyTable(k, f).index
                        && Resolve(k, Str(n)) == Enum(FamilyTable(k, f).index[n])
                        && Resolve(k, Str(n)).e.kind == FamilyKind(f)
  {
    EntriesAreDefined(k);
    SameNamedAlias(k, Entries, n);
    var f :| n in FamilyTable(k, f).index && Resolve(k, Str(n)) == Enum(FamilyTable(k, f).index[n]);
    FamilyTableValid(k, f);
  }
}
