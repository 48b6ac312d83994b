/**
 * autorobot/cases.py: the load-case server's `cast`, `label_prefix`, `create_load_case`,
 * `create_combination`, `get` and `select`.
 *
 * Nature, analysis type and combination type pass through the `synonyms` table before they
 * reach the host, so a value here is whatever `synonyms[...]` returns.
 */
module Cases {
  import opened Errors
  import opened Servers
  import Constants
  import Synonyms
  import PyText

  type PyValue = Synonyms.PyValue

  /**
   * The module-level values cases.py reads: the `synonyms` table, `RCaseType.SIMPLE` and
   * `RCaseType.COMB`, and the natures PERM, IMPOSED, WIND, SNOW and ACC of `RCaseNature`.
   */
  datatype Env = Env(
    synonyms: Synonyms.ColanderDict,
    simple: Constants.EnumValue,
    comb: Constants.EnumValue,
    perm: PyValue, imposed: PyValue, wind: PyValue, snow: PyValue, acc: PyValue)

  /** No value of the synonym table is also one of its keys. */
  ghost predicate Settled(env: Env)
  {
    forall v :: v in env.synonyms.Values ==> v !in env.synonyms
  }

  /** The values as constants.py and synonyms.py build them from the alias tables `k`. */
  function EnvOf(k: Constants.Tables): (env: Env)
    requires Constants.Loaded(k)
    ensures Settled(env)
  {
    Constants.CaseKeys(k);
    var n := k.caseNature.index;
    var a := Constants.CaseNatureAliases;
    Env(Synonyms.SynonymTable(k), k.caseType.index["SIMPLE"], k.caseType.index["COMB"],
        Synonyms.Enum(n[a[0].0]), Synonyms.Enum(n[a[1].0]), Synonyms.Enum(n[a[2].0]),
        Synonyms.Enum(n[a[3].0]), Synonyms.Enum(n[a[4].0]))
  }

  /** `synonyms[v]`. */
  function Resolve(env: Env, v: PyValue): (r: PyValue)
    ensures v in env.synonyms ==> r == env.synonyms[v]
    ensures v !in env.synonyms ==> r == v
    ensures r == v || r in env.synonyms.Values
  {
    Synonyms.Lookup(env.synonyms, v)
  }

  /**
   * A load case of the host: its case type, name, nature, analysis type, combination type
   * (none for a simple case), its case-factor entries and its label (none until one is set).
   */
  datatype Case = Case(
    caseType: Constants.EnumValue,
    name: string,
    nature: PyValue,
    analysis: PyValue,
    combType: PyValue,
    factors: seq<(int, real)>,
    caseLabel: Option<string>)

  /** The typed views `cast` hands out: a simple case or a combination. */
  datatype View = SimpleCase(c: Case) | Combination(c: Case)

  /** `cast(case)`: SIMPLE and COMB cases get their view, any other case type gives `None`. */
  function Cast(env: Env, c: Case): (v: Option<View>)
    ensures v.Some? <==> c.caseType == env.simple || c.caseType == env.comb
    ensures v.Some? ==> v.value.c == c
    ensures v.Some? && v.value.SimpleCase? <==> c.caseType == env.simple
  {
    if c.caseType == env.simple then Some(SimpleCase(c))
    else if c.caseType == env.comb then Some(Combination(c))
    else None
  }

  /** The five natures of `label_prefix`: PERM, IMPOSED, WIND, SNOW and ACC, in that order. */
  function Natures(env: Env): (ns: seq<PyValue>)
  {
    [env.perm, env.imposed, env.wind, env.snow, env.acc]
  }

  const Prefixes: seq<string> := ["G", "Q", "W", "S", "A"]

  /** `label_prefix`; as in the dictionary display, a repeated key keeps its last value. */
  function LabelPrefix(env: Env): (r: map<PyValue, string>)
    ensures r.Keys == {env.perm, env.imposed, env.wind, env.snow, env.acc}
    ensures forall key :: key in r ==> r[key] in Prefixes
    ensures r[env.acc] == "A"
  {
    map[env.perm := "G", env.imposed := "Q", env.wind := "W", env.snow := "S", env.acc := "A"]
  }

  /**
   * The prefix table has exactly the five natures as keys and, as long as the host gives
   * them distinct codes, maps PERM to G, IMPOSED to Q, WIND to W, SNOW to S and ACC to A.
   */
  lemma LabelPrefixes(env: Env)
    requires forall i, j :: 0 <= i < j < 5 ==> Natures(env)[i] != Natures(env)[j]
    ensures LabelPrefix(env).Keys == set i | 0 <= i < 5 :: Natures(env)[i]
    ensures forall i :: 0 <= i < 5 ==> LabelPrefix(env)[Natures(env)[i]] == Prefixes[i]
  {
    var ns := Natures(env);
    assert ns[0] != ns[1] && ns[0] != ns[2] && ns[0] != ns[3] && ns[0] != ns[4];
    assert ns[1] != ns[2] && ns[1] != ns[3] && ns[1] != ns[4];
    assert ns[2] != ns[3] && ns[2] != ns[4] && ns[3] != ns[4];
  }

  /** The case `CreateSimple(num, name, nature, analysis_type)` adds: simple, unlabelled. */
  function NewSimple(env: Env, name: string, nature: PyValue, analysis: PyValue): Case
  {
    Case(env.simple, name, nature, analysis, Synonyms.NoneValue, [], None)
  }

  /**
   * `create_load_case(num, name, nature, analysis_type, overwrite)` on a container in state
   * `st`: the shared numbering rule, creation of the simple case, then its label, the
   * nature's prefix followed by the number. A nature without a prefix raises KeyError after
   * the case was created.
   */
  function LoadCaseCreated(env: Env, st: Store<Case>, num: Option<Arg>, name: string,
                           nature: PyValue, analysis: PyValue, overwrite: bool): (o: Outcome<Case, Case>)
    ensures Fresh(st) ==> Fresh(o.after)
  {
    var key := Resolve(env, nature);
    var c := NewSimple(env, name, key, Resolve(env, analysis));
    var p := Placed(st, num, overwrite, Ok(c));
    match p.result
    case Err(e) => Outcome(Err(e), st)
    case Ok(n) =>
      if key in LabelPrefix(env) then
        var labelled := c.(caseLabel := Some(LabelPrefix(env)[key] + PyText.IntToString(n)));
        Outcome(Ok(labelled), Store(p.after.items[n := labelled], p.after.free))
      else
        Outcome(Err(KeyError), p.after)
  }

  /**
   * `create_load_case` succeeds exactly when the numbering rule does and the resolved
   * nature has a prefix. A numbering failure changes nothing; a missing prefix raises
   * KeyError with the unlabelled case already stored; on success the stored case is the
   * returned simple case, labelled with the prefix and the decimal number.
   */
  lemma LoadCaseSpec(env: Env, st: Store<Case>, num: Option<Arg>, name: string,
                     nature: PyValue, analysis: PyValue, overwrite: bool)
    ensures var o := LoadCaseCreated(env, st, num, name, nature, analysis, overwrite);
      var rule := Numbering(st.items.Keys, st.free, num, overwrite);
      var key := Resolve(env, nature);
      && (o.result.Ok? <==> rule.Ok? && key in LabelPrefix(env))
      && (rule.Err? ==> o == Outcome(Err(rule.error), st))
      && (rule.Ok? && key !in LabelPrefix(env) ==>
            && o.result == Err(KeyError)
            && o.after.items == st.items[rule.value := NewSimple(env, name, key, Resolve(env, analysis))])
      && (o.result.Ok? ==>
            && o.after.items == st.items[rule.value := o.result.value]
            && o.result.value.caseLabel == Some(LabelPrefix(env)[key] + PyText.IntToString(rule.value))
            && o.result.value.nature == key
            && o.result.value.name == name
            && Cast(env, o.result.value) == Some(SimpleCase(o.result.value)))
  {
  }

  /**
   * A constant and its short name behave identically: resolving the nature and the
   * analysis type first changes nothing.
   */
  lemma LoadCaseShortNames(env: Env, st: Store<Case>, num: Option<Arg>, name: string,
                           nature: PyValue, analysis: PyValue, overwrite: bool)
    requires Settled(env)
    ensures LoadCaseCreated(env, st, num, name, Resolve(env, nature), Resolve(env, analysis), overwrite)
         == LoadCaseCreated(env, st, num, name, nature, analysis, overwrite)
  {
    Synonyms.LookupIdempotent(env.synonyms, nature);
    Synonyms.LookupIdempotent(env.synonyms, analysis);
  }

  /** `ExtendedCaseServer.create_load_case`. */
  method CreateLoadCase(env: Env, s: Server<Case>, num: Option<Arg>, name: string,
                        nature: PyValue, analysis: PyValue, overwrite: bool) returns (r: Result<Case>)
    requires s.Valid()
    modifies s
    ensures s.Valid()
    ensures r == LoadCaseCreated(env, old(s.State()), num, name, nature, analysis, overwrite).result
    ensures s.State() == LoadCaseCreated(env, old(s.State()), num, name, nature, analysis, overwrite).after
  {
    var key := Resolve(env, nature);
    var c := NewSimple(env, name, key, Resolve(env, analysis));
    var placed := s.Place(num, overwrite, Ok(c));
    if placed.Err? {
      return Err(placed.error);
    }
    var n := placed.value;
    var prefixes := LabelPrefix(env);
    if key !in prefixes {
      return Err(KeyError);
    }
    var labelled := c.(caseLabel := Some(prefixes[key] + PyText.IntToString(n)));
    s.Update(n, labelled);
    r := Ok(labelled);
  }

  /** The combination `CreateCombination(num, name, comb_type, nature, analysis_type)` adds. */
  function NewCombination(env: Env, name: string, combType: PyValue, nature: PyValue, analysis: PyValue): Case
  {
    Case(env.comb, name, nature, analysis, combType, [], None)
  }

  /**
   * `create_combination(num, name, case_factors, comb_type, nature, analysis_type,
   * overwrite)`: the shared numbering rule, creation of the combination, then one
   * case-factor entry per item of `case_factors`, in the dictionary's order.
   */
  function CombinationCreated(env: Env, st: Store<Case>, num: Option<Arg>, name: string,
                              caseFactors: seq<(int, real)>, combType: PyValue, nature: PyValue,
                              analysis: PyValue, overwrite: bool): (o: Outcome<Case, Case>)
    ensures o.result.Err? ==> o.after == st
    ensures Fresh(st) ==> Fresh(o.after)
  {
    var c := NewCombination(env, name, Resolve(env, combType), Resolve(env, nature),
                            Resolve(env, analysis));
    var p := Placed(st, num, overwrite, Ok(c));
    match p.result
    case Err(e) => Outcome(Err(e), st)
    case Ok(n) =>
      var full := c.(factors := caseFactors);
      Outcome(Ok(full), Store(p.after.items[n := full], p.after.free))
  }

  /**
   * Both creators share the numbering rule; a new combination holds exactly the given
   * (case, factor) pairs, none for an empty dictionary, and casts to a combination view.
   */
  lemma CombinationSpec(env: Env, st: Store<Case>, num: Option<Arg>, name: string,
                        caseFactors: seq<(int, real)>, combType: PyValue, nature: PyValue,
                        analysis: PyValue, overwrite: bool)
    ensures var o := CombinationCreated(env, st, num, name, caseFactors, combType, nature, analysis, overwrite);
      var rule := Numbering(st.items.Keys, st.free, num, overwrite);
      && (o.result.Ok? <==> rule.Ok?)
      && (o.result.Err? ==> o.result.error == rule.error)
      && (o.result.Ok? ==>
            && o.after.items == st.items[rule.value := o.result.value]
            && o.result.value.factors == caseFactors
            && o.result.value.combType == Resolve(env, combType)
            && (env.simple != env.comb ==> Cast(env, o.result.value) == Some(Combination(o.result.value))))
  {
  }

  /** Both creators settle on the same number or raise the same numbering error. */
  lemma CreatorsShareNumbering(env: Env, st: Store<Case>, num: Option<Arg>, name: string,
                               caseFactors: seq<(int, real)>, combType: PyValue, nature: PyValue,
                               analysis: PyValue, overwrite: bool)
    requires Resolve(env, nature) in LabelPrefix(env)
    ensures var simple := LoadCaseCreated(env, st, num, name, nature, analysis, overwrite);
      var comb := CombinationCreated(env, st, num, name, caseFactors, combType, nature, analysis, overwrite);
      && simple.result.Ok? == comb.result.Ok?
      && (simple.result.Err? ==> simple.result.error == comb.result.error && simple.after == comb.after)
      && (simple.result.Ok? ==> simple.after.items.Keys == comb.after.items.Keys)
  {
    LoadCaseSpec(env, st, num, name, nature, analysis, overwrite);
    CombinationSpec(env, st, num, name, caseFactors, combType, nature, analysis, overwrite);
  }

  /** `ExtendedCaseServer.create_combination`: the case-factor loop runs on the stored case. */
  method CreateCombination(env: Env, s: Server<Case>, num: Option<Arg>, name: string,
                           caseFactors: seq<(int, real)>, combType: PyValue, nature: PyValue,
                           analysis: PyValue, overwrite: bool) returns (r: Result<Case>)
    requires s.Valid()
    modifies s
    ensures s.Valid()
    ensures r == CombinationCreated(env, old(s.State()), num, name, caseFactors, combType, nature, analysis, overwrite).result
    ensures s.State() == CombinationCreated(env, old(s.State()), num, name, caseFactors, combType, nature, analysis, overwrite).after
  {
    var c := NewCombination(env, name, Resolve(env, combType), Resolve(env, nature),
                            Resolve(env, analysis));
    var placed := s.Place(num, overwrite, Ok(c));
    if placed.Err? {
      return Err(placed.error);
    }
    var n := placed.value;
    ghost var created := s.State();
    var comb := c;
    for i := 0 to |caseFactors|
      invariant s.Valid() && s.free == created.free
      invariant comb == c.(factors := caseFactors[..i])
      invariant s.items == created.items[n := comb]
    {
      comb := comb.(factors := comb.factors + [caseFactors[i]]);
      assert caseFactors[..i + 1] == caseFactors[..i] + [caseFactors[i]];
      s.Update(n, comb);
    }
    assert caseFactors[..|caseFactors|] == caseFactors;
    r := Ok(comb);
  }

  /** `get(n)`: `cast` applied to the base lookup. */
  function Get(env: Env, items: map<int, Case>, n: int): (r: Result<Option<View>>)
    ensures r.Ok? <==> n in items
    ensures r.Ok? ==> r.value == Cast(env, items[n])
  {
    if n in items then Ok(Cast(env, items[n])) else Err(LookupError)
  }

  /** A created load case is found by `get` as a simple case carrying its label. */
  lemma GetCreatedLoadCase(env: Env, st: Store<Case>, num: Option<Arg>, name: string,
                           nature: PyValue, analysis: PyValue, overwrite: bool)
    requires LoadCaseCreated(env, st, num, name, nature, analysis, overwrite).result.Ok?
    ensures var o := LoadCaseCreated(env, st, num, name, nature, analysis, overwrite);
      var n := Numbering(st.items.Keys, st.free, num, overwrite).value;
      Get(env, o.after.items, n) == Ok(Some(SimpleCase(o.result.value)))
  {
    LoadCaseSpec(env, st, num, name, nature, analysis, overwrite);
  }

  /** What `select` yields: a cast case, or a case number when `obj` is false. */
  datatype Yielded = CastCase(view: Option<View>) | CaseNumber(number: int)

  function CastAll(env: Env, chosen: seq<(int, Case)>): (ys: seq<Yielded>)
    ensures |ys| == |chosen|
    ensures forall i :: 0 <= i < |chosen| ==> ys[i] == CastCase(Cast(env, chosen[i].1))
  {
    seq(|chosen|, i requires 0 <= i < |chosen| => CastCase(Cast(env, chosen[i].1)))
  }

  /**
   * `select(s, obj)` as written: the body contains `yield`, so the call always builds a
   * generator, and with `obj` false that generator's `return it` ends the iteration at
   * once.
   */
  function SelectAsWritten(env: Env, items: map<int, Case>, sel: seq<int>, obj: bool): (ys: seq<Yielded>)
    ensures !obj ==> ys == []
    ensures obj ==> ys == CastAll(env, Selected(items, sel))
  {
    if !obj then [] else CastAll(env, Selected(items, sel))
  }

  /**
   * `select(s, obj)` as documented: the selected cases, cast, or with `obj` false the
   * base selection's case numbers, in selection order either way.
   */
  function Select(env: Env, items: map<int, Case>, sel: seq<int>, obj: bool): (ys: seq<Yielded>)
    ensures |ys| == |Selected(items, sel)|
    ensures forall i :: 0 <= i < |ys| ==>
      var (n, c) := Selected(items, sel)[i];
      && n in items && items[n] == c
      && ys[i] == (if obj then CastCase(Cast(env, c)) else CaseNumber(n))
  {
    var chosen := Selected(items, sel);
    if obj then CastAll(env, chosen)
    else seq(|chosen|, i requires 0 <= i < |chosen| => CaseNumber(chosen[i].0))
  }

  /** With `obj` set, the code as written already yields what it documents. */
  lemma SelectObjectsAgree(env: Env, items: map<int, Case>, sel: seq<int>)
    ensures SelectAsWritten(env, items, sel, true) == Select(env, items, sel, true)
  {
  }

  /**
   * With `obj` false the code as written yields nothing, although the selection names an
   * existing case whose number should have been yielded.
   */
  lemma SelectNumbersLost(env: Env, c: Case)
    ensures SelectAsWritten(env, map[1 := c], [1], false) == []
    ensures Select(env, map[1 := c], [1], false) == [CaseNumber(1)]
  {
    assert Selected(map[1 := c], [1]) == [(1, c)];
  }
}
