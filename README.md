# autorobot in Dafny

autorobot is a Python wrapper around the Robot Structural Analysis object model (the
"host"). It adds alias tables for the host's enumerations, a `synonyms` table of short
names, guard and contract decorators, and extended servers. These servers create and
query nodes, bars, load cases, and release, support, section and material labels. It also
adds an application facade that starts, shows, hides, saves and quits the host.

This project models that core in Dafny. There is one module per source file:

- `Constants`: the alias tables of constants.py.
- `Synonyms`: the `synonyms` table and its `ColanderDict` lookup.
- `Decorators`: `requires_init` and `abstract_attributes`.
- `Nodes`, `Bars`, `Cases`: the numbered-object servers.
- `Releases`, `Supports`, `Sections`, `Materials`: the label servers.
- `App`: the application facade.

Shared helper modules:

- `Errors`: the package's exceptions and the Python built-ins that escape, as one datatype.
- `PyText`: `int()`, `str()` and `lower()` on ASCII strings.
- `Servers`: the host's numbered containers, and the numbering rule nodes.py, bars.py and cases.py share.
- `Labels`: the host's named label containers.
- `Dofs`: the six-character DOF strings of releases.py and supports.py.

What the host does is modelled as state or as parameters:

- The host's containers are Dafny classes whose methods change a map of objects.
- Host answers are parameters: enumeration members and codes, selection strings already resolved to numbers, database lookups, licence checks.
- Code that changes state step by step is modelled as methods with loops: the `setattr` loops, the case-factor loop, the `from_array` loop and the decorator's loops. Each method is proved against a function that states the whole outcome.
- Properties are proved as lemmas about those functions.

## Model

| member | source | states |
|---|---|---|
| Constants.Seed | autorobot/constants.py:44-54 | Before any custom alias, the table's keys are exactly the host type's member names, each mapped to its member. |
| Constants.ResolveAlias | autorobot/constants.py:44-54 | An alias given as a member name resolves to that member iff the host type has it, otherwise ValueError. An alias given as a raw integer always resolves to the host value with that code, unchecked. |
| Constants.Merge | autorobot/constants.py:44-54 | Merging custom aliases succeeds iff every alias resolves; a failure is ValueError. The host type is unchanged. |
| Constants.MergeInvariant | autorobot/constants.py:44-54 | After merging: keys are old keys plus alias names, and `custom_index` grows by exactly the alias names. Unaliased keys keep their value; the table stays well formed. |
| Constants.Build | autorobot/constants.py:44-286 | `EnumCapsule(source, custom)` succeeds iff all aliases resolve, and raises ValueError otherwise. Keys are member names plus alias names; `custom_index` keys are the alias names. |
| Constants.Get | autorobot/constants.py:44-54 | `table[name]` gives the stored value iff `name` is a key; otherwise KeyError. |
| Constants.Attr | autorobot/tests/test_constants.py:23-28 | `table.name` gives the key's value when `name` is a key, else the host member of that name; it fails with AttributeError iff `name` is neither. |
| Constants.Call | autorobot/tests/test_constants.py:52-66 | `table(code, unchecked)` builds the host value with that code; it fails with ValueError iff `unchecked` is false and no member has the code. |
| Constants.Iterate | autorobot/tests/test_constants.py:39-50 | Iteration covers exactly the codes of the table's values, each once. |
| Constants.SourcePairsKept | autorobot/tests/test_constants.py:16-21 | Every member name of the host type is a key. It keeps its own member unless an alias reuses the name. |
| Constants.CustomIndexKeys | autorobot/tests/test_constants.py:30-37 | `custom_index` has exactly the keys that are not member names. |
| Constants.CustomAliasResolves | autorobot/constants.py:44-54 | A custom alias maps to the member it names and equals that member's own key, e.g. `RProjType.SHELL == RProjType.I_PT_SHELL`. |
| Constants.RawCodeAliasIsUnchecked | autorobot/constants.py:44-54 | A custom alias given as a raw integer holds exactly what an unchecked call with that code builds, defined member or not. |
| Constants.KeysAreAttributes | autorobot/tests/test_constants.py:23-28 | Every key is also readable as an attribute, with the same value. |
| Constants.MemberType | autorobot/tests/test_constants.py:9-14 | Every stored and every iterated value is a value of the wrapped host type. |
| Constants.DedupByCode | autorobot/tests/test_constants.py:39-50 | Deduplication keeps only values of the input, has pairwise distinct codes, and covers exactly the input codes not yet seen. |
| Constants.IterationDistinctCodes | autorobot/tests/test_constants.py:39-50 | Iteration yields one value per distinct integer code of the table's values, covering all of them. |
| Constants.IterationCodesAreDefined | autorobot/tests/test_constants.py:47-50 | When aliases only name members (no raw codes) and reuse no member name, the iterated codes are exactly the codes the host type defines. |
| Constants.UncheckedCall | autorobot/tests/test_constants.py:52-59 | Calling a table with any integer, unchecked, builds the host value with that code. |
| Constants.CheckedCallIterated | autorobot/tests/test_constants.py:60-63 | With `unchecked=False`, calling with the code of any iterated value gives that value back. |
| Constants.CheckedCallPastMax | autorobot/tests/test_constants.py:64-66 | With `unchecked=False`, one more than the largest iterated code raises ValueError. |
| Constants.MaxCode | autorobot/tests/test_constants.py:64 | `max(int(v) for v in enum)` is one of the codes and bounds all of them. |
| Constants.BuiltTableHolds | autorobot/constants.py:44-286 | A table built from its aliases holds every alias name as a key. |
| Constants.LoadedKeys | autorobot/constants.py:61-68 | DISCARD, PROMPT and SAVE are keys of `RQuitOpt`; OK is a key of `RLicenseStatus`. |
| Constants.CaseKeys | autorobot/constants.py:101-123 | SIMPLE and COMB are keys of `RCaseType`; every custom nature alias is a key of `RCaseNature`. |
| Synonyms.Lookup | autorobot/synonyms.py:8-13 | `d[key]` gives the stored value for a present key and the key itself for a missing one; it never fails. |
| Synonyms.SynonymTable | autorobot/synonyms.py:15-36 | Every short name of the four tables is a string key, and every value is a constant. |
| Synonyms.Resolve | autorobot/synonyms.py:11-36 | `synonyms[key]`: a short name gives its constant; any other key is returned unchanged. |
| Synonyms.LookupIdempotent | autorobot/synonyms.py:11-13 | When no value is also a key, looking up a looked-up value changes nothing. |
| Synonyms.ResolveIdempotent | autorobot/synonyms.py:15-36 | `synonyms[synonyms[x]] == synonyms[x]` for every `x`. |
| Synonyms.ConstantPassesThrough | autorobot/synonyms.py:44-45 | A constant given directly passes through `synonyms` unchanged. |
| Synonyms.ShortNameIsSameNamedAlias | autorobot/synonyms.py:15-36 | Each short name resolves to the same-named alias of the project-type, case-nature, combination-type or analysis-type table, a constant of that table's type. |
| Decorators.RequiresInit | autorobot/decorators.py:8-17 | The intended guard of the second Findings row, not the code as written: before initialization it raises AutoRobotInitError, whatever `func` would do. After initialization `func`'s result passes through unchanged. |
| Decorators.RequiresInitRaisesTypeError | autorobot/decorators.py:13-15 | As written, an uninitialized call raises TypeError, not AutoRobotInitError. |
| Decorators.RequiresInitAsWritten | autorobot/decorators.py:8-17 | The guard as written: before initialization it raises an error that is not AutoRobotInitError; after it `func`'s result passes through. |
| Decorators.FirstMissing | autorobot/decorators.py:50-51 | Gives none iff no listed name is missing; otherwise the first listed name the class lacks. |
| Decorators.Lookup | autorobot/decorators.py:51 | Attribute lookup on a class: its own attribute shadows the bases; a class without bases and without the attribute has none. |
| Decorators.GetAttr | autorobot/decorators.py:51 | `getattr(cls, n, NotImplemented)`: the found value, NotImplemented when the lookup finds nothing, the class's own attribute first. |
| Decorators.Missing | autorobot/decorators.py:51 | A name is missing iff it is not found or its value is NotImplemented; an own attribute decides. |
| Decorators.Message | autorobot/decorators.py:52-55 | The intended message of the third Findings row: the attribute name in backquotes, then the class name in backquotes and a period. |
| Decorators.MessageAsWritten | autorobot/decorators.py:52-55 | The message as written: it starts with the attribute name and ends with the literal text `` `{cls.__name__}`. `` whatever the class. |
| Decorators.RunAsWritten | autorobot/decorators.py:36-55 | The hook chain as written: `object`'s hook and a contract hook reject an extra positional argument with TypeError; a contract hook that succeeds has passed its own check. |
| Decorators.Run | autorobot/decorators.py:36-55 | The intended hook chain: a successful run means no user hook failed, and a contract hook that succeeds has passed its own check on the new class. |
| Decorators.Abstracted | autorobot/decorators.py:29-31 | After the `setattr` loop every listed name is NotImplemented and no attribute is lost. |
| Decorators.Decorated | autorobot/decorators.py:23-62 | Only the decorated class changes: its name and bases stay, every listed name is NotImplemented, and `__init_subclass__` is a contract hook owned by the class listing exactly `names`. |
| Decorators.Check | autorobot/decorators.py:48-55 | The check passes iff ABC is a direct base or no listed name is missing. A failure names a missing attribute, with the corrected message of the third Findings row. |
| Decorators.RunEnforcesContracts | autorobot/decorators.py:36-55 | About the intended chain of the fourth Findings row, not the code as written: a new class is created exactly when no user hook of the chain fails and, unless ABC is a direct base, it has every name every contract lists. |
| Decorators.SingleContractAgrees | autorobot/decorators.py:43-46 | With one contract over `object`'s hook, the code as written agrees with the intended run. |
| Decorators.PreviousHookFirst | autorobot/decorators.py:43-46 | The previous hook runs first; an exception it raises other than TypeError surfaces unchanged. |
| Decorators.AbstractedSpec | autorobot/decorators.py:29-31 | Each listed name becomes NotImplemented on the class; other attributes are untouched. |
| Decorators.Hierarchy.Decorate | autorobot/decorators.py:23-62 | The hierarchy becomes `Decorated(...)`: names set to NotImplemented and `__init_subclass__` rebound to a contract hook chaining the previous one. |
| Decorators.Hierarchy.CheckContract | autorobot/decorators.py:49-55 | The check loop computes `Check`. |
| Decorators.Hierarchy.RunHook | autorobot/decorators.py:36-55 | Running the hook chain computes `Run`, the corrected chain of the last Findings row: every hook sees the new class. |
| Decorators.Hierarchy.Define | autorobot/decorators.py:36-58 | A class statement adds the class iff the corrected hook chain (`Run`) accepts it; otherwise nothing is defined. |
| Decorators.DecorateMarksNames | autorobot/decorators.py:29-31 | Decorating marks the listed names on the class and changes no other class. |
| Decorators.SubclassOfDecorated | autorobot/decorators.py:48-55 | A direct subclass of a class decorated once is created iff ABC is a direct base or it gives every listed name a value other than NotImplemented, `None` included. |
| Decorators.InheritedValueSatisfies | autorobot/decorators.py:51 | A name inherited from a compliant base satisfies the check. |
| Decorators.NestedContractBypassed | autorobot/decorators.py:43-46 | With nested contracts, as written, a subclass lacking an outer attribute is created; the intended run rejects it. |
| Decorators.MessageAsWrittenIgnoresClass | autorobot/decorators.py:52-55 | As written, the error message is the same for every class. |
| Decorators.MessageNamesClass | autorobot/decorators.py:52-55 | The intended message names the class, so two different class names get different messages. |
| PyText.Lower | autorobot/sections.py:141 | `str.lower()` lowers ASCII capitals one character at a time and keeps everything else. |
| PyText.ParseIntRoundTrip | autorobot/nodes.py:152 | `int(str(n)) == n` for every integer `n`. |
| Servers.Truncate | autorobot/nodes.py:152 | `int(x)` on a float truncates toward zero. |
| Servers.ToInt | autorobot/nodes.py:152 | `int(a)`: ints pass, floats truncate, strings are parsed, objects with `__int__` (bools, numpy integers, `ExtendedNode`) give their integer, anything else is a TypeError. |
| Servers.Requested | autorobot/nodes.py:150-152 | No number takes the free number; an integer or an `__int__` object is accepted; any other object is a TypeError. |
| Servers.Numbering | autorobot/nodes.py:150-157 | The settled number is the free number or the requested one. It succeeds iff that number is free or `overwrite` is set; a taken number without `overwrite` raises AutoRobotIdError. |
| Servers.Put | autorobot/nodes.py:158 | Creating at a number keeps every number in use below the free number. |
| Servers.Placed | autorobot/nodes.py:150-158 | Succeeds iff the numbering rule does and nothing raises after the delete. A numbering error leaves the container unchanged; a later error leaves the settled number empty and the rest unchanged. On success the new object sits at the settled number and every other number is untouched. |
| Servers.Returned | autorobot/nodes.py:159 | `get(num) if obj else num`: the object iff `obj`, always carrying the number. |
| Servers.Selected | autorobot/nodes.py:170-172 | The selected (number, object) pairs are in selection order, each the stored object; all are kept when every number exists. |
| Servers.Created | autorobot/nodes.py:150-159 | Succeeds iff the numbering rule does and nothing raises after the delete; a numbering error changes nothing. A failed create adds nothing and changes no object; every number in use stays below the free number. |
| Servers.CreatedSpec | autorobot/nodes.py:150-159 | A numbering error is raised with nothing changed; an error after the delete is raised with the settled number emptied. On success the new object sits at its number, the rest is untouched, and the object or its number is returned. |
| Servers.Server.FreeNumber | autorobot/nodes.py:151 | `FreeNumber` is a number no object uses. |
| Servers.Server.Exist | autorobot/nodes.py:153 | `Exist(n)` iff `get(n)` finds an object; the free number never exists. |
| Servers.Server.Get | autorobot/cases.py:139 | `get(n)` finds the object iff `n` is in use. |
| Servers.Server.Select | autorobot/nodes.py:170-172 | The selected (number, object) pairs are existing numbers with their stored objects, at most one per selected number, and all of them in selection order when every number exists. |
| Servers.Server.Delete | autorobot/nodes.py:155 | `Delete(n)` removes exactly `n`. |
| Servers.Server.Create | autorobot/nodes.py:158 | `Create(n, ...)` puts the object at `n`. |
| Servers.Server.Update | autorobot/cases.py:90 | An attribute write changes the object at `n` only. |
| Servers.Server.Place | autorobot/nodes.py:150-158 | Computes `Placed` on the container, in place. |
| Servers.FreeNumberTaken | autorobot/nodes.py:150-151 | With no number, the free number is taken and the call cannot fail. |
| Servers.PlaceFrame | autorobot/nodes.py:153-158 | After a successful create the new object is at its number; every other number holds what it held. |
| Servers.TakenNumberRefused | autorobot/nodes.py:153-157 | A taken number without `overwrite` raises AutoRobotIdError and changes nothing. |
| Servers.OverwriteReplaces | autorobot/nodes.py:153-158 | With `overwrite`, a taken number ends up holding exactly the new object. |
| Servers.FailedOverwriteLosesObject | autorobot/nodes.py:153-158 | With `overwrite`, when a step after the delete raises, the old object at the taken number is gone and nothing replaces it. |
| Nodes.Coordinates | autorobot/nodes.py:158 | The node from `float(x)`, `float(y)`, `float(z)`: it exists iff all three convert; otherwise the first failing conversion's error. |
| Nodes.Create | autorobot/nodes.py:139-159 | `create(x, y, z, num, obj, overwrite)` computes `Created` on the node container, converting the coordinates only after the delete. |
| Nodes.NodeNumber | autorobot/nodes.py:69-71 | `int(node)` is the node's number, and `int()` gives that number for the node as an `__int__` argument. |
| Nodes.CreatedNodeNumber | autorobot/nodes.py:69-71 | `int(node)` of a created node is the number it was requested at. |
| Nodes.RowsOf | autorobot/nodes.py:170-172 | One row `[Number, X, Y, Z]` per selected node. |
| Nodes.Table | autorobot/nodes.py:161-172 | `table(s)`: ValueError iff nothing is selected; otherwise one row per selected node, in selection order. |
| Nodes.KeyedRows | autorobot/nodes.py:110-111 | One distance per row, paired with the row's number. |
| Nodes.ArgMin | autorobot/nodes.py:114 | `argmin` gives the first index of the smallest distance. |
| Nodes.InsertKeeps | autorobot/nodes.py:119 | Insertion keeps every entry (multiset). |
| Nodes.InsertSorted | autorobot/nodes.py:119 | Insertion keeps the ranking ascending. |
| Nodes.Rank | autorobot/nodes.py:119 | `argsort` gives a permutation of the distances in ascending order. |
| Nodes.NumbersOf | autorobot/nodes.py:119-125 | The ranked numbers, in ranked order. |
| Nodes.Closest | autorobot/nodes.py:93-125 | ValueError iff nothing is selected. Count 1 gives the number of the first selected row at minimal distance, as `argmin` does; other counts give a ranking. |
| Nodes.ClosestRanksAll | autorobot/nodes.py:118-119 | With count -1, every selected node appears once, ordered by distance. |
| Nodes.ClosestPrefix | autorobot/nodes.py:120-121 | Any other count k gives the Python prefix `[:k]` of the full ranking. |
| Nodes.RowNumber | autorobot/nodes.py:197-205 | With more than three columns a row's number is its first value, truncated by `astype(int)`. |
| Nodes.RowNode | autorobot/nodes.py:197-205 | A row gives a node iff the array has at least three columns; with more than three the first column is skipped. Fewer than three raise TypeError. |
| Nodes.RowStep | autorobot/nodes.py:205-206 | One pass of the loop: a failure changes nothing. |
| Nodes.Batch | autorobot/nodes.py:203-207 | The rows are created one after another; on success there is one result per row. |
| Nodes.BatchStops | autorobot/nodes.py:204-206 | After the first failure, later rows change neither the result nor the container. |
| Nodes.FromArray | autorobot/nodes.py:174-207 | A 1-D array creates one node from its first three values (TypeError if fewer); a 0-D array raises IndexError at `a.shape[1]`; more than 2 dimensions raises AutoRobotValueError; a 2-D array runs the row loop. |
| Nodes.CreateRows | autorobot/nodes.py:203-207 | The row loop computes `Batch` on the container. |
| Nodes.CreateRow | autorobot/nodes.py:205-206 | One pass computes `RowStep`. |
| Nodes.NumberColumnNumbers | autorobot/nodes.py:197-200 | With a number column, each result is its row's truncated first value, in row order. |
| Nodes.IteratedNumbers | autorobot/nodes.py:202 | Numbers taken from an iterable `num` go to the rows in order. |
| Nodes.FreeNumbersIncrease | autorobot/nodes.py:202-206 | Without numbers, each row gets a fresh free number, increasing row by row, and nothing fails. |
| Bars.Endpoints | autorobot/bars.py:49-57 | Both endpoints convert iff each is a node or accepted by `int`; any failure becomes AutoRobotValueError. |
| Bars.CreateBar | autorobot/bars.py:49-67 | A bad endpoint raises AutoRobotValueError with nothing changed. Any failed `create` adds no bar and changes none; only the settled number can be emptied. |
| Bars.Create | autorobot/bars.py:49-67 | `ExtendedBarServer.create` computes `CreateBar` on the container. |
| Bars.BadEndpointRefused | autorobot/bars.py:49-57 | A bad endpoint raises AutoRobotValueError before the number is looked at; nothing changes. |
| Bars.CreatedBarJoinsEndpoints | autorobot/bars.py:58-67 | Once the endpoints convert, `create` succeeds iff the numbering rule does and the host does not refuse. A numbering error changes nothing; a host refusal after the delete leaves the settled number empty. On success the new bar joins the normalised start and end nodes. |
| Bars.EndpointKindsAgree | autorobot/bars.py:51 | A node and the plain integer of its number are interchangeable as endpoints. |
| Bars.RowsOf | autorobot/bars.py:76-79 | One row `[Number, StartNode, EndNode]` per selected bar. |
| Bars.Table | autorobot/bars.py:69-79 | `table(s)`: ValueError iff nothing is selected; otherwise one row per selected bar, in selection order. |
| Cases.EnvOf | autorobot/cases.py:1-35 | The values cases.py reads, built from the alias tables; no synonym value is also a key. |
| Cases.Resolve | autorobot/cases.py:88-90 | `synonyms[v]`: the stored constant for a short name, `v` itself otherwise. |
| Cases.Cast | autorobot/cases.py:51-60 | SIMPLE cases give a simple view, COMB cases a combination view, any other type `None`. |
| Cases.LabelPrefix | autorobot/cases.py:29-35 | `label_prefix` has the five natures as keys and only the prefixes G, Q, W, S, A as values; ACC, written last, always maps to A. |
| Cases.LabelPrefixes | autorobot/cases.py:29-35 | The prefix table has exactly the five natures as keys. Given distinct natures, it maps PERM, IMPOSED, WIND, SNOW, ACC to G, Q, W, S, A. |
| Cases.LoadCaseCreated | autorobot/cases.py:62-91 | Every number in use stays below the free number. |
| Cases.LoadCaseSpec | autorobot/cases.py:79-91 | Succeeds iff numbering does and the nature has a prefix; a missing prefix raises KeyError with the unlabelled case stored. On success the case is labelled prefix + `str(num)`. |
| Cases.LoadCaseShortNames | autorobot/cases.py:87-90 | Giving a short name or the constant it stands for creates the same case. |
| Cases.CreateLoadCase | autorobot/cases.py:62-91 | `create_load_case` computes `LoadCaseCreated` on the container. |
| Cases.CombinationCreated | autorobot/cases.py:93-127 | A failure leaves the cases unchanged. |
| Cases.CombinationSpec | autorobot/cases.py:114-127 | The new combination holds exactly the given (case, factor) pairs in order, and casts to a combination. |
| Cases.CreatorsShareNumbering | autorobot/cases.py:79-86 | Both creators settle on the same number or raise the same error. |
| Cases.CreateCombination | autorobot/cases.py:93-127 | The case-factor loop builds `CombinationCreated` on the stored case. |
| Cases.Get | autorobot/cases.py:129-139 | `get(n)` is `cast` of the stored case, or the lookup error. |
| Cases.GetCreatedLoadCase | autorobot/cases.py:129-139 | A created load case is found by `get` as a simple case carrying its label. |
| Cases.CastAll | autorobot/cases.py:154-155 | Each selected case is cast, in order. |
| Cases.SelectAsWritten | autorobot/cases.py:141-155 | As written, with `obj` false the generator yields nothing. |
| Cases.Select | autorobot/cases.py:141-155 | The intended `select` of the first Findings row, not the code as written: the cast cases, or with `obj` false the case numbers, in selection order. |
| Cases.SelectObjectsAgree | autorobot/cases.py:153-155 | With `obj` set, the code as written yields what it documents. |
| Cases.SelectNumbersLost | autorobot/cases.py:150-152 | With `obj` false, a selection naming an existing case yields nothing as written, and its number as intended. |
| Dofs.Position | autorobot/supports.py:31-77 | UX..RZ sit at positions 0..5 of a DOF string. |
| Dofs.DofAt | autorobot/supports.py:31-77 | Every position 0..5 belongs to one of the six DOFs. |
| Dofs.FirstBad | autorobot/releases.py:63-80 | The first position that `int(s[i])` cannot read, or 6. |
| Dofs.DigitsFrom | autorobot/releases.py:63-80 | The digits from position i succeed iff all are present and decimal. A missing position raises IndexError, a non-digit ValueError. |
| Dofs.DofDigits | autorobot/supports.py:122-129 | Succeeds iff the first six characters are digits, giving their values. Otherwise the first bad position raises IndexError (missing) or ValueError (not a digit). |
| Dofs.ExtraCharactersIgnored | autorobot/supports.py:122-129 | Characters after the sixth are never read. |
| Labels.LabelServer.Get | autorobot/materials.py:92 | `get(name)` finds the label iff it exists. |
| Labels.LabelServer.Exist | autorobot/tests/test_releases.py:99-102 | `exist(name)` iff a label is stored under `name`. |
| Labels.LabelServer.Delete | autorobot/tests/test_releases.py:93-97 | `delete(name)` removes exactly that label. |
| Labels.LabelServer.StoreWithName | autorobot/releases.py:93-94 | Storing under a name makes `get(name)` give that label; other labels are kept. |
| Labels.HostNames | autorobot/sections.py:210-211 | The 1-based names array read into a list, in index order. |
| Labels.Kept | autorobot/sections.py:212 | The filter comprehension keeps exactly the names that pass, and no more than it was given. |
| Labels.Listed | autorobot/sections.py:204-212 | A name is listed iff the host array holds it at some index 1..Count and it passes the filter. |
| Labels.KeptInOrder | autorobot/sections.py:233-235 | Filtering keeps index order across a concatenation. |
| Labels.KeepAll | autorobot/sections.py:225 | The default filter keeps every name. |
| Releases.ReleaseValue | autorobot/releases.py:63-80 | `RReleaseValues(d)` is the release value with code d. |
| Releases.EndInput | autorobot/releases.py:63-80 | One end's six release values, or the DOF string's error. |
| Releases.ReleaseCreated | autorobot/releases.py:54-94 | A failure stores nothing. On success the label is stored under `name` and returned. |
| Releases.ReleaseSpec | autorobot/releases.py:31-94 | Succeeds iff both DOF strings read, the start string's error first. Then `start[d]` and `end[d]` carry the digits of each string. |
| Releases.ReleaseIgnoresExtra | autorobot/releases.py:63-80 | Characters after the sixth of either string change nothing. |
| Releases.SetFields | autorobot/releases.py:89-91 | The `setattr` loop writes each end's six values. |
| Releases.Create | autorobot/releases.py:54-94 | `ExtendedReleaseServer.create` computes `ReleaseCreated` on the label server. |
| Supports.IsFixed | autorobot/supports.py:31-77 | `UX`..`RZ` read the fixed flag at the direction's position. |
| Supports.Stiffness | autorobot/supports.py:139-152 | Succeeds iff e has six values and `unit_angle` is non-zero, giving six values. A short tuple raises IndexError; a zero angle unit raises ZeroDivisionError when HX is reached. |
| Supports.StiffnessValues | autorobot/supports.py:139-147 | K = e·unit_force and H·unit_angle = e·unit_force. |
| Supports.Angles | autorobot/supports.py:154-177 | Given angles are scaled by `unit_angle`; towards a node, the two computed angles and Gamma 0. A towards-node failure is passed on unchanged: AutoRobotValueError from the wrapped node reads, TypeError from the unwrapped subtraction. |
| Supports.Flags | autorobot/supports.py:122-129 | `bool(int(dof[i]))`: six flags, flag i set iff digit i is not 0. |
| Supports.FixedIffNonZero | autorobot/supports.py:122-129 | A direction is fixed iff its DOF character is not '0'. |
| Supports.SupportCreated | autorobot/supports.py:92-181 | A failure stores nothing. |
| Supports.SupportSucceeds | autorobot/supports.py:92-181 | Succeeds iff the DOF string, elasticity and orientation all read; a bad DOF string raises its own error first. |
| Supports.SupportStored | autorobot/supports.py:121-181 | On success the label is stored under `name` and the rest kept. Direction d is fixed iff its character is not '0'; the stiffnesses are six zeros without elasticity and `Stiffness`'s values with it; the angles are `Angles`'. |
| Supports.SetFixed | autorobot/supports.py:134-137 | The fixing loop: direction i is fixed iff its digit is not 0. |
| Supports.NewData | autorobot/supports.py:131-177 | The host data written field by field holds the DOF flags, the stiffnesses and the angles. |
| Supports.SetStiffness | autorobot/supports.py:150-152 | The stiffness loop writes the six values. |
| Supports.Create | autorobot/supports.py:92-181 | `ExtendedSupportServer.create` computes `SupportCreated` on the label server. |
| Sections.Dim | autorobot/sections.py:55-103 | `d`/`b`/`t`: AutoRobotValueError iff tapered. One segment gives the tube or rectangle value, `None` for other types; no segment gives the standard value. |
| Sections.TubeDepthIsWidth | autorobot/sections.py:55-86 | A tube section reads the same diameter for `d` and `b`. |
| Sections.LinearWeight | autorobot/sections.py:105-108 | `weight` is the standard Weight value, 0 when the host never set it. |
| Sections.SolidKey | autorobot/sections.py:141-177 | `is_solid` matches the True key iff it is True or 1, the False key iff it is False or 0; anything else matches no key. |
| Sections.ShapeParams | autorobot/sections.py:141-177 | The shape table has an entry iff the shape is round or rect and `is_solid` is a key equal to True or False (1 and 1.0 included); otherwise KeyError. |
| Sections.SectionCreated | autorobot/sections.py:123-191 | A KeyError stores nothing. |
| Sections.CreatedDimensions | autorobot/sections.py:141-191 | A created section has one segment. Its `d`, `b`, `t` read back the scaled h, w, t for its shape (a solid tube: t = 0). The material is set iff named. |
| Sections.SetValues | autorobot/sections.py:186-188 | The `SetValue` loop writes the shape's values into the segment. |
| Sections.Create | autorobot/sections.py:123-191 | `ExtendedSectionServer.create` computes `SectionCreated` on the label server. |
| Sections.Request | autorobot/sections.py:245-248 | The named database is used iff `db_name` is non-empty, the default one otherwise. |
| Sections.SectionLoaded | autorobot/sections.py:237-250 | The label is stored iff the loader reports success. |
| Sections.Load | autorobot/sections.py:237-250 | `load` computes `SectionLoaded` on the label server. |
| Materials.Field | autorobot/materials.py:29-67 | Only `is_default` reads the Default flag. |
| Materials.Aliases | autorobot/materials.py:34-67 | `density`/`RO` and `fy`/`RE` read the same field; no other two properties do. |
| Materials.Value | autorobot/materials.py:34-67 | A numeric property reads its field, 0 when the host never set it. |
| Materials.MaterialLoaded | autorobot/materials.py:82-92 | On success the label is stored and `get(name)` returned; otherwise nothing is stored and `None` returned. |
| Materials.Load | autorobot/materials.py:82-92 | `load` computes `MaterialLoaded` on the label server. |
| App.AppEnvOf | autorobot/app.py:13-19 | The values app.py reads from the tables: the licences are `iter(RLicense)`, and no synonym value is a key. |
| App.QuitOption | autorobot/app.py:185-190 | `None` uses PROMPT, True SAVE, False DISCARD. |
| App.QuitOptionsDistinct | autorobot/app.py:185-190 | The three choices reach the host as three different options. |
| App.HasLicense | autorobot/app.py:141-147 | True iff some licence's entitlement check returns OK. |
| App.LicenseOverTable | autorobot/app.py:146-147 | True iff some value stored in `RLicense` is entitled, although iteration yields one value per code. |
| App.NewProject | autorobot/app.py:165-170 | The host creates a project of `synonyms[proj_type]` iff it accepts it; any failure is AutoRobotProjError. |
| App.NewBySynonym | autorobot/app.py:166 | A short name and the constant it stands for create the same project. |
| App.Lookup | autorobot/app.py:225-229 | Own members first; then `self.app`; then names the host has are forwarded, others raise AttributeError. After `quit`, RecursionError. |
| App.RobotApp.GetAttr | autorobot/app.py:225-229 | Attribute lookup on the wrapper in its current state. |
| App.RobotApp.License | autorobot/app.py:141-147 | `has_license` on the current host, or RecursionError after `quit`. |
| App.RobotApp.Quit | autorobot/app.py:176-195 | The host quits with the chosen option; `self.app` and the module-level `app` become `None`. After `quit`, RecursionError. |
| App.RobotApp.Save | autorobot/app.py:197-205 | With a file name it saves once and returns True; without one it returns False and does nothing. |
| App.RobotApp.Show | autorobot/app.py:211-218 | Visible becomes True and Interactive `interactive`. |
| App.RobotApp.Hide | autorobot/app.py:220-223 | Visible and Interactive both become False. |
| App.RobotApp.New | autorobot/app.py:153-170 | The project type is set iff `NewProject` succeeds. Otherwise AutoRobotProjError, also after `quit`. |
| App.Start | autorobot/app.py:51-60 | Without a licence: quits with DISCARD, clears the module-level `app`, raises AutoRobotLicenseError. Otherwise shows with `interactive` if visible, else hides. |
| App.Initialize | autorobot/app.py:232-244 | On success the new wrapper becomes the module-level `app` and is returned. |

## Left out

- Starting the host, loading its assemblies and finding its files (robotom.py, instances.py): process start-up and foreign code. The host is a parameter or a modelled container.
- extensions.py is not part of this model: the repository's extensions.py is an older file without `EnumCapsule`, `ExtendedServer` or `ExtendedLabelServer`, which the core imports. `Constants` rebuilds `EnumCapsule` from its use in constants.py and from autorobot/tests/test_constants.py. `Servers` and `Labels` keep only what the wrappers call: `Exist`, `Delete`, `Create`, `FreeNumber`, `get`, `select`, `Store` and `StoreWithName`.
- `FreeNumber` policy: the host's choice is not known. The model keeps a number above every number in use and bumps it past each created number.
- Selection strings such as `'2to8by2'` or `'all'` are read by the host; a selection is the sequence of numbers it names. The batch `with server:` scope is not modelled.
- `set`, `set_section` and `set_support` only hand a selection and a label name to the host. They have no rule of their own to model.
- geometry.py and loads.py: floating-point geometry and host record edits.
- Nodes: `distance` and `closest` use floating-point distances; the model ranks by the exact squared distance. Rounding can make two distances tie, or order two nearly equal ones differently, where the exact values do not.
- Nodes.Rank: ties are broken in selection order. numpy's default `argsort` is not a stable sort, so this is one of the orders the source may produce, not the only one.
- Nodes.Closest: with count 1 and `obj=False` the source returns `coords[id_min, 0]`, a float; the model returns the same number as an int. `obj=True` (`nodes.get`) is not modelled; the number is returned instead.
- Nodes.Coordinates: `float()` itself is not modelled; each coordinate arrives as what `float(...)` gives, a real or an error. The host's node `Create` is assumed to accept any coordinates.
- Supports.Angles: orienting towards a node uses `arctan2`/`arccos` and node reads, so those two angles, or the error raised on the way, arrive as a given result. supports.py:159 tests `orient_node` twice; only its effect is modelled: when `orient_node` is already an array the wrapped node reads are skipped, and the subtraction at supports.py:174 then raises outside the `try` (a TypeError when `node` is `None`).
- Sections: `CalcNonstdGeometry` and the host's defaults for values never written are not modelled; an unwritten value reads as 0. `get_db`'s database handle is left to the host; `db_list` and `get_db_names` are modelled by `Labels.Listed` over the host's names array.
- DOF strings are modelled as strings only. The docstrings of releases.py and supports.py call falsy values free, but the code indexes them, so `""` raises IndexError; the model follows the code. Non-string arguments such as `None` (TypeError) are not modelled.
- Python `int()` also accepts non-ASCII Unicode digits and underscores between digits, and strips Unicode whitespace (`\x1c`-`\x1f`, `\x85`, `\xa0` and others); the model reads ASCII digits and strips ASCII whitespace only.
- `quit` waits one second (`time.sleep`), which is not modelled.
- App.RobotApp.Save: the source returns `Save() or True`, which is the host's return value when that is truthy and True otherwise. The model returns True in both cases, since the host's return value is not modelled.
- App.QuitOption: only `None`, `True` and `False` are modelled for `save`; other truthy or falsy values choose SAVE or DISCARD in the same way.
- Decorators: attribute lookup searches the bases depth first, not by Python's C3 linearisation; the two agree on the single-inheritance and ABC-first hierarchies the package builds.
- `close`, `open` and `save_as` only forward a path or a call to the host.
- Cases: `label_prefix` is a class attribute that users may change; the model uses its default value.
- Whether the host accepts a resolved nature, analysis type or combination type is not modelled; the host stores what it is given. Cases.LoadCaseCreated and Cases.CombinationCreated therefore cannot fail after the delete that `overwrite` triggers, as `Bars.CreateBar` can.
- Decorators.Hierarchy.RunHook, Decorators.Hierarchy.Define, Decorators.Check, Decorators.RunEnforcesContracts, Decorators.RequiresInit, Cases.Select: these state the corrected behaviour of the Findings rows (the corrected hook chain, message, guard and `select`), not the code as written. The code as written is modelled beside them (`RunAsWritten`, `MessageAsWritten`, `RequiresInitAsWritten`, `SelectAsWritten`). The code as written (`RunAsWritten`, `MessageAsWritten`) is modelled beside them; with nested contracts it accepts a class the model's `Define` rejects (`Decorators.NestedContractBypassed`).

## Findings

| source | as written | input that shows it | evidently intended | confidence | as-written member | corrected member |
|---|---|---|---|---|---|---|
| autorobot/cases.py:150-152 | `select` contains `yield`, so `return it` in the `obj=False` branch just ends the generator | `select(s, obj=False)` on a selection naming one existing case | the case numbers of the selection | not executed | Cases.SelectNumbersLost | Cases.Select |
| autorobot/decorators.py:14-15 | `raise(AutoRobotInitError, "...")` raises a tuple, which Python 3 rejects with TypeError | any decorated call before `initialize` | AutoRobotInitError | not executed | Decorators.RequiresInitRaisesTypeError | Decorators.RequiresInit |
| autorobot/decorators.py:52-55 | the second string literal lacks the `f` prefix, so `{cls.__name__}` is printed literally | a subclass of a decorated class missing a listed attribute | the message names the class | not executed | Decorators.MessageAsWrittenIgnoresClass | Decorators.MessageNamesClass |
| autorobot/decorators.py:43-46 | the previous contract hook is called bound to the class it was captured on, not to the new subclass | `Outer` decorated with `a`; `Inner(Outer, ABC)` decorated with `b`; `Leaf(Inner)` defining only `b` | `Leaf` is rejected for lacking `a` | not executed | Decorators.NestedContractBypassed | Decorators.RunEnforcesContracts |
