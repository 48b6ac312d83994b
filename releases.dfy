/**
 * autorobot/releases.py: `ExtendedReleaseServer.create`, which reads a start and an end DOF
 * string into bar-end release values and stores the label, and the `start`/`end` views of
 * `ExtendedReleaseLabel`.
 */
module Releases {
  import opened Errors
  import opened Dofs
  import opened Labels
  import PyText
  import Constants

  /**
   * A bar release label: its name and the release values of the start and end node, each
   * six values in UX, UY, UZ, RX, RY, RZ order (`label.start` and `label.end`).
   */
  datatype ReleaseLabel = ReleaseLabel(name: string, start: seq<Constants.EnumValue>, end: seq<Constants.EnumValue>)

  /** `RReleaseValues(d)`: the unchecked construction of a release value with code `d`. */
  function ReleaseValue(t: Constants.AliasTable, d: nat): (v: Constants.EnumValue)
    ensures v.kind == t.source.kind && v.code == d
  {
    Constants.UncheckedCall(t, d);
    Constants.Call(t, d).value
  }

  /** One of the two dictionaries of `input`: `RReleaseValues(int(s[i]))` for i = 0..5. */
  function EndInput(t: Constants.AliasTable, s: string): (r: Result<seq<Constants.EnumValue>>)
    ensures r.Ok? <==> DofDigits(s).Ok?
    ensures r.Err? ==> r.error == DofDigits(s).error
    ensures r.Ok? ==> |r.value| == 6 && forall i :: 0 <= i < 6 ==> r.value[i] == ReleaseValue(t, DofDigits(s).value[i])
  {
    match DofDigits(s)
    case Err(e) => Err(e)
    case Ok(ds) => Ok(seq(6, i requires 0 <= i < 6 => ReleaseValue(t, ds[i])))
  }

  /**
   * `create(name, start, end)` on a label server holding `labels`: both DOF strings are
   * read, the start string first, before any label exists; then the label is stored under
   * `name` and `get(name)` returned.
   */
  function ReleaseCreated(t: Constants.AliasTable, labels: map<string, ReleaseLabel>, name: string, start: string, end: string)
    : (o: LabelOutcome<ReleaseLabel, ReleaseLabel>)
    ensures o.result.Err? ==> o.after == labels
    ensures o.result.Ok? ==> name in o.after && o.after[name] == o.result.value
  {
    match (EndInput(t, start), EndInput(t, end))
    case (Err(e), _) => LabelOutcome(Err(e), labels)
    case (Ok(_), Err(e)) => LabelOutcome(Err(e), labels)
    case (Ok(a), Ok(b)) =>
      var l := ReleaseLabel(name, a, b);
      LabelOutcome(Ok(l), labels[name := l])
  }

  /**
   * The release label's `start` (and `end`) reads character i of the start (end) string as
   * a release value whose code is that digit. The call fails exactly when either string
   * has a missing or non-digit character among its first six, raising the start string's
   * error first, and then stores nothing.
   */
  lemma ReleaseSpec(t: Constants.AliasTable, labels: map<string, ReleaseLabel>, name: string, start: string, end: string)
    ensures var o := ReleaseCreated(t, labels, name, start, end);
      && (o.result.Ok? <==> DofDigits(start).Ok? && DofDigits(end).Ok?)
      && (DofDigits(start).Err? ==> o.result == Err(DofDigits(start).error))
      && (DofDigits(start).Ok? && DofDigits(end).Err? ==> o.result == Err(DofDigits(end).error))
      && (o.result.Ok? ==>
            && o.after == labels[name := o.result.value]
            && o.result.value.name == name
            && |o.result.value.start| == 6 && |o.result.value.end| == 6
            && forall d: Dof ::
                 && o.result.value.start[Position(d)].kind == t.source.kind
                 && o.result.value.start[Position(d)].code == PyText.DigitValue(start[Position(d)])
                 && o.result.value.end[Position(d)].kind == t.source.kind
                 && o.result.value.end[Position(d)].code == PyText.DigitValue(end[Position(d)]))
  {
  }

  /** Characters after the sixth of either string change nothing. */
  lemma ReleaseIgnoresExtra(t: Constants.AliasTable, labels: map<string, ReleaseLabel>, name: string,
                            start: string, end: string, moreStart: string, moreEnd: string)
    requires |start| == 6 && |end| == 6
    ensures ReleaseCreated(t, labels, name, start + moreStart, end + moreEnd) == ReleaseCreated(t, labels, name, start, end)
  {
    ExtraCharactersIgnored(start + moreStart);
    ExtraCharactersIgnored(end + moreEnd);
    assert (start + moreStart)[..6] == start;
    assert (end + moreEnd)[..6] == end;
  }

  /** The inner `setattr` loop: each field UX..RZ of one end's data gets its value. */
  method SetFields(data: array<Constants.EnumValue>, params: seq<Constants.EnumValue>)
    requires data.Length == |params|
    modifies data
    ensures data[..] == params
  {
    for d := 0 to data.Length
      invariant data[..d] == params[..d]
    {
      data[d] := params[d];
    }
  }

  /** `ExtendedReleaseServer.create`: the outer loop of `setattr` runs once per bar end. */
  method Create(t: Constants.AliasTable, s: LabelServer<ReleaseLabel>, name: string, start: string, end: string)
    returns (r: Result<ReleaseLabel>)
    modifies s
    ensures r == ReleaseCreated(t, old(s.labels), name, start, end).result
    ensures s.labels == ReleaseCreated(t, old(s.labels), name, start, end).after
  {
    var first := EndInput(t, start);
    if first.Err? {
      return Err(first.error);
    }
    var second := EndInput(t, end);
    if second.Err? {
      return Err(second.error);
    }
    // The host's data for a new label; every field is written below.
    var blank := ReleaseValue(t, 0);
    var startNode := new Constants.EnumValue[6](_ => blank);
    var endNode := new Constants.EnumValue[6](_ => blank);
    SetFields(startNode, first.value);
    SetFields(endNode, second.value);
    s.StoreWithName(name, ReleaseLabel(name, startNode[..], endNode[..]));
    r := s.Get(name);
  }
}
