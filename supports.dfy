/**
 * autorobot/supports.py: `ExtendedSupportServer.create`, which fixes degrees of freedom
 * from a DOF string, sets the six stiffnesses and the orientation angles, and stores the
 * label; and the `UX`..`RZ` views of `ExtendedSupportLabel`.
 *
 * Numbers are exact reals here. Orienting a support towards a node goes through
 * floating-point geometry (`arctan2`, `arccos`) that is not part of this model: its two
 * angles arrive ready-made.
 */
module Supports {
  import opened Errors
  import opened Dofs
  import opened Labels
  import PyText

  /**
   * The data of a support label: the fixed flags in UX..RZ order, the stiffnesses KX, KY,
   * KZ, HX, HY, HZ in that order, and the angles Alpha, Beta and Gamma.
   */
  datatype SupportData = SupportData(fixed: seq<bool>, stiffness: seq<real>, alpha: real, beta: real, gamma: real)

  datatype SupportLabel = SupportLabel(name: string, data: SupportData)

  /** The label properties `UX`..`RZ`: the same-named fixed flag of the data. */
  function IsFixed(l: SupportLabel, d: Dof): (r: bool)
    requires |l.data.fixed| == 6
    ensures forall i :: 0 <= i < 6 && DofAt(i) == d ==> (r <==> l.data.fixed[i])
  {
    l.data.fixed[Position(d)]
  }

  /**
   * How the support is oriented: by the angles `alpha`, `beta`, `gamma`, or towards
   * `orient_node`, in which case the geometry yields Alpha and Beta, or the error raised on
   * the way: AutoRobotValueError when reading the two nodes fails (supports.py:160-171), or
   * TypeError when `orient_node` is already an array and `node` is `None`, as the
   * subtraction at supports.py:174 runs outside that `try`.
   */
  datatype Orientation = ByAngles(alpha: real, beta: real, gamma: real) | TowardsNode(angles: Result<(real, real)>)

  /**
   * The `params` dictionary of an elastic support: KX..KZ are `e[i] * unit_force` and
   * HX..HZ are `e[i] * unit_force / unit_angle`, evaluated in that order, so a short tuple
   * raises IndexError and a zero `unit_angle` raises ZeroDivisionError at HX.
   */
  function Stiffness(e: seq<real>, unitForce: real, unitAngle: real): (r: Result<seq<real>>)
    ensures r.Ok? <==> |e| >= 6 && unitAngle != 0.0
    ensures r.Err? ==> r.error == (if 4 <= |e| && unitAngle == 0.0 then ZeroDivisionError else IndexError)
    ensures r.Ok? ==> |r.value| == 6
  {
    if |e| < 4 then Err(IndexError)
    else if unitAngle == 0.0 then Err(ZeroDivisionError)
    else if |e| < 6 then Err(IndexError)
    else Ok(seq(6, i requires 0 <= i < 6 => if i < 3 then e[i] * unitForce else e[i] * unitForce / unitAngle))
  }

  /** The values of `params`: KX..KZ are `e[i] * unit_force`, and HX..HZ times `unit_angle` give `e[i] * unit_force`. */
  lemma StiffnessValues(e: seq<real>, unitForce: real, unitAngle: real)
    requires Stiffness(e, unitForce, unitAngle).Ok?
    ensures var k := Stiffness(e, unitForce, unitAngle).value;
      && (forall i :: 0 <= i < 3 ==> k[i] == e[i] * unitForce)
      && (forall i :: 3 <= i < 6 ==> k[i] * unitAngle == e[i] * unitForce)
  {
    var k := Stiffness(e, unitForce, unitAngle).value;
    forall i | 3 <= i < 6 ensures k[i] * unitAngle == e[i] * unitForce {
      DivMul(e[i] * unitForce, unitAngle);
    }
  }

  lemma DivMul(x: real, y: real)
    requires y != 0.0
    ensures x / y * y == x
  {
  }

  /** Alpha, Beta and Gamma: the given angles times `unit_angle`, or the angles towards the node and 0. */
  function Angles(o: Orientation, unitAngle: real): (r: Result<(real, real, real)>)
    ensures r.Ok? <==> o.ByAngles? || o.angles.Ok?
    ensures o.ByAngles? ==> r == Ok((o.alpha * unitAngle, o.beta * unitAngle, o.gamma * unitAngle))
    ensures o.TowardsNode? && r.Ok? ==> r.value.2 == 0.0 && (r.value.0, r.value.1) == o.angles.value
    ensures o.TowardsNode? && r.Err? ==> r.error == o.angles.error
  {
    match o
    case ByAngles(_, _, _) => Ok((o.alpha * unitAngle, o.beta * unitAngle, o.gamma * unitAngle))
    case TowardsNode(Ok((a, b))) => Ok((a, b, 0.0))
    case TowardsNode(Err(e)) => Err(e)
  }

  /** The fixed flags a DOF string's digits give: a direction is fixed iff its digit is not 0. */
  function Flags(digits: seq<nat>): (f: seq<bool>)
    ensures |f| == |digits|
    ensures forall i :: 0 <= i < |digits| ==> (f[i] <==> digits[i] != 0)
  {
    seq(|digits|, i requires 0 <= i < |digits| => digits[i] != 0)
  }

  /**
   * `create(name, dof, elasticity, alpha, beta, gamma, node, orient_node, unit_force,
   * unit_angle)` on a label server holding `labels`. The DOF string is read before the label
   * exists; stiffness and orientation are computed on the new label's data; the label is
   * stored under `name` only once all of it succeeded.
   */
  function SupportCreated(labels: map<string, SupportLabel>, name: string, dof: string,
                          elasticity: Option<seq<real>>, orientation: Orientation,
                          unitForce: real, unitAngle: real): (o: LabelOutcome<(), SupportLabel>)
    ensures o.result.Err? ==> o.after == labels
  {
    var digits := DofDigits(dof);
    if digits.Err? then LabelOutcome(Err(digits.error), labels)
    else
      var fixed := Flags(digits.value);
      var stiffness := if elasticity.None? then Ok([0.0, 0.0, 0.0, 0.0, 0.0, 0.0])
                       else Stiffness(elasticity.value, unitForce, unitAngle);
      var angles := Angles(orientation, unitAngle);
      if stiffness.Err? then LabelOutcome(Err(stiffness.error), labels)
      else if angles.Err? then LabelOutcome(Err(angles.error), labels)
      else
        var (a, b, g) := angles.value;
        LabelOutcome(Ok(()), labels[name := SupportLabel(name, SupportData(fixed, stiffness.value, a, b, g))])
  }

  /**
   * A support is created exactly when the DOF string, the elasticity and the orientation
   * can all be read, and a bad DOF string raises its own error before anything else.
   */
  lemma SupportSucceeds(labels: map<string, SupportLabel>, name: string, dof: string,
                        elasticity: Option<seq<real>>, orientation: Orientation, unitForce: real, unitAngle: real)
    ensures var o := SupportCreated(labels, name, dof, elasticity, orientation, unitForce, unitAngle);
      && (o.result.Ok? <==>
            && DofDigits(dof).Ok?
            && (elasticity.Some? ==> |elasticity.value| >= 6 && unitAngle != 0.0)
            && Angles(orientation, unitAngle).Ok?)
      && (DofDigits(dof).Err? ==> o.result == Err(DofDigits(dof).error))
  {
  }

  /** A direction is fixed by a DOF string iff its character is not '0'. */
  lemma FixedIffNonZero(dof: string, d: Dof)
    requires DofDigits(dof).Ok?
    ensures Flags(DofDigits(dof).value)[Position(d)] <==> dof[Position(d)] != '0'
  {
    var i := Position(d);
    assert PyText.IsDigit(dof[i]);
    assert PyText.DigitValue(dof[i]) == 0 <==> dof[i] == '0';
  }

  /**
   * On success the new label is found under `name` and every other label is kept. A
   * direction is fixed iff its character is not '0'; without elasticity all six
   * stiffnesses are 0, with it they are the `params` values of `Stiffness`; Alpha, Beta and
   * Gamma are what `Angles` gives.
   */
  lemma SupportStored(labels: map<string, SupportLabel>, name: string, dof: string,
                      elasticity: Option<seq<real>>, orientation: Orientation, unitForce: real, unitAngle: real)
    requires SupportCreated(labels, name, dof, elasticity, orientation, unitForce, unitAngle).result.Ok?
    ensures var o := SupportCreated(labels, name, dof, elasticity, orientation, unitForce, unitAngle);
      && name in o.after && o.after == labels[name := o.after[name]]
      && var l := o.after[name];
      && l.name == name && |l.data.fixed| == 6 && |l.data.stiffness| == 6
      && (forall d: Dof :: IsFixed(l, d) <==> dof[Position(d)] != '0')
      && (elasticity.None? ==> l.data.stiffness == [0.0, 0.0, 0.0, 0.0, 0.0, 0.0])
      && (elasticity.Some? ==> Stiffness(elasticity.value, unitForce, unitAngle) == Ok(l.data.stiffness))
      && Angles(orientation, unitAngle) == Ok((l.data.alpha, l.data.beta, l.data.gamma))
  {
    var o := SupportCreated(labels, name, dof, elasticity, orientation, unitForce, unitAngle);
    var l := o.after[name];
    assert l.data.fixed == Flags(DofDigits(dof).value);
    forall d: Dof ensures IsFixed(l, d) <==> dof[Position(d)] != '0' {
      FixedIffNonZero(dof, d);
    }
  }

  /** The `SetFixed` loop: direction i is fixed iff its digit is not 0. */
  method SetFixed(fixed: array<bool>, digits: seq<nat>)
    requires fixed.Length == |digits|
    modifies fixed
    ensures fixed[..] == Flags(digits)
  {
    for i := 0 to fixed.Length
      invariant fixed[..i] == Flags(digits)[..i]
    {
      fixed[i] := digits[i] != 0;
    }
  }

  /** A `setattr` loop over the six stiffnesses. */
  method SetStiffness(stiffness: array<real>, values: seq<real>)
    requires stiffness.Length == |values|
    modifies stiffness
    ensures stiffness[..] == values
  {
    for i := 0 to stiffness.Length
      invariant stiffness[..i] == values[..i]
    {
      stiffness[i] := values[i];
    }
  }

  /**
   * The host's data for a new label, written field by field: the fixed flags from the DOF
   * digits, then the six stiffnesses, then the three angles.
   */
  method NewData(digits: seq<nat>, k: seq<real>, alpha: real, beta: real, gamma: real)
    returns (data: SupportData)
    requires |digits| == 6 && |k| == 6
    ensures data == SupportData(Flags(digits), k, alpha, beta, gamma)
  {
    var fixed := new bool[6](_ => false);
    var stiffness := new real[6](_ => 0.0);
    SetFixed(fixed, digits);
    SetStiffness(stiffness, k);
    data := SupportData(fixed[..], stiffness[..], alpha, beta, gamma);
  }

  /** `ExtendedSupportServer.create`. */
  method Create(s: LabelServer<SupportLabel>, name: string, dof: string, elasticity: Option<seq<real>>,
                orientation: Orientation, unitForce: real, unitAngle: real) returns (r: Result<()>)
    modifies s
    ensures r == SupportCreated(old(s.labels), name, dof, elasticity, orientation, unitForce, unitAngle).result
    ensures s.labels == SupportCreated(old(s.labels), name, dof, elasticity, orientation, unitForce, unitAngle).after
  {
    var digits := DofDigits(dof);
    if digits.Err? {
      return Err(digits.error);
    }
    var params := if elasticity.None? then Ok([0.0, 0.0, 0.0, 0.0, 0.0, 0.0])
                  else Stiffness(elasticity.value, unitForce, unitAngle);
    if params.Err? {
      return Err(params.error);
    }
    var angles := Angles(orientation, unitAngle);
    if angles.Err? {
      return Err(angles.error);
    }
    var (a, b, g) := angles.value;
    var data := NewData(digits.value, params.value, a, b, g);
    s.StoreWithName(name, SupportLabel(name, data));
    r := Ok(());
  }
}
