/**
 * autorobot/materials.py: the property views of `ExtendedMaterialLabel` and
 * `ExtendedMaterialServer.load`. The material data and its database belong to the host.
 */
module Materials {
  import opened Errors
  import opened Labels

  /** The fields of the host's material data that the views read. */
  datatype MaterialField = DefaultFlag | RO | E | Kirchoff | NU | RE

  datatype MaterialData = MaterialData(isDefault: bool, values: map<MaterialField, real>)

  datatype MaterialLabel = MaterialLabel(name: string, data: MaterialData)

  /** The label's properties, under their own names. */
  datatype Property = IsDefault | Density | RODensity | Young | Shear | Poisson | YieldStrength | REStrength

  /** The data field each property reads. */
  function Field(p: Property): (f: MaterialField)
    ensures f == DefaultFlag <==> p == IsDefault
  {
    match p
    case IsDefault => DefaultFlag
    case Density => RO
    case RODensity => RO
    case Young => E
    case Shear => Kirchoff
    case Poisson => NU
    case YieldStrength => RE
    case REStrength => RE
  }

  /**
   * The two pairs of aliases read the same field (`density` and `RO`, `fy` and `RE`), and
   * apart from them no two properties share a field.
   */
  lemma Aliases(p: Property, q: Property)
    ensures Field(p) == Field(q) <==>
      (|| p == q
       || ({p, q} == {Density, RODensity})
       || ({p, q} == {YieldStrength, REStrength}))
  {
    if p != q && Field(p) == Field(q) {
      match p
      case Density => assert q == RODensity;
      case RODensity => assert q == Density;
      case YieldStrength => assert q == REStrength;
      case REStrength => assert q == YieldStrength;
      case _ =>
    }
    if {p, q} == {Density, RODensity} {
      assert p in {Density, RODensity} && q in {Density, RODensity};
    }
    if {p, q} == {YieldStrength, REStrength} {
      assert p in {YieldStrength, REStrength} && q in {YieldStrength, REStrength};
    }
  }

  /** A numeric property's value; a field the host never set reads as 0. */
  function Value(l: MaterialLabel, p: Property): (r: real)
    requires p != IsDefault
    ensures Field(p) in l.data.values ==> r == l.data.values[Field(p)]
    ensures Field(p) !in l.data.values ==> r == 0.0
  {
    var f := Field(p);
    if f in l.data.values then l.data.values[f] else 0.0
  }

  /**
   * `load(name)` on a label server holding `labels`, with `dbase` the host's
   * `LoadFromDBase`: on success the label is stored and `get(name)` returned, otherwise
   * nothing is stored and the result is `None`.
   */
  function MaterialLoaded(labels: map<string, MaterialLabel>, name: string, dbase: string -> Option<MaterialData>)
    : (o: LabelOutcome<Option<MaterialLabel>, MaterialLabel>)
    ensures o.result.Ok?
    ensures dbase(name).None? <==> o.result.value.None?
    ensures dbase(name).None? ==> o.after == labels
    ensures dbase(name).Some? ==>
      && o.after == labels[name := MaterialLabel(name, dbase(name).value)]
      && o.result.value == Some(o.after[name])
  {
    match dbase(name)
    case None => LabelOutcome(Ok(None), labels)
    case Some(data) =>
      var l := MaterialLabel(name, data);
      LabelOutcome(Ok(Some(l)), labels[name := l])
  }

  /** `ExtendedMaterialServer.load`. */
  method Load(s: LabelServer<MaterialLabel>, name: string, dbase: string -> Option<MaterialData>)
    returns (r: Option<MaterialLabel>)
    modifies s
    ensures Ok(r) == MaterialLoaded(old(s.labels), name, dbase).result
    ensures s.labels == MaterialLoaded(old(s.labels), name, dbase).after
  {
    var success := dbase(name);
    r := None;
    if success.Some? {
      s.StoreWithName(name, MaterialLabel(name, success.value));
      var got := s.Get(name);
      r := Some(got.value);
    }
  }
}
