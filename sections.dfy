/**
 * autorobot/sections.py: the `d`, `b`, `t` and `weight` views of `ExtendedSectionLabel`,
 * and `ExtendedSectionServer.create` (the shape table), `load`, `db_list` and
 * `get_db_names`.
 *
 * A section's data holds the host's standard values and its non-standard segments. The
 * host derives further values (`CalcNonstdGeometry`) and answers database queries; neither
 * is part of this model, and a value that was never written reads as 0.
 */
module Sections {
  import opened Errors
  import opened Labels
  import PyText

  /** `IRobotBarSectionType`: non-standard tube, non-standard rectangle, or any other type. */
  datatype SectionType = NsTube | NsRect | OtherType(code: int)

  /** `IRobotBarSectionShapeType` as `create` sets it. */
  datatype ShapeType = UserTube | UserRect | OtherShape

  /** The values of a non-standard segment (`IRobotBarSectionNonstdDataValue`). */
  datatype NsValue = TubeD | TubeT | RectH | RectB | RectT

  /** The standard values the views read (`IRobotBarSectionDataValue`). */
  datatype StdValue = D | BF | TF | Weight | IX | IY | IZ

  datatype SectionData = SectionData(
    sectionType: SectionType,
    shapeType: ShapeType,
    material: Option<string>,
    standard: map<StdValue, real>,
    nonstd: seq<map<NsValue, real>>)

  datatype SectionLabel = SectionLabel(name: string, data: SectionData)

  function ValueOf<K>(m: map<K, real>, k: K): real
  {
    if k in m then m[k] else 0.0
  }

  /** The three dimension views and, for each, what it reads on a tube, a rectangle and a standard section. */
  datatype Dimension = Depth | Width | Thickness

  function TubeValue(dim: Dimension): NsValue
  {
    match dim
    case Depth => TubeD
    case Width => TubeD
    case Thickness => TubeT
  }

  function RectValue(dim: Dimension): NsValue
  {
    match dim
    case Depth => RectH
    case Width => RectB
    case Thickness => RectT
  }

  function StandardValue(dim: Dimension): StdValue
  {
    match dim
    case Depth => D
    case Width => BF
    case Thickness => TF
  }

  /**
   * The views `d`, `b` and `t`: a tapered section (more than one non-standard segment)
   * raises AutoRobotValueError; one segment gives the tube's or rectangle's value and
   * `None` for any other type; no segment gives the standard value.
   */
  function Dim(data: SectionData, dim: Dimension): (r: Result<Option<real>>)
    ensures r.Err? <==> |data.nonstd| > 1
    ensures r.Err? ==> r.error == AutoValueError
    ensures |data.nonstd| == 0 ==> r == Ok(Some(ValueOf(data.standard, StandardValue(dim))))
    ensures |data.nonstd| == 1 ==>
      r == Ok(match data.sectionType
              case NsTube => Some(ValueOf(data.nonstd[0], TubeValue(dim)))
              case NsRect => Some(ValueOf(data.nonstd[0], RectValue(dim)))
              case OtherType(_) => None)
  {
    if |data.nonstd| > 1 then Err(AutoValueError)
    else if |data.nonstd| == 1 then
      var ns := data.nonstd[0];
      if data.sectionType == NsTube then Ok(Some(ValueOf(ns, TubeValue(dim))))
      else if data.sectionType == NsRect then Ok(Some(ValueOf(ns, RectValue(dim))))
      else Ok(None)
    else Ok(Some(ValueOf(data.standard, StandardValue(dim))))
  }

  /** A tube reads the same diameter for `d` and `b`. */
  lemma TubeDepthIsWidth(data: SectionData)
    requires data.sectionType == NsTube && |data.nonstd| >= 1
    ensures Dim(data, Depth) == Dim(data, Width)
  {
  }

  /** `weight`: the standard linear weight. */
  function LinearWeight(data: SectionData): (r: real)
    ensures Weight in data.standard ==> r == data.standard[Weight]
    ensures Weight !in data.standard ==> r == 0.0
  {
    ValueOf(data.standard, Weight)
  }

  /** `is_solid` as a dictionary key: `True == 1 == 1.0` and `False == 0 == 0.0` in Python. */
  datatype Solid = BoolSolid(b: bool) | NumberSolid(x: real) | OtherSolid

  function SolidKey(s: Solid): (r: Option<bool>)
    ensures r == Some(true) <==> s == BoolSolid(true) || s == NumberSolid(1.0)
    ensures r == Some(false) <==> s == BoolSolid(false) || s == NumberSolid(0.0)
  {
    match s
    case BoolSolid(b) => Some(b)
    case NumberSolid(x) => if x == 1.0 then Some(true) else if x == 0.0 then Some(false) else None
    case OtherSolid => None
  }

  /** What the shape table gives for a key: type, shape type and the segment values in order. */
  datatype ShapeEntry = ShapeEntry(sectionType: SectionType, shapeType: ShapeType, params: seq<(NsValue, real)>)

  /** `shape_params[(shape, is_solid)]` for the already scaled `h`, `w`, `t`; any other key raises KeyError. */
  function ShapeParams(shape: string, solid: Solid, h: real, w: real, t: real): (r: Result<ShapeEntry>)
    ensures r.Ok? <==> (shape == "round" || shape == "rect") && SolidKey(solid).Some?
    ensures r.Err? ==> r.error == KeyError
  {
    match SolidKey(solid)
    case None => Err(KeyError)
    case Some(isSolid) =>
      if shape == "round" && isSolid then Ok(ShapeEntry(NsTube, UserTube, [(TubeD, h), (TubeT, 0.0)]))
      else if shape == "rect" && isSolid then Ok(ShapeEntry(NsRect, UserRect, [(RectH, h), (RectB, w)]))
      else if shape == "round" then Ok(ShapeEntry(NsTube, UserTube, [(TubeD, h), (TubeT, t)]))
      else if shape == "rect" then Ok(ShapeEntry(NsRect, UserRect, [(RectH, h), (RectB, w), (RectT, t)]))
      else Err(KeyError)
  }

  /** The segment after `SetValue` for each pair in turn. */
  function Written(params: seq<(NsValue, real)>): map<NsValue, real>
  {
    if params == [] then map[]
    else Written(params[..|params| - 1])[params[|params| - 1].0 := params[|params| - 1].1]
  }

  /**
   * `create(name, h, w, t, shape, is_solid, material, unit)` on a label server holding
   * `labels`: the dimensions are scaled by `unit` and the shape lower-cased; a key outside
   * {round, rect} x {True, False} raises KeyError before anything is stored; the material
   * name is set only when non-empty; one segment holds the shape's values.
   */
  function SectionCreated(labels: map<string, SectionLabel>, name: string, h: real, w: real, t: real,
                          shape: string, solid: Solid, material: string, unit: real)
    : (o: LabelOutcome<(), SectionLabel>)
    ensures o.result.Err? ==> o.after == labels
  {
    match ShapeParams(PyText.Lower(shape), solid, unit * h, unit * w, unit * t)
    case Err(e) => LabelOutcome(Err(e), labels)
    case Ok(entry) =>
      var data := SectionData(entry.sectionType, entry.shapeType,
                              if material != "" then Some(material) else None,
                              map[], [Written(entry.params)]);
      LabelOutcome(Ok(()), labels[name := SectionLabel(name, data)])
  }

  /**
   * What a created section reads back: `d`, `b` and `t` give the scaled dimensions its shape
   * writes (solid round: d = b = h, t = 0; hollow round: d = b = h, t = t; solid rect: d = h,
   * b = w; hollow rect: d = h, b = w, t = t), and the material only when one was named.
   */
  lemma CreatedDimensions(labels: map<string, SectionLabel>, name: string, h: real, w: real, t: real,
                          shape: string, solid: Solid, material: string, unit: real)
    requires SectionCreated(labels, name, h, w, t, shape, solid, material, unit).result.Ok?
    ensures var o := SectionCreated(labels, name, h, w, t, shape, solid, material, unit);
      var key := PyText.Lower(shape);
      var data := o.after[name].data;
      && name in o.after && o.after == labels[name := o.after[name]]
      && |data.nonstd| == 1
      && (material != "" <==> data.material == Some(material))
      && (material == "" <==> data.material.None?)
      && (key == "round" ==>
            && Dim(data, Depth) == Ok(Some(unit * h))
            && Dim(data, Width) == Ok(Some(unit * h))
            && Dim(data, Thickness) == Ok(Some(if SolidKey(solid) == Some(true) then 0.0 else unit * t)))
      && (key == "rect" ==>
            && Dim(data, Depth) == Ok(Some(unit * h))
            && Dim(data, Width) == Ok(Some(unit * w))
            && (SolidKey(solid) == Some(false) ==> Dim(data, Thickness) == Ok(Some(unit * t))))
  {
    var entry := ShapeParams(PyText.Lower(shape), solid, unit * h, unit * w, unit * t).value;
    var ps := entry.params;
    assert ps[..1] == [ps[0]];
    assert ps[..2][..1] == [ps[0]];
    assert Written(ps[..1]) == map[ps[0].0 := ps[0].1];
    if |ps| == 2 {
      assert Written(ps) == map[ps[0].0 := ps[0].1, ps[1].0 := ps[1].1];
    } else {
      assert |ps| == 3;
      assert ps[..2] == [ps[0], ps[1]];
      assert Written(ps[..2]) == map[ps[0].0 := ps[0].1, ps[1].0 := ps[1].1];
      assert Written(ps) == map[ps[0].0 := ps[0].1, ps[1].0 := ps[1].1, ps[2].0 := ps[2].1];
    }
  }

  /** The `SetValue` loop on the new segment. */
  method SetValues(params: seq<(NsValue, real)>) returns (segment: map<NsValue, real>)
    ensures segment == Written(params)
  {
    segment := map[];
    for i := 0 to |params|
      invariant segment == Written(params[..i])
    {
      assert params[..i + 1][..i] == params[..i];
      segment := segment[params[i].0 := params[i].1];
    }
    assert params[..|params|] == params;
  }

  /** `ExtendedSectionServer.create`. */
  method Create(s: LabelServer<SectionLabel>, name: string, h: real, w: real, t: real,
                shape: string, solid: Solid, material: string, unit: real) returns (r: Result<()>)
    modifies s
    ensures r == SectionCreated(old(s.labels), name, h, w, t, shape, solid, material, unit).result
    ensures s.labels == SectionCreated(old(s.labels), name, h, w, t, shape, solid, material, unit).after
  {
    var entry := ShapeParams(PyText.Lower(shape), solid, unit * h, unit * w, unit * t);
    if entry.Err? {
      return Err(entry.error);
    }
    var materialName := None;
    if material != "" {
      materialName := Some(material);
    }
    var segment := SetValues(entry.value.params);
    s.StoreWithName(name, SectionLabel(name, SectionData(entry.value.sectionType, entry.value.shapeType,
                                                         materialName, map[], [segment])));
    r := Ok(());
  }

  /** The host's two database loaders: `LoadFromDBase2(name, db)` and `LoadFromDBase(name)`. */
  datatype LoadRequest = FromNamedBase(name: string, db: string) | FromDefaultBase(name: string)

  /** `load(name, db_name)`: the named database when `db_name` is non-empty, else the default one. */
  function Request(name: string, dbName: string): (q: LoadRequest)
    ensures q.name == name
    ensures dbName != "" <==> q == FromNamedBase(name, dbName)
    ensures dbName == "" <==> q == FromDefaultBase(name)
  {
    if dbName != "" then FromNamedBase(name, dbName) else FromDefaultBase(name)
  }

  /**
   * `load` on a label server holding `labels`, with `dbase` the host's answer to a load
   * request (`None` when the loader reports failure): the label is stored only on success.
   */
  function SectionLoaded(labels: map<string, SectionLabel>, name: string, dbName: string,
                         dbase: LoadRequest -> Option<SectionData>): (after: map<string, SectionLabel>)
    ensures dbase(Request(name, dbName)).None? ==> after == labels
    ensures dbase(Request(name, dbName)).Some? ==>
      after == labels[name := SectionLabel(name, dbase(Request(name, dbName)).value)]
  {
    match dbase(Request(name, dbName))
    case None => labels
    case Some(data) => labels[name := SectionLabel(name, data)]
  }

  /** `ExtendedSectionServer.load`. */
  method Load(s: LabelServer<SectionLabel>, name: string, dbName: string, dbase: LoadRequest -> Option<SectionData>)
    modifies s
    ensures s.labels == SectionLoaded(old(s.labels), name, dbName, dbase)
  {
    var found;
    if dbName != "" {
      found := dbase(FromNamedBase(name, dbName));
    } else {
      found := dbase(FromDefaultBase(name));
    }
    if found.Some? {
      s.StoreWithName(name, SectionLabel(name, found.value));
    }
  }
}
