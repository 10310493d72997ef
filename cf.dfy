/**
 * The CF vocabulary shared by the writers: the timestamp conversion, bulk
 * attribute assignment, and one builder per standard variable, first as a pure
 * function on a `Store` (what the builder does to the dataset, including where
 * it stops when netCDF raises) and then as a method of `CFWriter` that performs
 * the same calls on a `Dataset` in place.
 */
module CF {
  import opened NetCDF
  import opened Frame
  import Epoch

  /** The fill value of data variables, kept as its literal. */
  const FILL_VALUE := Number("-9999.9")

  /** The unit of a variable that has none of its own: dimensionless. */
  const DEFAULT_UNITS := Text("1")

  /** The `coordinates` attribute of every observation variable. */
  const COORDINATES := Text("time depth latitude longitude")

  // ---------------------------------------------------------------------------
  // Timestamps

  /**
   * `datetimes2unixtimes`: one value per timestamp, in input order, each the
   * whole seconds since 1970-01-01T00:00:00Z. Comparing two results compares the
   * timestamps at one-second resolution.
   */
  function DatetimesToUnixtimes(dts: seq<Epoch.CivilTime>): (r: seq<int>)
    requires forall i :: 0 <= i < |dts| ==> Epoch.Valid(dts[i])
    ensures |r| == |dts|
    ensures forall i :: 0 <= i < |dts| ==> r[i] == Epoch.UnixTime(dts[i])
    ensures forall i, j :: 0 <= i < |dts| && 0 <= j < |dts| ==>
              (r[i] < r[j] <==> Epoch.Before(dts[i], dts[j]))
  {
    var r := seq(|dts|, i requires 0 <= i < |dts| => Epoch.UnixTime(dts[i]));
    assert forall i, j :: 0 <= i < |dts| && 0 <= j < |dts| ==>
             (r[i] < r[j] <==> Epoch.Before(dts[i], dts[j])) by {
      forall i, j | 0 <= i < |dts| && 0 <= j < |dts|
        ensures r[i] < r[j] <==> Epoch.Before(dts[i], dts[j])
      {
        Epoch.UnixTimeOrder(dts[i], dts[j]);
      }
    }
    r
  }

  /** Second counts as the values written into a time variable (the float cast is the variable's dtype). */
  function TimeValues(times: seq<int>): seq<Value> {
    seq(|times|, i requires 0 <= i < |times| => Whole(times[i]))
  }

  // ---------------------------------------------------------------------------
  // Attribute sets

  const CRS_ATTRIBUTES: map<string, AttrValue> := map[
    "grid_mapping_name" := Text("latitude_longitude"),
    "longitude_of_prime_meridian" := Number("0."),
    "semi_major_axis" := Number("6378137."),
    "inverse_flattening" := Number("298.257223563"),
    "epsg_code" := Text("EPSG:4326")]

  const TIME_ATTRIBUTES: map<string, AttrValue> := map[
    "units" := Text("seconds since 1970-01-01T00:00:00Z"),
    "standard_name" := Text("time"),
    "long_name" := Text("time"),
    "calendar" := Text("gregorian"),
    "axis" := Text("T")]

  const LATITUDE_ATTRIBUTES: map<string, AttrValue> := map[
    "units" := Text("degrees_north"),
    "valid_min" := Number("-90."),
    "valid_max" := Number("90."),
    "axis" := Text("Y")]

  const LONGITUDE_ATTRIBUTES: map<string, AttrValue> := map[
    "units" := Text("degrees_east"),
    "valid_min" := Number("-180."),
    "valid_max" := Number("180."),
    "axis" := Text("X")]

  const DEPTH_ATTRIBUTES: map<string, AttrValue> := map[
    "standard_name" := Text("depth"),
    "units" := Text("m"),
    "positive" := Text("down"),
    "axis" := Text("Z"),
    "valid_min" := Number("0."),
    "valid_max" := Number("10971.")]

  /** `long_name` and `standard_name` both the variable's name, and a valid range when one is given. */
  function DataAttributes(name: string, validRange: Option<(AttrValue, AttrValue)>): map<string, AttrValue> {
    map["long_name" := Text(name), "standard_name" := Text(name)]
      + (if validRange.Some? then map["valid_min" := validRange.value.0, "valid_max" := validRange.value.1]
         else map[])
  }

  /** The attributes `create_var` sets, one by one in its order, make up `DataAttributes` with the unit. */
  lemma DataAttributesInOrder(name: string, validRange: Option<(AttrValue, AttrValue)>, u: AttrValue)
    ensures validRange.Some? ==>
      map[]["long_name" := Text(name)]["standard_name" := Text(name)]
        ["valid_min" := validRange.value.0]["valid_max" := validRange.value.1]["units" := u]
      == DataAttributes(name, validRange)["units" := u]
    ensures validRange.None? ==>
      map[]["long_name" := Text(name)]["standard_name" := Text(name)]["units" := u]
      == DataAttributes(name, validRange)["units" := u]
  {
  }

  /** The unit of column `name`: its entry in `units`, else the dimensionless default. */
  function UnitsFor(units: map<string, AttrValue>, name: string): AttrValue {
    if name in units then units[name] else DEFAULT_UNITS
  }

  // ---------------------------------------------------------------------------
  // The variables the builders leave behind

  /** The feature id: over its own one-element dimension, `cf_role` and `long_name` first, caller attributes over them, value 0. */
  function IdVariable(name: string, attrs: map<string, AttrValue>): Var {
    Var(Int64, [name], map["cf_role" := Text(name + "_id"), "long_name" := Text(name)] + attrs,
        None, Some([Whole(0)]))
  }

  function TimeVariable(dims: seq<string>, times: seq<int>): Var {
    Var(Float64, dims, TIME_ATTRIBUTES, None, Some(TimeValues(times)))
  }

  /** Without caller attributes, the id carries exactly `cf_role` and `long_name`. */
  lemma IdVariableWithoutAttributes(name: string)
    ensures IdVariable(name, map[]).attrs == map["cf_role" := Text(name + "_id"), "long_name" := Text(name)]
  {
    var m := map["cf_role" := Text(name + "_id"), "long_name" := Text(name)];
    assert m + map[] == m;
  }

  /** A scalar 'S1' marker that only carries attributes: `long_name`, then the caller's. */
  function EmptyVariable(name: string, attrs: map<string, AttrValue>): Var {
    Var(Char1, [], map["long_name" := Text(name)] + attrs, None, None)
  }

  /**
   * The attribute assignments an observation column receives, in the order
   * they are made: `create_var` sets the names and the default unit, then the
   * writer sets the cross-references and overrides the unit.
   */
  function ObservationItems(name: string, u: AttrValue): Attributes {
    [("long_name", Text(name)), ("standard_name", Text(name)), ("units", DEFAULT_UNITS),
     ("coordinates", COORDINATES), ("units", u), ("grid_mapping", Text("crs")),
     ("platform", Text("platform")), ("instrument", Text("instrument"))]
  }

  /** A data column as an observation variable: what its attribute assignments leave, its fill value and its cells. */
  function ObservationVariable(col: Column, dims: seq<string>, units: map<string, AttrValue>): Var {
    Var(col.dtype, dims, ToMap(ObservationItems(col.name, UnitsFor(units, col.name))),
        Some(FILL_VALUE), Some(col.cells))
  }

  /** The assignments leave the names, the given unit (the later assignment wins) and the cross-references. */
  lemma ObservationItemsMap(name: string, u: AttrValue)
    ensures ToMap(ObservationItems(name, u))
            == map["long_name" := Text(name), "standard_name" := Text(name), "units" := u,
                   "coordinates" := COORDINATES, "grid_mapping" := Text("crs"),
                   "platform" := Text("platform"), "instrument" := Text("instrument")]
  {
    var a := ObservationItems(name, u);
    var m: map<string, AttrValue> := map[];
    assert a[..1][..0] == [];
    m := m[a[0].0 := a[0].1];
    assert ToMap(a[..1]) == m;
    assert a[..2][..1] == a[..1];
    m := m[a[1].0 := a[1].1];
    assert ToMap(a[..2]) == m;
    assert a[..3][..2] == a[..2];
    m := m[a[2].0 := a[2].1];
    assert ToMap(a[..3]) == m;
    assert a[..4][..3] == a[..3];
    m := m[a[3].0 := a[3].1];
    assert ToMap(a[..4]) == m;
    assert a[..5][..4] == a[..4];
    m := m[a[4].0 := a[4].1];
    assert ToMap(a[..5]) == m;
    assert a[..6][..5] == a[..5];
    m := m[a[5].0 := a[5].1];
    assert ToMap(a[..6]) == m;
    assert a[..7][..6] == a[..6];
    m := m[a[6].0 := a[6].1];
    assert ToMap(a[..7]) == m;
    assert a[..8][..7] == a[..7];
    m := m[a[7].0 := a[7].1];
    assert ToMap(a[..8]) == m;
    assert a[..8] == a;
  }

  // ---------------------------------------------------------------------------
  // Builders as functions on the dataset

  /**
   * What defining variable `name` as `v` amounts to: netCDF refuses a name in
   * use or a dimension that does not exist, and the dataset is then unchanged;
   * otherwise `v` is added.
   */
  function Define(s: Store, name: string, v: Var): Run {
    if name in s.vars || !DimsExist(s, v.dims) then Run(false, s)
    else Run(true, AddVariable(s, name, v))
  }

  /** `create_crs_var`: a scalar with the five WGS 84 attributes and no data. */
  function CrsVar(s: Store, name: string): Run {
    Define(s, name, Var(Float64, [], CRS_ATTRIBUTES, None, None))
  }

  /** `create_empty_var`: a scalar marker whose `long_name` the caller's attributes may override. */
  function EmptyVar(s: Store, name: string, attrs: Attributes): Run {
    Define(s, name, EmptyVariable(name, ToMap(attrs)))
  }

  /**
   * `create_id_var`: a dimension `name` of length 1 and the id variable over
   * it. A dimension already called `name` makes it fail before any change; a
   * variable already called `name` makes it fail after the dimension exists.
   */
  function IdVar(s: Store, name: string, attrs: Attributes): Run {
    if name in s.dims then Run(false, s)
    else Define(s.(dims := s.dims[name := 1]), name, IdVariable(name, ToMap(attrs)))
  }

  /**
   * `create_time_var`, the dimension and the variable both called `name`: a
   * dimension of length `|times|` and a time variable over `dims` holding `times`.
   * A dimension already called `name` makes it fail before any change.
   */
  function TimeVar(s: Store, name: string, times: seq<int>, dims: seq<string>): Run {
    if name in s.dims then Run(false, s)
    else Define(s.(dims := s.dims[name := |times|]), name, TimeVariable(dims, times))
  }

  /** `create_lat_var`, `create_lon_var` and `create_depth_var`: the caller's dimensions, fixed attributes, no data. */
  function LatVar(s: Store, dims: seq<string>): Run {
    Define(s, "latitude", Var(Float64, dims, LATITUDE_ATTRIBUTES, None, None))
  }

  function LonVar(s: Store, dims: seq<string>): Run {
    Define(s, "longitude", Var(Float64, dims, LONGITUDE_ATTRIBUTES, None, None))
  }

  function DepthVar(s: Store, dims: seq<string>): Run {
    Define(s, "depth", Var(Float64, dims, DEPTH_ATTRIBUTES, None, None))
  }

  /** `units` as `create_var` sets it: the argument, or `"1"` when there is none. */
  function UnitsOrDefault(units: Option<AttrValue>): AttrValue {
    if units.Some? then units.value else DEFAULT_UNITS
  }

  /**
   * `CFWriter.create_var`: a variable of the column's dtype with the given fill
   * value (`None` when the caller passes `None` or `False`, so no fill value is
   * recorded), filled with its cells, named in `long_name` and `standard_name`, with
   * a valid range only when one is given, and a unit.
   */
  function DataVar(s: Store, name: string, values: Column, dims: seq<string>, fill: Option<AttrValue>,
                   validRange: Option<(AttrValue, AttrValue)>, units: Option<AttrValue>): Run {
    Define(s, name, Var(values.dtype, dims, DataAttributes(name, validRange)["units" := UnitsOrDefault(units)],
                        fill, Some(values.cells)))
  }

  /**
   * A loop over a table's columns that defines one variable per column, named
   * after it and built by `variable`, and stops at the first definition netCDF
   * refuses.
   */
  function DefineEach(s: Store, cols: seq<Column>, variable: Column -> Var): Run
    decreases |cols|
  {
    if cols == [] then Run(true, s)
    else
      var r := Define(s, cols[0].name, variable(cols[0]));
      if !r.ok then r else DefineEach(r.store, cols[1..], variable)
  }

  /** The variables such a loop defines, by column name. */
  function VariablesByName(cols: seq<Column>, variable: Column -> Var): (m: map<string, Var>)
    ensures m.Keys == set i | 0 <= i < |cols| :: cols[i].name
  {
    if cols == [] then map[]
    else map[cols[0].name := variable(cols[0])] + VariablesByName(cols[1..], variable)
  }

  // ---------------------------------------------------------------------------
  // What the builders promise

  /** A definition succeeds exactly when netCDF accepts the name and dimensions, adds that one variable last, and touches nothing else. */
  lemma DefineOutcome(s: Store, name: string, v: Var)
    ensures var r := Define(s, name, v);
      && (r.ok <==> name !in s.vars && DimsExist(s, v.dims))
      && (!r.ok ==> r.store == s)
      && (r.ok ==> r.store.vars.Keys == s.vars.Keys + {name} && r.store.vars[name] == v
                   && (forall n :: n in s.vars ==> r.store.vars[n] == s.vars[n])
                   && r.store.order == s.order + [name]
                   && r.store.dims == s.dims && r.store.globals == s.globals)
  {
  }

  /** Defining keeps what netCDF keeps true of a dataset. */
  lemma DefineKeepsCoherent(s: Store, name: string, v: Var)
    requires Coherent(s)
    ensures Coherent(Define(s, name, v).store)
  {
    OperationsKeepCoherent(s, name, 0, v.dtype, v.dims, v.fill, Global, map[], []);
    assert Define(s, name, v).store.vars.Keys == CreateVar(s, name, v.dtype, v.dims, v.fill).store.vars.Keys;
  }

  /**
   * The crs carries exactly its five attributes, the EPSG code among them, and
   * no data: `crs = 0.` only rebinds the local.
   */
  lemma CrsVarAttributes(s: Store, name: string)
    ensures var r := CrsVar(s, name);
      r.ok ==> && r.store.vars[name].attrs.Keys
                  == {"grid_mapping_name", "longitude_of_prime_meridian", "semi_major_axis", "inverse_flattening", "epsg_code"}
               && r.store.vars[name].attrs["epsg_code"] == Text("EPSG:4326")
               && r.store.vars[name].dims == [] && r.store.vars[name].data.None?
  {
  }

  /** A dict with distinct keys, applied over a base: each of its items wins, and the base shows through elsewhere. */
  lemma CallerAttributesWin(base: map<string, AttrValue>, attrs: Attributes)
    requires DistinctKeys(attrs)
    ensures forall i :: 0 <= i < |attrs| ==> attrs[i].0 in base + ToMap(attrs) && (base + ToMap(attrs))[attrs[i].0] == attrs[i].1
    ensures forall k :: k in base && (forall i :: 0 <= i < |attrs| ==> attrs[i].0 != k) ==> (base + ToMap(attrs))[k] == base[k]
  {
    ToMapOfDistinct(attrs);
  }

  /**
   * The id: dimension `name` of length 1, the variable over `(name,)` holding
   * `[0]`, `cf_role` and `long_name` unless the caller's attributes name them,
   * the caller's attributes in any case.
   */
  lemma IdVarOutcome(s: Store, name: string, attrs: Attributes)
    requires DistinctKeys(attrs)
    ensures var r := IdVar(s, name, attrs);
      && (r.ok <==> name !in s.dims && name !in s.vars)
      && (name in s.dims ==> r.store == s)
      && (r.ok ==> && r.store.dims == s.dims[name := 1]
                   && r.store.vars[name].dims == [name]
                   && r.store.vars[name].dtype == Int64
                   && r.store.vars[name].data == Some([Whole(0)])
                   && (forall i :: 0 <= i < |attrs| ==>
                     attrs[i].0 in r.store.vars[name].attrs && r.store.vars[name].attrs[attrs[i].0] == attrs[i].1)
                   && ((forall i :: 0 <= i < |attrs| ==> attrs[i].0 != "cf_role") ==>
                         r.store.vars[name].attrs["cf_role"] == Text(name + "_id"))
                   && ((forall i :: 0 <= i < |attrs| ==> attrs[i].0 != "long_name") ==>
                         r.store.vars[name].attrs["long_name"] == Text(name)))
  {
    CallerAttributesWin(map["cf_role" := Text(name + "_id"), "long_name" := Text(name)], attrs);
  }

  /**
   * Time: the dimension has one slot per time and the variable holds them over
   * the given dimensions; a second call on the same dataset fails on the
   * dimension and changes nothing.
   */
  lemma TimeVarOutcome(s: Store, times: seq<int>, dims: seq<string>, again: seq<int>, dims2: seq<string>)
    ensures var r := TimeVar(s, "time", times, dims);
      && (r.ok <==> "time" !in s.dims && "time" !in s.vars && DimsExist(s.(dims := s.dims["time" := |times|]), dims))
      && (r.ok ==> && r.store.dims["time"] == |times|
                   && r.store.vars["time"].dims == dims
                   && r.store.vars["time"].attrs == TIME_ATTRIBUTES
                   && r.store.vars["time"].data == Some(TimeValues(times)))
      && ("time" !in s.dims ==> TimeVar(r.store, "time", again, dims2) == Run(false, r.store))
  {
  }

  /** The coordinate builders add their variable over the caller's dimensions and write no data. */
  lemma CoordinateVarsCarryNoData(s: Store, dims: seq<string>)
    ensures var r := LatVar(s, dims);
      r.ok ==> "latitude" in r.store.vars && r.store.vars["latitude"] == Var(Float64, dims, LATITUDE_ATTRIBUTES, None, None)
    ensures var r := LonVar(s, dims);
      r.ok ==> "longitude" in r.store.vars && r.store.vars["longitude"] == Var(Float64, dims, LONGITUDE_ATTRIBUTES, None, None)
    ensures var r := DepthVar(s, dims);
      r.ok ==> && "depth" in r.store.vars && r.store.vars["depth"] == Var(Float64, dims, DEPTH_ATTRIBUTES, None, None)
               && "positive" in r.store.vars["depth"].attrs && r.store.vars["depth"].attrs["positive"] == Text("down")
  {
  }

  /**
   * A data variable: `long_name` and `standard_name` are its name, the valid
   * range is there exactly when one is given, the unit is the argument or "1",
   * and the values and fill are the ones passed.
   */
  lemma DataVarOutcome(s: Store, name: string, values: Column, dims: seq<string>, fill: Option<AttrValue>,
                       validRange: Option<(AttrValue, AttrValue)>, units: Option<AttrValue>)
    ensures var r := DataVar(s, name, values, dims, fill, validRange, units);
      r.ok ==> var v := r.store.vars[name];
        && v.attrs["long_name"] == Text(name) && v.attrs["standard_name"] == Text(name)
        && ("valid_min" in v.attrs <==> validRange.Some?) && ("valid_max" in v.attrs <==> validRange.Some?)
        && (validRange.Some? ==> v.attrs["valid_min"] == validRange.value.0 && v.attrs["valid_max"] == validRange.value.1)
        && (units.None? ==> v.attrs["units"] == DEFAULT_UNITS)
        && (units.Some? ==> v.attrs["units"] == units.value)
        && v.attrs.Keys <= {"long_name", "standard_name", "valid_min", "valid_max", "units"}
        && v.fill == fill && v.data == Some(values.cells) && v.dims == dims && v.dtype == values.dtype
  {
  }

  /** A marker's `long_name` is its name unless the caller's attributes set one; it has no dimensions and no data. */
  lemma EmptyVarOutcome(s: Store, name: string, attrs: Attributes)
    requires DistinctKeys(attrs)
    ensures var r := EmptyVar(s, name, attrs);
      r.ok ==> && r.store.vars[name].dims == [] && r.store.vars[name].data.None?
               && (forall i :: 0 <= i < |attrs| ==>
                     attrs[i].0 in r.store.vars[name].attrs && r.store.vars[name].attrs[attrs[i].0] == attrs[i].1)
               && ((forall i :: 0 <= i < |attrs| ==> attrs[i].0 != "long_name") ==>
                     r.store.vars[name].attrs["long_name"] == Text(name))
  {
    CallerAttributesWin(map["long_name" := Text(name)], attrs);
  }

  /** With distinct column names, each column's variable is found under its name. */
  lemma {:induction false} VariableAt(cols: seq<Column>, variable: Column -> Var, i: int)
    requires Distinct(Names(cols)) && 0 <= i < |cols|
    ensures cols[i].name in VariablesByName(cols, variable)
    ensures VariablesByName(cols, variable)[cols[i].name] == variable(cols[i])
    decreases |cols|
  {
    var rest := cols[1..];
    if i > 0 {
      DistinctTail(cols);
      VariableAt(rest, variable, i - 1);
      assert rest[i - 1] == cols[i];
      assert Names(cols)[0] != Names(cols)[i];
    }
  }

  /**
   * When every column's variable lies over dimensions of `s`, the loop runs to
   * the end exactly when no column name is already a variable.
   */
  lemma {:induction false} DefineEachOutcome(s: Store, cols: seq<Column>, variable: Column -> Var)
    requires forall i :: 0 <= i < |cols| ==> DimsExist(s, variable(cols[i]).dims)
    requires Distinct(Names(cols))
    ensures DefineEach(s, cols, variable).ok <==> forall i :: 0 <= i < |cols| ==> cols[i].name !in s.vars
    decreases |cols|
  {
    if cols != [] {
      var c := cols[0];
      var rest := cols[1..];
      if c.name !in s.vars {
        forall i | 0 <= i < |rest|
          ensures rest[i].name != c.name && DimsExist(s, variable(rest[i]).dims)
        {
          assert Names(cols)[0] != Names(cols)[i + 1];
          assert rest[i] == cols[i + 1];
        }
        DistinctTail(cols);
        var s1 := AddVariable(s, c.name, variable(c));
        assert Define(s, c.name, variable(c)) == Run(true, s1);
        DefineEachOutcome(s1, rest, variable);
      }
    }
  }

  /**
   * A loop that ran to the end has added one variable per column, in column
   * order, and changed nothing else.
   */
  lemma {:induction false} DefineEachStore(s: Store, cols: seq<Column>, variable: Column -> Var)
    requires DefineEach(s, cols, variable).ok
    ensures DefineEach(s, cols, variable).store
            == s.(vars := s.vars + VariablesByName(cols, variable), order := s.order + Names(cols))
    decreases |cols|
  {
    if cols == [] {
      assert s.vars + map[] == s.vars;
      assert s.order + [] == s.order;
    } else {
      var c := cols[0];
      var rest := cols[1..];
      var s1 := AddVariable(s, c.name, variable(c));
      assert Define(s, c.name, variable(c)) == Run(true, s1);
      DefineEachStore(s1, rest, variable);
      MergeAfterUpdate(s.vars, c.name, variable(c), VariablesByName(rest, variable));
      assert Names(cols) == [c.name] + Names(rest);
      AppendAssociates(s.order, [c.name], Names(rest));
    }
  }

  // ---------------------------------------------------------------------------
  // The builders in place

  /**
   * `setncattrs`: one `setncattr` per item of `attrs`, in the dict's order; in
   * the end the target holds the mapping the items describe over its earlier
   * attributes.
   */
  method SetNcAttrs(ds: Dataset, obj: Target, attrs: Attributes)
    requires Has(ds.Snapshot(), obj)
    modifies ds
    ensures ds.Snapshot() == SetAttrs(old(ds.Snapshot()), obj, ToMap(attrs))
  {
    for i := 0 to |attrs|
      invariant ds.Snapshot() == SetEach(old(ds.Snapshot()), obj, attrs[..i])
    {
      assert attrs[..i + 1][..i] == attrs[..i];
      ds.SetNcAttr(obj, attrs[i].0, attrs[i].1);
    }
    assert attrs[..|attrs|] == attrs;
    SetEachIsSetAttrs(old(ds.Snapshot()), obj, attrs);
  }

  /** The writer base: it owns the dataset and builds the standard variables in it. */
  class CFWriter {
    const ds: Dataset

    constructor (ds: Dataset)
      ensures this.ds == ds
    {
      this.ds := ds;
    }

    method CreateCrsVar(name: string) returns (ok: bool)
      modifies ds
      ensures Run(ok, ds.Snapshot()) == CrsVar(old(ds.Snapshot()), name)
    {
      ghost var s := ds.Snapshot();
      ok := ds.CreateVariable(name, Float64, [], None);
      if !ok { return; }
      var t := Variable(name);
      ghost var v := Var(Float64, [], map[], None, None);
      ds.SetNcAttr(t, "grid_mapping_name", Text("latitude_longitude"));
      SetAttrOfAdded(s, name, v, "grid_mapping_name", Text("latitude_longitude"));
      v := v.(attrs := v.attrs["grid_mapping_name" := Text("latitude_longitude")]);
      ds.SetNcAttr(t, "longitude_of_prime_meridian", Number("0."));
      SetAttrOfAdded(s, name, v, "longitude_of_prime_meridian", Number("0."));
      v := v.(attrs := v.attrs["longitude_of_prime_meridian" := Number("0.")]);
      ds.SetNcAttr(t, "semi_major_axis", Number("6378137."));
      SetAttrOfAdded(s, name, v, "semi_major_axis", Number("6378137."));
      v := v.(attrs := v.attrs["semi_major_axis" := Number("6378137.")]);
      ds.SetNcAttr(t, "inverse_flattening", Number("298.257223563"));
      SetAttrOfAdded(s, name, v, "inverse_flattening", Number("298.257223563"));
      v := v.(attrs := v.attrs["inverse_flattening" := Number("298.257223563")]);
      ds.SetNcAttr(t, "epsg_code", Text("EPSG:4326"));
      SetAttrOfAdded(s, name, v, "epsg_code", Text("EPSG:4326"));
      v := v.(attrs := v.attrs["epsg_code" := Text("EPSG:4326")]);
      assert v.attrs == CRS_ATTRIBUTES;
    }

    method CreateEmptyVar(name: string, attrs: Attributes) returns (ok: bool)
      modifies ds
      ensures Run(ok, ds.Snapshot()) == EmptyVar(old(ds.Snapshot()), name, attrs)
    {
      ghost var s := ds.Snapshot();
      ok := ds.CreateVariable(name, Char1, [], None);
      if !ok { return; }
      ghost var v := Var(Char1, [], map[], None, None);
      ds.SetNcAttr(Variable(name), "long_name", Text(name));
      SetAttrOfAdded(s, name, v, "long_name", Text(name));
      v := v.(attrs := v.attrs["long_name" := Text(name)]);
      SetAttrsOfAdded(s, name, v, ToMap(attrs));
      SetNcAttrs(ds, Variable(name), attrs);
      assert v.attrs + ToMap(attrs) == map["long_name" := Text(name)] + ToMap(attrs);
    }

    method CreateIdVar(name: string, attrs: Attributes) returns (ok: bool)
      modifies ds
      ensures Run(ok, ds.Snapshot()) == IdVar(old(ds.Snapshot()), name, attrs)
    {
      ok := ds.CreateDimension(name, 1);
      if !ok { return; }
      ghost var s := ds.Snapshot();
      ok := ds.CreateVariable(name, Int64, [name], None);
      if !ok { return; }
      var t := Variable(name);
      ghost var v := Var(Int64, [name], map[], None, None);
      ds.SetNcAttr(t, "cf_role", Text(name + "_id"));
      SetAttrOfAdded(s, name, v, "cf_role", Text(name + "_id"));
      v := v.(attrs := v.attrs["cf_role" := Text(name + "_id")]);
      ds.SetNcAttr(t, "long_name", Text(name));
      SetAttrOfAdded(s, name, v, "long_name", Text(name));
      v := v.(attrs := v.attrs["long_name" := Text(name)]);
      SetAttrsOfAdded(s, name, v, ToMap(attrs));
      SetNcAttrs(ds, t, attrs);
      v := v.(attrs := v.attrs + ToMap(attrs));
      WriteDataOfAdded(s, name, v, [Whole(0)]);
      ds.AssignValues(name, [Whole(0)]);
      assert v.attrs == map["cf_role" := Text(name + "_id"), "long_name" := Text(name)] + ToMap(attrs);
    }

    /** `dims` is `None` where the source's `dimensions` is `None`: the variable then lies over `("time",)`. */
    method CreateTimeVar(times: seq<int>, dims: Option<seq<string>>) returns (ok: bool)
      modifies ds
      ensures Run(ok, ds.Snapshot()) == TimeVar(old(ds.Snapshot()), "time", times, if dims.Some? then dims.value else ["time"])
    {
      var dimensions := if dims.None? then ["time"] else dims.value;
      ok := ds.CreateDimension("time", |times|);
      if !ok { return; }
      ghost var s := ds.Snapshot();
      ok := ds.CreateVariable("time", Float64, dimensions, None);
      if !ok { return; }
      var t := Variable("time");
      ghost var v := Var(Float64, dimensions, map[], None, None);
      ds.SetNcAttr(t, "units", Text("seconds since 1970-01-01T00:00:00Z"));
      SetAttrOfAdded(s, "time", v, "units", Text("seconds since 1970-01-01T00:00:00Z"));
      v := v.(attrs := v.attrs["units" := Text("seconds since 1970-01-01T00:00:00Z")]);
      ds.SetNcAttr(t, "standard_name", Text("time"));
      SetAttrOfAdded(s, "time", v, "standard_name", Text("time"));
      v := v.(attrs := v.attrs["standard_name" := Text("time")]);
      ds.SetNcAttr(t, "long_name", Text("time"));
      SetAttrOfAdded(s, "time", v, "long_name", Text("time"));
      v := v.(attrs := v.attrs["long_name" := Text("time")]);
      ds.SetNcAttr(t, "calendar", Text("gregorian"));
      SetAttrOfAdded(s, "time", v, "calendar", Text("gregorian"));
      v := v.(attrs := v.attrs["calendar" := Text("gregorian")]);
      ds.SetNcAttr(t, "axis", Text("T"));
      SetAttrOfAdded(s, "time", v, "axis", Text("T"));
      v := v.(attrs := v.attrs["axis" := Text("T")]);
      WriteDataOfAdded(s, "time", v, TimeValues(times));
      ds.AssignValues("time", TimeValues(times));
      assert v.attrs == TIME_ATTRIBUTES;
    }

    method CreateLatVar(dims: seq<string>) returns (ok: bool)
      modifies ds
      ensures Run(ok, ds.Snapshot()) == LatVar(old(ds.Snapshot()), dims)
    {
      ghost var s := ds.Snapshot();
      ok := ds.CreateVariable("latitude", Float64, dims, None);
      if !ok { return; }
      var t := Variable("latitude");
      ghost var v := Var(Float64, dims, map[], None, None);
      ds.SetNcAttr(t, "units", Text("degrees_north"));
      SetAttrOfAdded(s, "latitude", v, "units", Text("degrees_north"));
      v := v.(attrs := v.attrs["units" := Text("degrees_north")]);
      ds.SetNcAttr(t, "valid_min", Number("-90."));
      SetAttrOfAdded(s, "latitude", v, "valid_min", Number("-90."));
      v := v.(attrs := v.attrs["valid_min" := Number("-90.")]);
      ds.SetNcAttr(t, "valid_max", Number("90."));
      SetAttrOfAdded(s, "latitude", v, "valid_max", Number("90."));
      v := v.(attrs := v.attrs["valid_max" := Number("90.")]);
      ds.SetNcAttr(t, "axis", Text("Y"));
      SetAttrOfAdded(s, "latitude", v, "axis", Text("Y"));
      v := v.(attrs := v.attrs["axis" := Text("Y")]);
      assert v.attrs == LATITUDE_ATTRIBUTES;
    }

    method CreateLonVar(dims: seq<string>) returns (ok: bool)
      modifies ds
      ensures Run(ok, ds.Snapshot()) == LonVar(old(ds.Snapshot()), dims)
    {
      ghost var s := ds.Snapshot();
      ok := ds.CreateVariable("longitude", Float64, dims, None);
      if !ok { return; }
      var t := Variable("longitude");
      ghost var v := Var(Float64, dims, map[], None, None);
      ds.SetNcAttr(t, "units", Text("degrees_east"));
      SetAttrOfAdded(s, "longitude", v, "units", Text("degrees_east"));
      v := v.(attrs := v.attrs["units" := Text("degrees_east")]);
      ds.SetNcAttr(t, "valid_min", Number("-180."));
      SetAttrOfAdded(s, "longitude", v, "valid_min", Number("-180."));
      v := v.(attrs := v.attrs["valid_min" := Number("-180.")]);
      ds.SetNcAttr(t, "valid_max", Number("180."));
      SetAttrOfAdded(s, "longitude", v, "valid_max", Number("180."));
      v := v.(attrs := v.attrs["valid_max" := Number("180.")]);
      ds.SetNcAttr(t, "axis", Text("X"));
      SetAttrOfAdded(s, "longitude", v, "axis", Text("X"));
      v := v.(attrs := v.attrs["axis" := Text("X")]);
      assert v.attrs == LONGITUDE_ATTRIBUTES;
    }

    method CreateDepthVar(dims: seq<string>) returns (ok: bool)
      modifies ds
      ensures Run(ok, ds.Snapshot()) == DepthVar(old(ds.Snapshot()), dims)
    {
      ghost var s := ds.Snapshot();
      ok := ds.CreateVariable("depth", Float64, dims, None);
      if !ok { return; }
      var t := Variable("depth");
      ghost var v := Var(Float64, dims, map[], None, None);
      ds.SetNcAttr(t, "standard_name", Text("depth"));
      SetAttrOfAdded(s, "depth", v, "standard_name", Text("depth"));
      v := v.(attrs := v.attrs["standard_name" := Text("depth")]);
      ds.SetNcAttr(t, "units", Text("m"));
      SetAttrOfAdded(s, "depth", v, "units", Text("m"));
      v := v.(attrs := v.attrs["units" := Text("m")]);
      ds.SetNcAttr(t, "positive", Text("down"));
      SetAttrOfAdded(s, "depth", v, "positive", Text("down"));
      v := v.(attrs := v.attrs["positive" := Text("down")]);
      ds.SetNcAttr(t, "axis", Text("Z"));
      SetAttrOfAdded(s, "depth", v, "axis", Text("Z"));
      v := v.(attrs := v.attrs["axis" := Text("Z")]);
      ds.SetNcAttr(t, "valid_min", Number("0."));
      SetAttrOfAdded(s, "depth", v, "valid_min", Number("0."));
      v := v.(attrs := v.attrs["valid_min" := Number("0.")]);
      ds.SetNcAttr(t, "valid_max", Number("10971."));
      SetAttrOfAdded(s, "depth", v, "valid_max", Number("10971."));
      v := v.(attrs := v.attrs["valid_max" := Number("10971.")]);
      assert v.attrs == DEPTH_ATTRIBUTES;
    }

    method CreateVar(name: string, values: Column, dims: seq<string>, fill: Option<AttrValue>,
                     validRange: Option<(AttrValue, AttrValue)>, units: Option<AttrValue>) returns (ok: bool)
      modifies ds
      ensures Run(ok, ds.Snapshot()) == DataVar(old(ds.Snapshot()), name, values, dims, fill, validRange, units)
    {
      ghost var s := ds.Snapshot();
      ok := ds.CreateVariable(name, values.dtype, dims, fill);
      if !ok { return; }
      var t := Variable(name);
      ghost var v := Var(values.dtype, dims, map[], fill, None);
      ds.SetNcAttr(t, "long_name", Text(name));
      SetAttrOfAdded(s, name, v, "long_name", Text(name));
      v := v.(attrs := v.attrs["long_name" := Text(name)]);
      ds.SetNcAttr(t, "standard_name", Text(name));
      SetAttrOfAdded(s, name, v, "standard_name", Text(name));
      v := v.(attrs := v.attrs["standard_name" := Text(name)]);
      if validRange.Some? {
        ds.SetNcAttr(t, "valid_min", validRange.value.0);
        SetAttrOfAdded(s, name, v, "valid_min", validRange.value.0);
        v := v.(attrs := v.attrs["valid_min" := validRange.value.0]);
        ds.SetNcAttr(t, "valid_max", validRange.value.1);
        SetAttrOfAdded(s, name, v, "valid_max", validRange.value.1);
        v := v.(attrs := v.attrs["valid_max" := validRange.value.1]);
      }
      var u := if units.None? then DEFAULT_UNITS else units.value;
      ds.SetNcAttr(t, "units", u);
      SetAttrOfAdded(s, name, v, "units", u);
      v := v.(attrs := v.attrs["units" := u]);
      WriteDataOfAdded(s, name, v, values.cells);
      ds.AssignValues(name, values.cells);
      DataAttributesInOrder(name, validRange, u);
    }

    method CreatePlatformVar(attrs: Attributes) returns (ok: bool)
      modifies ds
      ensures Run(ok, ds.Snapshot()) == EmptyVar(old(ds.Snapshot()), "platform", attrs)
    {
      ok := CreateEmptyVar("platform", attrs);
    }

    method CreateInstrumentVar(attrs: Attributes) returns (ok: bool)
      modifies ds
      ensures Run(ok, ds.Snapshot()) == EmptyVar(old(ds.Snapshot()), "instrument", attrs)
    {
      ok := CreateEmptyVar("instrument", attrs);
    }
  }
}
