/**
 * The free-function builders that predate `CFWriter`: each takes the dataset
 * as its first argument. They make the same netCDF calls as the class versions
 * with three differences: `create_id_var` ignores the attributes it is given,
 * `create_time_var` converts the timestamps itself and names the dimension and
 * the variable after its `name` argument, and `create_var` sets no unit.
 */
module Utils {
  import opened NetCDF
  import opened Frame
  import opened CF
  import Epoch

  // ---------------------------------------------------------------------------
  // The builders as functions on the dataset

  /** What `create_var` leaves: the names, the valid range when one is given, the fill value and the cells, no unit. */
  function UnitlessVariable(name: string, values: Column, dims: seq<string>, fill: Option<AttrValue>,
                            validRange: Option<(AttrValue, AttrValue)>): Var {
    Var(values.dtype, dims, DataAttributes(name, validRange), fill, Some(values.cells))
  }

  function UnitlessVar(s: Store, name: string, values: Column, dims: seq<string>, fill: Option<AttrValue>,
                       validRange: Option<(AttrValue, AttrValue)>): Run {
    Define(s, name, UnitlessVariable(name, values, dims, fill, validRange))
  }

  // ---------------------------------------------------------------------------
  // What they promise

  /**
   * `create_var` succeeds exactly when netCDF accepts the name and the
   * dimensions; the variable is named in `long_name` and `standard_name`, has a
   * valid range exactly when one is given, and never a `units` attribute.
   */
  lemma UnitlessVarOutcome(s: Store, name: string, values: Column, dims: seq<string>, fill: Option<AttrValue>,
                           validRange: Option<(AttrValue, AttrValue)>)
    ensures var r := UnitlessVar(s, name, values, dims, fill, validRange);
      && (r.ok <==> name !in s.vars && DimsExist(s, dims))
      && (!r.ok ==> r.store == s)
      && (r.ok ==> var v := r.store.vars[name];
            && "units" !in v.attrs
            && v.attrs["long_name"] == Text(name) && v.attrs["standard_name"] == Text(name)
            && ("valid_min" in v.attrs <==> validRange.Some?) && ("valid_max" in v.attrs <==> validRange.Some?)
            && (validRange.Some? ==> v.attrs["valid_min"] == validRange.value.0 && v.attrs["valid_max"] == validRange.value.1)
            && v.attrs.Keys <= {"long_name", "standard_name", "valid_min", "valid_max"}
            && v.dtype == values.dtype && v.dims == dims && v.fill == fill && v.data == Some(values.cells))
  {
  }

  /**
   * The class's `create_var` is this one plus a unit: both succeed on the same
   * datasets, and they then leave the same dataset except for the `units`
   * attribute of the new variable.
   */
  lemma ClassVersionAddsUnits(s: Store, name: string, values: Column, dims: seq<string>, fill: Option<AttrValue>,
                              validRange: Option<(AttrValue, AttrValue)>, units: Option<AttrValue>)
    ensures var r := UnitlessVar(s, name, values, dims, fill, validRange);
      var c := DataVar(s, name, values, dims, fill, validRange, units);
      && c.ok == r.ok
      && (r.ok ==> c.store == r.store.(vars := r.store.vars[name := r.store.vars[name].(attrs :=
                                         r.store.vars[name].attrs["units" := UnitsOrDefault(units)])]))
  {
    var u := UnitlessVariable(name, values, dims, fill, validRange);
    assert s.vars[name := u][name := u.(attrs := u.attrs["units" := UnitsOrDefault(units)])]
           == s.vars[name := u.(attrs := u.attrs["units" := UnitsOrDefault(units)])];
  }

  /**
   * Whatever attributes it is handed, `create_id_var` leaves an id with exactly
   * `cf_role = name_id` and `long_name = name`.
   */
  lemma FreeIdVarAttributes(s: Store, name: string)
    ensures var r := IdVar(s, name, []);
      && (r.ok <==> name !in s.dims && name !in s.vars)
      && (name in s.dims ==> r.store == s)
      && (r.ok ==> && r.store.dims == s.dims[name := 1]
                   && r.store.vars[name].attrs == map["cf_role" := Text(name + "_id"), "long_name" := Text(name)]
                   && r.store.vars[name].dims == [name] && r.store.vars[name].data == Some([Whole(0)]))
  {
    assert ToMap([]) == map[];
    IdVariableWithoutAttributes(name);
  }

  /**
   * `create_time_var`: a dimension and a variable both called `name`, the
   * dimension as long as `times`, the variable over `(name,)` with the five time
   * attributes and the converted timestamps. A dimension already called `name`
   * makes it fail before any change.
   */
  lemma FreeTimeVarOutcome(s: Store, times: seq<Epoch.CivilTime>, name: string)
    requires forall i :: 0 <= i < |times| ==> Epoch.Valid(times[i])
    ensures var secs := DatetimesToUnixtimes(times);
      var r := TimeVar(s, name, secs, [name]);
      && (r.ok <==> name !in s.dims && name !in s.vars)
      && (name in s.dims ==> r.store == s)
      && (r.ok ==> && r.store.dims == s.dims[name := |times|]
                   && r.store.vars[name] == Var(Float64, [name], TIME_ATTRIBUTES, None, Some(TimeValues(secs)))
                   && (forall i :: 0 <= i < |times| ==> r.store.vars[name].data.value[i] == Whole(Epoch.UnixTime(times[i]))))
  {
  }

  /** The attributes `create_var` sets, one by one in its order, make up `DataAttributes`. */
  lemma AttributesInOrder(name: string, validRange: Option<(AttrValue, AttrValue)>)
    ensures validRange.Some? ==>
      map[]["long_name" := Text(name)]["standard_name" := Text(name)]
        ["valid_min" := validRange.value.0]["valid_max" := validRange.value.1]
      == DataAttributes(name, validRange)
    ensures validRange.None? ==>
      map[]["long_name" := Text(name)]["standard_name" := Text(name)] == DataAttributes(name, validRange)
  {
  }

  // ---------------------------------------------------------------------------
  // The builders in place

  method CreateCrsVar(ds: Dataset, name: string) returns (ok: bool)
    modifies ds
    ensures Run(ok, ds.Snapshot()) == CrsVar(old(ds.Snapshot()), name)
  {
    ghost var s := ds.Snapshot();
    ok := ds.CreateVariable(name, Float64, [], None);
    if !ok { return; }
    var t := Variable(name);
    ghost var v := Var(Float64, [], map[], None, None);
    ds.SetNcAttr(t, "grid_mapping_name", Text("latitude_longitude"));
    SetAttrOfAdded(s, name, v, "grid_mapping_name", Text("latitude_longitude"));
    v := v.(attrs := v.attrs["grid_mapping_name" := Text("latitude_longitude")]);
    ds.SetNcAttr(t, "longitude_of_prime_meridian", Number("0."));
    SetAttrOfAdded(s, name, v, "longitude_of_prime_meridian", Number("0."));
    v := v.(attrs := v.attrs["longitude_of_prime_meridian" := Number("0.")]);
    ds.SetNcAttr(t, "semi_major_axis", Number("6378137."));
    SetAttrOfAdded(s, name, v, "semi_major_axis", Number("6378137."));
    v := v.(attrs := v.attrs["semi_major_axis" := Number("6378137.")]);
    ds.SetNcAttr(t, "inverse_flattening", Number("298.257223563"));
    SetAttrOfAdded(s, name, v, "inverse_flattening", Number("298.257223563"));
    v := v.(attrs := v.attrs["inverse_flattening" := Number("298.257223563")]);
    ds.SetNcAttr(t, "epsg_code", Text("EPSG:4326"));
    SetAttrOfAdded(s, name, v, "epsg_code", Text("EPSG:4326"));
    v := v.(attrs := v.attrs["epsg_code" := Text("EPSG:4326")]);
    assert v.attrs == CRS_ATTRIBUTES;
  }

  /** The caller's attributes are set one by one after `long_name`, so they win over it. */
  method CreateEmptyVar(ds: Dataset, name: string, attrs: Attributes) returns (ok: bool)
    modifies ds
    ensures Run(ok, ds.Snapshot()) == EmptyVar(old(ds.Snapshot()), name, attrs)
  {
    ghost var s := ds.Snapshot();
    ok := ds.CreateVariable(name, Char1, [], None);
    if !ok { return; }
    var t := Variable(name);
    ghost var v := Var(Char1, [], map[], None, None);
    ds.SetNcAttr(t, "long_name", Text(name));
    SetAttrOfAdded(s, name, v, "long_name", Text(name));
    v := v.(attrs := v.attrs["long_name" := Text(name)]);
    SetAttrsOfAdded(s, name, v, ToMap(attrs));
    for i := 0 to |attrs|
      invariant ds.Snapshot() == SetEach(AddVariable(s, name, v), t, attrs[..i])
    {
      assert attrs[..i + 1][..i] == attrs[..i];
      ds.SetNcAttr(t, attrs[i].0, attrs[i].1);
    }
    assert attrs[..|attrs|] == attrs;
    SetEachIsSetAttrs(AddVariable(s, name, v), t, attrs);
  }

  /** `attributes` is accepted and never used. */
  method CreateIdVar(ds: Dataset, name: string, attrs: Attributes) returns (ok: bool)
    modifies ds
    ensures Run(ok, ds.Snapshot()) == IdVar(old(ds.Snapshot()), name, [])
  {
    ok := ds.CreateDimension(name, 1);
    if !ok { return; }
    ghost var s := ds.Snapshot();
    ok := ds.CreateVariable(name, Int64, [name], None);
    if !ok { return; }
    var t := Variable(name);
    ghost var v := Var(Int64, [name], map[], None, None);
    ds.SetNcAttr(t, "cf_role", Text(name + "_id"));
    SetAttrOfAdded(s, name, v, "cf_role", Text(name + "_id"));
    v := v.(attrs := v.attrs["cf_role" := Text(name + "_id")]);
    ds.SetNcAttr(t, "long_name", Text(name));
    SetAttrOfAdded(s, name, v, "long_name", Text(name));
    v := v.(attrs := v.attrs["long_name" := Text(name)]);
    WriteDataOfAdded(s, name, v, [Whole(0)]);
    ds.AssignValues(name, [Whole(0)]);
    IdVariableWithoutAttributes(name);
    assert ToMap([]) == map[];
  }

  method CreateTimeVar(ds: Dataset, times: seq<Epoch.CivilTime>, name: string) returns (ok: bool)
    requires forall i :: 0 <= i < |times| ==> Epoch.Valid(times[i])
    modifies ds
    ensures Run(ok, ds.Snapshot()) == TimeVar(old(ds.Snapshot()), name, DatetimesToUnixtimes(times), [name])
  {
    var secs := DatetimesToUnixtimes(times);
    ok := ds.CreateDimension(name, |secs|);
    if !ok { return; }
    ghost var s := ds.Snapshot();
    ok := ds.CreateVariable(name, Float64, [name], None);
    if !ok { return; }
    var t := Variable(name);
    ghost var v := Var(Float64, [name], map[], None, None);
    ds.SetNcAttr(t, "units", Text("seconds since 1970-01-01T00:00:00Z"));
    SetAttrOfAdded(s, name, v, "units", Text("seconds since 1970-01-01T00:00:00Z"));
    v := v.(attrs := v.attrs["units" := Text("seconds since 1970-01-01T00:00:00Z")]);
    ds.SetNcAttr(t, "standard_name", Text("time"));
    SetAttrOfAdded(s, name, v, "standard_name", Text("time"));
    v := v.(attrs := v.attrs["standard_name" := Text("time")]);
    ds.SetNcAttr(t, "long_name", Text("time"));
    SetAttrOfAdded(s, name, v, "long_name", Text("time"));
    v := v.(attrs := v.attrs["long_name" := Text("time")]);
    ds.SetNcAttr(t, "calendar", Text("gregorian"));
    SetAttrOfAdded(s, name, v, "calendar", Text("gregorian"));
    v := v.(attrs := v.attrs["calendar" := Text("gregorian")]);
    ds.SetNcAttr(t, "axis", Text("T"));
    SetAttrOfAdded(s, name, v, "axis", Text("T"));
    v := v.(attrs := v.attrs["axis" := Text("T")]);
    WriteDataOfAdded(s, name, v, TimeValues(secs));
    ds.AssignValues(name, TimeValues(secs));
    assert v.attrs == TIME_ATTRIBUTES;
  }

  method CreateVar(ds: Dataset, name: string, values: Column, dims: seq<string>, fill: Option<AttrValue>,
                   validRange: Option<(AttrValue, AttrValue)>) returns (ok: bool)
    modifies ds
    ensures Run(ok, ds.Snapshot()) == UnitlessVar(old(ds.Snapshot()), name, values, dims, fill, validRange)
  {
    ghost var s := ds.Snapshot();
    ok := ds.CreateVariable(name, values.dtype, dims, fill);
    if !ok { return; }
    var t := Variable(name);
    ghost var v := Var(values.dtype, dims, map[], fill, None);
    ds.SetNcAttr(t, "long_name", Text(name));
    SetAttrOfAdded(s, name, v, "long_name", Text(name));
    v := v.(attrs := v.attrs["long_name" := Text(name)]);
    ds.SetNcAttr(t, "standard_name", Text(name));
    SetAttrOfAdded(s, name, v, "standard_name", Text(name));
    v := v.(attrs := v.attrs["standard_name" := Text(name)]);
    if validRange.Some? {
      ds.SetNcAttr(t, "valid_min", validRange.value.0);
      SetAttrOfAdded(s, name, v, "valid_min", validRange.value.0);
      v := v.(attrs := v.attrs["valid_min" := validRange.value.0]);
      ds.SetNcAttr(t, "valid_max", validRange.value.1);
      SetAttrOfAdded(s, name, v, "valid_max", validRange.value.1);
      v := v.(attrs := v.attrs["valid_max" := validRange.value.1]);
    }
    WriteDataOfAdded(s, name, v, values.cells);
    ds.AssignValues(name, values.cells);
    AttributesInOrder(name, validRange);
  }
}
