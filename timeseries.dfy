/**
 * `TimeseriesWriter.from_dataframe`: a table of timestamped columns becomes a
 * CF-1.6 time series at a single station, built from the `CFWriter` builders in
 * a fixed order — global attributes, the station id, time, the three
 * coordinates, the platform and instrument markers, the crs, and then one
 * observation variable per column.
 */
module Timeseries {
  import opened NetCDF
  import opened Frame
  import opened CF
  import Epoch

  /** The global attributes every time series starts with, in the order they are set. */
  const TIMESERIES_GLOBALS: Attributes := [
    ("Conventions", Text("CF-1.6")),
    ("featureType", Text("timeSeries")),
    ("cdm_data_type", Text("Station"))]

  /** The dimensions of every observation variable. */
  const OBSERVATION_DIMS: seq<string> := ["timeseries", "time"]

  /** The variables the writer defines before the columns, in the order it defines them. */
  const FIXED_VARIABLES: seq<string> := ["timeseries", "time", "latitude", "longitude", "depth", "platform", "instrument", "crs"]

  /** A dataset the writer can fill: neither dimension and none of the fixed variable names already taken. */
  predicate Fresh(s: Store) {
    && "timeseries" !in s.dims && "time" !in s.dims
    && "timeseries" !in s.vars && "time" !in s.vars
    && "latitude" !in s.vars && "longitude" !in s.vars && "depth" !in s.vars
    && "platform" !in s.vars && "instrument" !in s.vars && "crs" !in s.vars
  }

  // ---------------------------------------------------------------------------
  // The writer as functions on the dataset

  /** The global attributes: the time-series ones, then the caller's over them. */
  function Globals(s: Store, globalAttrs: Attributes): Store {
    SetAttrs(SetAttrs(s, Global, ToMap(TIMESERIES_GLOBALS)), Global, ToMap(globalAttrs))
  }

  /** The station id with its dimension, then the time dimension and variable. */
  function Station(s: Store, times: seq<int>): Run {
    var r := IdVar(s, "timeseries", []);
    if !r.ok then r else TimeVar(r.store, "time", times, ["time"])
  }

  /** Latitude, longitude and depth over the station dimension. */
  function Position(s: Store): Run {
    var r1 := LatVar(s, ["timeseries"]);
    if !r1.ok then r1 else
    var r2 := LonVar(r1.store, ["timeseries"]);
    if !r2.ok then r2 else
    DepthVar(r2.store, ["timeseries"])
  }

  /** The platform and instrument markers, then the crs. */
  function Markers(s: Store, platformAttrs: Attributes, instrumentAttrs: Attributes): Run {
    var r1 := EmptyVar(s, "platform", platformAttrs);
    if !r1.ok then r1 else
    var r2 := EmptyVar(r1.store, "instrument", instrumentAttrs);
    if !r2.ok then r2 else
    CrsVar(r2.store, "crs")
  }

  /** Everything before the column loop; `times` are the index as second counts. */
  function Header(s: Store, times: seq<int>, globalAttrs: Attributes,
                  platformAttrs: Attributes, instrumentAttrs: Attributes): Run
  {
    var r1 := Station(Globals(s, globalAttrs), times);
    if !r1.ok then r1 else
    var r2 := Position(r1.store);
    if !r2.ok then r2 else
    Markers(r2.store, platformAttrs, instrumentAttrs)
  }

  /** The observation variable each column of the loop becomes. */
  function ObservationOf(units: map<string, AttrValue>): Column -> Var {
    col => ObservationVariable(col, OBSERVATION_DIMS, units)
  }

  /** `from_dataframe` on a dataset in state `s`; the station position takes no part. */
  function Write(s: Store, df: DataFrame, globalAttrs: Attributes, platformAttrs: Attributes,
                 instrumentAttrs: Attributes, units: map<string, AttrValue>): Run
    requires Timestamped(df)
  {
    var h := Header(s, DatetimesToUnixtimes(df.index), globalAttrs, platformAttrs, instrumentAttrs);
    if !h.ok then h else DefineEach(h.store, df.columns, ObservationOf(units))
  }

  // ---------------------------------------------------------------------------
  // What the writer leaves behind

  /** The dataset after a header that ran to the end. */
  function HeaderStore(s: Store, times: seq<int>, globalAttrs: Attributes,
                       platformAttrs: Attributes, instrumentAttrs: Attributes): Store
  {
    Store(
      s.dims["timeseries" := 1]["time" := |times|],
      s.vars["timeseries" := IdVariable("timeseries", map[])]
            ["time" := TimeVariable(["time"], times)]
            ["latitude" := Var(Float64, ["timeseries"], LATITUDE_ATTRIBUTES, None, None)]
            ["longitude" := Var(Float64, ["timeseries"], LONGITUDE_ATTRIBUTES, None, None)]
            ["depth" := Var(Float64, ["timeseries"], DEPTH_ATTRIBUTES, None, None)]
            ["platform" := EmptyVariable("platform", ToMap(platformAttrs))]
            ["instrument" := EmptyVariable("instrument", ToMap(instrumentAttrs))]
            ["crs" := Var(Float64, [], CRS_ATTRIBUTES, None, None)],
      s.globals + ToMap(TIMESERIES_GLOBALS) + ToMap(globalAttrs),
      s.order + FIXED_VARIABLES)
  }

  lemma StationOutcome(s: Store, times: seq<int>)
    ensures Station(s, times).ok <==>
      "timeseries" !in s.dims && "time" !in s.dims && "timeseries" !in s.vars && "time" !in s.vars
    ensures Station(s, times).ok ==>
              Station(s, times).store == s.(dims := s.dims["timeseries" := 1]["time" := |times|],
                vars := s.vars["timeseries" := IdVariable("timeseries", map[])]["time" := TimeVariable(["time"], times)],
                order := s.order + ["timeseries", "time"])
  {
    assert ToMap([]) == map[];
  }

  lemma PositionOutcome(s: Store)
    requires "timeseries" in s.dims
    ensures Position(s).ok <==> "latitude" !in s.vars && "longitude" !in s.vars && "depth" !in s.vars
    ensures Position(s).ok ==>
              Position(s).store == s.(vars := s.vars["latitude" := Var(Float64, ["timeseries"], LATITUDE_ATTRIBUTES, None, None)]
                                                    ["longitude" := Var(Float64, ["timeseries"], LONGITUDE_ATTRIBUTES, None, None)]
                                                    ["depth" := Var(Float64, ["timeseries"], DEPTH_ATTRIBUTES, None, None)],
                                      order := s.order + ["latitude", "longitude", "depth"])
  {
  }

  lemma MarkersOutcome(s: Store, platformAttrs: Attributes, instrumentAttrs: Attributes)
    ensures Markers(s, platformAttrs, instrumentAttrs).ok <==>
      "platform" !in s.vars && "instrument" !in s.vars && "crs" !in s.vars
    ensures var r := Markers(s, platformAttrs, instrumentAttrs);
              r.ok ==> r.store == s.(vars := s.vars["platform" := EmptyVariable("platform", ToMap(platformAttrs))]
                                                   ["instrument" := EmptyVariable("instrument", ToMap(instrumentAttrs))]
                                                   ["crs" := Var(Float64, [], CRS_ATTRIBUTES, None, None)],
                                     order := s.order + ["platform", "instrument", "crs"])
  {
  }

  /** On a fresh dataset the station runs and leaves the position and marker names free. */
  lemma StationLeavesRoom(g: Store, times: seq<int>)
    requires Fresh(g)
    ensures var t := Station(g, times);
      && t.ok && "timeseries" in t.store.dims
      && "latitude" !in t.store.vars && "longitude" !in t.store.vars && "depth" !in t.store.vars
      && "platform" !in t.store.vars && "instrument" !in t.store.vars && "crs" !in t.store.vars
  {
    StationOutcome(g, times);
  }

  /** After the station, the position runs and leaves the marker names free. */
  lemma PositionLeavesRoom(t: Store)
    requires "timeseries" in t.dims
    requires "latitude" !in t.vars && "longitude" !in t.vars && "depth" !in t.vars
    requires "platform" !in t.vars && "instrument" !in t.vars && "crs" !in t.vars
    ensures var p := Position(t);
      p.ok && "platform" !in p.store.vars && "instrument" !in p.store.vars && "crs" !in p.store.vars
  {
    PositionOutcome(t);
  }

  /** On a fresh dataset each stage of the header runs to the end. */
  lemma StagesRun(g: Store, times: seq<int>, platformAttrs: Attributes, instrumentAttrs: Attributes)
    requires Fresh(g)
    ensures var r1 := Station(g, times);
      && r1.ok
      && var r2 := Position(r1.store);
      && r2.ok
      && Markers(r2.store, platformAttrs, instrumentAttrs).ok
  {
    StationLeavesRoom(g, times);
    var t1 := Station(g, times).store;
    PositionLeavesRoom(t1);
    MarkersOutcome(Position(t1).store, platformAttrs, instrumentAttrs);
  }

  lemma HeaderStages(s: Store, times: seq<int>, globalAttrs: Attributes,
                     platformAttrs: Attributes, instrumentAttrs: Attributes)
    requires Fresh(s)
    ensures var r1 := Station(Globals(s, globalAttrs), times);
      && r1.ok
      && var r2 := Position(r1.store);
      && r2.ok
      && Markers(r2.store, platformAttrs, instrumentAttrs).ok
  {
    var g := Globals(s, globalAttrs);
    assert g.dims == s.dims && g.vars == s.vars;
    StagesRun(g, times, platformAttrs, instrumentAttrs);
  }

  lemma HeaderUnfolds(s: Store, times: seq<int>, globalAttrs: Attributes,
                      platformAttrs: Attributes, instrumentAttrs: Attributes)
    requires Station(Globals(s, globalAttrs), times).ok
    requires Position(Station(Globals(s, globalAttrs), times).store).ok
    ensures Header(s, times, globalAttrs, platformAttrs, instrumentAttrs)
            == Markers(Position(Station(Globals(s, globalAttrs), times).store).store, platformAttrs, instrumentAttrs)
  {
  }

  lemma HeaderRuns(s: Store, times: seq<int>, globalAttrs: Attributes,
                   platformAttrs: Attributes, instrumentAttrs: Attributes)
    requires Fresh(s)
    ensures Header(s, times, globalAttrs, platformAttrs, instrumentAttrs)
            == Run(true, HeaderStore(s, times, globalAttrs, platformAttrs, instrumentAttrs))
  {
    HeaderStages(s, times, globalAttrs, platformAttrs, instrumentAttrs);
    HeaderUnfolds(s, times, globalAttrs, platformAttrs, instrumentAttrs);
    var g := Globals(s, globalAttrs);
    StationOutcome(g, times);
    var t1 := Station(g, times).store;
    PositionOutcome(t1);
    var t2 := Position(t1).store;
    MarkersOutcome(t2, platformAttrs, instrumentAttrs);
    AppendAssociates(s.order + ["timeseries", "time"], ["latitude", "longitude", "depth"], ["platform", "instrument", "crs"]);
    AppendAssociates(s.order, ["timeseries", "time"], ["latitude", "longitude", "depth"] + ["platform", "instrument", "crs"]);
    FixedVariablesByStage();
  }

  /** The fixed variables are the station's, the position's and the markers'. */
  lemma FixedVariablesByStage()
    ensures ["timeseries", "time"] + (["latitude", "longitude", "depth"] + ["platform", "instrument", "crs"]) == FIXED_VARIABLES
  {
  }

  lemma HeaderFails(s: Store, times: seq<int>, globalAttrs: Attributes,
                    platformAttrs: Attributes, instrumentAttrs: Attributes)
    requires !Fresh(s)
    ensures !Header(s, times, globalAttrs, platformAttrs, instrumentAttrs).ok
  {
    var g := Globals(s, globalAttrs);
    StationOutcome(g, times);
    var r1 := Station(g, times);
    if r1.ok {
      PositionOutcome(r1.store);
      var r2 := Position(r1.store);
      if r2.ok {
        MarkersOutcome(r2.store, platformAttrs, instrumentAttrs);
      }
    }
  }

  /**
   * The header runs to the end exactly on a fresh dataset, and then it has
   * added the two dimensions, the eight fixed variables in order and the global
   * attributes, the caller's winning over the standard ones.
   */
  lemma HeaderOutcome(s: Store, times: seq<int>, globalAttrs: Attributes,
                      platformAttrs: Attributes, instrumentAttrs: Attributes)
    ensures Header(s, times, globalAttrs, platformAttrs, instrumentAttrs).ok <==> Fresh(s)
    ensures Fresh(s) ==> Header(s, times, globalAttrs, platformAttrs, instrumentAttrs).store
                         == HeaderStore(s, times, globalAttrs, platformAttrs, instrumentAttrs)
  {
    if Fresh(s) {
      HeaderRuns(s, times, globalAttrs, platformAttrs, instrumentAttrs);
    } else {
      HeaderFails(s, times, globalAttrs, platformAttrs, instrumentAttrs);
    }
  }

  /** Over the station dimensions, the column loop runs to the end exactly when no column name is already a variable. */
  lemma ObservationsOutcome(s: Store, cols: seq<Column>, units: map<string, AttrValue>)
    requires DimsExist(s, OBSERVATION_DIMS)
    requires Distinct(Names(cols))
    ensures DefineEach(s, cols, ObservationOf(units)).ok <==> forall i :: 0 <= i < |cols| ==> cols[i].name !in s.vars
  {
    forall i | 0 <= i < |cols| ensures DimsExist(s, ObservationOf(units)(cols[i]).dims) {
    }
    DefineEachOutcome(s, cols, ObservationOf(units));
  }

  /** Where the header has taken exactly the fixed names, the loop runs to the end exactly when no column is named as a variable of `s` or a fixed one. */
  lemma ObservationsAfter(h: Store, s: Store, cols: seq<Column>, units: map<string, AttrValue>)
    requires DimsExist(h, OBSERVATION_DIMS)
    requires Distinct(Names(cols))
    requires forall i :: 0 <= i < |cols| ==>
               (cols[i].name !in h.vars <==> cols[i].name !in s.vars && cols[i].name !in FIXED_VARIABLES)
    ensures DefineEach(h, cols, ObservationOf(units)).ok <==>
              forall i :: 0 <= i < |cols| ==> cols[i].name !in s.vars && cols[i].name !in FIXED_VARIABLES
  {
    ObservationsOutcome(h, cols, units);
  }

  /** After the header, the column loop runs to the end exactly when no column is named as a variable of `s` or a fixed one. */
  lemma ColumnsAfterHeader(s: Store, times: seq<int>, globalAttrs: Attributes, platformAttrs: Attributes,
                           instrumentAttrs: Attributes, cols: seq<Column>)
    ensures var h := HeaderStore(s, times, globalAttrs, platformAttrs, instrumentAttrs);
      && DimsExist(h, OBSERVATION_DIMS)
      && forall i :: 0 <= i < |cols| ==>
           (cols[i].name !in h.vars <==> cols[i].name !in s.vars && cols[i].name !in FIXED_VARIABLES)
  {
  }

  /**
   * `from_dataframe` runs to the end exactly on a fresh dataset none of whose
   * variables, and none of the fixed names, is also a column name; then the
   * dataset holds the header's dimensions, variables and globals, and one
   * observation variable per column, defined after all of them and in column order.
   */
  lemma WriteOutcome(s: Store, df: DataFrame, globalAttrs: Attributes, platformAttrs: Attributes,
                     instrumentAttrs: Attributes, units: map<string, AttrValue>)
    requires Valid(df)
    ensures var r := Write(s, df, globalAttrs, platformAttrs, instrumentAttrs, units);
      && (r.ok <==> Fresh(s) && forall i :: 0 <= i < |df.columns| ==>
                      df.columns[i].name !in s.vars && df.columns[i].name !in FIXED_VARIABLES)
      && (r.ok ==> var h := HeaderStore(s, DatetimesToUnixtimes(df.index), globalAttrs, platformAttrs, instrumentAttrs);
                   r.store == h.(vars := h.vars + VariablesByName(df.columns, ObservationOf(units)), order := h.order + Names(df.columns)))
  {
    var times := DatetimesToUnixtimes(df.index);
    HeaderOutcome(s, times, globalAttrs, platformAttrs, instrumentAttrs);
    if Fresh(s) {
      var h := HeaderStore(s, times, globalAttrs, platformAttrs, instrumentAttrs);
      ColumnsAfterHeader(s, times, globalAttrs, platformAttrs, instrumentAttrs, df.columns);
      ObservationsAfter(h, s, df.columns, units);
      if DefineEach(h, df.columns, ObservationOf(units)).ok {
        DefineEachStore(h, df.columns, ObservationOf(units));
      }
    }
  }

  /** The standard time-series globals as the mapping they describe. */
  lemma TimeseriesGlobalsMap()
    ensures ToMap(TIMESERIES_GLOBALS)
            == map["Conventions" := Text("CF-1.6"), "featureType" := Text("timeSeries"), "cdm_data_type" := Text("Station")]
  {
    var g := TIMESERIES_GLOBALS;
    assert g[..1][..0] == [];
    assert ToMap(g[..1]) == map["Conventions" := Text("CF-1.6")];
    assert g[..2][..1] == g[..1];
    assert ToMap(g[..2]) == map["Conventions" := Text("CF-1.6"), "featureType" := Text("timeSeries")];
    assert g[..3][..2] == g[..2];
    assert g[..3] == g;
  }

  /**
   * Whatever the caller passes, the dataset's globals hold every caller item,
   * and each standard item whose key no caller item names; other globals of
   * `s` that neither names are kept.
   */
  lemma GlobalsOutcome(s: Store, globalAttrs: Attributes)
    requires DistinctKeys(globalAttrs)
    ensures var m := Globals(s, globalAttrs).globals;
      && (forall i :: 0 <= i < |globalAttrs| ==> globalAttrs[i].0 in m && m[globalAttrs[i].0] == globalAttrs[i].1)
      && (forall j :: 0 <= j < |TIMESERIES_GLOBALS| && (forall i :: 0 <= i < |globalAttrs| ==> globalAttrs[i].0 != TIMESERIES_GLOBALS[j].0) ==>
            TIMESERIES_GLOBALS[j].0 in m && m[TIMESERIES_GLOBALS[j].0] == TIMESERIES_GLOBALS[j].1)
      && (forall k :: k in s.globals && k !in ToMap(TIMESERIES_GLOBALS) && (forall i :: 0 <= i < |globalAttrs| ==> globalAttrs[i].0 != k) ==>
            k in m && m[k] == s.globals[k])
  {
    var base := s.globals + ToMap(TIMESERIES_GLOBALS);
    assert Globals(s, globalAttrs).globals == base + ToMap(globalAttrs);
    CallerAttributesWin(base, globalAttrs);
    TimeseriesGlobalsMap();
  }

  /** The id and time variables of a header that ran to the end. */
  lemma HeaderVariables(s: Store, times: seq<int>, globalAttrs: Attributes,
                        platformAttrs: Attributes, instrumentAttrs: Attributes)
    ensures var vs := HeaderStore(s, times, globalAttrs, platformAttrs, instrumentAttrs).vars;
      && "timeseries" in vs && vs["timeseries"] == IdVariable("timeseries", map[])
      && "time" in vs && vs["time"] == TimeVariable(["time"], times)
  {
  }

  /** The position variables of a header that ran to the end. */
  lemma HeaderPositions(s: Store, times: seq<int>, globalAttrs: Attributes,
                        platformAttrs: Attributes, instrumentAttrs: Attributes)
    ensures var vs := HeaderStore(s, times, globalAttrs, platformAttrs, instrumentAttrs).vars;
      && "latitude" in vs && vs["latitude"] == Var(Float64, ["timeseries"], LATITUDE_ATTRIBUTES, None, None)
      && "longitude" in vs && vs["longitude"] == Var(Float64, ["timeseries"], LONGITUDE_ATTRIBUTES, None, None)
      && "depth" in vs && vs["depth"] == Var(Float64, ["timeseries"], DEPTH_ATTRIBUTES, None, None)
  {
  }

  /** The markers and the crs of a header that ran to the end. */
  lemma HeaderMarkers(s: Store, times: seq<int>, globalAttrs: Attributes,
                      platformAttrs: Attributes, instrumentAttrs: Attributes)
    ensures var vs := HeaderStore(s, times, globalAttrs, platformAttrs, instrumentAttrs).vars;
      && "platform" in vs && vs["platform"] == EmptyVariable("platform", ToMap(platformAttrs))
      && "instrument" in vs && vs["instrument"] == EmptyVariable("instrument", ToMap(instrumentAttrs))
      && "crs" in vs && vs["crs"] == Var(Float64, [], CRS_ATTRIBUTES, None, None)
  {
  }

  /** A complete run leaves the header's dimensions, globals and fixed variables as the header made them. */
  lemma WriteKeepsHeader(s: Store, df: DataFrame, globalAttrs: Attributes, platformAttrs: Attributes,
                         instrumentAttrs: Attributes, units: map<string, AttrValue>)
    requires Valid(df)
    ensures var r := Write(s, df, globalAttrs, platformAttrs, instrumentAttrs, units);
      r.ok ==>
        var vs := HeaderStore(s, DatetimesToUnixtimes(df.index), globalAttrs, platformAttrs, instrumentAttrs).vars;
        && r.store.dims == s.dims["timeseries" := 1]["time" := |df.index|]
        && r.store.globals == Globals(s, globalAttrs).globals
        && forall n :: n in FIXED_VARIABLES ==> n in vs && n in r.store.vars && r.store.vars[n] == vs[n]
  {
    WriteOutcome(s, df, globalAttrs, platformAttrs, instrumentAttrs, units);
    var r := Write(s, df, globalAttrs, platformAttrs, instrumentAttrs, units);
    if r.ok {
      var h := HeaderStore(s, DatetimesToUnixtimes(df.index), globalAttrs, platformAttrs, instrumentAttrs);
      var cv := VariablesByName(df.columns, ObservationOf(units));
      forall n | n in FIXED_VARIABLES ensures n in h.vars && n in r.store.vars && r.store.vars[n] == h.vars[n] {
        assert n !in cv;
      }
    }
  }

  /** The time variable of a table holds one second count per row, in row order. */
  lemma TimeVariableOfIndex(index: seq<Epoch.CivilTime>)
    requires forall i :: 0 <= i < |index| ==> Epoch.Valid(index[i])
    ensures var v := TimeVariable(["time"], DatetimesToUnixtimes(index));
      && v.dims == ["time"] && v.attrs == TIME_ATTRIBUTES && v.data.Some?
      && |v.data.value| == |index|
      && forall i :: 0 <= i < |index| ==> v.data.value[i] == Whole(Epoch.UnixTime(index[i]))
  {
  }

  /**
   * After a complete run the station dimension has length 1 and the time
   * dimension one slot per row; the globals are as `GlobalsOutcome` states.
   */
  lemma WriteDimensions(s: Store, df: DataFrame, globalAttrs: Attributes, platformAttrs: Attributes,
                        instrumentAttrs: Attributes, units: map<string, AttrValue>)
    requires Valid(df)
    ensures var r := Write(s, df, globalAttrs, platformAttrs, instrumentAttrs, units);
      r.ok ==> && r.store.dims == s.dims["timeseries" := 1]["time" := |df.index|]
               && r.store.globals == Globals(s, globalAttrs).globals
  {
    WriteKeepsHeader(s, df, globalAttrs, platformAttrs, instrumentAttrs, units);
  }

  lemma StationRole()
    ensures "timeseries" + "_id" == "timeseries_id"
  {
  }

  /** After a complete run the station id holds `[0]` over its own dimension with `cf_role` `timeseries_id`. */
  lemma WriteStation(s: Store, df: DataFrame, globalAttrs: Attributes, platformAttrs: Attributes,
                     instrumentAttrs: Attributes, units: map<string, AttrValue>)
    requires Valid(df)
    ensures var r := Write(s, df, globalAttrs, platformAttrs, instrumentAttrs, units);
      r.ok ==>
        && "timeseries" in r.store.vars
        && r.store.vars["timeseries"].dims == ["timeseries"]
        && r.store.vars["timeseries"].attrs == map["cf_role" := Text("timeseries_id"), "long_name" := Text("timeseries")]
        && r.store.vars["timeseries"].data == Some([Whole(0)])
  {
    WriteKeepsHeader(s, df, globalAttrs, platformAttrs, instrumentAttrs, units);
    HeaderVariables(s, DatetimesToUnixtimes(df.index), globalAttrs, platformAttrs, instrumentAttrs);
    assert "timeseries" in FIXED_VARIABLES;
    IdVariableWithoutAttributes("timeseries");
    StationRole();
  }

  /** After a complete run the time variable lies over `("time",)` and holds one second count per row, in row order. */
  lemma WriteTime(s: Store, df: DataFrame, globalAttrs: Attributes, platformAttrs: Attributes,
                  instrumentAttrs: Attributes, units: map<string, AttrValue>)
    requires Valid(df)
    ensures var r := Write(s, df, globalAttrs, platformAttrs, instrumentAttrs, units);
      r.ok ==>
        && "time" in r.store.vars
        && r.store.vars["time"] == TimeVariable(["time"], DatetimesToUnixtimes(df.index))
  {
    WriteKeepsHeader(s, df, globalAttrs, platformAttrs, instrumentAttrs, units);
    HeaderVariables(s, DatetimesToUnixtimes(df.index), globalAttrs, platformAttrs, instrumentAttrs);
    assert "time" in FIXED_VARIABLES;
  }

  /**
   * After a complete run latitude, longitude and depth lie over `("timeseries",)`
   * with the builders' attributes and no data: the position arguments are never written.
   */
  lemma WritePosition(s: Store, df: DataFrame, globalAttrs: Attributes, platformAttrs: Attributes,
                      instrumentAttrs: Attributes, units: map<string, AttrValue>)
    requires Valid(df)
    ensures var r := Write(s, df, globalAttrs, platformAttrs, instrumentAttrs, units);
      r.ok ==>
        && "latitude" in r.store.vars && "longitude" in r.store.vars && "depth" in r.store.vars
        && r.store.vars["latitude"] == Var(Float64, ["timeseries"], LATITUDE_ATTRIBUTES, None, None)
        && r.store.vars["longitude"] == Var(Float64, ["timeseries"], LONGITUDE_ATTRIBUTES, None, None)
        && r.store.vars["depth"] == Var(Float64, ["timeseries"], DEPTH_ATTRIBUTES, None, None)
  {
    WriteKeepsHeader(s, df, globalAttrs, platformAttrs, instrumentAttrs, units);
    HeaderPositions(s, DatetimesToUnixtimes(df.index), globalAttrs, platformAttrs, instrumentAttrs);
    assert "latitude" in FIXED_VARIABLES && "longitude" in FIXED_VARIABLES && "depth" in FIXED_VARIABLES;
  }

  /**
   * After a complete run the platform and instrument markers are scalar with
   * their `long_name` and the caller's attributes, and the crs is the builder's.
   */
  lemma WriteMarkers(s: Store, df: DataFrame, globalAttrs: Attributes, platformAttrs: Attributes,
                     instrumentAttrs: Attributes, units: map<string, AttrValue>)
    requires Valid(df)
    ensures var r := Write(s, df, globalAttrs, platformAttrs, instrumentAttrs, units);
      r.ok ==>
        && "platform" in r.store.vars && "instrument" in r.store.vars && "crs" in r.store.vars
        && r.store.vars["platform"] == EmptyVariable("platform", ToMap(platformAttrs))
        && r.store.vars["instrument"] == EmptyVariable("instrument", ToMap(instrumentAttrs))
        && r.store.vars["crs"] == Var(Float64, [], CRS_ATTRIBUTES, None, None)
  {
    WriteKeepsHeader(s, df, globalAttrs, platformAttrs, instrumentAttrs, units);
    HeaderMarkers(s, DatetimesToUnixtimes(df.index), globalAttrs, platformAttrs, instrumentAttrs);
    assert "platform" in FIXED_VARIABLES && "instrument" in FIXED_VARIABLES && "crs" in FIXED_VARIABLES;
  }

  /**
   * After a complete run the variables are those of `s`, the fixed ones and one
   * per column, the fixed ones defined in the order timeseries, time, latitude,
   * longitude, depth, platform, instrument, crs, and the columns after them in
   * column order.
   */
  lemma WriteOrder(s: Store, df: DataFrame, globalAttrs: Attributes, platformAttrs: Attributes,
                   instrumentAttrs: Attributes, units: map<string, AttrValue>)
    requires Valid(df)
    ensures var r := Write(s, df, globalAttrs, platformAttrs, instrumentAttrs, units);
      r.ok ==>
        && r.store.vars.Keys == s.vars.Keys + (set n | n in FIXED_VARIABLES) + (set i | 0 <= i < |df.columns| :: df.columns[i].name)
        && r.store.order == s.order + FIXED_VARIABLES + Names(df.columns)
  {
    WriteOutcome(s, df, globalAttrs, platformAttrs, instrumentAttrs, units);
    if Write(s, df, globalAttrs, platformAttrs, instrumentAttrs, units).ok {
      var h := HeaderStore(s, DatetimesToUnixtimes(df.index), globalAttrs, platformAttrs, instrumentAttrs);
      HeaderKeys(s, DatetimesToUnixtimes(df.index), globalAttrs, platformAttrs, instrumentAttrs);
      KeysAfterLoop(h, s, df.columns, units);
    }
  }

  lemma KeysAfterLoop(h: Store, s: Store, cols: seq<Column>, units: map<string, AttrValue>)
    requires h.vars.Keys == s.vars.Keys + (set n | n in FIXED_VARIABLES)
    ensures (h.vars + VariablesByName(cols, ObservationOf(units))).Keys
            == s.vars.Keys + (set n | n in FIXED_VARIABLES) + (set i | 0 <= i < |cols| :: cols[i].name)
  {
  }

  lemma HeaderKeys(s: Store, times: seq<int>, globalAttrs: Attributes,
                   platformAttrs: Attributes, instrumentAttrs: Attributes)
    ensures HeaderStore(s, times, globalAttrs, platformAttrs, instrumentAttrs).vars.Keys
            == s.vars.Keys + (set n | n in FIXED_VARIABLES)
  {
  }

  /**
   * After a complete run every column, with no exclusion, is an observation
   * variable over `("timeseries", "time")` holding the column's cells, with the
   * cross-references, the fill value and the column's unit or "1".
   */
  lemma WriteColumns(s: Store, df: DataFrame, globalAttrs: Attributes, platformAttrs: Attributes,
                     instrumentAttrs: Attributes, units: map<string, AttrValue>)
    requires Valid(df)
    ensures var r := Write(s, df, globalAttrs, platformAttrs, instrumentAttrs, units);
      r.ok ==>
        forall i :: 0 <= i < |df.columns| ==>
          && df.columns[i].name in r.store.vars
          && r.store.vars[df.columns[i].name] == ObservationVariable(df.columns[i], OBSERVATION_DIMS, units)
  {
    WriteOutcome(s, df, globalAttrs, platformAttrs, instrumentAttrs, units);
    forall i | 0 <= i < |df.columns| {
      VariableAt(df.columns, ObservationOf(units), i);
    }
  }

  /** The attributes of an observation variable: its names, the unit from `units` or "1", and the cross-references. */
  lemma ObservationVariableAttributes(col: Column, units: map<string, AttrValue>)
    ensures var v := ObservationVariable(col, OBSERVATION_DIMS, units);
      && v.dims == ["timeseries", "time"] && v.dtype == col.dtype
      && v.fill == Some(FILL_VALUE) && v.data == Some(col.cells)
      && v.attrs.Keys == {"long_name", "standard_name", "units", "coordinates", "grid_mapping", "platform", "instrument"}
      && v.attrs["long_name"] == Text(col.name) && v.attrs["standard_name"] == Text(col.name)
      && v.attrs["units"] == (if col.name in units then units[col.name] else Text("1"))
      && v.attrs["coordinates"] == Text("time depth latitude longitude")
      && v.attrs["grid_mapping"] == Text("crs")
      && v.attrs["platform"] == Text("platform") && v.attrs["instrument"] == Text("instrument")
  {
    ObservationItemsMap(col.name, UnitsFor(units, col.name));
  }

  /** The attribute assignments of one column pass make up the observation attributes. */
  lemma ObservationAttributesInOrder(name: string, u: AttrValue)
    ensures DataAttributes(name, None)["units" := DEFAULT_UNITS]["coordinates" := COORDINATES]["units" := u]
              ["grid_mapping" := Text("crs")]["platform" := Text("platform")]["instrument" := Text("instrument")]
            == ToMap(ObservationItems(name, u))
  {
    ObservationItemsMap(name, u);
  }

  // ---------------------------------------------------------------------------
  // The writer in place

  /** `TimeseriesWriter`: a `CFWriter` with the time-series layout on top. */
  class TimeseriesWriter {
    const cf: CFWriter

    constructor (ds: Dataset)
      ensures cf.ds == ds
    {
      cf := new CFWriter(ds);
    }

    /** The time-series global attributes, then the caller's. */
    method SetGlobals(globalAttrs: Attributes)
      modifies cf.ds
      ensures cf.ds.Snapshot() == Globals(old(cf.ds.Snapshot()), globalAttrs)
    {
      SetNcAttrs(cf.ds, Global, TIMESERIES_GLOBALS);
      SetNcAttrs(cf.ds, Global, globalAttrs);
    }

    method CreateStation(times: seq<int>) returns (ok: bool)
      modifies cf.ds
      ensures Run(ok, cf.ds.Snapshot()) == Station(old(cf.ds.Snapshot()), times)
    {
      ok := cf.CreateIdVar("timeseries", []);
      if !ok { return; }
      ok := cf.CreateTimeVar(times, None);
    }

    method CreatePosition() returns (ok: bool)
      modifies cf.ds
      ensures Run(ok, cf.ds.Snapshot()) == Position(old(cf.ds.Snapshot()))
    {
      ok := cf.CreateLatVar(["timeseries"]);
      if !ok { return; }
      ok := cf.CreateLonVar(["timeseries"]);
      if !ok { return; }
      ok := cf.CreateDepthVar(["timeseries"]);
    }

    method CreateMarkers(platformAttrs: Attributes, instrumentAttrs: Attributes) returns (ok: bool)
      modifies cf.ds
      ensures Run(ok, cf.ds.Snapshot()) == Markers(old(cf.ds.Snapshot()), platformAttrs, instrumentAttrs)
    {
      ok := cf.CreateEmptyVar("platform", platformAttrs);
      if !ok { return; }
      ok := cf.CreateEmptyVar("instrument", instrumentAttrs);
      if !ok { return; }
      ok := cf.CreateCrsVar("crs");
    }

    /** One pass of the column loop: `create_var`, then the cross-references and the unit. */
    method CreateObservation(col: Column, units: map<string, AttrValue>) returns (ok: bool)
      modifies cf.ds
      ensures Run(ok, cf.ds.Snapshot()) == Define(old(cf.ds.Snapshot()), col.name, ObservationVariable(col, OBSERVATION_DIMS, units))
    {
      var ds := cf.ds;
      ghost var s := ds.Snapshot();
      ok := cf.CreateVar(col.name, col, OBSERVATION_DIMS, Some(FILL_VALUE), None, None);
      if !ok { return; }
      var t := Variable(col.name);
      ghost var v := Var(col.dtype, OBSERVATION_DIMS, DataAttributes(col.name, None)["units" := DEFAULT_UNITS],
                         Some(FILL_VALUE), Some(col.cells));
      ds.SetNcAttr(t, "coordinates", COORDINATES);
      SetAttrOfAdded(s, col.name, v, "coordinates", COORDINATES);
      v := v.(attrs := v.attrs["coordinates" := COORDINATES]);
      var u := if col.name in units then units[col.name] else Text("1");
      ds.SetNcAttr(t, "units", u);
      SetAttrOfAdded(s, col.name, v, "units", u);
      v := v.(attrs := v.attrs["units" := u]);
      ds.SetNcAttr(t, "grid_mapping", Text("crs"));
      SetAttrOfAdded(s, col.name, v, "grid_mapping", Text("crs"));
      v := v.(attrs := v.attrs["grid_mapping" := Text("crs")]);
      ds.SetNcAttr(t, "platform", Text("platform"));
      SetAttrOfAdded(s, col.name, v, "platform", Text("platform"));
      v := v.(attrs := v.attrs["platform" := Text("platform")]);
      ds.SetNcAttr(t, "instrument", Text("instrument"));
      SetAttrOfAdded(s, col.name, v, "instrument", Text("instrument"));
      v := v.(attrs := v.attrs["instrument" := Text("instrument")]);
      ObservationAttributesInOrder(col.name, u);
    }

    /** The column loop, stopping at the first column netCDF refuses. */
    method CreateObservations(cols: seq<Column>, units: map<string, AttrValue>) returns (ok: bool)
      modifies cf.ds
      ensures Run(ok, cf.ds.Snapshot()) == DefineEach(old(cf.ds.Snapshot()), cols, ObservationOf(units))
    {
      ok := true;
      for i := 0 to |cols|
        invariant ok
        invariant DefineEach(old(cf.ds.Snapshot()), cols, ObservationOf(units)) == DefineEach(cf.ds.Snapshot(), cols[i..], ObservationOf(units))
      {
        assert cols[i..][1..] == cols[i + 1..];
        ok := CreateObservation(cols[i], units);
        if !ok { return; }
      }
      assert cols[|cols|..] == [];
    }

    /** `lat`, `lon` and `depth` are accepted and, as in the source, never written. */
    method FromDataframe(df: DataFrame, lat: Value, lon: Value, depth: Value,
                         globalAttrs: Attributes, platformAttrs: Attributes,
                         instrumentAttrs: Attributes, units: map<string, AttrValue>)
      returns (ok: bool)
      requires Timestamped(df)
      modifies cf.ds
      ensures Run(ok, cf.ds.Snapshot()) == Write(old(cf.ds.Snapshot()), df, globalAttrs, platformAttrs, instrumentAttrs, units)
    {
      SetGlobals(globalAttrs);
      var times := DatetimesToUnixtimes(df.index);
      ok := CreateStation(times);
      if !ok { return; }
      ok := CreatePosition();
      if !ok { return; }
      ok := CreateMarkers(platformAttrs, instrumentAttrs);
      if !ok { return; }
      ok := CreateObservations(df.columns, units);
    }
  }
}
