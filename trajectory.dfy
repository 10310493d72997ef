/**
 * `df2trajectory`: a table of timestamped rows with `latitude`, `longitude` and
 * `depth` columns becomes a CF-1.6 trajectory. The function reads the three
 * position columns before it touches the dataset, then writes the global
 * attributes, the trajectory id, time over `("trajectory", "time")`, the three
 * positions with their per-row values, the bare platform and instrument
 * markers, the crs, and one observation variable per remaining column.
 *
 * The id and time lines do what `create_id_var` and `create_time_var` do, the
 * nested `create_var` is `utils.create_var` with the dimensions fixed, and the
 * crs lines are `create_crs_var`; the model states them with those builders.
 */
module Trajectory {
  import opened NetCDF
  import opened Frame
  import opened CF
  import Utils
  import Epoch

  /** The global attributes every trajectory starts with, in the order they are set. */
  const TRAJECTORY_GLOBALS: Attributes := [
    ("Conventions", Text("CF-1.6")),
    ("featureType", Text("trajectory")),
    ("cdm_data_type", Text("Trajectory"))]

  /** The dimensions of time, of the positions and of every observation variable. */
  const TRAJECTORY_DIMS: seq<string> := ["trajectory", "time"]

  /** The columns that hold the position rather than observations. */
  const POSITION_COLUMNS: seq<string> := ["latitude", "longitude", "depth"]

  /** The variables the writer defines before the observations, in the order it defines them. */
  const FIXED_VARIABLES: seq<string> := ["trajectory", "time", "latitude", "longitude", "depth", "platform", "instrument", "crs"]

  const LATITUDE_RANGE := (Number("-90."), Number("90."))
  const LONGITUDE_RANGE := (Number("-180."), Number("180."))
  const DEPTH_RANGE := (Number("0."), Number("10971."))

  /** The attributes of the position variables once the writer has set units and axes. */
  const TRACK_LATITUDE_ATTRIBUTES: map<string, AttrValue> := map[
    "long_name" := Text("latitude"),
    "standard_name" := Text("latitude"),
    "valid_min" := Number("-90."),
    "valid_max" := Number("90."),
    "units" := Text("degrees_north"),
    "axis" := Text("Y")]

  const TRACK_LONGITUDE_ATTRIBUTES: map<string, AttrValue> := map[
    "long_name" := Text("longitude"),
    "standard_name" := Text("longitude"),
    "valid_min" := Number("-180."),
    "valid_max" := Number("180."),
    "units" := Text("degrees_east"),
    "axis" := Text("X")]

  const TRACK_DEPTH_ATTRIBUTES: map<string, AttrValue> := map[
    "long_name" := Text("depth"),
    "standard_name" := Text("depth"),
    "valid_min" := Number("0."),
    "valid_max" := Number("10971."),
    "units" := Text("m"),
    "positive" := Text("down"),
    "axis" := Text("Z")]

  /** A dataset the writer can fill: neither dimension and none of the fixed variable names already taken. */
  predicate Fresh(s: Store) {
    && "trajectory" !in s.dims && "time" !in s.dims
    && "trajectory" !in s.vars && "time" !in s.vars
    && "latitude" !in s.vars && "longitude" !in s.vars && "depth" !in s.vars
    && "platform" !in s.vars && "instrument" !in s.vars && "crs" !in s.vars
  }

  /** The observation columns: every column but the position ones, in table order. */
  function Observed(cols: seq<Column>): (r: seq<Column>)
    ensures |r| <= |cols|
  {
    if cols == [] then []
    else if cols[0].name in POSITION_COLUMNS then Observed(cols[1..])
    else [cols[0]] + Observed(cols[1..])
  }

  /** A position variable: the column's dtype and cells over the trajectory dimensions, the fill value, and `attrs`. */
  function PositionVariable(col: Column, attrs: map<string, AttrValue>): Var {
    Var(col.dtype, TRAJECTORY_DIMS, attrs, Some(FILL_VALUE), Some(col.cells))
  }

  /** A scalar 'S1' marker holding exactly the caller's attributes. */
  function MarkerVariable(attrs: Attributes): Var {
    Var(Char1, [], ToMap(attrs), None, None)
  }

  /** The attribute assignments an observation column receives, in the order they are made. */
  function TrackObservationItems(name: string, u: AttrValue): Attributes {
    [("long_name", Text(name)), ("standard_name", Text(name)), ("coordinates", COORDINATES),
     ("units", u), ("grid_mapping", Text("crs")),
     ("platform", Text("platform")), ("instrument", Text("instrument"))]
  }

  /** An observation column as a variable over the trajectory dimensions. */
  function TrackObservation(col: Column, units: map<string, AttrValue>): Var {
    Var(col.dtype, TRAJECTORY_DIMS, ToMap(TrackObservationItems(col.name, UnitsFor(units, col.name))),
        Some(FILL_VALUE), Some(col.cells))
  }

  function TrackObservationOf(units: map<string, AttrValue>): Column -> Var {
    col => TrackObservation(col, units)
  }

  // ---------------------------------------------------------------------------
  // The writer as functions on the dataset

  /** The trajectory global attributes, then the caller's over them. */
  function Globals(s: Store, globalAttrs: Attributes): Store {
    SetAttrs(SetAttrs(s, Global, ToMap(TRAJECTORY_GLOBALS)), Global, ToMap(globalAttrs))
  }

  /** The trajectory id with its dimension, then the time dimension and variable. */
  function Track(s: Store, times: seq<int>): Run {
    var r := IdVar(s, "trajectory", []);
    if !r.ok then r else TimeVar(r.store, "time", times, TRAJECTORY_DIMS)
  }

  /** Latitude, longitude and depth, each holding its column. */
  function Position(s: Store, lats: Column, lons: Column, depths: Column): Run {
    var r1 := Define(s, "latitude", PositionVariable(lats, TRACK_LATITUDE_ATTRIBUTES));
    if !r1.ok then r1 else
    var r2 := Define(r1.store, "longitude", PositionVariable(lons, TRACK_LONGITUDE_ATTRIBUTES));
    if !r2.ok then r2 else
    Define(r2.store, "depth", PositionVariable(depths, TRACK_DEPTH_ATTRIBUTES))
  }

  /** The platform and instrument markers, then the crs. */
  function Markers(s: Store, platformAttrs: Attributes, instrumentAttrs: Attributes): Run {
    var r1 := Define(s, "platform", MarkerVariable(platformAttrs));
    if !r1.ok then r1 else
    var r2 := Define(r1.store, "instrument", MarkerVariable(instrumentAttrs));
    if !r2.ok then r2 else
    CrsVar(r2.store, "crs")
  }

  /** Everything after the column reads and before the observation loop. */
  function Header(s: Store, times: seq<int>, globalAttrs: Attributes, lats: Column, lons: Column, depths: Column,
                  platformAttrs: Attributes, instrumentAttrs: Attributes): Run
  {
    var r1 := Track(Globals(s, globalAttrs), times);
    if !r1.ok then r1 else
    var r2 := Position(r1.store, lats, lons, depths);
    if !r2.ok then r2 else
    Markers(r2.store, platformAttrs, instrumentAttrs)
  }

  /** `df2trajectory` on a dataset in state `s`: a missing position column fails before any change. */
  function Write(s: Store, df: DataFrame, globalAttrs: Attributes, platformAttrs: Attributes,
                 instrumentAttrs: Attributes, units: map<string, AttrValue>): Run
    requires Timestamped(df)
  {
    var lats := Lookup(df.columns, "latitude");
    var lons := Lookup(df.columns, "longitude");
    var depths := Lookup(df.columns, "depth");
    if lats.None? || lons.None? || depths.None? then Run(false, s)
    else Fill(s, DatetimesToUnixtimes(df.index), globalAttrs, lats.value, lons.value, depths.value,
              platformAttrs, instrumentAttrs, Observed(df.columns), units)
  }

  /** What follows the column reads: the header, then one observation variable per column of `obs`. */
  function Fill(s: Store, times: seq<int>, globalAttrs: Attributes, lats: Column, lons: Column, depths: Column,
                platformAttrs: Attributes, instrumentAttrs: Attributes, obs: seq<Column>,
                units: map<string, AttrValue>): Run
  {
    var h := Header(s, times, globalAttrs, lats, lons, depths, platformAttrs, instrumentAttrs);
    if !h.ok then h else DefineEach(h.store, obs, TrackObservationOf(units))
  }

  // ---------------------------------------------------------------------------
  // The observation columns

  /** A column is observed exactly when it is a table column outside the position ones. */
  lemma {:induction false} ObservedMember(cols: seq<Column>, c: Column)
    ensures c in Observed(cols) <==> c in cols && c.name !in POSITION_COLUMNS
    decreases |cols|
  {
    if cols != [] {
      ObservedMember(cols[1..], c);
      assert c in cols <==> c == cols[0] || c in cols[1..];
    }
  }

  /** The observed columns keep the table's order. */
  lemma {:induction false} ObservedKeepsOrder(cols: seq<Column>)
    ensures Subsequence(Observed(cols), cols)
    decreases |cols|
  {
    if cols != [] {
      var rest := cols[1..];
      ObservedKeepsOrder(rest);
      var o := Observed(rest);
      if cols[0].name in POSITION_COLUMNS {
        if o != [] {
          ObservedMember(rest, o[0]);
          assert o[0] in o;
          assert o[0] != cols[0];
        }
      } else {
        assert ([cols[0]] + o)[1..] == o;
      }
    }
  }

  /** Distinct column names stay distinct among the observed columns. */
  lemma {:induction false} ObservedDistinct(cols: seq<Column>)
    requires Distinct(Names(cols))
    ensures Distinct(Names(Observed(cols)))
    decreases |cols|
  {
    if cols != [] {
      var rest := cols[1..];
      DistinctTail(cols);
      ObservedDistinct(rest);
      if cols[0].name !in POSITION_COLUMNS {
        var o := Observed(rest);
        forall k | 0 <= k < |o| ensures Names(o)[k] != cols[0].name {
          var c := o[k];
          ObservedMember(rest, c);
          var j :| 0 <= j < |rest| && rest[j] == c;
          assert Names(cols)[j + 1] == o[k].name;
        }
        assert Names([cols[0]] + o) == [cols[0].name] + Names(o);
      }
    }
  }

  // ---------------------------------------------------------------------------
  // The stages

  lemma TrackOutcome(s: Store, times: seq<int>)
    ensures Track(s, times).ok <==>
      "trajectory" !in s.dims && "time" !in s.dims && "trajectory" !in s.vars && "time" !in s.vars
    ensures Track(s, times).ok ==>
              Track(s, times).store == s.(dims := s.dims["trajectory" := 1]["time" := |times|],
                vars := s.vars["trajectory" := IdVariable("trajectory", map[])]["time" := TimeVariable(TRAJECTORY_DIMS, times)],
                order := s.order + ["trajectory", "time"])
  {
    assert ToMap([]) == map[];
  }

  lemma PositionOutcome(s: Store, lats: Column, lons: Column, depths: Column)
    requires "trajectory" in s.dims && "time" in s.dims
    ensures Position(s, lats, lons, depths).ok <==> "latitude" !in s.vars && "longitude" !in s.vars && "depth" !in s.vars
    ensures Position(s, lats, lons, depths).ok ==>
              Position(s, lats, lons, depths).store
              == s.(vars := s.vars["latitude" := PositionVariable(lats, TRACK_LATITUDE_ATTRIBUTES)]
                                  ["longitude" := PositionVariable(lons, TRACK_LONGITUDE_ATTRIBUTES)]
                                  ["depth" := PositionVariable(depths, TRACK_DEPTH_ATTRIBUTES)],
                    order := s.order + ["latitude", "longitude", "depth"])
  {
  }

  lemma MarkersOutcome(s: Store, platformAttrs: Attributes, instrumentAttrs: Attributes)
    ensures Markers(s, platformAttrs, instrumentAttrs).ok <==>
      "platform" !in s.vars && "instrument" !in s.vars && "crs" !in s.vars
    ensures var r := Markers(s, platformAttrs, instrumentAttrs);
              r.ok ==> r.store == s.(vars := s.vars["platform" := MarkerVariable(platformAttrs)]
                                                   ["instrument" := MarkerVariable(instrumentAttrs)]
                                                   ["crs" := Var(Float64, [], CRS_ATTRIBUTES, None, None)],
                                     order := s.order + ["platform", "instrument", "crs"])
  {
  }

  /** The dataset after a header that ran to the end. */
  function HeaderStore(s: Store, times: seq<int>, globalAttrs: Attributes, lats: Column, lons: Column, depths: Column,
                       platformAttrs: Attributes, instrumentAttrs: Attributes): Store
  {
    Store(
      s.dims["trajectory" := 1]["time" := |times|],
      s.vars["trajectory" := IdVariable("trajectory", map[])]
            ["time" := TimeVariable(TRAJECTORY_DIMS, times)]
            ["latitude" := PositionVariable(lats, TRACK_LATITUDE_ATTRIBUTES)]
            ["longitude" := PositionVariable(lons, TRACK_LONGITUDE_ATTRIBUTES)]
            ["depth" := PositionVariable(depths, TRACK_DEPTH_ATTRIBUTES)]
            ["platform" := MarkerVariable(platformAttrs)]
            ["instrument" := MarkerVariable(instrumentAttrs)]
            ["crs" := Var(Float64, [], CRS_ATTRIBUTES, None, None)],
      s.globals + ToMap(TRAJECTORY_GLOBALS) + ToMap(globalAttrs),
      s.order + FIXED_VARIABLES)
  }

  /** On a fresh dataset the track runs and leaves the position and marker names free. */
  lemma TrackLeavesRoom(g: Store, times: seq<int>)
    requires Fresh(g)
    ensures var t := Track(g, times);
      && t.ok && "trajectory" in t.store.dims && "time" in t.store.dims
      && "latitude" !in t.store.vars && "longitude" !in t.store.vars && "depth" !in t.store.vars
      && "platform" !in t.store.vars && "instrument" !in t.store.vars && "crs" !in t.store.vars
  {
    TrackOutcome(g, times);
  }

  /** After the track, the position runs and leaves the marker names free. */
  lemma PositionLeavesRoom(t: Store, lats: Column, lons: Column, depths: Column)
    requires "trajectory" in t.dims && "time" in t.dims
    requires "latitude" !in t.vars && "longitude" !in t.vars && "depth" !in t.vars
    requires "platform" !in t.vars && "instrument" !in t.vars && "crs" !in t.vars
    ensures var p := Position(t, lats, lons, depths);
      p.ok && "platform" !in p.store.vars && "instrument" !in p.store.vars && "crs" !in p.store.vars
  {
    PositionOutcome(t, lats, lons, depths);
  }

  /** On a fresh dataset each stage of the header runs to the end. */
  lemma StagesRun(g: Store, times: seq<int>, lats: Column, lons: Column, depths: Column,
                  platformAttrs: Attributes, instrumentAttrs: Attributes)
    requires Fresh(g)
    ensures var r1 := Track(g, times);
      && r1.ok
      && var r2 := Position(r1.store, lats, lons, depths);
      && r2.ok
      && Markers(r2.store, platformAttrs, instrumentAttrs).ok
  {
    TrackLeavesRoom(g, times);
    var t1 := Track(g, times).store;
    PositionLeavesRoom(t1, lats, lons, depths);
    MarkersOutcome(Position(t1, lats, lons, depths).store, platformAttrs, instrumentAttrs);
  }

  lemma HeaderStages(s: Store, times: seq<int>, globalAttrs: Attributes, lats: Column, lons: Column, depths: Column,
                     platformAttrs: Attributes, instrumentAttrs: Attributes)
    requires Fresh(s)
    ensures var r1 := Track(Globals(s, globalAttrs), times);
      && r1.ok
      && var r2 := Position(r1.store, lats, lons, depths);
      && r2.ok
      && Markers(r2.store, platformAttrs, instrumentAttrs).ok
  {
    var g := Globals(s, globalAttrs);
    assert g.dims == s.dims && g.vars == s.vars;
    StagesRun(g, times, lats, lons, depths, platformAttrs, instrumentAttrs);
  }

  lemma HeaderUnfolds(s: Store, times: seq<int>, globalAttrs: Attributes, lats: Column, lons: Column, depths: Column,
                      platformAttrs: Attributes, instrumentAttrs: Attributes)
    requires Track(Globals(s, globalAttrs), times).ok
    requires Position(Track(Globals(s, globalAttrs), times).store, lats, lons, depths).ok
    ensures Header(s, times, globalAttrs, lats, lons, depths, platformAttrs, instrumentAttrs)
            == Markers(Position(Track(Globals(s, globalAttrs), times).store, lats, lons, depths).store,
                       platformAttrs, instrumentAttrs)
  {
  }

  /** The fixed variables are the track's, the position's and the markers'. */
  lemma FixedVariablesByStage()
    ensures ["trajectory", "time"] + (["latitude", "longitude", "depth"] + ["platform", "instrument", "crs"]) == FIXED_VARIABLES
  {
  }

  lemma HeaderRuns(s: Store, times: seq<int>, globalAttrs: Attributes, lats: Column, lons: Column, depths: Column,
                   platformAttrs: Attributes, instrumentAttrs: Attributes)
    requires Fresh(s)
    ensures Header(s, times, globalAttrs, lats, lons, depths, platformAttrs, instrumentAttrs)
            == Run(true, HeaderStore(s, times, globalAttrs, lats, lons, depths, platformAttrs, instrumentAttrs))
  {
    HeaderStages(s, times, globalAttrs, lats, lons, depths, platformAttrs, instrumentAttrs);
    HeaderUnfolds(s, times, globalAttrs, lats, lons, depths, platformAttrs, instrumentAttrs);
    var g := Globals(s, globalAttrs);
    TrackOutcome(g, times);
    var t1 := Track(g, times).store;
    PositionOutcome(t1, lats, lons, depths);
    var t2 := Position(t1, lats, lons, depths).store;
    MarkersOutcome(t2, platformAttrs, instrumentAttrs);
    AppendAssociates(s.order + ["trajectory", "time"], ["latitude", "longitude", "depth"], ["platform", "instrument", "crs"]);
    AppendAssociates(s.order, ["trajectory", "time"], ["latitude", "longitude", "depth"] + ["platform", "instrument", "crs"]);
    FixedVariablesByStage();
  }

  lemma HeaderFails(s: Store, times: seq<int>, globalAttrs: Attributes, lats: Column, lons: Column, depths: Column,
                    platformAttrs: Attributes, instrumentAttrs: Attributes)
    requires !Fresh(s)
    ensures !Header(s, times, globalAttrs, lats, lons, depths, platformAttrs, instrumentAttrs).ok
  {
    var g := Globals(s, globalAttrs);
    TrackOutcome(g, times);
    var r1 := Track(g, times);
    if r1.ok {
      PositionOutcome(r1.store, lats, lons, depths);
      var r2 := Position(r1.store, lats, lons, depths);
      if r2.ok {
        MarkersOutcome(r2.store, platformAttrs, instrumentAttrs);
      }
    }
  }

  /**
   * The header runs to the end exactly on a fresh dataset, and then it has
   * added the two dimensions, the eight fixed variables in order and the global
   * attributes, the caller's winning over the standard ones.
   */
  lemma HeaderOutcome(s: Store, times: seq<int>, globalAttrs: Attributes, lats: Column, lons: Column, depths: Column,
                      platformAttrs: Attributes, instrumentAttrs: Attributes)
    ensures Header(s, times, globalAttrs, lats, lons, depths, platformAttrs, instrumentAttrs).ok <==> Fresh(s)
    ensures Fresh(s) ==> Header(s, times, globalAttrs, lats, lons, depths, platformAttrs, instrumentAttrs).store
                         == HeaderStore(s, times, globalAttrs, lats, lons, depths, platformAttrs, instrumentAttrs)
  {
    if Fresh(s) {
      HeaderRuns(s, times, globalAttrs, lats, lons, depths, platformAttrs, instrumentAttrs);
    } else {
      HeaderFails(s, times, globalAttrs, lats, lons, depths, platformAttrs, instrumentAttrs);
    }
  }

  // ---------------------------------------------------------------------------
  // The observation loop

  /** Over the trajectory dimensions, the loop runs to the end exactly when no column name is already a variable. */
  lemma ObservationsOutcome(s: Store, cols: seq<Column>, units: map<string, AttrValue>)
    requires DimsExist(s, TRAJECTORY_DIMS)
    requires Distinct(Names(cols))
    ensures DefineEach(s, cols, TrackObservationOf(units)).ok <==> forall i :: 0 <= i < |cols| ==> cols[i].name !in s.vars
  {
    forall i | 0 <= i < |cols| ensures DimsExist(s, TrackObservationOf(units)(cols[i]).dims) {
    }
    DefineEachOutcome(s, cols, TrackObservationOf(units));
  }

  /** Where the header has taken exactly the fixed names, the loop runs to the end exactly when no column is named as a variable of `s` or a fixed one. */
  lemma ObservationsAfter(h: Store, s: Store, cols: seq<Column>, units: map<string, AttrValue>)
    requires DimsExist(h, TRAJECTORY_DIMS)
    requires Distinct(Names(cols))
    requires forall i :: 0 <= i < |cols| ==>
               (cols[i].name !in h.vars <==> cols[i].name !in s.vars && cols[i].name !in FIXED_VARIABLES)
    ensures DefineEach(h, cols, TrackObservationOf(units)).ok <==>
              forall i :: 0 <= i < |cols| ==> cols[i].name !in s.vars && cols[i].name !in FIXED_VARIABLES
  {
    ObservationsOutcome(h, cols, units);
  }

  lemma ColumnsAfterHeader(s: Store, times: seq<int>, globalAttrs: Attributes, lats: Column, lons: Column, depths: Column,
                           platformAttrs: Attributes, instrumentAttrs: Attributes, cols: seq<Column>)
    ensures var h := HeaderStore(s, times, globalAttrs, lats, lons, depths, platformAttrs, instrumentAttrs);
      && DimsExist(h, TRAJECTORY_DIMS)
      && forall i :: 0 <= i < |cols| ==>
           (cols[i].name !in h.vars <==> cols[i].name !in s.vars && cols[i].name !in FIXED_VARIABLES)
  {
  }

  // ---------------------------------------------------------------------------
  // What the writer leaves behind

  /** The table has all three position columns. */
  predicate HasPosition(df: DataFrame) {
    "latitude" in Names(df.columns) && "longitude" in Names(df.columns) && "depth" in Names(df.columns)
  }

  /** Without a `latitude`, `longitude` or `depth` column the call fails and the dataset is as it was. */
  lemma WriteNeedsPosition(s: Store, df: DataFrame, globalAttrs: Attributes, platformAttrs: Attributes,
                           instrumentAttrs: Attributes, units: map<string, AttrValue>)
    requires Timestamped(df) && !HasPosition(df)
    ensures Write(s, df, globalAttrs, platformAttrs, instrumentAttrs, units) == Run(false, s)
  {
  }

  /** On a fresh dataset the header runs to the end and the loop starts from its store. */
  lemma FillRuns(s: Store, times: seq<int>, globalAttrs: Attributes, lats: Column, lons: Column, depths: Column,
                 platformAttrs: Attributes, instrumentAttrs: Attributes, obs: seq<Column>,
                 units: map<string, AttrValue>)
    requires Fresh(s)
    ensures Fill(s, times, globalAttrs, lats, lons, depths, platformAttrs, instrumentAttrs, obs, units)
            == DefineEach(HeaderStore(s, times, globalAttrs, lats, lons, depths, platformAttrs, instrumentAttrs),
                          obs, TrackObservationOf(units))
  {
    HeaderRuns(s, times, globalAttrs, lats, lons, depths, platformAttrs, instrumentAttrs);
  }

  /** On a dataset that is not fresh the header, and so the whole call, fails. */
  lemma FillFails(s: Store, times: seq<int>, globalAttrs: Attributes, lats: Column, lons: Column, depths: Column,
                  platformAttrs: Attributes, instrumentAttrs: Attributes, obs: seq<Column>,
                  units: map<string, AttrValue>)
    requires !Fresh(s)
    ensures !Fill(s, times, globalAttrs, lats, lons, depths, platformAttrs, instrumentAttrs, obs, units).ok
  {
    HeaderFails(s, times, globalAttrs, lats, lons, depths, platformAttrs, instrumentAttrs);
  }

  /** No observation column is named as a variable of `s` or a fixed one, said of names or of positions. */
  lemma UnclaimedByName(s: Store, obs: seq<Column>)
    ensures (forall n :: n in Names(obs) ==> n !in s.vars && n !in FIXED_VARIABLES)
            <==> (forall i :: 0 <= i < |obs| ==> obs[i].name !in s.vars && obs[i].name !in FIXED_VARIABLES)
  {
    if forall i :: 0 <= i < |obs| ==> obs[i].name !in s.vars && obs[i].name !in FIXED_VARIABLES {
      forall n | n in Names(obs) ensures n !in s.vars && n !in FIXED_VARIABLES {
        var i :| 0 <= i < |obs| && Names(obs)[i] == n;
      }
    }
  }

  /** After a header that took exactly the fixed names, what the loop does. */
  lemma LoopAfterHeader(h: Store, s: Store, obs: seq<Column>, units: map<string, AttrValue>)
    requires DimsExist(h, TRAJECTORY_DIMS)
    requires Distinct(Names(obs))
    requires forall i :: 0 <= i < |obs| ==>
               (obs[i].name !in h.vars <==> obs[i].name !in s.vars && obs[i].name !in FIXED_VARIABLES)
    ensures var r := DefineEach(h, obs, TrackObservationOf(units));
      && (r.ok <==> forall n :: n in Names(obs) ==> n !in s.vars && n !in FIXED_VARIABLES)
      && (r.ok ==> r.store == h.(vars := h.vars + VariablesByName(obs, TrackObservationOf(units)),
                                 order := h.order + Names(obs)))
  {
    ObservationsAfter(h, s, obs, units);
    UnclaimedByName(s, obs);
    if DefineEach(h, obs, TrackObservationOf(units)).ok {
      DefineEachStore(h, obs, TrackObservationOf(units));
    }
  }

  /**
   * After the column reads, the writer runs to the end exactly on a fresh
   * dataset none of whose variables, and none of the fixed names, is an
   * observation column's name; then the observation variables follow the header.
   */
  lemma FillOutcome(s: Store, times: seq<int>, globalAttrs: Attributes, lats: Column, lons: Column, depths: Column,
                    platformAttrs: Attributes, instrumentAttrs: Attributes, obs: seq<Column>,
                    units: map<string, AttrValue>)
    requires Distinct(Names(obs))
    ensures var r := Fill(s, times, globalAttrs, lats, lons, depths, platformAttrs, instrumentAttrs, obs, units);
      && (r.ok <==> Fresh(s) && forall n :: n in Names(obs) ==> n !in s.vars && n !in FIXED_VARIABLES)
      && (r.ok ==>
            var h := HeaderStore(s, times, globalAttrs, lats, lons, depths, platformAttrs, instrumentAttrs);
            r.store == h.(vars := h.vars + VariablesByName(obs, TrackObservationOf(units)), order := h.order + Names(obs)))
  {
    if Fresh(s) {
      FillRuns(s, times, globalAttrs, lats, lons, depths, platformAttrs, instrumentAttrs, obs, units);
      ColumnsAfterHeader(s, times, globalAttrs, lats, lons, depths, platformAttrs, instrumentAttrs, obs);
      var h := HeaderStore(s, times, globalAttrs, lats, lons, depths, platformAttrs, instrumentAttrs);
      LoopAfterHeader(h, s, obs, units);
    } else {
      FillFails(s, times, globalAttrs, lats, lons, depths, platformAttrs, instrumentAttrs, obs, units);
    }
  }

  /** With its position columns, the call goes on to the header and the loop over the observation columns. */
  lemma WriteFills(s: Store, df: DataFrame, globalAttrs: Attributes, platformAttrs: Attributes,
                   instrumentAttrs: Attributes, units: map<string, AttrValue>)
    requires Timestamped(df) && HasPosition(df)
    ensures Write(s, df, globalAttrs, platformAttrs, instrumentAttrs, units)
            == Fill(s, DatetimesToUnixtimes(df.index), globalAttrs, Lookup(df.columns, "latitude").value,
                    Lookup(df.columns, "longitude").value, Lookup(df.columns, "depth").value,
                    platformAttrs, instrumentAttrs, Observed(df.columns), units)
  {
  }

  /**
   * `df2trajectory` runs to the end exactly when the table has its position
   * columns, the dataset is fresh, and no observation column is named as a
   * variable of the dataset or a fixed one; then the dataset holds the header
   * and one observation variable per observation column, defined after the
   * fixed ones and in table order.
   */
  lemma WriteOutcome(s: Store, df: DataFrame, globalAttrs: Attributes, platformAttrs: Attributes,
                     instrumentAttrs: Attributes, units: map<string, AttrValue>)
    requires Valid(df)
    ensures var r := Write(s, df, globalAttrs, platformAttrs, instrumentAttrs, units);
      var obs := Observed(df.columns);
      && (r.ok <==> HasPosition(df) && Fresh(s) && forall n :: n in Names(obs) ==> n !in s.vars && n !in FIXED_VARIABLES)
      && (r.ok ==>
            var h := HeaderStore(s, DatetimesToUnixtimes(df.index), globalAttrs,
                                 Lookup(df.columns, "latitude").value, Lookup(df.columns, "longitude").value,
                                 Lookup(df.columns, "depth").value, platformAttrs, instrumentAttrs);
            r.store == h.(vars := h.vars + VariablesByName(obs, TrackObservationOf(units)), order := h.order + Names(obs)))
  {
    if HasPosition(df) {
      ObservedDistinct(df.columns);
      WriteFills(s, df, globalAttrs, platformAttrs, instrumentAttrs, units);
      FillOutcome(s, DatetimesToUnixtimes(df.index), globalAttrs, Lookup(df.columns, "latitude").value,
                  Lookup(df.columns, "longitude").value, Lookup(df.columns, "depth").value,
                  platformAttrs, instrumentAttrs, Observed(df.columns), units);
    }
  }

  // ---------------------------------------------------------------------------
  // The layout of a complete run

  /** The standard trajectory globals as the mapping they describe. */
  lemma TrajectoryGlobalsMap()
    ensures ToMap(TRAJECTORY_GLOBALS)
            == map["Conventions" := Text("CF-1.6"), "featureType" := Text("trajectory"), "cdm_data_type" := Text("Trajectory")]
  {
    var g := TRAJECTORY_GLOBALS;
    assert g[..1][..0] == [];
    assert ToMap(g[..1]) == map["Conventions" := Text("CF-1.6")];
    assert g[..2][..1] == g[..1];
    assert ToMap(g[..2]) == map["Conventions" := Text("CF-1.6"), "featureType" := Text("trajectory")];
    assert g[..3][..2] == g[..2];
    assert g[..3] == g;
  }

  /**
   * Whatever the caller passes, the dataset's globals hold every caller item,
   * and each standard item whose key no caller item names; other globals of
   * `s` that neither names are kept.
   */
  lemma GlobalsOutcome(s: Store, globalAttrs: Attributes)
    requires DistinctKeys(globalAttrs)
    ensures var m := Globals(s, globalAttrs).globals;
      && (forall i :: 0 <= i < |globalAttrs| ==> globalAttrs[i].0 in m && m[globalAttrs[i].0] == globalAttrs[i].1)
      && (forall j :: 0 <= j < |TRAJECTORY_GLOBALS| && (forall i :: 0 <= i < |globalAttrs| ==> globalAttrs[i].0 != TRAJECTORY_GLOBALS[j].0) ==>
            TRAJECTORY_GLOBALS[j].0 in m && m[TRAJECTORY_GLOBALS[j].0] == TRAJECTORY_GLOBALS[j].1)
      && (forall k :: k in s.globals && k !in ToMap(TRAJECTORY_GLOBALS) && (forall i :: 0 <= i < |globalAttrs| ==> globalAttrs[i].0 != k) ==>
            k in m && m[k] == s.globals[k])
  {
    TrajectoryGlobalsMap();
    var base := s.globals + ToMap(TRAJECTORY_GLOBALS);
    assert Globals(s, globalAttrs).globals == base + ToMap(globalAttrs);
    CallerAttributesWin(base, globalAttrs);
  }

  /** The id and time variables of a header that ran to the end. */
  lemma HeaderVariables(s: Store, times: seq<int>, globalAttrs: Attributes, lats: Column, lons: Column, depths: Column,
                        platformAttrs: Attributes, instrumentAttrs: Attributes)
    ensures var vs := HeaderStore(s, times, globalAttrs, lats, lons, depths, platformAttrs, instrumentAttrs).vars;
      && "trajectory" in vs && vs["trajectory"] == IdVariable("trajectory", map[])
      && "time" in vs && vs["time"] == TimeVariable(TRAJECTORY_DIMS, times)
  {
  }

  /** The position variables of a header that ran to the end. */
  lemma HeaderPositions(s: Store, times: seq<int>, globalAttrs: Attributes, lats: Column, lons: Column, depths: Column,
                        platformAttrs: Attributes, instrumentAttrs: Attributes)
    ensures var vs := HeaderStore(s, times, globalAttrs, lats, lons, depths, platformAttrs, instrumentAttrs).vars;
      && "latitude" in vs && vs["latitude"] == PositionVariable(lats, TRACK_LATITUDE_ATTRIBUTES)
      && "longitude" in vs && vs["longitude"] == PositionVariable(lons, TRACK_LONGITUDE_ATTRIBUTES)
      && "depth" in vs && vs["depth"] == PositionVariable(depths, TRACK_DEPTH_ATTRIBUTES)
  {
  }

  /** The markers and the crs of a header that ran to the end. */
  lemma HeaderMarkers(s: Store, times: seq<int>, globalAttrs: Attributes, lats: Column, lons: Column, depths: Column,
                      platformAttrs: Attributes, instrumentAttrs: Attributes)
    ensures var vs := HeaderStore(s, times, globalAttrs, lats, lons, depths, platformAttrs, instrumentAttrs).vars;
      && "platform" in vs && vs["platform"] == MarkerVariable(platformAttrs)
      && "instrument" in vs && vs["instrument"] == MarkerVariable(instrumentAttrs)
      && "crs" in vs && vs["crs"] == Var(Float64, [], CRS_ATTRIBUTES, None, None)
  {
  }

  lemma HeaderKeys(s: Store, times: seq<int>, globalAttrs: Attributes, lats: Column, lons: Column, depths: Column,
                   platformAttrs: Attributes, instrumentAttrs: Attributes)
    ensures HeaderStore(s, times, globalAttrs, lats, lons, depths, platformAttrs, instrumentAttrs).vars.Keys
            == s.vars.Keys + (set n | n in FIXED_VARIABLES)
  {
  }

  /** The header of a table with its position columns, the columns being the ones the table calls so. */
  function TableHeader(s: Store, df: DataFrame, globalAttrs: Attributes, platformAttrs: Attributes,
                       instrumentAttrs: Attributes): Store
    requires Timestamped(df) && HasPosition(df)
  {
    HeaderStore(s, DatetimesToUnixtimes(df.index), globalAttrs,
                Lookup(df.columns, "latitude").value, Lookup(df.columns, "longitude").value,
                Lookup(df.columns, "depth").value, platformAttrs, instrumentAttrs)
  }

  /** A complete run leaves the header's dimensions, globals and fixed variables as the header made them. */
  lemma WriteKeepsHeader(s: Store, df: DataFrame, globalAttrs: Attributes, platformAttrs: Attributes,
                         instrumentAttrs: Attributes, units: map<string, AttrValue>)
    requires Valid(df)
    ensures var r := Write(s, df, globalAttrs, platformAttrs, instrumentAttrs, units);
      r.ok ==>
        && HasPosition(df)
        && var vs := TableHeader(s, df, globalAttrs, platformAttrs, instrumentAttrs).vars;
        && r.store.dims == s.dims["trajectory" := 1]["time" := |df.index|]
        && r.store.globals == Globals(s, globalAttrs).globals
        && forall n :: n in FIXED_VARIABLES ==> n in vs && n in r.store.vars && r.store.vars[n] == vs[n]
  {
    WriteOutcome(s, df, globalAttrs, platformAttrs, instrumentAttrs, units);
    var r := Write(s, df, globalAttrs, platformAttrs, instrumentAttrs, units);
    if r.ok {
      var h := TableHeader(s, df, globalAttrs, platformAttrs, instrumentAttrs);
      var obs := Observed(df.columns);
      var cv := VariablesByName(obs, TrackObservationOf(units));
      forall n | n in FIXED_VARIABLES ensures n in h.vars && n in r.store.vars && r.store.vars[n] == h.vars[n] {
        assert n !in cv;
      }
    }
  }

  /**
   * After a complete run the trajectory dimension has length 1 and the time
   * dimension one slot per row; the globals are as `GlobalsOutcome` states.
   */
  lemma WriteDimensions(s: Store, df: DataFrame, globalAttrs: Attributes, platformAttrs: Attributes,
                        instrumentAttrs: Attributes, units: map<string, AttrValue>)
    requires Valid(df)
    ensures var r := Write(s, df, globalAttrs, platformAttrs, instrumentAttrs, units);
      r.ok ==> && r.store.dims == s.dims["trajectory" := 1]["time" := |df.index|]
               && r.store.globals == Globals(s, globalAttrs).globals
  {
    WriteKeepsHeader(s, df, globalAttrs, platformAttrs, instrumentAttrs, units);
  }

  lemma TrajectoryRole()
    ensures "trajectory" + "_id" == "trajectory_id"
  {
  }

  /** After a complete run the trajectory id holds `[0]` over its own dimension with `cf_role` `trajectory_id`. */
  lemma WriteTrack(s: Store, df: DataFrame, globalAttrs: Attributes, platformAttrs: Attributes,
                   instrumentAttrs: Attributes, units: map<string, AttrValue>)
    requires Valid(df)
    ensures var r := Write(s, df, globalAttrs, platformAttrs, instrumentAttrs, units);
      r.ok ==>
        && "trajectory" in r.store.vars
        && r.store.vars["trajectory"].dtype == Int64
        && r.store.vars["trajectory"].dims == ["trajectory"]
        && r.store.vars["trajectory"].attrs == map["cf_role" := Text("trajectory_id"), "long_name" := Text("trajectory")]
        && r.store.vars["trajectory"].data == Some([Whole(0)])
  {
    WriteKeepsHeader(s, df, globalAttrs, platformAttrs, instrumentAttrs, units);
    if Write(s, df, globalAttrs, platformAttrs, instrumentAttrs, units).ok {
      HeaderVariables(s, DatetimesToUnixtimes(df.index), globalAttrs, Lookup(df.columns, "latitude").value,
                      Lookup(df.columns, "longitude").value, Lookup(df.columns, "depth").value,
                      platformAttrs, instrumentAttrs);
      assert "trajectory" in FIXED_VARIABLES;
      IdVariableWithoutAttributes("trajectory");
      TrajectoryRole();
    }
  }

  /** After a complete run the time variable lies over `("trajectory", "time")` and holds the table's second counts. */
  lemma WriteTime(s: Store, df: DataFrame, globalAttrs: Attributes, platformAttrs: Attributes,
                  instrumentAttrs: Attributes, units: map<string, AttrValue>)
    requires Valid(df)
    ensures var r := Write(s, df, globalAttrs, platformAttrs, instrumentAttrs, units);
      r.ok ==>
        && "time" in r.store.vars
        && r.store.vars["time"] == TimeVariable(TRAJECTORY_DIMS, DatetimesToUnixtimes(df.index))
  {
    WriteKeepsHeader(s, df, globalAttrs, platformAttrs, instrumentAttrs, units);
    if Write(s, df, globalAttrs, platformAttrs, instrumentAttrs, units).ok {
      HeaderVariables(s, DatetimesToUnixtimes(df.index), globalAttrs, Lookup(df.columns, "latitude").value,
                      Lookup(df.columns, "longitude").value, Lookup(df.columns, "depth").value,
                      platformAttrs, instrumentAttrs);
      assert "time" in FIXED_VARIABLES;
    }
  }

  /** The time variable of a table holds one second count per row, in row order, over both dimensions. */
  lemma TimeVariableOfIndex(index: seq<Epoch.CivilTime>)
    requires forall i :: 0 <= i < |index| ==> Epoch.Valid(index[i])
    ensures var v := TimeVariable(TRAJECTORY_DIMS, DatetimesToUnixtimes(index));
      && v.dims == ["trajectory", "time"] && v.attrs == TIME_ATTRIBUTES && v.data.Some?
      && |v.data.value| == |index|
      && forall i :: 0 <= i < |index| ==> v.data.value[i] == Whole(Epoch.UnixTime(index[i]))
  {
  }

  /**
   * After a complete run latitude, longitude and depth lie over
   * `("trajectory", "time")` holding the cells of the table's column of that
   * name, with the fill value and their attributes.
   */
  lemma WritePosition(s: Store, df: DataFrame, globalAttrs: Attributes, platformAttrs: Attributes,
                      instrumentAttrs: Attributes, units: map<string, AttrValue>)
    requires Valid(df)
    ensures var r := Write(s, df, globalAttrs, platformAttrs, instrumentAttrs, units);
      r.ok ==>
        && "latitude" in r.store.vars && "longitude" in r.store.vars && "depth" in r.store.vars
        && r.store.vars["latitude"] == PositionVariable(Lookup(df.columns, "latitude").value, TRACK_LATITUDE_ATTRIBUTES)
        && r.store.vars["longitude"] == PositionVariable(Lookup(df.columns, "longitude").value, TRACK_LONGITUDE_ATTRIBUTES)
        && r.store.vars["depth"] == PositionVariable(Lookup(df.columns, "depth").value, TRACK_DEPTH_ATTRIBUTES)
  {
    WriteKeepsHeader(s, df, globalAttrs, platformAttrs, instrumentAttrs, units);
    if Write(s, df, globalAttrs, platformAttrs, instrumentAttrs, units).ok {
      HeaderPositions(s, DatetimesToUnixtimes(df.index), globalAttrs, Lookup(df.columns, "latitude").value,
                      Lookup(df.columns, "longitude").value, Lookup(df.columns, "depth").value,
                      platformAttrs, instrumentAttrs);
      assert "latitude" in FIXED_VARIABLES && "longitude" in FIXED_VARIABLES && "depth" in FIXED_VARIABLES;
    }
  }

  /** A position variable holds its column's cells over the trajectory dimensions, with the fill value. */
  lemma PositionVariableHoldsColumn(col: Column, attrs: map<string, AttrValue>)
    ensures var v := PositionVariable(col, attrs);
      && v.dtype == col.dtype && v.dims == ["trajectory", "time"] && v.attrs == attrs
      && v.fill == Some(Number("-9999.9")) && v.data == Some(col.cells)
  {
  }

  /**
   * After a complete run the platform and instrument markers are scalar `S1`
   * variables with exactly the caller's attributes, and the crs is the builder's.
   */
  lemma WriteMarkers(s: Store, df: DataFrame, globalAttrs: Attributes, platformAttrs: Attributes,
                     instrumentAttrs: Attributes, units: map<string, AttrValue>)
    requires Valid(df)
    ensures var r := Write(s, df, globalAttrs, platformAttrs, instrumentAttrs, units);
      r.ok ==>
        && "platform" in r.store.vars && "instrument" in r.store.vars && "crs" in r.store.vars
        && r.store.vars["platform"] == MarkerVariable(platformAttrs)
        && r.store.vars["instrument"] == MarkerVariable(instrumentAttrs)
        && r.store.vars["crs"] == Var(Float64, [], CRS_ATTRIBUTES, None, None)
  {
    WriteKeepsHeader(s, df, globalAttrs, platformAttrs, instrumentAttrs, units);
    if Write(s, df, globalAttrs, platformAttrs, instrumentAttrs, units).ok {
      HeaderMarkers(s, DatetimesToUnixtimes(df.index), globalAttrs, Lookup(df.columns, "latitude").value,
                      Lookup(df.columns, "longitude").value, Lookup(df.columns, "depth").value,
                      platformAttrs, instrumentAttrs);
      assert "platform" in FIXED_VARIABLES && "instrument" in FIXED_VARIABLES && "crs" in FIXED_VARIABLES;
    }
  }

  /**
   * A marker carries the caller's attributes and nothing else: its keys are
   * the items' keys, each with its item's value, so no `long_name` is added.
   */
  lemma MarkerAttributes(attrs: Attributes)
    requires DistinctKeys(attrs)
    ensures var v := MarkerVariable(attrs);
      && v.dtype == Char1 && v.dims == [] && v.data == None
      && v.attrs.Keys == (set i | 0 <= i < |attrs| :: attrs[i].0)
      && (forall i :: 0 <= i < |attrs| ==> v.attrs[attrs[i].0] == attrs[i].1)
      && ("long_name" in v.attrs <==> exists i :: 0 <= i < |attrs| && attrs[i].0 == "long_name")
  {
    ToMapOfDistinct(attrs);
  }

  /**
   * After a complete run the variables are those of `s`, the fixed ones and one
   * per observation column, the fixed ones defined in the order trajectory,
   * time, latitude, longitude, depth, platform, instrument, crs, and the
   * observation columns after them in table order.
   */
  lemma WriteOrder(s: Store, df: DataFrame, globalAttrs: Attributes, platformAttrs: Attributes,
                   instrumentAttrs: Attributes, units: map<string, AttrValue>)
    requires Valid(df)
    ensures var r := Write(s, df, globalAttrs, platformAttrs, instrumentAttrs, units);
      var obs := Observed(df.columns);
      r.ok ==>
        && r.store.vars.Keys == s.vars.Keys + (set n | n in FIXED_VARIABLES) + (set i | 0 <= i < |obs| :: obs[i].name)
        && r.store.order == s.order + FIXED_VARIABLES + Names(obs)
  {
    WriteOutcome(s, df, globalAttrs, platformAttrs, instrumentAttrs, units);
    if Write(s, df, globalAttrs, platformAttrs, instrumentAttrs, units).ok {
      var h := TableHeader(s, df, globalAttrs, platformAttrs, instrumentAttrs);
      HeaderKeys(s, DatetimesToUnixtimes(df.index), globalAttrs, Lookup(df.columns, "latitude").value,
                 Lookup(df.columns, "longitude").value, Lookup(df.columns, "depth").value,
                 platformAttrs, instrumentAttrs);
      KeysAfterLoop(h, s, Observed(df.columns), units);
    }
  }

  lemma KeysAfterLoop(h: Store, s: Store, obs: seq<Column>, units: map<string, AttrValue>)
    requires h.vars.Keys == s.vars.Keys + (set n | n in FIXED_VARIABLES)
    ensures (h.vars + VariablesByName(obs, TrackObservationOf(units))).Keys
            == s.vars.Keys + (set n | n in FIXED_VARIABLES) + (set i | 0 <= i < |obs| :: obs[i].name)
  {
  }

  /**
   * After a complete run every observation column is a variable over
   * `("trajectory", "time")` holding the column's cells, with the
   * cross-references, the fill value and the column's unit or "1".
   */
  lemma WriteObservations(s: Store, df: DataFrame, globalAttrs: Attributes, platformAttrs: Attributes,
                          instrumentAttrs: Attributes, units: map<string, AttrValue>)
    requires Valid(df)
    ensures var r := Write(s, df, globalAttrs, platformAttrs, instrumentAttrs, units);
      var obs := Observed(df.columns);
      r.ok ==>
        forall i :: 0 <= i < |obs| ==>
          && obs[i].name in r.store.vars
          && r.store.vars[obs[i].name] == TrackObservation(obs[i], units)
  {
    WriteOutcome(s, df, globalAttrs, platformAttrs, instrumentAttrs, units);
    var obs := Observed(df.columns);
    ObservedDistinct(df.columns);
    forall i | 0 <= i < |obs| {
      VariableAt(obs, TrackObservationOf(units), i);
    }
  }

  // ---------------------------------------------------------------------------
  // The attribute sets

  /** The assignments an observation column receives make up this mapping. */
  lemma TrackObservationItemsMap(name: string, u: AttrValue)
    ensures ToMap(TrackObservationItems(name, u))
            == map["long_name" := Text(name), "standard_name" := Text(name), "coordinates" := COORDINATES,
                   "units" := u, "grid_mapping" := Text("crs"),
                   "platform" := Text("platform"), "instrument" := Text("instrument")]
  {
    var a := TrackObservationItems(name, u);
    var m: map<string, AttrValue> := map[];
    assert a[..1][..0] == [];
    m := m[a[0].0 := a[0].1];
    assert ToMap(a[..1]) == m;
    assert a[..2][..1] == a[..1];
    m := m[a[1].0 := a[1].1];
    assert ToMap(a[..2]) == m;
    assert a[..3][..2] == a[..2];
    m := m[a[2].0 := a[2].1];
    assert ToMap(a[..3]) == m;
    assert a[..4][..3] == a[..3];
    m := m[a[3].0 := a[3].1];
    assert ToMap(a[..4]) == m;
    assert a[..5][..4] == a[..4];
    m := m[a[4].0 := a[4].1];
    assert ToMap(a[..5]) == m;
    assert a[..6][..5] == a[..5];
    m := m[a[5].0 := a[5].1];
    assert ToMap(a[..6]) == m;
    assert a[..7][..6] == a[..6];
    m := m[a[6].0 := a[6].1];
    assert ToMap(a[..7]) == m;
    assert a[..7] == a;
  }

  /** An observation variable over the trajectory dimensions: the column's cells, the fill value, and exactly seven attributes. */
  lemma TrackObservationAttributes(col: Column, units: map<string, AttrValue>)
    ensures var v := TrackObservation(col, units);
      && v.dims == ["trajectory", "time"] && v.dtype == col.dtype
      && v.fill == Some(FILL_VALUE) && v.data == Some(col.cells)
      && v.attrs.Keys == {"long_name", "standard_name", "units", "coordinates", "grid_mapping", "platform", "instrument"}
      && v.attrs["long_name"] == Text(col.name) && v.attrs["standard_name"] == Text(col.name)
      && v.attrs["units"] == (if col.name in units then units[col.name] else Text("1"))
      && v.attrs["coordinates"] == Text("time depth latitude longitude")
      && v.attrs["grid_mapping"] == Text("crs")
      && v.attrs["platform"] == Text("platform") && v.attrs["instrument"] == Text("instrument")
  {
    TrackObservationItemsMap(col.name, UnitsFor(units, col.name));
  }

  /**
   * A trajectory observation carries the same attributes, fill value and
   * cells as a time-series one; only the dimensions differ.
   */
  lemma ObservationsAgree(col: Column, dims: seq<string>, units: map<string, AttrValue>)
    ensures TrackObservation(col, units) == ObservationVariable(col, dims, units).(dims := ["trajectory", "time"])
  {
    TrackObservationItemsMap(col.name, UnitsFor(units, col.name));
    ObservationItemsMap(col.name, UnitsFor(units, col.name));
  }

  /** The assignments of the loop body, in their order, make up the observation attributes. */
  lemma TrackObservationInOrder(name: string, u: AttrValue)
    ensures DataAttributes(name, None)["coordinates" := COORDINATES]["units" := u]["grid_mapping" := Text("crs")]
            ["platform" := Text("platform")]["instrument" := Text("instrument")]
            == ToMap(TrackObservationItems(name, u))
  {
    TrackObservationItemsMap(name, u);
  }

  /** Latitude gets `create_var`'s attributes with its range, then its units and axis. */
  lemma LatitudeInOrder()
    ensures DataAttributes("latitude", Some(LATITUDE_RANGE))["units" := Text("degrees_north")]["axis" := Text("Y")]
            == TRACK_LATITUDE_ATTRIBUTES
  {
  }

  lemma LongitudeInOrder()
    ensures DataAttributes("longitude", Some(LONGITUDE_RANGE))["units" := Text("degrees_east")]["axis" := Text("X")]
            == TRACK_LONGITUDE_ATTRIBUTES
  {
  }

  /** Depth gets `create_var`'s attributes with its range, then its standard name, units, direction and axis. */
  lemma DepthInOrder()
    ensures DataAttributes("depth", Some(DEPTH_RANGE))["standard_name" := Text("depth")]["units" := Text("m")]
            ["positive" := Text("down")]["axis" := Text("Z")]
            == TRACK_DEPTH_ATTRIBUTES
  {
  }

  /** The trajectory latitude carries the builders' latitude attributes plus its names. */
  lemma LatitudesAgree()
    ensures TRACK_LATITUDE_ATTRIBUTES
            == LATITUDE_ATTRIBUTES + map["long_name" := Text("latitude"), "standard_name" := Text("latitude")]
  {
  }

  lemma LongitudesAgree()
    ensures TRACK_LONGITUDE_ATTRIBUTES
            == LONGITUDE_ATTRIBUTES + map["long_name" := Text("longitude"), "standard_name" := Text("longitude")]
  {
  }

  /** The trajectory depth carries the builders' depth attributes plus its long name. */
  lemma DepthsAgree()
    ensures TRACK_DEPTH_ATTRIBUTES == DEPTH_ATTRIBUTES + map["long_name" := Text("depth")]
  {
  }

  // ---------------------------------------------------------------------------
  // The writer in place

  /** Setting the three standard globals one by one is setting the mapping they describe. */
  lemma StandardGlobalsInOrder(s: Store)
    ensures SetAttr(SetAttr(SetAttr(s, Global, "Conventions", Text("CF-1.6")), Global, "featureType", Text("trajectory")),
                    Global, "cdm_data_type", Text("Trajectory"))
            == SetAttrs(s, Global, ToMap(TRAJECTORY_GLOBALS))
  {
    TrajectoryGlobalsMap();
    assert s.globals["Conventions" := Text("CF-1.6")]["featureType" := Text("trajectory")]["cdm_data_type" := Text("Trajectory")]
           == s.globals + ToMap(TRAJECTORY_GLOBALS);
  }

  /** The three standard globals set one by one, then the caller's. */
  method SetGlobals(ds: Dataset, globalAttrs: Attributes)
    modifies ds
    ensures ds.Snapshot() == Globals(old(ds.Snapshot()), globalAttrs)
  {
    StandardGlobalsInOrder(ds.Snapshot());
    ds.SetNcAttr(Global, "Conventions", Text("CF-1.6"));
    ds.SetNcAttr(Global, "featureType", Text("trajectory"));
    ds.SetNcAttr(Global, "cdm_data_type", Text("Trajectory"));
    SetNcAttrs(ds, Global, globalAttrs);
  }

  /** The trajectory id, then the time dimension and the time variable over both dimensions. */
  method CreateTrack(ds: Dataset, times: seq<int>) returns (ok: bool)
    modifies ds
    ensures Run(ok, ds.Snapshot()) == Track(old(ds.Snapshot()), times)
  {
    ok := Utils.CreateIdVar(ds, "trajectory", []);
    if !ok { return; }
    ok := ds.CreateDimension("time", |times|);
    if !ok { return; }
    ghost var s := ds.Snapshot();
    ok := ds.CreateVariable("time", Float64, TRAJECTORY_DIMS, None);
    if !ok { return; }
    var t := Variable("time");
    ghost var v := Var(Float64, TRAJECTORY_DIMS, map[], None, None);
    ds.SetNcAttr(t, "units", Text("seconds since 1970-01-01T00:00:00Z"));
    SetAttrOfAdded(s, "time", v, "units", Text("seconds since 1970-01-01T00:00:00Z"));
    v := v.(attrs := v.attrs["units" := Text("seconds since 1970-01-01T00:00:00Z")]);
    ds.SetNcAttr(t, "standard_name", Text("time"));
    SetAttrOfAdded(s, "time", v, "standard_name", Text("time"));
    v := v.(attrs := v.attrs["standard_name" := Text("time")]);
    ds.SetNcAttr(t, "long_name", Text("time"));
    SetAttrOfAdded(s, "time", v, "long_name", Text("time"));
    v := v.(attrs := v.attrs["long_name" := Text("time")]);
    ds.SetNcAttr(t, "calendar", Text("gregorian"));
    SetAttrOfAdded(s, "time", v, "calendar", Text("gregorian"));
    v := v.(attrs := v.attrs["calendar" := Text("gregorian")]);
    ds.SetNcAttr(t, "axis", Text("T"));
    SetAttrOfAdded(s, "time", v, "axis", Text("T"));
    v := v.(attrs := v.attrs["axis" := Text("T")]);
    WriteDataOfAdded(s, "time", v, TimeValues(times));
    ds.AssignValues("time", TimeValues(times));
    assert v.attrs == TIME_ATTRIBUTES;
  }

  /** The nested `create_var`: a variable over the trajectory dimensions with the fill value, its names, an optional range and the cells. */
  method CreateTrackVar(ds: Dataset, name: string, values: Column, validRange: Option<(AttrValue, AttrValue)>)
    returns (ok: bool)
    modifies ds
    ensures Run(ok, ds.Snapshot())
            == Define(old(ds.Snapshot()), name, Utils.UnitlessVariable(name, values, TRAJECTORY_DIMS, Some(FILL_VALUE), validRange))
  {
    ok := Utils.CreateVar(ds, name, values, TRAJECTORY_DIMS, Some(FILL_VALUE), validRange);
  }

  method CreateLatitude(ds: Dataset, lats: Column) returns (ok: bool)
    modifies ds
    ensures Run(ok, ds.Snapshot()) == Define(old(ds.Snapshot()), "latitude", PositionVariable(lats, TRACK_LATITUDE_ATTRIBUTES))
  {
    ghost var s := ds.Snapshot();
    ok := CreateTrackVar(ds, "latitude", lats, Some(LATITUDE_RANGE));
    if !ok { return; }
    ghost var v := Utils.UnitlessVariable("latitude", lats, TRAJECTORY_DIMS, Some(FILL_VALUE), Some(LATITUDE_RANGE));
    var t := Variable("latitude");
    ds.SetNcAttr(t, "units", Text("degrees_north"));
    SetAttrOfAdded(s, "latitude", v, "units", Text("degrees_north"));
    v := v.(attrs := v.attrs["units" := Text("degrees_north")]);
    ds.SetNcAttr(t, "axis", Text("Y"));
    SetAttrOfAdded(s, "latitude", v, "axis", Text("Y"));
    v := v.(attrs := v.attrs["axis" := Text("Y")]);
    LatitudeInOrder();
  }

  method CreateLongitude(ds: Dataset, lons: Column) returns (ok: bool)
    modifies ds
    ensures Run(ok, ds.Snapshot()) == Define(old(ds.Snapshot()), "longitude", PositionVariable(lons, TRACK_LONGITUDE_ATTRIBUTES))
  {
    ghost var s := ds.Snapshot();
    ok := CreateTrackVar(ds, "longitude", lons, Some(LONGITUDE_RANGE));
    if !ok { return; }
    ghost var v := Utils.UnitlessVariable("longitude", lons, TRAJECTORY_DIMS, Some(FILL_VALUE), Some(LONGITUDE_RANGE));
    var t := Variable("longitude");
    ds.SetNcAttr(t, "units", Text("degrees_east"));
    SetAttrOfAdded(s, "longitude", v, "units", Text("degrees_east"));
    v := v.(attrs := v.attrs["units" := Text("degrees_east")]);
    ds.SetNcAttr(t, "axis", Text("X"));
    SetAttrOfAdded(s, "longitude", v, "axis", Text("X"));
    v := v.(attrs := v.attrs["axis" := Text("X")]);
    LongitudeInOrder();
  }

  method CreateDepth(ds: Dataset, depths: Column) returns (ok: bool)
    modifies ds
    ensures Run(ok, ds.Snapshot()) == Define(old(ds.Snapshot()), "depth", PositionVariable(depths, TRACK_DEPTH_ATTRIBUTES))
  {
    ghost var s := ds.Snapshot();
    ok := CreateTrackVar(ds, "depth", depths, Some(DEPTH_RANGE));
    if !ok { return; }
    ghost var v := Utils.UnitlessVariable("depth", depths, TRAJECTORY_DIMS, Some(FILL_VALUE), Some(DEPTH_RANGE));
    var t := Variable("depth");
    ds.SetNcAttr(t, "standard_name", Text("depth"));
    SetAttrOfAdded(s, "depth", v, "standard_name", Text("depth"));
    v := v.(attrs := v.attrs["standard_name" := Text("depth")]);
    ds.SetNcAttr(t, "units", Text("m"));
    SetAttrOfAdded(s, "depth", v, "units", Text("m"));
    v := v.(attrs := v.attrs["units" := Text("m")]);
    ds.SetNcAttr(t, "positive", Text("down"));
    SetAttrOfAdded(s, "depth", v, "positive", Text("down"));
    v := v.(attrs := v.attrs["positive" := Text("down")]);
    ds.SetNcAttr(t, "axis", Text("Z"));
    SetAttrOfAdded(s, "depth", v, "axis", Text("Z"));
    v := v.(attrs := v.attrs["axis" := Text("Z")]);
    DepthInOrder();
  }

  method CreatePosition(ds: Dataset, lats: Column, lons: Column, depths: Column) returns (ok: bool)
    modifies ds
    ensures Run(ok, ds.Snapshot()) == Position(old(ds.Snapshot()), lats, lons, depths)
  {
    ok := CreateLatitude(ds, lats);
    if !ok { return; }
    ok := CreateLongitude(ds, lons);
    if !ok { return; }
    ok := CreateDepth(ds, depths);
  }

  /** A scalar `S1` variable, then the caller's attributes one by one. */
  method CreateMarker(ds: Dataset, name: string, attrs: Attributes) returns (ok: bool)
    modifies ds
    ensures Run(ok, ds.Snapshot()) == Define(old(ds.Snapshot()), name, MarkerVariable(attrs))
  {
    ghost var s := ds.Snapshot();
    ok := ds.CreateVariable(name, Char1, [], None);
    if !ok { return; }
    SetNcAttrs(ds, Variable(name), attrs);
    SetAttrsOfAdded(s, name, Var(Char1, [], map[], None, None), ToMap(attrs));
    assert map[] + ToMap(attrs) == ToMap(attrs);
  }

  method CreateMarkers(ds: Dataset, platformAttrs: Attributes, instrumentAttrs: Attributes) returns (ok: bool)
    modifies ds
    ensures Run(ok, ds.Snapshot()) == Markers(old(ds.Snapshot()), platformAttrs, instrumentAttrs)
  {
    ok := CreateMarker(ds, "platform", platformAttrs);
    if !ok { return; }
    ok := CreateMarker(ds, "instrument", instrumentAttrs);
    if !ok { return; }
    ok := Utils.CreateCrsVar(ds, "crs");
  }

  /** One pass of the observation loop: `create_var`, then the cross-references and the unit. */
  method CreateObservation(ds: Dataset, col: Column, units: map<string, AttrValue>) returns (ok: bool)
    modifies ds
    ensures Run(ok, ds.Snapshot()) == Define(old(ds.Snapshot()), col.name, TrackObservation(col, units))
  {
    ghost var s := ds.Snapshot();
    ok := CreateTrackVar(ds, col.name, col, None);
    if !ok { return; }
    ghost var v := Utils.UnitlessVariable(col.name, col, TRAJECTORY_DIMS, Some(FILL_VALUE), None);
    var t := Variable(col.name);
    ds.SetNcAttr(t, "coordinates", COORDINATES);
    SetAttrOfAdded(s, col.name, v, "coordinates", COORDINATES);
    v := v.(attrs := v.attrs["coordinates" := COORDINATES]);
    var u := if col.name in units then units[col.name] else Text("1");
    ds.SetNcAttr(t, "units", u);
    SetAttrOfAdded(s, col.name, v, "units", u);
    v := v.(attrs := v.attrs["units" := u]);
    ds.SetNcAttr(t, "grid_mapping", Text("crs"));
    SetAttrOfAdded(s, col.name, v, "grid_mapping", Text("crs"));
    v := v.(attrs := v.attrs["grid_mapping" := Text("crs")]);
    ds.SetNcAttr(t, "platform", Text("platform"));
    SetAttrOfAdded(s, col.name, v, "platform", Text("platform"));
    v := v.(attrs := v.attrs["platform" := Text("platform")]);
    ds.SetNcAttr(t, "instrument", Text("instrument"));
    SetAttrOfAdded(s, col.name, v, "instrument", Text("instrument"));
    v := v.(attrs := v.attrs["instrument" := Text("instrument")]);
    TrackObservationInOrder(col.name, u);
  }

  /** The observation loop, stopping at the first column netCDF refuses. */
  method CreateObservations(ds: Dataset, cols: seq<Column>, units: map<string, AttrValue>) returns (ok: bool)
    modifies ds
    ensures Run(ok, ds.Snapshot()) == DefineEach(old(ds.Snapshot()), cols, TrackObservationOf(units))
  {
    ok := true;
    for i := 0 to |cols|
      invariant ok
      invariant DefineEach(old(ds.Snapshot()), cols, TrackObservationOf(units))
                == DefineEach(ds.Snapshot(), cols[i..], TrackObservationOf(units))
    {
      assert cols[i..][1..] == cols[i + 1..];
      ok := CreateObservation(ds, cols[i], units);
      if !ok { return; }
    }
    assert cols[|cols|..] == [];
  }

  /** `df2trajectory`: the column reads and the filter first, then the dataset, stage by stage. */
  method Df2Trajectory(df: DataFrame, ds: Dataset, globalAttrs: Attributes, platformAttrs: Attributes,
                       instrumentAttrs: Attributes, units: map<string, AttrValue>) returns (ok: bool)
    requires Timestamped(df)
    modifies ds
    ensures Run(ok, ds.Snapshot()) == Write(old(ds.Snapshot()), df, globalAttrs, platformAttrs, instrumentAttrs, units)
  {
    var lats := Lookup(df.columns, "latitude");
    var lons := Lookup(df.columns, "longitude");
    var depths := Lookup(df.columns, "depth");
    if lats.None? || lons.None? || depths.None? {
      ok := false;
      return;
    }
    var times := DatetimesToUnixtimes(df.index);
    var variables := Observed(df.columns);
    SetGlobals(ds, globalAttrs);
    ok := CreateTrack(ds, times);
    if !ok { return; }
    ok := CreatePosition(ds, lats.value, lons.value, depths.value);
    if !ok { return; }
    ok := CreateMarkers(ds, platformAttrs, instrumentAttrs);
    if !ok { return; }
    ok := CreateObservations(ds, variables, units);
  }
}
