# netcdf-cf-utils: the CF schema builders, modelled in Dafny

`nccf` writes a pandas table of timestamped columns, indexed by UTC time, into a netCDF4
dataset that follows the CF-1.6 conventions for discrete sampling geometries. It has two
writers, one per feature type:

- `nccf/timeseries.py` writes a single station (`featureType = timeSeries`);
- `nccf/trajectory.py` writes a single moving platform (`featureType = trajectory`).

Both writers call a small set of builders in a fixed order. Each builder adds one variable,
or one dimension and its variable, with a fixed set of attributes. The builders live in
`nccf/cf.py` as methods of `CFWriter`, and in an earlier free-function form in `nccf/utils.py`.

The model has seven modules:

- **`Epoch`** (`epoch.dfy`): civil UTC time and the "Seconds Since the Epoch" formula of
  section 4.16 of the POSIX.1-2017 Base Definitions. This is what
  `calendar.timegm(x.utctimetuple())` computes.
- **`NetCDF`** (`netcdf.dfy`): the dataset as a value and as an object.
  - The value is a `Store`: dimensions with their lengths, variables, global attributes, and
    the order in which the variables were defined.
  - Each variable is a `Var`: a dtype tag, its dimension tuple, its attribute map, an optional
    fill value and optional data.
  - The pure operations `CreateDim`, `CreateVar`, `SetAttrs` and `WriteData` return a `Run`:
    whether netCDF accepted the call, and the store afterwards. A duplicate dimension, a
    duplicate variable or a missing dimension makes the call raise. The store is then left
    as it was, and the caller stops.
  - The class `Dataset` holds the same four fields. Its methods `CreateDimension`,
    `CreateVariable`, `SetNcAttr` and `AssignValues` update them in place. Each one ensures
    that its new `Snapshot()` is the pure operation applied to the old one.
- **`Frame`** (`frame.dfy`): the table. It has an index of civil times and an ordered
  sequence of named columns. `df[name]` is `Lookup`, which gives `None` where pandas raises
  `KeyError`.
- **`CF`** (`cf.dfy`): the builders of `nccf/cf.py`. Each builder is:
  - a pure function on `Store` returning a `Run`;
  - a method of `CFWriter` that performs the same steps on its `Dataset`, one netCDF call at
    a time, and is proved equal to that function.
- **`Utils`** (`utils.dfy`): the free-function builders of `nccf/utils.py`. Where a builder
  does the same thing as its `CFWriter` counterpart, it reuses that function. Otherwise lemmas
  state how the two forms differ.
- **`Timeseries`** (`timeseries.dfy`): `TimeseriesWriter.from_dataframe`.
- **`Trajectory`** (`trajectory.dfy`): `df2trajectory` and its nested `create_var`.

Each writer is specified by a pure function `Write` that composes its stages. The stages are
the globals, the feature id with time, the positions, the markers, and the loop over the
observation columns. `Write` is defined with the same spec functions that the builder methods
are proved against. The lemmas about `Write` then state what the whole run produces: which
dimensions and variables exist, their attributes, their data, their order, and exactly when
the run fails.

`NetCDF.Coherent` says that every variable is bound to existing dimensions and that the
recorded definition order lists each variable exactly once. `NetCDF.OperationsKeepCoherent`
and `CF.DefineKeepsCoherent` show that every operation preserves it. It stands on its own as
a sanity invariant of the dataset model: no writer contract depends on it.

## Model

| member | source | states |
|---|---|---|
| Epoch.UnixTimeOfEpoch | nccf/cf.py:11 | 1970-01-01T00:00:00 maps to 0 seconds |
| Epoch.UnixTimeOfY2K | nccf/cf.py:11 | 2000-01-01T00:00:00 maps to 946684800 seconds |
| Epoch.UnixTimeIgnoresMicroseconds | nccf/cf.py:11 | the sub-second field does not affect the result, because `utctimetuple` drops it |
| Epoch.UnixTimeOfTick | nccf/cf.py:11 | advancing a valid civil time by one second, with carries through minute, hour, day, month and year, adds exactly 1 |
| Epoch.UnixTimeOfTickN | nccf/cf.py:11 | advancing by n seconds adds exactly n |
| Epoch.UnixTimeCountsFromEpoch | nccf/cf.py:11 | the time n seconds after the epoch maps to n |
| Epoch.BeforeIncreases | nccf/cf.py:11 | a chronologically earlier timestamp has a strictly smaller value |
| Epoch.UnixTimeOrder | nccf/cf.py:11 | earlier in time iff a smaller value; the same second iff an equal value |
| Epoch.YearStartNext | nccf/cf.py:11 | the leap-day terms of the formula add one year's length: 365 or 366 days by the Gregorian rule |
| Epoch.YearDayBound | nccf/cf.py:11 | the day within the year of a valid date lies in [0, days in that year) |
| CF.DatetimesToUnixtimes | nccf/cf.py:7-11 | one value per timestamp, in input order; each is that timestamp's seconds since the epoch; values compare exactly as the timestamps do |
| NetCDF.Dataset.CreateDimension | nccf/cf.py:44 | succeeds iff the name is new; the new state is the store with that dimension added, or unchanged on failure |
| NetCDF.Dataset.CreateVariable | nccf/cf.py:45 | succeeds iff the name is new and every named dimension exists; the new state adds the variable with no attributes and no data |
| NetCDF.Dataset.SetNcAttr | nccf/cf.py:15 | sets one attribute of the dataset or of one variable and changes nothing else |
| NetCDF.Dataset.AssignValues | nccf/cf.py:49 | replaces the data of one variable and changes nothing else |
| NetCDF.OperationsKeepCoherent | nccf/cf.py:44-49 | every netCDF operation keeps every variable bound to existing dimensions and keeps the recorded order in step with the variables |
| NetCDF.SetAttrsEffect | nccf/cf.py:13-15 | after setting a map of attributes, each key holds its new value; other attributes, variables, dimensions and the order are unchanged |
| NetCDF.SetAttrIsSetAttrs | nccf/cf.py:15 | one `setncattr` is a one-entry `SetAttrs` |
| NetCDF.SetAttrsTwice | nccf/timeseries.py:27-34 | two attribute passes equal one pass of their union in which the second pass wins on clashing keys |
| NetCDF.ToMapOfDistinct | nccf/cf.py:13-15 | a dict with distinct keys gives exactly those keys with their values |
| NetCDF.SetEachIsSetAttrs | nccf/cf.py:13-15 | setting the items one after another, later ones overwriting earlier ones, equals one `SetAttrs` of the dict |
| NetCDF.SetAttrsOfAdded | nccf/cf.py:32-35 | setting attributes on a just-created variable equals creating it with those attributes |
| NetCDF.WriteDataOfAdded | nccf/cf.py:49 | writing data into a just-created variable equals creating it with that data |
| CF.SetNcAttrs | nccf/cf.py:13-15 | the loop leaves the target's attributes as the old ones overwritten by the dict |
| CF.DefineOutcome | nccf/cf.py:95 | defining a variable succeeds iff its name is new and its dimensions exist; on success exactly that variable is added and appended to the order; on failure nothing changes |
| CF.DefineKeepsCoherent | nccf/cf.py:95 | defining a variable keeps the store coherent |
| CF.CFWriter.CreateCrsVar | nccf/cf.py:22-30 | the method's effect is `CrsVar`: defines `crs` and sets its five attributes |
| CF.CrsVarAttributes | nccf/cf.py:22-30 | `crs` is scalar, has exactly the five grid-mapping attributes with `epsg_code = EPSG:4326`, and holds no data |
| CF.CFWriter.CreateEmptyVar | nccf/cf.py:32-37 | the method's effect is `EmptyVar`: a scalar `S1` variable with `long_name = name`, then the caller's attributes |
| CF.EmptyVarOutcome | nccf/cf.py:32-37 | the empty variable is scalar with no data; every caller attribute holds its value; `long_name` is the name unless the caller sets it |
| CF.CFWriter.CreatePlatformVar | nccf/cf.py:106-107 | an empty variable called `platform` |
| CF.CFWriter.CreateInstrumentVar | nccf/cf.py:109-110 | an empty variable called `instrument` |
| CF.CFWriter.CreateIdVar | nccf/cf.py:39-50 | the method's effect is `IdVar`: a length-1 dimension and an int variable with that name, the role attributes, the caller's attributes, then data `[0]` |
| CF.IdVarOutcome | nccf/cf.py:39-50 | succeeds iff the name is neither a dimension nor a variable; adds dimension `name` of length 1 and an Int64 variable over `(name,)` holding `[0]`; caller attributes hold; `cf_role = name_id` and `long_name = name` unless the caller overrides them; nothing changes when the dimension already exists |
| CF.CallerAttributesWin | nccf/cf.py:48 | applying the caller's attributes after the defaults makes every caller key win and keeps the defaults the caller does not name |
| CF.IdVariableWithoutAttributes | nccf/cf.py:44-47 | with no caller attributes, the id variable has exactly `cf_role` and `long_name` |
| CF.CFWriter.CreateTimeVar | nccf/cf.py:52-66 | the method's effect is `TimeVar`, with dimensions defaulting to `("time",)` |
| CF.TimeVarOutcome | nccf/cf.py:52-66 | succeeds iff `time` is new as a dimension and a variable and the dimensions exist; dimension `time` has length `|times|`; the variable carries the five time attributes and the times; a second call fails |
| CF.CFWriter.CreateLatVar | nccf/cf.py:68-74 | the method's effect is `LatVar` over the caller's dimensions |
| CF.CFWriter.CreateLonVar | nccf/cf.py:76-82 | the method's effect is `LonVar` over the caller's dimensions |
| CF.CFWriter.CreateDepthVar | nccf/cf.py:84-92 | the method's effect is `DepthVar` over the caller's dimensions |
| CF.CoordinateVarsCarryNoData | nccf/cf.py:68-92 | latitude, longitude and depth are Float64 over the caller's dimensions with their fixed attribute sets and no data; depth has `positive = down` |
| CF.CFWriter.CreateVar | nccf/cf.py:94-104 | the method's effect is `DataVar`, with the fill value passed straight to `createVariable`, `None` standing for no fill value |
| CF.DataVarOutcome | nccf/cf.py:94-104 | `long_name = standard_name = name`; `valid_min`/`valid_max` present iff a range is given, with its bounds; `units` is the argument or `"1"`; no other attribute; the fill value as passed, and the column's values and dtype |
| CF.DataAttributesInOrder | nccf/cf.py:96-102 | setting the attributes one by one in source order gives the attribute map of the model |
| CF.ObservationItemsMap | nccf/timeseries.py:68-76 | an observation variable has exactly seven attributes with these values |
| CF.VariablesByName | nccf/timeseries.py:67 | the variables made by the column loop are keyed by exactly the column names |
| CF.VariableAt | nccf/timeseries.py:67-68 | the variable for each column is made from that column |
| CF.DefineEachOutcome | nccf/timeseries.py:67-68 | the column loop succeeds iff no column name is already a variable |
| CF.DefineEachStore | nccf/timeseries.py:67-68 | after a successful loop, the store holds the old variables plus one per column, and the order gains the column names in table order |
| Utils.CreateCrsVar | nccf/utils.py:5-14 | same effect as the class version, under the given name |
| Utils.CreateEmptyVar | nccf/utils.py:16-22 | same effect as the class version |
| Utils.CreateIdVar | nccf/utils.py:24-34 | the effect of the class version with no attributes: the `attributes` argument is ignored |
| Utils.FreeIdVarAttributes | nccf/utils.py:24-34 | succeeds iff the name is new; fails and changes nothing when the dimension exists; otherwise dimension length 1, exactly `cf_role = name_id` and `long_name = name`, dims `(name,)`, data `[0]` |
| Utils.CreateTimeVar | nccf/utils.py:36-50 | converts its timestamps itself, then has the effect of the class time builder with dimension and variable both called `name` |
| Utils.FreeTimeVarOutcome | nccf/utils.py:36-50 | succeeds iff `name` is new as a dimension and a variable; fails and changes nothing when the dimension exists; otherwise dimension `name` has length `|times|` and the variable is Float64 over `(name,)` with the five time attributes and each timestamp's epoch seconds |
| Utils.CreateVar | nccf/utils.py:54-61 | the method's effect is `UnitlessVar`, with the fill value passed straight to `createVariable`, `None` standing for no fill value |
| Utils.UnitlessVarOutcome | nccf/utils.py:54-61 | succeeds iff the name is new and the dimensions exist; no `units`; `long_name = standard_name = name`; range bounds only when given; the fill, dtype and values |
| Utils.ClassVersionAddsUnits | nccf/utils.py:54-61 | the class `create_var` is the free one plus a `units` attribute, with the same outcome |
| Utils.AttributesInOrder | nccf/utils.py:56-59 | setting the attributes one by one in source order gives the model's attribute map |
| Timeseries.TimeseriesWriter.SetGlobals | nccf/timeseries.py:27-34 | the state after the two `setncattrs` calls is `Globals` |
| Timeseries.TimeseriesWriter.CreateStation | nccf/timeseries.py:37-43 | the id and time builders, with the effect `Station` |
| Timeseries.TimeseriesWriter.CreatePosition | nccf/timeseries.py:46-53 | the three coordinate builders over `("timeseries",)`, with the effect `Position` |
| Timeseries.TimeseriesWriter.CreateMarkers | nccf/timeseries.py:57-64 | platform, instrument and crs, with the effect `Markers` |
| Timeseries.TimeseriesWriter.CreateObservation | nccf/timeseries.py:68-76 | one loop iteration defines the column's observation variable |
| Timeseries.TimeseriesWriter.CreateObservations | nccf/timeseries.py:67-76 | the whole loop has the effect `DefineEach` over every column |
| Timeseries.TimeseriesWriter.FromDataframe | nccf/timeseries.py:10-76 | the whole method has the effect `Write` on the dataset |
| Timeseries.StationOutcome | nccf/timeseries.py:37-43 | succeeds iff `timeseries` and `time` are new; adds both dimensions, the id and the time variable, in that order |
| Timeseries.PositionOutcome | nccf/timeseries.py:46-53 | succeeds iff the three names are new; adds three data-less variables over `("timeseries",)` |
| Timeseries.MarkersOutcome | nccf/timeseries.py:57-64 | succeeds iff the three names are new; adds platform, instrument and crs |
| Timeseries.HeaderOutcome | nccf/timeseries.py:27-64 | everything before the loop succeeds iff none of the fixed names is taken; the store it leaves is `HeaderStore` |
| Timeseries.HeaderFails | nccf/timeseries.py:37-64 | when a fixed name is already taken, the header fails |
| Timeseries.WriteOutcome | nccf/timeseries.py:10-76 | the run succeeds iff the fixed names are free and no column is named like an existing or a fixed variable; on success, the store is the header plus one variable per column, appended in table order |
| Timeseries.GlobalsOutcome | nccf/timeseries.py:27-34 | caller globals hold their values; the three defaults hold unless the caller names them; other existing globals are kept |
| Timeseries.TimeseriesGlobalsMap | nccf/timeseries.py:27-31 | the defaults are exactly `Conventions = CF-1.6`, `featureType = timeSeries`, `cdm_data_type = Station` |
| Timeseries.WriteDimensions | nccf/timeseries.py:37-43 | after a run, `timeseries` has length 1 and `time` has the row count; the globals are the header's |
| Timeseries.WriteStation | nccf/timeseries.py:37 | the id variable is over `("timeseries",)` with exactly `cf_role = timeseries_id` and `long_name = timeseries`, holding `[0]` |
| Timeseries.WriteTime | nccf/timeseries.py:42-43 | the time variable is built from the index |
| Timeseries.TimeVariableOfIndex | nccf/timeseries.py:42-43 | that variable is over `("time",)` with the time attributes and holds each row's epoch seconds |
| Timeseries.WritePosition | nccf/timeseries.py:46-53 | latitude, longitude and depth are over `("timeseries",)` and hold no data: the `lat`, `lon` and `depth` arguments are never written |
| Timeseries.WriteMarkers | nccf/timeseries.py:57-64 | platform and instrument carry `long_name` and the caller's attributes; crs is the fixed grid mapping |
| Timeseries.WriteKeepsHeader | nccf/timeseries.py:37-64 | the loop changes none of the eight fixed variables, nor the dimensions or globals |
| Timeseries.WriteOrder | nccf/timeseries.py:37-68 | variables are defined id, time, coordinates, markers, crs, then the columns in table order |
| Timeseries.WriteColumns | nccf/timeseries.py:67-76 | every column, without exception, becomes its observation variable |
| Timeseries.ObservationVariableAttributes | nccf/timeseries.py:68-76 | an observation variable is over `("timeseries", "time")` with the column's values and the fill value, and exactly seven attributes with `units` from the map or `"1"` |
| Timeseries.ObservationAttributesInOrder | nccf/timeseries.py:68-76 | the attribute assignments in source order, including the overwritten `units = "1"`, give that map |
| Trajectory.SetGlobals | nccf/trajectory.py:32-38 | the three assignments and the caller loop have the effect `Globals` |
| Trajectory.StandardGlobalsInOrder | nccf/trajectory.py:32-34 | the three assignments equal setting the default map |
| Trajectory.CreateTrack | nccf/trajectory.py:41-57 | the id and time steps, with the effect `Track` |
| Trajectory.CreateTrackVar | nccf/trajectory.py:59-67 | the nested `create_var` defines a unitless variable over `("trajectory", "time")` with the fill value |
| Trajectory.CreateLatitude | nccf/trajectory.py:70-72 | defines latitude from its column with its attribute set |
| Trajectory.CreateLongitude | nccf/trajectory.py:74-76 | defines longitude from its column with its attribute set |
| Trajectory.CreateDepth | nccf/trajectory.py:78-82 | defines depth from its column with its attribute set |
| Trajectory.CreatePosition | nccf/trajectory.py:70-82 | the three position steps, with the effect `Position` |
| Trajectory.CreateMarker | nccf/trajectory.py:84-91 | a scalar `S1` variable carrying only the caller's attributes |
| Trajectory.CreateMarkers | nccf/trajectory.py:84-100 | platform, instrument and crs, with the effect `Markers` |
| Trajectory.CreateObservation | nccf/trajectory.py:104-112 | one loop iteration defines the column's trajectory observation variable |
| Trajectory.CreateObservations | nccf/trajectory.py:103-112 | the loop has the effect `DefineEach` over the observation columns |
| Trajectory.Df2Trajectory | nccf/trajectory.py:7-112 | the whole function has the effect `Write` on the dataset |
| Trajectory.WriteNeedsPosition | nccf/trajectory.py:22-32 | without a `latitude`, `longitude` or `depth` column, the run fails and the dataset is untouched |
| Frame.Lookup | nccf/trajectory.py:22-24 | `df[name]` is found iff the name is a column label, and it is that column |
| Trajectory.ObservedMember | nccf/trajectory.py:29 | a column is an observation column iff it is in the table and is not a position column |
| Trajectory.ObservedKeepsOrder | nccf/trajectory.py:29 | the observation columns keep the table's order |
| Trajectory.ObservedDistinct | nccf/trajectory.py:29 | distinct table labels give distinct observation labels |
| Trajectory.TrackOutcome | nccf/trajectory.py:41-57 | succeeds iff `trajectory` and `time` are new; adds both dimensions, the id and time over `("trajectory", "time")` |
| Trajectory.PositionOutcome | nccf/trajectory.py:70-82 | succeeds iff the three names are new; adds the three per-row position variables |
| Trajectory.MarkersOutcome | nccf/trajectory.py:84-100 | succeeds iff the three names are new; adds platform, instrument and crs |
| Trajectory.HeaderOutcome | nccf/trajectory.py:32-100 | everything before the loop succeeds iff none of the fixed names is taken; the store it leaves is `HeaderStore` |
| Trajectory.HeaderFails | nccf/trajectory.py:41-100 | when a fixed name is taken, the header fails |
| Trajectory.FillOutcome | nccf/trajectory.py:32-112 | from the header on, the run succeeds iff the fixed names are free and no observation name is taken; the resulting store |
| Trajectory.WriteOutcome | nccf/trajectory.py:7-112 | the run succeeds iff the position columns exist, the fixed names are free and no observation name is an existing or fixed variable; on success, the header plus one variable per observation column, in table order |
| Trajectory.GlobalsOutcome | nccf/trajectory.py:32-38 | caller globals hold their values; the three defaults hold unless the caller names them; other globals are kept |
| Trajectory.TrajectoryGlobalsMap | nccf/trajectory.py:32-34 | the defaults are exactly `Conventions = CF-1.6`, `featureType = trajectory`, `cdm_data_type = Trajectory` |
| Trajectory.WriteDimensions | nccf/trajectory.py:41-50 | after a run, `trajectory` has length 1 and `time` has the row count |
| Trajectory.WriteTrack | nccf/trajectory.py:41-45 | the id is Int64 over `("trajectory",)` with exactly `cf_role = trajectory_id` and `long_name = trajectory`, holding `[0]` |
| Trajectory.WriteTime | nccf/trajectory.py:50-57 | the time variable is built from the index over `("trajectory", "time")` |
| Trajectory.TimeVariableOfIndex | nccf/trajectory.py:26-57 | that variable has the time attributes and holds each row's epoch seconds |
| Trajectory.WritePosition | nccf/trajectory.py:59-82 | latitude, longitude and depth are built from their own columns |
| Trajectory.PositionVariableHoldsColumn | nccf/trajectory.py:59-67 | a position variable keeps its column's dtype and values, over `("trajectory", "time")` with fill -9999.9 |
| Trajectory.LatitudesAgree | nccf/trajectory.py:70-72 | latitude's attributes are the class builder's set plus `long_name` and `standard_name`: range (-90, 90), `degrees_north`, axis Y |
| Trajectory.LongitudesAgree | nccf/trajectory.py:74-76 | longitude's attributes are the class builder's set plus the two names: range (-180, 180), `degrees_east`, axis X |
| Trajectory.DepthsAgree | nccf/trajectory.py:78-82 | depth's attributes are the class builder's set plus `long_name`: range (0, 10971), `m`, `positive = down`, axis Z |
| Trajectory.LatitudeInOrder | nccf/trajectory.py:70-72 | the assignments in source order give latitude's attribute map |
| Trajectory.LongitudeInOrder | nccf/trajectory.py:74-76 | the assignments in source order give longitude's attribute map |
| Trajectory.DepthInOrder | nccf/trajectory.py:78-82 | the assignments in source order, including the repeated `standard_name`, give depth's map |
| Trajectory.WriteMarkers | nccf/trajectory.py:84-100 | platform and instrument are the caller's markers; crs is the fixed grid mapping |
| Trajectory.MarkerAttributes | nccf/trajectory.py:84-91 | a marker has exactly the caller's keys with their values, and `long_name` only when the caller gives one |
| Trajectory.WriteKeepsHeader | nccf/trajectory.py:41-112 | a successful run had its position columns, and the loop changes none of the fixed variables, nor the dimensions or globals |
| Trajectory.WriteOrder | nccf/trajectory.py:41-104 | variables are defined id, time, positions, markers, crs, then the observation columns in table order |
| Trajectory.WriteObservations | nccf/trajectory.py:103-112 | every observation column becomes its trajectory observation variable |
| Trajectory.TrackObservationAttributes | nccf/trajectory.py:103-112 | an observation variable is over `("trajectory", "time")` with the column's values and fill, and exactly seven attributes with `units` from the map or `"1"` |
| Trajectory.ObservationsAgree | nccf/trajectory.py:103-112 | it is the time-series observation variable bound to the trajectory dimensions |
| Trajectory.TrackObservationInOrder | nccf/trajectory.py:104-112 | the assignments in source order give that attribute map |

## Left out

- Binary storage: netCDF4 and HDF5 encoding, file handles and closing are not modelled. The
  dataset is its dimensions, variables, globals and definition order.
- pandas and numpy: a table is an index plus an ordered sequence of named columns. dtypes are
  the tags `Float64`, `Int64` and `Char1`. Cell values are opaque.
- Floating point: attribute constants such as 6378137., 298.257223563, -9999.9 and the range
  bounds are kept as literal text (`Number`). Epoch seconds are integers. The
  `.astype(np.float)` cast is modelled as a tag on each value (`Whole`).
- Time zones, leap seconds and the `calendar` module itself are left out. Timestamps are
  taken as UTC civil fields, and the sub-second field is ignored.
- The order of attributes within a variable is not modelled, because attributes form a map.
  The `*InOrder` lemmas show that the source's assignment order gives that map.
- Duplicate column labels, which pandas allows, are not modelled. The writers' lemmas assume
  distinct labels (`Frame.Valid`).
- The variables or literals that the builders return are not modelled. The methods return
  only whether netCDF accepted the calls.
- netCDF's checks that data matches the variable's shape are not modelled. Data is stored
  as given.
- netCDF failures are not preconditions. They are modelled as a failed `Run` that stops the
  caller with the dataset as it stood at the raise. An exception raised partway through a
  builder leaves the earlier netCDF calls in place, as in the library.
- The trajectory writer's nested `create_var` is `Trajectory.CreateTrackVar`, which reuses
  the free-function `Utils.CreateVar` with the dimensions `("trajectory", "time")`. Its crs
  step is `Utils.CreateCrsVar` with the name `crs`, which performs the same netCDF calls.
- Trajectory layout: the model follows the code. Data is bound to `("trajectory", "time")`.
  No `cdm_trajectory_variables` or `subsetVariables` attribute is written. The id's
  `long_name` is always `trajectory`. The platform and instrument markers get no `long_name`.
- Timeseries.TimeseriesWriter.FromDataframe: the `lat`, `lon` and `depth` parameters are
  accepted and never used, as in the source.
- Utils.CreateIdVar: the `attributes` parameter is accepted and ignored, as in the source.
- Default arguments: Python's defaults (`name='crs'`, `fill_value=-9999.9`, empty attribute
  dicts) are explicit parameters. The writers pass `Some(FILL_VALUE)` where the source relies on
  the default fill value. `CF.CFWriter.CreateTimeVar` takes the dimensions as an
  `Option`, whose `None` means `("time",)`.
- CF.CFWriter.CreateTimeVar: the time variable is always Float64, and its values are whole
  seconds. The source takes the dtype from `times.dtype`. These are the same for every array
  that `datetimes2unixtimes` returns, which is the only kind the writers pass. An integer or
  float32 array, or an array with fractional seconds, from some other caller is not modelled.
- CF.CFWriter.CreateVar: a fill value of `None` (netCDF's default fill) and one of `False` (no
  fill) both appear as `None`. Both leave the variable without a `_FillValue` attribute. What
  netCDF writes into unwritten cells is a storage matter and is not modelled.
- Utils.CreateVar: a fill value of `None` and one of `False` both appear as `None`, for the
  same reason.
- A `time` dimension created with size 0 is unlimited in netCDF4. For an empty table the model
  records a fixed length 0. The length is 0 in both cases, since no time values are written,
  but the unlimited flag is not modelled.
