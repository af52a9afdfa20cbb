/** `AircraftPlotRootController`: the scatterplot's data pipeline. Records are
    filtered by three allow-lists, each axis's range is taken over its positive
    values, every record positive on all three axes becomes a point placed by a
    padded normalisation, and each axis gets evenly spaced ticks. Spawned points,
    ticks and labels are modelled as values; materials as opaque ids. */
module PlotRoot {
  import opened Common
  import opened Text
  import opened AircraftData
  import opened PlotMath

  // ---------------------------------------------------------------- filters

  /** `allowedCountries`, `allowedRoles`, `allowedStates`; `None` is a null list. */
  datatype AllowLists = AllowLists(
    countries: Option<seq<string>>,
    roles: Option<seq<string>>,
    states: Option<seq<string>>)

  /** The lists `SetMultiFilters` installs when every argument is empty or null. */
  const NoFilters := AllowLists(Some([]), Some([]), Some([]))

  /** A null or empty allow-list lets every value through; otherwise the value must be listed. */
  predicate Admits(allow: Option<seq<string>>, v: string)
  {
    allow.None? || |allow.value| == 0 || v in allow.value
  }

  /** `PassesFilters`: the country, role and state tests in the order the source makes them. */
  function PassesFilters(f: AllowLists, rec: AircraftRecord): (ok: bool)
    ensures ok <==> Admits(f.countries, rec.country) && Admits(f.roles, rec.primaryRole)
                    && Admits(f.states, rec.state)
  {
    if f.countries.Some? && |f.countries.value| > 0 && rec.country !in f.countries.value then false
    else if f.roles.Some? && |f.roles.value| > 0 && rec.primaryRole !in f.roles.value then false
    else if f.states.Some? && |f.states.value| > 0 && rec.state !in f.states.value then false
    else true
  }

  /** `_records.Where(PassesFilters).ToList()`. */
  function Filtered(rs: seq<AircraftRecord>, f: AllowLists): seq<AircraftRecord>
  {
    if rs == [] then []
    else
      var last := rs[|rs| - 1];
      Filtered(rs[..|rs| - 1], f) + (if PassesFilters(f, last) then [last] else [])
  }

  /** The filtered list holds exactly the records that pass, and no more of them than the input. */
  lemma {:induction false} FilteredMembers(rs: seq<AircraftRecord>, f: AllowLists)
    ensures |Filtered(rs, f)| <= |rs|
    ensures forall r :: r in Filtered(rs, f) <==> r in rs && PassesFilters(f, r)
  {
    if rs != [] {
      var init := rs[..|rs| - 1];
      FilteredMembers(init, f);
      assert rs == init + [rs[|rs| - 1]];
    }
  }

  /** With all three lists empty (what clearing the filter toggles installs) nothing is filtered out. */
  lemma {:induction false} NoFiltersKeepAll(rs: seq<AircraftRecord>)
    ensures Filtered(rs, NoFilters) == rs
  {
    if rs != [] {
      var init := rs[..|rs| - 1];
      NoFiltersKeepAll(init);
      assert rs == init + [rs[|rs| - 1]];
    }
  }

  // ---------------------------------------------------------------- min / max

  /** A float that may be one of the infinities `TryGetMinMax` starts from. */
  datatype ExtReal = NegInfinity | Finite(v: real) | PosInfinity
  {
    /** `float.IsInfinity`. */
    predicate IsInfinity()
    {
      !Finite?
    }

    /** `v < this`. */
    predicate Exceeds(x: real)
    {
      PosInfinity? || (Finite? && x < v)
    }

    /** `v > this`. */
    predicate IsExceededBy(x: real)
    {
      NegInfinity? || (Finite? && x > v)
    }
  }

  /** The record has a value above 0 for the attribute (0 stands for a missing value). */
  predicate Positive(r: AircraftRecord, attr: NumericAttribute)
  {
    GetValue(r, attr) > 0.0
  }

  /** The smallest and largest positive value of the attribute, or `None` if no
      record has one; the range `TryGetMinMax` reports. */
  function PositiveRange(rs: seq<AircraftRecord>, attr: NumericAttribute): Option<Interval>
  {
    if rs == [] then None
    else
      var prev := PositiveRange(rs[..|rs| - 1], attr);
      var v := GetValue(rs[|rs| - 1], attr);
      if v <= 0.0 then prev
      else if prev.None? then Some(Interval(v, v))
      else Some(Interval(if v < prev.value.lo then v else prev.value.lo,
                         if v > prev.value.hi then v else prev.value.hi))
  }

  /** The range exists exactly when some value is positive; then it is a
      positive interval holding every positive value. */
  lemma {:induction false} PositiveRangeBounds(rs: seq<AircraftRecord>, attr: NumericAttribute)
    ensures PositiveRange(rs, attr).Some? <==> exists i :: 0 <= i < |rs| && Positive(rs[i], attr)
    ensures PositiveRange(rs, attr).Some? ==>
              var iv := PositiveRange(rs, attr).value;
              && 0.0 < iv.lo <= iv.hi
              && (forall k :: 0 <= k < |rs| && Positive(rs[k], attr) ==>
                    iv.lo <= GetValue(rs[k], attr) <= iv.hi)
  {
    if rs != [] {
      var n := |rs| - 1;
      var init := rs[..n];
      PositiveRangeBounds(init, attr);
      assert forall k :: 0 <= k < n ==> rs[k] == init[k];
      if GetValue(rs[n], attr) > 0.0 && PositiveRange(init, attr).None? {
        assert forall k :: 0 <= k < n ==> !Positive(rs[k], attr);
      }
    }
  }

  /** Both ends of the range are values some record has. */
  lemma {:induction false} PositiveRangeAttained(rs: seq<AircraftRecord>, attr: NumericAttribute)
    ensures PositiveRange(rs, attr).Some? ==>
              var iv := PositiveRange(rs, attr).value;
              && (exists i :: 0 <= i < |rs| && GetValue(rs[i], attr) == iv.lo)
              && (exists j :: 0 <= j < |rs| && GetValue(rs[j], attr) == iv.hi)
  {
    if rs != [] {
      var n := |rs| - 1;
      var init := rs[..n];
      PositiveRangeAttained(init, attr);
      var prev := PositiveRange(init, attr);
      var v := GetValue(rs[n], attr);
      if prev.Some? {
        var i :| 0 <= i < n && GetValue(init[i], attr) == prev.value.lo;
        var j :| 0 <= j < n && GetValue(init[j], attr) == prev.value.hi;
        assert rs[i] == init[i] && rs[j] == init[j];
        if v > 0.0 {
          var iv := PositiveRange(rs, attr).value;
          assert exists i' :: 0 <= i' < |rs| && GetValue(rs[i'], attr) == iv.lo by {
            if v < prev.value.lo { assert GetValue(rs[n], attr) == iv.lo; }
            else { assert GetValue(rs[i], attr) == iv.lo; }
          }
          assert exists j' :: 0 <= j' < |rs| && GetValue(rs[j'], attr) == iv.hi by {
            if v > prev.value.hi { assert GetValue(rs[n], attr) == iv.hi; }
            else { assert GetValue(rs[j], attr) == iv.hi; }
          }
        }
      }
    }
  }

  /** `TryGetMinMax`: scans the records from +/-infinity, skipping values <= 0,
      and fails when either end is still infinite. */
  method TryGetMinMax(records: seq<AircraftRecord>, attr: NumericAttribute)
    returns (ok: bool, min: ExtReal, max: ExtReal)
    ensures ok == PositiveRange(records, attr).Some?
    ensures ok ==> min == Finite(PositiveRange(records, attr).value.lo)
                   && max == Finite(PositiveRange(records, attr).value.hi)
    ensures !ok ==> min == PosInfinity && max == NegInfinity
  {
    min := PosInfinity;
    max := NegInfinity;
    for i := 0 to |records|
      invariant PositiveRange(records[..i], attr).None? ==> min == PosInfinity && max == NegInfinity
      invariant PositiveRange(records[..i], attr).Some? ==>
                  min == Finite(PositiveRange(records[..i], attr).value.lo)
                  && max == Finite(PositiveRange(records[..i], attr).value.hi)
    {
      assert records[..i + 1][..i] == records[..i];
      var v := GetValue(records[i], attr);
      if v <= 0.0 {
        continue;
      }
      if min.Exceeds(v) {
        min := Finite(v);
      }
      if max.IsExceededBy(v) {
        max := Finite(v);
      }
    }
    assert records[..|records|] == records;
    ok := !(min.IsInfinity() || max.IsInfinity());
  }

  // ---------------------------------------------------------------- flag materials

  /** A flag material asset, identified by an opaque id. */
  datatype Material = Material(id: int)

  /** `CountryFlagMaterial`, an Inspector entry: a country name and its material, either possibly null. */
  datatype CountryFlagMaterial = CountryFlagMaterial(countryName: Option<string>, material: Option<Material>)

  /** An entry `BuildCountryFlagMap` keeps: non-null, with a non-blank name and a material. */
  predicate Usable(e: Option<CountryFlagMaterial>)
  {
    e.Some? && !IsNullOrWhiteSpace(e.value.countryName) && e.value.material.Some?
  }

  /** The key of a usable entry: its trimmed country name, never empty. */
  function KeyOf(e: Option<CountryFlagMaterial>): (k: string)
    requires Usable(e)
    ensures k != []
  {
    BlankIffTrimmedEmpty(e.value.countryName.value);
    Trim(e.value.countryName.value)
  }

  /** One step of `BuildCountryFlagMap`: add a usable entry unless its key is already present. */
  function AddFlag(m: map<string, Material>, e: Option<CountryFlagMaterial>): map<string, Material>
  {
    if Usable(e) && KeyOf(e) !in m then m[KeyOf(e) := e.value.material.value] else m
  }

  /** The map `BuildCountryFlagMap` builds from a list of entries, scanning left to right. */
  function FlagMapOf(es: seq<Option<CountryFlagMaterial>>): map<string, Material>
  {
    if es == [] then map[] else AddFlag(FlagMapOf(es[..|es| - 1]), es[|es| - 1])
  }

  /** Independent reference: the material of the first usable entry whose key is `key`. */
  function FirstFlag(es: seq<Option<CountryFlagMaterial>>, key: string): (r: Option<Material>)
    ensures r.Some? ==> key != []
  {
    if es == [] then None
    else if Usable(es[0]) && KeyOf(es[0]) == key then es[0].value.material
    else FirstFlag(es[1..], key)
  }

  lemma {:induction false} FirstFlagAppend(es: seq<Option<CountryFlagMaterial>>, e: Option<CountryFlagMaterial>, key: string)
    ensures FirstFlag(es + [e], key)
            == if FirstFlag(es, key).Some? then FirstFlag(es, key)
               else if Usable(e) && KeyOf(e) == key then e.value.material
               else None
  {
    if es != [] {
      assert (es + [e])[1..] == es[1..] + [e];
      FirstFlagAppend(es[1..], e, key);
    }
  }

  /** One step of the scan adds the entry's key only when it is new, and never
      changes a key already there. */
  lemma AddFlagStep(m: map<string, Material>, e: Option<CountryFlagMaterial>, key: string)
    ensures key in AddFlag(m, e) <==> key in m || (Usable(e) && KeyOf(e) == key)
    ensures key in m ==> AddFlag(m, e)[key] == m[key]
    ensures key !in m && Usable(e) && KeyOf(e) == key ==> AddFlag(m, e)[key] == e.value.material.value
  {
  }

  /** First occurrence wins: a key is in the map exactly when some usable entry
      has it, and it maps to the material of the first such entry. */
  lemma {:induction false} FlagMapFirstWins(es: seq<Option<CountryFlagMaterial>>, key: string)
    ensures key in FlagMapOf(es) <==> FirstFlag(es, key).Some?
    ensures key in FlagMapOf(es) ==> FirstFlag(es, key) == Some(FlagMapOf(es)[key])
  {
    if es != [] {
      var init := es[..|es| - 1];
      var e := es[|es| - 1];
      FlagMapFirstWins(init, key);
      assert FlagMapOf(es) == AddFlag(FlagMapOf(init), e);
      assert es == init + [e];
      FirstFlagAppend(init, e, key);
      AddFlagStep(FlagMapOf(init), e, key);
    }
  }

  /** `GetFlagMaterialForCountry`: the default for a blank country or an unknown
      trimmed name, otherwise the mapped material. */
  function FlagFor(flagMap: map<string, Material>, default: Option<Material>, country: string): (m: Option<Material>)
    ensures AllWhiteSpace(country) ==> m == default
    ensures !AllWhiteSpace(country) ==>
              m == if Trim(country) in flagMap then Some(flagMap[Trim(country)]) else default
  {
    if IsNullOrWhiteSpace(Some(country)) then default
    else
      var key := Trim(country);
      if key in flagMap then Some(flagMap[key]) else default
  }

  /** Lookup after building: a country gets the material of the first usable entry
      whose trimmed name equals its own trimmed name, and the default otherwise. */
  lemma FlagForEntries(es: seq<Option<CountryFlagMaterial>>, default: Option<Material>, country: string)
    ensures FlagFor(FlagMapOf(es), default, country)
            == if FirstFlag(es, Trim(country)).Some? then FirstFlag(es, Trim(country)) else default
  {
    FlagMapFirstWins(es, Trim(country));
    BlankIffTrimmedEmpty(country);
  }

  // ---------------------------------------------------------------- points, ticks, captions

  /** The three attributes shown on the X, Y and Z axes. */
  datatype Mapping = Mapping(x: NumericAttribute, y: NumericAttribute, z: NumericAttribute)

  /** One interval per axis. */
  datatype Ranges = Ranges(x: Interval, y: Interval, z: Interval)

  /** The Inspector settings the pipeline reads: prefabs (present or null, and
      whether the point prefab carries a `Renderer` and an `AircraftDataPoint`),
      the axis lengths in metres, the point scale and the number of tick sections. */
  datatype PlotConfig = PlotConfig(
    hasPointPrefab: bool,
    pointHasRenderer: bool,
    pointHasDataPoint: bool,
    width: real,
    height: real,
    depth: real,
    pointScale: Vec3,
    axisSections: int,
    hasTickPrefab: bool,
    hasLabelPrefab: bool)

  /** What a spawned point's renderer shows: a flag material, the black fallback
      colour, or (without a renderer) whatever the prefab had. */
  datatype Look = FlagLook(material: Material) | BlackLook | PrefabLook

  /** A spawned data point: the record it was placed for, its local position,
      local scale and look, and the record its `AircraftDataPoint` component was
      given (`None` when the prefab has no such component, so the point can
      never be selected). */
  datatype PlotPoint = PlotPoint(record: AircraftRecord, position: Vec3, scale: Vec3, look: Look,
                                 attachedRecord: Option<AircraftRecord>)

  datatype Axis = X | Y | Z

  /** A tick (or the label placed at it): its axis, its distance along the axis and the value it stands for. */
  datatype AxisTick = AxisTick(axis: Axis, along: real, value: real)

  /** An axis's caption: the attribute's display name and the min / max shown at its ends. */
  datatype AxisCaption = AxisCaption(name: string, range: Interval)

  /** Everything `BuildPlot` draws. */
  datatype Scene = Scene(
    points: seq<PlotPoint>,
    ticks: seq<AxisTick>,
    labels: seq<AxisTick>,
    captions: seq<AxisCaption>)

  /** The four ways `BuildPlot` can end. */
  datatype PlotPlan =
    | NotBuilt                                // no records or no point prefab
    | NothingFiltered(captions: seq<AxisCaption>)
    | NoPositiveAxis
    | Built(captions: seq<AxisCaption>, ticks: seq<AxisTick>, labels: seq<AxisTick>, points: seq<PlotPoint>)

  /** A record becomes a point only when all three of its axis values are positive. */
  predicate Plottable(r: AircraftRecord, m: Mapping)
  {
    Positive(r, m.x) && Positive(r, m.y) && Positive(r, m.z)
  }

  /** The records `BuildPlot` turns into points, in their order. */
  function PlottableOf(rs: seq<AircraftRecord>, m: Mapping): seq<AircraftRecord>
  {
    if rs == [] then []
    else
      var last := rs[|rs| - 1];
      PlottableOf(rs[..|rs| - 1], m) + (if Plottable(last, m) then [last] else [])
  }

  /** What the points loop of `BuildPlot` works with: the mapping, the padded
      ranges, the settings and the flag lookup. */
  datatype Layout = Layout(
    mapping: Mapping,
    padded: Ranges,
    config: PlotConfig,
    flagMap: map<string, Material>,
    defaultFlag: Option<Material>)

  function LookFor(rec: AircraftRecord, lay: Layout): Look
  {
    if !lay.config.pointHasRenderer then PrefabLook
    else match FlagFor(lay.flagMap, lay.defaultFlag, rec.country)
      case Some(mat) => FlagLook(mat)
      case None => BlackLook
  }

  /** The point spawned for a plottable record. */
  function PointFor(rec: AircraftRecord, lay: Layout): PlotPoint
  {
    var m, p, c := lay.mapping, lay.padded, lay.config;
    PlotPoint(
      rec,
      Vec3(AxisCoordinate(GetValue(rec, m.x), p.x.lo, p.x.hi, c.width),
           AxisCoordinate(GetValue(rec, m.y), p.y.lo, p.y.hi, c.height),
           AxisCoordinate(GetValue(rec, m.z), p.z.lo, p.z.hi, c.depth)),
      c.pointScale,
      LookFor(rec, lay),
      if c.pointHasDataPoint then Some(rec) else None)
  }

  /** The points spawned for a list of filtered records. */
  function PointsFor(rs: seq<AircraftRecord>, lay: Layout): seq<PlotPoint>
  {
    if rs == [] then []
    else
      var last := rs[|rs| - 1];
      PointsFor(rs[..|rs| - 1], lay) + (if Plottable(last, lay.mapping) then [PointFor(last, lay)] else [])
  }

  /** The records of a list of points. */
  function RecordsOf(ps: seq<PlotPoint>): (rs: seq<AircraftRecord>)
    ensures |rs| == |ps| && forall i :: 0 <= i < |ps| ==> rs[i] == ps[i].record
  {
    if ps == [] then [] else RecordsOf(ps[..|ps| - 1]) + [ps[|ps| - 1].record]
  }

  /** The points are exactly the plottable records, one each, in record order. */
  lemma {:induction false} PointsForRecords(rs: seq<AircraftRecord>, lay: Layout)
    ensures RecordsOf(PointsFor(rs, lay)) == PlottableOf(rs, lay.mapping)
  {
    if rs != [] {
      PointsForRecords(rs[..|rs| - 1], lay);
    }
  }

  /** Every spawned point is the point of a plottable record of the list. */
  lemma {:induction false} PointsForMembers(rs: seq<AircraftRecord>, lay: Layout)
    ensures forall p :: p in PointsFor(rs, lay) ==>
              p == PointFor(p.record, lay) && p.record in rs && Plottable(p.record, lay.mapping)
  {
    if rs != [] {
      var init := rs[..|rs| - 1];
      PointsForMembers(init, lay);
      assert forall r :: r in init ==> r in rs;
    }
  }

  /** A point's component holds its record exactly when the prefab has an
      `AircraftDataPoint`; otherwise the point is left without one. */
  lemma PointsForAttachRecords(rs: seq<AircraftRecord>, lay: Layout)
    ensures forall p :: p in PointsFor(rs, lay) ==>
              p.attachedRecord == if lay.config.pointHasDataPoint then Some(p.record) else None
  {
    PointsForMembers(rs, lay);
  }

  /** On one axis, of two records of the list the one with the smaller value is
      drawn nearer the origin. */
  lemma CoordinateKeepsOrder(rs: seq<AircraftRecord>, attr: NumericAttribute,
                             r1: AircraftRecord, r2: AircraftRecord, size: real)
    requires r1 in rs && r2 in rs && Positive(r1, attr)
    requires GetValue(r1, attr) < GetValue(r2, attr) && size > 0.0
    ensures PositiveRange(rs, attr).Some?
    ensures var iv := PositiveRange(rs, attr).value;
            var pd := Padded(iv.lo, iv.hi);
            AxisCoordinate(GetValue(r1, attr), pd.lo, pd.hi, size)
            < AxisCoordinate(GetValue(r2, attr), pd.lo, pd.hi, size)
  {
    PositiveRangeBounds(rs, attr);
    var i :| 0 <= i < |rs| && rs[i] == r1;
    var j :| 0 <= j < |rs| && rs[j] == r2;
    var iv := PositiveRange(rs, attr).value;
    var pd := Padded(iv.lo, iv.hi);
    AxisCoordinateStrict(GetValue(r1, attr), GetValue(r2, attr), pd.lo, pd.hi, size);
  }

  /** A coordinate lies within 5% of the ends of an axis of length `size`. */
  predicate WithinPadding(c: real, size: real)
  {
    if size >= 0.0 then 0.05 * size <= c <= 0.95 * size else 0.95 * size <= c <= 0.05 * size
  }

  /** Every spawned point lies inside the plot box, 5% away from its faces. */
  lemma {:induction false} PointsForInBox(rs: seq<AircraftRecord>, lay: Layout)
    ensures forall p :: p in PointsFor(rs, lay) ==>
              && WithinPadding(p.position.x, lay.config.width)
              && WithinPadding(p.position.y, lay.config.height)
              && WithinPadding(p.position.z, lay.config.depth)
  {
    if rs != [] {
      PointsForInBox(rs[..|rs| - 1], lay);
      var last := rs[|rs| - 1];
      var m, p, c := lay.mapping, lay.padded, lay.config;
      AxisCoordinateBounds(GetValue(last, m.x), p.x.lo, p.x.hi, c.width);
      AxisCoordinateBounds(GetValue(last, m.y), p.y.lo, p.y.hi, c.height);
      AxisCoordinateBounds(GetValue(last, m.z), p.z.lo, p.z.hi, c.depth);
    }
  }

  /** The three ticks, X then Y then Z, at fraction `t` of each axis. */
  function TicksAt(t: real, r: Ranges, c: PlotConfig): seq<AxisTick>
  {
    [AxisTick(X, Along(t, c.width), Lerp(r.x.lo, r.x.hi, t)),
     AxisTick(Y, Along(t, c.height), Lerp(r.y.lo, r.y.hi, t)),
     AxisTick(Z, Along(t, c.depth), Lerp(r.z.lo, r.z.hi, t))]
  }

  /** The three ticks of section `i`, at fraction `i / (axisSections - 1)` of each axis. */
  function TickRow(i: int, r: Ranges, c: PlotConfig): seq<AxisTick>
    requires c.axisSections >= 2 && 0 <= i < c.axisSections
  {
    TicksAt(TickParameter(i, c.axisSections), r, c)
  }

  /** The ticks of the first `k` sections. */
  function TicksUpTo(k: int, r: Ranges, c: PlotConfig): (ts: seq<AxisTick>)
    requires c.axisSections >= 2 && 0 <= k <= c.axisSections
    ensures |ts| == 3 * k
  {
    if k == 0 then [] else TicksUpTo(k - 1, r, c) + TickRow(k - 1, r, c)
  }

  /** Adding section `i`'s X, Y and Z ticks one by one extends the ticks of the
      first `i` sections to those of the first `i + 1`. */
  lemma NextTickRow(i: int, r: Ranges, c: PlotConfig)
    requires c.axisSections >= 2 && 0 <= i < c.axisSections
    ensures var t := TickParameter(i, c.axisSections);
            TicksUpTo(i, r, c) + [AxisTick(X, Along(t, c.width), Lerp(r.x.lo, r.x.hi, t))]
              + [AxisTick(Y, Along(t, c.height), Lerp(r.y.lo, r.y.hi, t))]
              + [AxisTick(Z, Along(t, c.depth), Lerp(r.z.lo, r.z.hi, t))]
            == TicksUpTo(i + 1, r, c)
  {
  }

  /** The ticks `RebuildAxisTicks` leaves: none without sections or a tick prefab. */
  function AxisTicks(r: Ranges, c: PlotConfig): (ts: seq<AxisTick>)
    ensures |ts| == if c.axisSections < 2 || !c.hasTickPrefab then 0 else 3 * c.axisSections
  {
    if c.axisSections < 2 || !c.hasTickPrefab then [] else TicksUpTo(c.axisSections, r, c)
  }

  /** The labels `RebuildAxisTicks` leaves: one per tick, if there is a label prefab. */
  function AxisLabels(r: Ranges, c: PlotConfig): seq<AxisTick>
  {
    if c.hasLabelPrefab then AxisTicks(r, c) else []
  }

  /** Section `i`'s ticks sit at indices 3i, 3i+1, 3i+2. */
  lemma {:induction false} TicksUpToAt(k: int, r: Ranges, c: PlotConfig, i: int)
    requires c.axisSections >= 2 && 0 <= i < k <= c.axisSections
    ensures |TicksUpTo(k, r, c)| == 3 * k
    ensures TicksUpTo(k, r, c)[3 * i..3 * i + 3] == TickRow(i, r, c)
  {
    if i < k - 1 {
      TicksUpToAt(k - 1, r, c, i);
    } else if k > 1 {
      TicksUpToAt(k - 1, r, c, 0);
    }
  }

  /** There are three ticks per section, and section `i`'s sit at indices 3i, 3i+1, 3i+2. */
  lemma AxisTicksRows(r: Ranges, c: PlotConfig, i: int)
    requires c.axisSections >= 2 && c.hasTickPrefab && 0 <= i < c.axisSections
    ensures |AxisTicks(r, c)| == 3 * c.axisSections
    ensures AxisTicks(r, c)[3 * i..3 * i + 3] == TickRow(i, r, c)
  {
    TicksUpToAt(c.axisSections, r, c, i);
  }

  /** The first section's ticks show each axis's minimum at the origin, the last
      section's show the maximum at the axis's far end. */
  lemma AxisTicksEnds(r: Ranges, c: PlotConfig)
    requires c.axisSections >= 2 && c.hasTickPrefab
    ensures AxisTicks(r, c)[..3] == [AxisTick(X, 0.0, r.x.lo), AxisTick(Y, 0.0, r.y.lo), AxisTick(Z, 0.0, r.z.lo)]
    ensures AxisTicks(r, c)[3 * c.axisSections - 3..]
            == [AxisTick(X, c.width, r.x.hi), AxisTick(Y, c.height, r.y.hi), AxisTick(Z, c.depth, r.z.hi)]
  {
    var n := c.axisSections;
    AxisTicksRows(r, c, 0);
    AxisTicksRows(r, c, n - 1);
    assert AxisTicks(r, c)[..3] == AxisTicks(r, c)[0..3];
    assert AxisTicks(r, c)[3 * n - 3..] == AxisTicks(r, c)[3 * (n - 1)..3 * (n - 1) + 3];
    TickValueEnds(n, r.x.lo, r.x.hi);
    TickValueEnds(n, r.y.lo, r.y.hi);
    TickValueEnds(n, r.z.lo, r.z.hi);
  }

  /** Ticks are evenly spaced: from one section to the next, every axis's tick
      moves by the same distance and its value grows by the same step. */
  lemma AxisTicksStep(r: Ranges, c: PlotConfig, i: int)
    requires c.axisSections >= 2 && c.hasTickPrefab && 0 <= i < c.axisSections - 1
    ensures var ts, d := AxisTicks(r, c), (c.axisSections - 1) as real;
            && ts[3 * i + 3].value - ts[3 * i].value == (r.x.hi - r.x.lo) / d
            && ts[3 * i + 4].value - ts[3 * i + 1].value == (r.y.hi - r.y.lo) / d
            && ts[3 * i + 5].value - ts[3 * i + 2].value == (r.z.hi - r.z.lo) / d
  {
    var n := c.axisSections;
    AxisTicksRows(r, c, i);
    AxisTicksRows(r, c, i + 1);
    var ts := AxisTicks(r, c);
    assert ts[3 * i] == ts[3 * i..3 * i + 3][0];
    assert ts[3 * i + 1] == ts[3 * i..3 * i + 3][1];
    assert ts[3 * i + 2] == ts[3 * i..3 * i + 3][2];
    assert ts[3 * i + 3] == ts[3 * (i + 1)..3 * (i + 1) + 3][0];
    assert ts[3 * i + 4] == ts[3 * (i + 1)..3 * (i + 1) + 3][1];
    assert ts[3 * i + 5] == ts[3 * (i + 1)..3 * (i + 1) + 3][2];
    TickValueStep(i, n, r.x.lo, r.x.hi);
    TickValueStep(i, n, r.y.lo, r.y.hi);
    TickValueStep(i, n, r.z.lo, r.z.hi);
  }

  /** The three axis captions. */
  function CaptionsFor(m: Mapping, r: Ranges): seq<AxisCaption>
  {
    [AxisCaption(DisplayName(m.x), r.x), AxisCaption(DisplayName(m.y), r.y), AxisCaption(DisplayName(m.z), r.z)]
  }

  /** The range the captions show when no record passes the filters: 0 to 1 on every axis. */
  const UnitRanges := Ranges(Interval(0.0, 1.0), Interval(0.0, 1.0), Interval(0.0, 1.0))

  /** `BuildPlot`'s decision, as a function of its inputs. */
  function PlanPlot(
    records: seq<AircraftRecord>, c: PlotConfig, f: AllowLists,
    flagMap: map<string, Material>, defaultFlag: Option<Material>, m: Mapping): PlotPlan
  {
    if |records| == 0 || !c.hasPointPrefab then NotBuilt
    else PlanFiltered(Filtered(records, f), c, flagMap, defaultFlag, m)
  }

  /** The rest of the decision, once the records have been filtered. */
  function PlanFiltered(
    filtered: seq<AircraftRecord>, c: PlotConfig,
    flagMap: map<string, Material>, defaultFlag: Option<Material>, m: Mapping): PlotPlan
  {
    if |filtered| == 0 then NothingFiltered(CaptionsFor(m, UnitRanges))
    else
      var rx, ry, rz := PositiveRange(filtered, m.x), PositiveRange(filtered, m.y), PositiveRange(filtered, m.z);
      if rx.None? || ry.None? || rz.None? then NoPositiveAxis
      else
        var r := Ranges(rx.value, ry.value, rz.value);
        var padded := Ranges(Padded(rx.value.lo, rx.value.hi), Padded(ry.value.lo, ry.value.hi),
                             Padded(rz.value.lo, rz.value.hi));
        Built(CaptionsFor(m, r), AxisTicks(r, c), AxisLabels(r, c),
              PointsFor(filtered, Layout(m, padded, c, flagMap, defaultFlag)))
  }

  /** The scene after a plan is carried out: an early return touches nothing, the
      other paths clear the points, and only a full build replaces the ticks. */
  function Render(s: Scene, p: PlotPlan): Scene
  {
    match p
    case NotBuilt => s
    case NothingFiltered(caps) => Scene([], s.ticks, s.labels, caps)
    case NoPositiveAxis => Scene([], s.ticks, s.labels, s.captions)
    case Built(caps, ticks, labels, points) => Scene(points, ticks, labels, caps)
  }

  /** A plot is drawn exactly for the records that pass the filters and are
      positive on all three axes, in record order, each inside the plot box. */
  lemma PlanPlotPoints(
    records: seq<AircraftRecord>, c: PlotConfig, f: AllowLists,
    flagMap: map<string, Material>, defaultFlag: Option<Material>, m: Mapping)
    ensures var p := PlanPlot(records, c, f, flagMap, defaultFlag, m);
            var s := Render(Scene([], [], [], []), p);
            && (p.NotBuilt? <==> |records| == 0 || !c.hasPointPrefab)
            && (p.Built? ==> RecordsOf(s.points) == PlottableOf(Filtered(records, f), m))
            && (!p.Built? ==> s.points == [])
            && (forall q :: q in s.points ==>
                  WithinPadding(q.position.x, c.width) && WithinPadding(q.position.y, c.height)
                  && WithinPadding(q.position.z, c.depth))
  {
    var p := PlanPlot(records, c, f, flagMap, defaultFlag, m);
    if p.Built? {
      var filtered := Filtered(records, f);
      var rx, ry, rz := PositiveRange(filtered, m.x), PositiveRange(filtered, m.y), PositiveRange(filtered, m.z);
      var padded := Ranges(Padded(rx.value.lo, rx.value.hi), Padded(ry.value.lo, ry.value.hi),
                           Padded(rz.value.lo, rz.value.hi));
      var lay := Layout(m, padded, c, flagMap, defaultFlag);
      PointsForRecords(filtered, lay);
      PointsForInBox(filtered, lay);
    }
  }

  /** With the filters cleared, a rebuilt plot shows the whole dataset: the plan
      is the one for every record, and a built plot draws exactly the records
      that are positive on all three axes, in record order. */
  lemma ClearedPlotShowsAll(
    records: seq<AircraftRecord>, c: PlotConfig, s: Scene,
    flagMap: map<string, Material>, defaultFlag: Option<Material>, m: Mapping)
    ensures |records| > 0 && c.hasPointPrefab ==>
              PlanPlot(records, c, NoFilters, flagMap, defaultFlag, m) == PlanFiltered(records, c, flagMap, defaultFlag, m)
    ensures PlanPlot(records, c, NoFilters, flagMap, defaultFlag, m).Built? ==>
              RecordsOf(Render(s, PlanPlot(records, c, NoFilters, flagMap, defaultFlag, m)).points) == PlottableOf(records, m)
  {
    NoFiltersKeepAll(records);
    PlanPlotPoints(records, c, NoFilters, flagMap, defaultFlag, m);
  }

  /** The plot keeps the data's order: on every axis of positive length, a point
      whose value is smaller is drawn strictly nearer the origin. */
  lemma PlotKeepsOrder(
    records: seq<AircraftRecord>, c: PlotConfig, f: AllowLists,
    flagMap: map<string, Material>, defaultFlag: Option<Material>, m: Mapping, p: PlotPoint, q: PlotPoint)
    requires PlanPlot(records, c, f, flagMap, defaultFlag, m).Built?
    requires p in PlanPlot(records, c, f, flagMap, defaultFlag, m).points
    requires q in PlanPlot(records, c, f, flagMap, defaultFlag, m).points
    ensures c.width > 0.0 && GetValue(p.record, m.x) < GetValue(q.record, m.x) ==> p.position.x < q.position.x
    ensures c.height > 0.0 && GetValue(p.record, m.y) < GetValue(q.record, m.y) ==> p.position.y < q.position.y
    ensures c.depth > 0.0 && GetValue(p.record, m.z) < GetValue(q.record, m.z) ==> p.position.z < q.position.z
  {
    var filtered := Filtered(records, f);
    var rx, ry, rz := PositiveRange(filtered, m.x), PositiveRange(filtered, m.y), PositiveRange(filtered, m.z);
    var padded := Ranges(Padded(rx.value.lo, rx.value.hi), Padded(ry.value.lo, ry.value.hi),
                         Padded(rz.value.lo, rz.value.hi));
    var lay := Layout(m, padded, c, flagMap, defaultFlag);
    PointsForMembers(filtered, lay);
    if c.width > 0.0 && GetValue(p.record, m.x) < GetValue(q.record, m.x) {
      CoordinateKeepsOrder(filtered, m.x, p.record, q.record, c.width);
    }
    if c.height > 0.0 && GetValue(p.record, m.y) < GetValue(q.record, m.y) {
      CoordinateKeepsOrder(filtered, m.y, p.record, q.record, c.height);
    }
    if c.depth > 0.0 && GetValue(p.record, m.z) < GetValue(q.record, m.z) {
      CoordinateKeepsOrder(filtered, m.z, p.record, q.record, c.depth);
    }
  }

  // ---------------------------------------------------------------- the controller

  class AircraftPlotRootController {
    /** `_records`, as `LoadData` left them. */
    const records: seq<AircraftRecord>
    const config: PlotConfig
    const countryFlagMaterials: Option<seq<Option<CountryFlagMaterial>>>
    const defaultFlagMaterial: Option<Material>
    var countryFlagMap: map<string, Material>
    var allowedCountries: Option<seq<string>>
    var allowedRoles: Option<seq<string>>
    var allowedStates: Option<seq<string>>
    /** `_lastXAttr`, `_lastYAttr`, `_lastZAttr`; `None` while `_hasLastMapping` is false. */
    var lastMapping: Option<Mapping>
    var spawnedPoints: seq<PlotPoint>
    var spawnedAxisTicks: seq<AxisTick>
    var spawnedAxisLabels: seq<AxisTick>
    var captions: seq<AxisCaption>

    function CurrentFilters(): AllowLists
      reads this`allowedCountries, this`allowedRoles, this`allowedStates
    {
      AllowLists(allowedCountries, allowedRoles, allowedStates)
    }

    function CurrentScene(): Scene
      reads this`spawnedPoints, this`spawnedAxisTicks, this`spawnedAxisLabels, this`captions
    {
      Scene(spawnedPoints, spawnedAxisTicks, spawnedAxisLabels, captions)
    }

    /** What `ApplyFiltersAndRebuild` leaves behind: the mapping is kept and, when
        one was recorded, the plot is drawn again over the current filters;
        without one the scene is as it was. */
    twostate predicate Reapplied()
      reads this
    {
      && lastMapping == old(lastMapping)
      && CurrentScene()
         == if lastMapping.None? then old(CurrentScene())
            else Render(old(CurrentScene()),
                        PlanPlot(records, config, CurrentFilters(), countryFlagMap, defaultFlagMaterial, lastMapping.value))
    }

    /** `Awake`: the loaded records and the Inspector settings, then `BuildCountryFlagMap`. */
    constructor (records: seq<AircraftRecord>, config: PlotConfig,
                 entries: Option<seq<Option<CountryFlagMaterial>>>, defaultFlag: Option<Material>)
      ensures this.records == records && this.config == config
      ensures countryFlagMaterials == entries && defaultFlagMaterial == defaultFlag
      ensures countryFlagMap == if entries.None? then map[] else FlagMapOf(entries.value)
      ensures CurrentFilters() == NoFilters && lastMapping.None?
      ensures CurrentScene() == Scene([], [], [], [])
    {
      this.records := records;
      this.config := config;
      countryFlagMaterials := entries;
      defaultFlagMaterial := defaultFlag;
      countryFlagMap := map[];
      allowedCountries, allowedRoles, allowedStates := Some([]), Some([]), Some([]);
      lastMapping := None;
      spawnedPoints, spawnedAxisTicks, spawnedAxisLabels, captions := [], [], [], [];
      new;
      BuildCountryFlagMap();
    }

    /** `BuildCountryFlagMap`: clears the map, then adds the usable entries, first one per key. */
    method BuildCountryFlagMap()
      modifies this`countryFlagMap
      ensures countryFlagMap == if countryFlagMaterials.None? then map[] else FlagMapOf(countryFlagMaterials.value)
    {
      countryFlagMap := map[];
      if countryFlagMaterials.None? {
        return;
      }
      var es := countryFlagMaterials.value;
      for i := 0 to |es|
        invariant countryFlagMap == FlagMapOf(es[..i])
      {
        assert es[..i + 1][..i] == es[..i];
        var entry := es[i];
        if entry.None? {
          continue;
        }
        if IsNullOrWhiteSpace(entry.value.countryName) {
          continue;
        }
        if entry.value.material.None? {
          continue;
        }
        var key := Trim(entry.value.countryName.value);
        if key !in countryFlagMap {
          countryFlagMap := countryFlagMap[key := entry.value.material.value];
        }
      }
      assert es[..|es|] == es;
    }

    /** `Start`: builds the default plot (Active Since, Max Speed, Number Built) when there is data and a prefab. */
    method Start()
      modifies this`lastMapping, this`spawnedPoints, this`spawnedAxisTicks, this`spawnedAxisLabels, this`captions
      ensures var m := Mapping(ActiveSince, MaxSpeed, Number);
              var p := PlanPlot(records, config, CurrentFilters(), countryFlagMap, defaultFlagMaterial, m);
              && CurrentScene() == Render(old(CurrentScene()), p)
              && lastMapping == if p.NotBuilt? then old(lastMapping) else Some(m)
    {
      if |records| > 0 && config.hasPointPrefab {
        BuildPlot(ActiveSince, MaxSpeed, Number);
      }
    }

    /** `BuildPlot`. */
    method BuildPlot(x: NumericAttribute, y: NumericAttribute, z: NumericAttribute)
      modifies this`lastMapping, this`spawnedPoints, this`spawnedAxisTicks, this`spawnedAxisLabels, this`captions
      ensures var p := PlanPlot(records, config, CurrentFilters(), countryFlagMap, defaultFlagMaterial, Mapping(x, y, z));
              && CurrentScene() == Render(old(CurrentScene()), p)
              && lastMapping == if p.NotBuilt? then old(lastMapping) else Some(Mapping(x, y, z))
    {
      if |records| == 0 {
        return;
      }
      if !config.hasPointPrefab {
        return;
      }
      var m := Mapping(x, y, z);
      lastMapping := Some(m);
      spawnedPoints := [];

      var filtered := Filtered(records, CurrentFilters());
      PlotFiltered(filtered, m);
    }

    /** The part of `BuildPlot` after filtering: the unit captions when nothing
        passed, nothing more when an axis has no positive value, otherwise the
        captions, the ticks and the points. */
    method PlotFiltered(filtered: seq<AircraftRecord>, m: Mapping)
      requires spawnedPoints == []
      modifies this`spawnedPoints, this`spawnedAxisTicks, this`spawnedAxisLabels, this`captions
      ensures CurrentScene()
              == Render(old(CurrentScene()), PlanFiltered(filtered, config, countryFlagMap, defaultFlagMaterial, m))
    {
      if |filtered| == 0 {
        UpdateAxisLabels(m, UnitRanges);
        return;
      }

      var okX, minX, maxX := TryGetMinMax(filtered, m.x);
      if !okX {
        return;
      }
      var okY, minY, maxY := TryGetMinMax(filtered, m.y);
      if !okY {
        return;
      }
      var okZ, minZ, maxZ := TryGetMinMax(filtered, m.z);
      if !okZ {
        return;
      }

      var ranges := Ranges(Interval(minX.v, maxX.v), Interval(minY.v, maxY.v), Interval(minZ.v, maxZ.v));
      UpdateAxisLabels(m, ranges);
      RebuildAxisTicks(ranges);

      var padded := Ranges(Padded(minX.v, maxX.v), Padded(minY.v, maxY.v), Padded(minZ.v, maxZ.v));
      SpawnPoints(filtered, m, padded);
    }

    /** The points loop of `BuildPlot`: one point per record positive on all three
        axes, normalised into the padded ranges `p`. */
    method SpawnPoints(filtered: seq<AircraftRecord>, m: Mapping, p: Ranges)
      modifies this`spawnedPoints
      ensures spawnedPoints
              == old(spawnedPoints) + PointsFor(filtered, Layout(m, p, config, countryFlagMap, defaultFlagMaterial))
    {
      ghost var lay := Layout(m, p, config, countryFlagMap, defaultFlagMaterial);
      for i := 0 to |filtered|
        invariant spawnedPoints == old(spawnedPoints) + PointsFor(filtered[..i], lay)
      {
        assert filtered[..i + 1][..i] == filtered[..i];
        var rec := filtered[i];
        var xVal := GetValue(rec, m.x);
        var yVal := GetValue(rec, m.y);
        var zVal := GetValue(rec, m.z);
        if xVal <= 0.0 || yVal <= 0.0 || zVal <= 0.0 {
          continue;
        }
        var tX := InverseLerp(p.x.lo, p.x.hi, xVal);
        var tY := InverseLerp(p.y.lo, p.y.hi, yVal);
        var tZ := InverseLerp(p.z.lo, p.z.hi, zVal);
        tX := Lerp(0.05, 0.95, tX);
        tY := Lerp(0.05, 0.95, tY);
        tZ := Lerp(0.05, 0.95, tZ);
        var position := Vec3(Along(tX, config.width), Along(tY, config.height), Along(tZ, config.depth));
        var look := PrefabLook;
        if config.pointHasRenderer {
          var flagMat := FlagFor(countryFlagMap, defaultFlagMaterial, rec.country);
          look := if flagMat.Some? then FlagLook(flagMat.value) else BlackLook;
        }
        var attached := None;
        if config.pointHasDataPoint {
          attached := Some(rec);
        }
        spawnedPoints := spawnedPoints + [PlotPoint(rec, position, config.pointScale, look, attached)];
      }
      assert filtered[..|filtered|] == filtered;
    }

    /** `UpdateAxisLabels`: the axis names and the min / max each axis shows. */
    method UpdateAxisLabels(m: Mapping, r: Ranges)
      modifies this`captions
      ensures captions == CaptionsFor(m, r)
    {
      captions := CaptionsFor(m, r);
    }

    /** `RebuildAxisTicks`: clears the old ticks and labels, then adds the X, Y and Z
        tick of every section at `t = i / (axisSections - 1)`. */
    method RebuildAxisTicks(r: Ranges)
      modifies this`spawnedAxisTicks, this`spawnedAxisLabels
      ensures spawnedAxisTicks == AxisTicks(r, config)
      ensures spawnedAxisLabels == AxisLabels(r, config)
    {
      spawnedAxisTicks := [];
      spawnedAxisLabels := [];
      if config.axisSections < 2 || !config.hasTickPrefab {
        return;
      }
      var n := config.axisSections;
      for i := 0 to n
        invariant spawnedAxisTicks == TicksUpTo(i, r, config)
        invariant spawnedAxisLabels == if config.hasLabelPrefab then spawnedAxisTicks else []
      {
        var t := TickParameter(i, n);
        NextTickRow(i, r, config);
        var xPos, xVal := Along(t, config.width), Lerp(r.x.lo, r.x.hi, t);
        CreateAxisTickWithLabel(X, xPos, xVal);
        var yPos, yVal := Along(t, config.height), Lerp(r.y.lo, r.y.hi, t);
        CreateAxisTickWithLabel(Y, yPos, yVal);
        var zPos, zVal := Along(t, config.depth), Lerp(r.z.lo, r.z.hi, t);
        CreateAxisTickWithLabel(Z, zPos, zVal);
      }
    }

    /** `CreateAxisTickWithLabel`: one tick, and its label when there is a label prefab. */
    method CreateAxisTickWithLabel(axis: Axis, along: real, value: real)
      modifies this`spawnedAxisTicks, this`spawnedAxisLabels
      ensures var tick := AxisTick(axis, along, value);
              && spawnedAxisTicks == old(spawnedAxisTicks) + (if config.hasTickPrefab then [tick] else [])
              && spawnedAxisLabels == old(spawnedAxisLabels)
                   + (if config.hasTickPrefab && config.hasLabelPrefab then [tick] else [])
    {
      if !config.hasTickPrefab {
        return;
      }
      var tick := AxisTick(axis, along, value);
      spawnedAxisTicks := spawnedAxisTicks + [tick];
      if !config.hasLabelPrefab {
        return;
      }
      spawnedAxisLabels := spawnedAxisLabels + [tick];
    }

    /** `SetMultiFilters`: null lists become empty lists, then `ApplyFiltersAndRebuild`. */
    method SetMultiFilters(countries: Option<seq<string>>, roles: Option<seq<string>>, states: Option<seq<string>>)
      modifies this`allowedCountries, this`allowedRoles, this`allowedStates
      modifies this`lastMapping, this`spawnedPoints, this`spawnedAxisTicks, this`spawnedAxisLabels, this`captions
      ensures allowedCountries == Some(if countries.None? then [] else countries.value)
      ensures allowedRoles == Some(if roles.None? then [] else roles.value)
      ensures allowedStates == Some(if states.None? then [] else states.value)
      ensures old(lastMapping).None? ==> lastMapping.None? && CurrentScene() == old(CurrentScene())
      ensures old(lastMapping).Some? ==>
                lastMapping == old(lastMapping)
                && CurrentScene() == Render(old(CurrentScene()),
                     PlanPlot(records, config, CurrentFilters(), countryFlagMap, defaultFlagMaterial, old(lastMapping).value))
    {
      allowedCountries := Some(if countries.None? then [] else countries.value);
      allowedRoles := Some(if roles.None? then [] else roles.value);
      allowedStates := Some(if states.None? then [] else states.value);
      ApplyFiltersAndRebuild();
    }

    /** `ApplyFiltersAndRebuild`: rebuilds with the last mapping, if there is one. */
    method ApplyFiltersAndRebuild()
      modifies this`lastMapping, this`spawnedPoints, this`spawnedAxisTicks, this`spawnedAxisLabels, this`captions
      ensures old(lastMapping).None? ==> lastMapping.None? && CurrentScene() == old(CurrentScene())
      ensures old(lastMapping).Some? ==>
                lastMapping == old(lastMapping)
                && CurrentScene() == Render(old(CurrentScene()),
                     PlanPlot(records, config, CurrentFilters(), countryFlagMap, defaultFlagMaterial, old(lastMapping).value))
    {
      if lastMapping.Some? {
        var m := lastMapping.value;
        BuildPlot(m.x, m.y, m.z);
      }
    }
  }
}
