/** The legacy driver (deconvolute.py, lines 80-214): the same preprocessing,
    then one fit per city and pass, without date windows, tagged with the
    city and the estimate kind, concatenated, filled and melted. The
    regression engine and the resampler are parameters. */
module Legacy {
  import opened Common
  import opened TallyModel
  import opened Preprocessors
  import opened Driver
  import opened Aggregate

  /** The settings the legacy command reads. */
  datatype LegacyConfig = LegacyConfig(
    variantsList: seq<string>,
    variantsPangolin: map<string, string>,
    variantsNotReported: seq<string>,
    toDrop: seq<string>,
    startDate: Option<int>,
    endDate: Option<int>,
    removeDeletions: bool,
    plant: seq<string>,                 // `--plant`, given any number of times
    citiesList: Option<seq<string>>,    // `cities_list` of the variants file
    params: DeconvParams)

  datatype LegacyEngines = LegacyEngines(
    engine: Design -> Fit,
    resample: (seq<Row>, nat, nat) -> seq<Row>)  // given the city's position and the pass

  datatype LegacyError =
    | PreprocessFailure(preprocess: PreprocessError)
    | DriverFailure(driver: DriverError)
    | PostprocessFailure(post: AggError)
    | CityNotText   // a NaN plant name given to `tqdm.write` (line 148) or as the `trange` description (line 152)

  /** Line 101-109: `general_preprocess` with its defaults for `no_date` and
      `make_complement`. */
  function LegacySettings(cfg: LegacyConfig): PreprocessConfig {
    PreprocessConfig(cfg.variantsList, cfg.variantsPangolin, cfg.variantsNotReported, cfg.toDrop,
                     cfg.startDate, cfg.endDate, false, cfg.removeDeletions, true)
  }

  /** The legacy command never sets `no_date`, so a tally without a `date`
      column stops at the NaN filter (or, before it, at the renaming assertion). */
  lemma LegacyNeedsDate(cfg: LegacyConfig, t: Tally)
    requires !t.hasDate
    ensures Preprocess(t, LegacySettings(cfg)) ==
              Failure(if InjectiveValues(cfg.variantsPangolin) then MissingDateColumn else DuplicateCanonicalNames)
  {
  }

  /** `df_tally["plantname"].unique()`: every value once, NaN included. */
  function PlantNames(rows: seq<Row>): (r: seq<Option<string>>)
    ensures NoDuplicates(r)
    ensures forall c :: c in r <==> exists x :: x in rows && x.plantname == c
  {
    var names := seq(|rows|, i requires 0 <= i < |rows| => rows[i].plantname);
    assert forall c :: c in names <==> exists x :: x in rows && x.plantname == c by {
      forall c | c in names ensures exists x :: x in rows && x.plantname == c {
        var i :| 0 <= i < |names| && names[i] == c;
        assert rows[i] in rows;
      }
      forall x | x in rows ensures x.plantname in names {
        var i :| 0 <= i < |rows| && rows[i] == x;
        assert names[i] == x.plantname;
      }
    }
    Distinct(names)
  }

  function Somes(s: seq<string>): (r: seq<Option<string>>)
    ensures |r| == |s| && forall i :: 0 <= i < |s| ==> r[i] == Some(s[i])
  {
    seq(|s|, i requires 0 <= i < |s| => Some(s[i]))
  }

  /** Lines 90 and 96-97: the `--plant` names if any were given, else
      `cities_list`, else every plant name of the unprocessed table. */
  function Cities(cfg: LegacyConfig, raw: Tally): (r: seq<Option<string>>)
    ensures |cfg.plant| > 0 ==> r == Somes(cfg.plant)
    ensures |cfg.plant| == 0 && cfg.citiesList.Some? ==> r == Somes(cfg.citiesList.value)
    ensures |cfg.plant| == 0 && cfg.citiesList.None? ==>
              NoDuplicates(r) && forall c :: c in r <==> exists x :: x in raw.rows && x.plantname == c
  {
    if |cfg.plant| > 0 then Somes(cfg.plant)
    else if cfg.citiesList.Some? then Somes(cfg.citiesList.value)
    else PlantNames(raw.rows)
  }

  /** Line 150: `df_tally[df_tally["plantname"] == city]`; NaN equals nothing. */
  function CityRows(rows: seq<Row>, city: Option<string>): (r: seq<Row>)
    ensures forall x :: x in r <==> x in rows && city.Some? && x.plantname == city
    ensures IsSubsequence(r, rows)
  {
    Filter(rows, AtCity(city))
  }

  /** The selection mask `df_tally["plantname"] == city`. */
  function AtCity(city: Option<string>): Row -> bool {
    (x: Row) => city.Some? && x.plantname == city
  }

  /** A city whose name is a tag word selects no preprocessed row: lines
      96-100 of the preprocessor replaced that plant name by 1. */
  lemma TagWordCityEmpty(t: Tally, cfg: LegacyConfig, w: string)
    requires Preprocess(t, LegacySettings(cfg)).Success?
    requires w in TagWords
    ensures CityRows(Preprocess(t, LegacySettings(cfg)).value.rows, Some(w)) == []
  {
    PreprocessNoTagNames(t, LegacySettings(cfg));
    FilterNone(Preprocess(t, LegacySettings(cfg)).value.rows, AtCity(Some(w)));
  }

  /** Everything the loop reads besides the table and the city list. */
  datatype LegacyContext = LegacyContext(
    params: DeconvParams,
    variants: seq<string>,
    columns: set<string>,
    engine: Design -> Fit,
    resample: (seq<Row>, nat, nat) -> seq<Row>)

  /** Lines 156-163: a resampled copy when bootstrapping, else the city's rows. */
  function CityPassRows(lx: LegacyContext, cityRows: seq<Row>, ci: nat, b: nat): seq<Row> {
    if lx.params.bootstrap > 1 then lx.resample(cityRows, ci, b) else cityRows
  }

  /** Line 166: the columns handed to the engine. */
  function DesignColumns(lx: LegacyContext): seq<string> {
    lx.variants + ["undetermined"]
  }

  /** The columns of `variants_list` the table lacks (a KeyError at line 166). */
  function MissingOf(lx: LegacyContext): set<string> {
    set v | v in lx.variants && v !in lx.columns
  }

  /** Lines 165-174: the fit of one pass. */
  function PassFit(lx: LegacyContext, rows: seq<Row>): Fit {
    lx.engine(Design(DesignColumns(lx), rows, Weights(lx.params, rows)))
  }

  /** The fits of one city, one per pass. */
  function CityFits(lx: LegacyContext, rows: seq<Row>, city: Option<string>, ci: nat): (r: seq<(Option<string>, Fit)>)
    ensures |r| == Passes(lx.params)
    ensures forall b :: 0 <= b < |r| ==> r[b] == (city, PassFit(lx, CityPassRows(lx, CityRows(rows, city), ci, b)))
  {
    var cityRows := CityRows(rows, city);
    seq(Passes(lx.params), b requires 0 <= b < Passes(lx.params) => (city, PassFit(lx, CityPassRows(lx, cityRows, ci, b))))
  }

  /** The fits of every city in turn, when no column is missing. */
  function LegacyFits(lx: LegacyContext, rows: seq<Row>, cities: seq<Option<string>>): seq<(Option<string>, Fit)> {
    if |cities| == 0 then []
    else
      var n := |cities| - 1;
      LegacyFits(lx, rows, cities[..n]) + CityFits(lx, rows, cities[n], n)
  }

  /** `all_deconv` at line 196. Each city is printed (line 148) or names its
      progress bar (line 152) before its rows are selected, and tqdm needs
      text there, so a NaN city stops the loop; the first pass of the first
      city fails when a design column is missing; otherwise every fit is
      tagged. */
  function LegacyLoop(lx: LegacyContext, rows: seq<Row>, cities: seq<Option<string>>): Result<seq<Tagged<Option<string>>>, LegacyError> {
    if |cities| > 0 && cities[0].None? then Failure(CityNotText)
    else if |cities| > 0 && |MissingOf(lx)| > 0 then Failure(DriverFailure(MissingColumns(MissingOf(lx))))
    else if None in cities then Failure(CityNotText)
    else Success(TagAll(lx.params, LegacyFits(lx, rows, cities)))
  }

  /** `Passes` fits per city. */
  lemma {:induction false} LegacyFitsLength(lx: LegacyContext, rows: seq<Row>, cities: seq<Option<string>>)
    ensures |LegacyFits(lx, rows, cities)| == |cities| * Passes(lx.params)
  {
    if |cities| > 0 {
      var n := |cities| - 1;
      LegacyFitsLength(lx, rows, cities[..n]);
      MulStep(n, Passes(lx.params));
    }
  }

  /** Fit `ci * Passes + b` is pass `b` of city `ci`. */
  lemma {:induction false} LegacyFitsAt(lx: LegacyContext, rows: seq<Row>, cities: seq<Option<string>>, ci: nat, b: nat)
    requires ci < |cities| && b < Passes(lx.params)
    ensures ci * Passes(lx.params) + b < |LegacyFits(lx, rows, cities)|
    ensures LegacyFits(lx, rows, cities)[ci * Passes(lx.params) + b] ==
              (cities[ci], PassFit(lx, CityPassRows(lx, CityRows(rows, cities[ci]), ci, b)))
  {
    var k := Passes(lx.params);
    var n := |cities| - 1;
    var front := LegacyFits(lx, rows, cities[..n]);
    var last := CityFits(lx, rows, cities[n], n);
    LegacyFitsLength(lx, rows, cities[..n]);
    assert LegacyFits(lx, rows, cities) == front + last;
    BlockIndexAt(front, last, n, k, ci, b);
    if ci < n {
      LegacyFitsAt(lx, rows, cities[..n], ci, b);
      assert cities[..n][ci] == cities[ci];
    }
  }

  /** The loop succeeds exactly when no city is NaN and, if there is a city,
      every listed variant is a column. It reports the missing columns when
      the first city is a name, and the NaN city when that comes first or no
      column is missing. */
  lemma LegacyLoopFails(lx: LegacyContext, rows: seq<Row>, cities: seq<Option<string>>)
    ensures LegacyLoop(lx, rows, cities).Success? <==>
              None !in cities && (|cities| == 0 || forall v :: v in lx.variants ==> v in lx.columns)
    ensures LegacyLoop(lx, rows, cities) == Failure(DriverFailure(MissingColumns(set v | v in lx.variants && v !in lx.columns))) <==>
              |cities| > 0 && cities[0].Some? && exists v :: v in lx.variants && v !in lx.columns
    ensures LegacyLoop(lx, rows, cities) == Failure(CityNotText) <==>
              |cities| > 0 && (cities[0].None? || (None in cities && forall v :: v in lx.variants ==> v in lx.columns))
  {
    if exists v :: v in lx.variants && v !in lx.columns {
      var v :| v in lx.variants && v !in lx.columns;
      assert v in MissingOf(lx);
    } else {
      assert MissingOf(lx) == {};
    }
  }

  /** A successful loop gives each fit one table, or an MSE / Wald_lower /
      Wald_upper triple with a confidence interval, all stamped with the fit's
      city, `Passes` fits per city. */
  lemma LegacyLoopShape(lx: LegacyContext, rows: seq<Row>, cities: seq<Option<string>>)
    requires LegacyLoop(lx, rows, cities).Success?
    ensures |LegacyLoop(lx, rows, cities).value| == Width(lx.params) * (|cities| * Passes(lx.params))
    ensures Grouped(lx.params, LegacyLoop(lx, rows, cities).value, LegacyFits(lx, rows, cities))
  {
    LegacyFitsLength(lx, rows, cities);
    TagAllGrouped(lx.params, LegacyFits(lx, rows, cities));
  }

  /** Lines 197-212: concatenate, fill NaN with 0 without a confidence
      interval, and melt `variants_list + ["undetermined"]`. */
  function LegacyPost(p: DeconvParams, variants: seq<string>, all: seq<Tagged<Option<string>>>): (r: Result<seq<LongRow<Option<string>>>, AggError>)
    ensures |all| == 0 ==> r == Failure(NoObjects)
    ensures r.Success? ==> |all| > 0
  {
    match Concat(all)
    case Failure(e) => Failure(e)
    case Success(f0) =>
      var f := if HaveConfint(p) then f0 else FillMissing(f0);
      Melt(f, variants + ["undetermined"])
  }

  /** Without a confidence interval no melted fraction is NaN; every long row
      is one cell of a fitted table, stamped with its city. */
  lemma LegacyPostRows(p: DeconvParams, variants: seq<string>, all: seq<Tagged<Option<string>>>)
    requires LegacyPost(p, variants, all).Success?
    ensures !HaveConfint(p) ==> forall y :: y in LegacyPost(p, variants, all).value ==> y.frac.Some?
    ensures forall y :: y in LegacyPost(p, variants, all).value ==>
              y.variant in variants + ["undetermined"] &&
              exists k, i :: 0 <= k < |all| && 0 <= i < |all[k].table.rows| &&
                y.location == all[k].location && y.estimate == all[k].estimate && y.date == all[k].table.rows[i].date
    ensures |LegacyPost(p, variants, all).value| == (|variants| + 1) * |ConcatRows(all)|
  {
    var f0 := Concat(all).value;
    var f := if HaveConfint(p) then f0 else FillMissing(f0);
    var vs := variants + ["undetermined"];
    var r := LegacyPost(p, variants, all).value;
    assert r == MeltRows(f.rows, vs);
    MeltSound(f.rows, vs);
    MeltLength(f.rows, vs);
    ConcatRowsContents(all);
    forall y | y in r
      ensures !HaveConfint(p) ==> y.frac.Some?
      ensures y.variant in vs
      ensures exists k, i :: 0 <= k < |all| && 0 <= i < |all[k].table.rows| &&
                y.location == all[k].location && y.estimate == all[k].estimate && y.date == all[k].table.rows[i].date
    {
      var j, v :| 0 <= j < |f.rows| && v in vs && y == Aggregate.Cell(f.rows, j, v);
      assert v in f.columns;
      assert f0.rows[j] in ConcatRows(all);
      var k, i :| 0 <= k < |all| && 0 <= i < |all[k].table.rows| &&
        f0.rows[j] == FlatRow(all[k].location, all[k].estimate, all[k].table.rows[i].date, all[k].table.rows[i].values);
    }
  }

  // ---------------------------------------------------------------------
  // The loop itself

  /** Lines 151-195 for one city: `Passes` fits, each tagged. */
  method RunCity(lx: LegacyContext, rows: seq<Row>, city: Option<string>, ci: nat) returns (res: Result<seq<Tagged<Option<string>>>, LegacyError>)
    ensures city.None? ==> res == Failure(CityNotText)
    ensures city.Some? && |MissingOf(lx)| > 0 ==> res == Failure(DriverFailure(MissingColumns(MissingOf(lx))))
    ensures city.Some? && |MissingOf(lx)| == 0 ==> res == Success(TagAll(lx.params, CityFits(lx, rows, city, ci)))
  {
    if city.None? {
      return Failure(CityNotText);
    }
    var cityRows := CityRows(rows, city);
    ghost var fits := CityFits(lx, rows, city, ci);
    var n := Passes(lx.params);
    var all: seq<Tagged<Option<string>>> := [];
    var b := 0;
    while b < n
      invariant 0 <= b <= n
      invariant b > 0 ==> |MissingOf(lx)| == 0
      invariant all == TagAll(lx.params, fits[..b])
    {
      var passRows := CityPassRows(lx, cityRows, ci, b);
      if |MissingOf(lx)| > 0 {
        return Failure(DriverFailure(MissingColumns(MissingOf(lx))));
      }
      var fit := PassFit(lx, passRows);
      TagAllPrefix(lx.params, fits, b);
      all := all + TagFit(lx.params, city, fit);
      b := b + 1;
    }
    assert fits[..b] == fits;
    return Success(all);
  }

  /** One step of the city fold. */
  lemma LegacyFitsStep(lx: LegacyContext, rows: seq<Row>, cities: seq<Option<string>>, ci: nat)
    requires ci < |cities|
    ensures LegacyFits(lx, rows, cities[..ci + 1]) == LegacyFits(lx, rows, cities[..ci]) + CityFits(lx, rows, cities[ci], ci)
  {
    assert cities[..ci + 1][..ci] == cities[..ci];
  }

  /** Lines 146-195: appends to `all_deconv` city by city. */
  method RunCities(lx: LegacyContext, rows: seq<Row>, cities: seq<Option<string>>) returns (res: Result<seq<Tagged<Option<string>>>, LegacyError>)
    ensures res == LegacyLoop(lx, rows, cities)
  {
    var all: seq<Tagged<Option<string>>> := [];
    var ci := 0;
    while ci < |cities|
      invariant 0 <= ci <= |cities|
      invariant ci > 0 ==> |MissingOf(lx)| == 0 && cities[0].Some?
      invariant None !in cities[..ci]
      invariant all == TagAll(lx.params, LegacyFits(lx, rows, cities[..ci]))
    {
      var r := RunCity(lx, rows, cities[ci], ci);
      if r.Failure? {
        if cities[ci].None? {
          assert cities[ci] in cities;
        }
        return r;
      }
      PrefixSnoc(cities, ci);
      LegacyFitsStep(lx, rows, cities, ci);
      TagAllAppend(lx.params, LegacyFits(lx, rows, cities[..ci]), CityFits(lx, rows, cities[ci], ci));
      all := all + r.value;
      ci := ci + 1;
    }
    assert cities[..ci] == cities;
    return Success(all);
  }

  /** The whole legacy command: a preprocessing failure stops it first, then
      the mode check (lines 124-126), then the loop; a successful run melts
      the tagged fits of every city and pass. */
  method LegacyDeconvolute(cfg: LegacyConfig, t: Tally, en: LegacyEngines) returns (res: Result<seq<LongRow<Option<string>>>, LegacyError>)
    ensures Preprocess(t, LegacySettings(cfg)).Failure? ==>
              res == Failure(PreprocessFailure(Preprocess(t, LegacySettings(cfg)).error))
    ensures Preprocess(t, LegacySettings(cfg)).Success? && HaveConfint(cfg.params) && cfg.params.bootstrap > 1 ==>
              res == Failure(DriverFailure(BootstrapWithConfint))
    ensures Preprocess(t, LegacySettings(cfg)).Success? && CheckMode(cfg.params).Pass? ==>
              var prepared := Preprocess(t, LegacySettings(cfg)).value;
              var lx := LegacyContext(cfg.params, cfg.variantsList, prepared.variantCols, en.engine, en.resample);
              match LegacyLoop(lx, prepared.rows, Cities(cfg, t))
              case Failure(e) => res == Failure(e)
              case Success(all) =>
                match LegacyPost(cfg.params, cfg.variantsList, all)
                case Failure(e) => res == Failure(PostprocessFailure(e))
                case Success(long) => res == Success(long)
  {
    var cities := Cities(cfg, t);
    var pre := PreprocessTally(t, LegacySettings(cfg), None);
    if pre.Failure? {
      return Failure(PreprocessFailure(pre.error));
    }
    var mode := CheckMode(cfg.params);
    if mode.Fail? {
      return Failure(DriverFailure(mode.error));
    }
    var prepared := pre.value;
    var lx := LegacyContext(cfg.params, cfg.variantsList, prepared.variantCols, en.engine, en.resample);
    var all := RunCities(lx, prepared.rows, cities);
    if all.Failure? {
      return Failure(all.error);
    }
    var post := LegacyPost(cfg.params, cfg.variantsList, all.value);
    if post.Failure? {
      return Failure(PostprocessFailure(post.error));
    }
    return Success(post.value);
  }
}
