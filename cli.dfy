/** The `deconvolute` command (lollipop/cli/deconvolute.py, lines 82-596):
    the configuration as read from the YAML files, the order of the stages,
    and what each stage hands to the next. Reading and writing files, the
    regression engine, the resampler, the bootstrap summaries, `exp` and the
    JSON serialiser are parameters. */
module Cli {
  import opened Common
  import opened TallyModel
  import opened Preprocessors
  import opened Locations
  import opened Schedule
  import opened Driver
  import opened Aggregate
  import opened Export

  /** The settings the command reads (`variants_config`, `var_dates`,
      `deconv_config` and the command-line switches). */
  datatype Config = Config(
    variantsList: Option<seq<string>>,
    variantsPangolin: map<string, string>,
    variantsNotReported: seq<string>,
    toDrop: seq<string>,
    noDate: bool,
    noLoc: bool,
    startDate: Option<int>,
    endDate: Option<int>,
    removeDeletions: bool,
    locations: Option<seq<string>>,   // `--loc` or `locations_list`
    schedule: Option<seq<Entry>>,     // `var_dates`, keys in file order
    filters: Option<seq<string>>,
    params: DeconvParams,
    wide: bool,                       // `--fmt-columns`
    writeJson: bool)                  // `--out-json` given

  /** The external computations. */
  datatype Engines = Engines(
    engine: Design -> Fit,
    resample: (seq<Row>, nat, nat) -> seq<Row>,
    summarize: seq<Option<real>> -> Summary,
    exp: real -> real,
    dumps: Document -> string)

  datatype CliError =
    | LocationFailure(location: LocationError)
    | ScheduleFailure(schedule: ScheduleError)
    | PreprocessFailure(preprocess: PreprocessError)
    | DriverFailure(driver: DriverError)
    | PostprocessFailure(post: AggError)

  /** The state handed from the preparation stages to the deconvolution loop. */
  datatype Prepared = Prepared(
    noLoc: bool,
    noDate: bool,
    locations: seq<string>,
    variants: seq<string>,
    windows: seq<Window>,
    tally: Tally)

  /** What a run produces, with the prepared state the outputs depend on. */
  datatype Output = Output(
    prep: Prepared,
    results: seq<Tagged<string>>,
    aggregated: Aggregated,
    table: Table,
    json: Option<string>)

  /** The preprocessing settings of line 297-306. */
  function PreprocessSettings(cfg: Config, variants: seq<string>, noDate: bool): PreprocessConfig {
    PreprocessConfig(variants, cfg.variantsPangolin, cfg.variantsNotReported, cfg.toDrop,
                     cfg.startDate, cfg.endDate, noDate, cfg.removeDeletions, true)
  }

  function LoopContext(cfg: Config, en: Engines, noLoc: bool, noDate: bool, windows: seq<Window>, prepared: Tally): Context {
    Context(cfg.params, noLoc, noDate, windows, prepared.variantCols, en.engine, en.resample)
  }

  /** `pr` is what lines 166-307 make of the table: resolved locations, the
      effective `no_date` flag, reconciled variants, checked intervals and the
      preprocessed table. */
  ghost predicate PreparedFrom(cfg: Config, t: Tally, pr: Prepared) {
    var r := Resolve(t, cfg.locations, cfg.noLoc);
    && r.Success?
    && pr.noLoc == r.value.noLoc && pr.locations == r.value.locations
    && pr.noDate == EffectiveNoDate(r.value.tally, cfg.noDate)
    && (cfg.schedule.None? && cfg.variantsList.Some? ==> pr.variants == cfg.variantsList.value)
    && (cfg.schedule.Some? ==> forall v :: v in ScheduleVariants(cfg.schedule.value) ==> v in pr.variants)
    && CheckOrder(pr.windows, pr.noDate).Pass?
    && Preprocess(if pr.noDate then AssignDummyDates(r.value.tally) else r.value.tally,
                  PreprocessSettings(cfg, pr.variants, pr.noDate)) == Success(pr.tally)
  }

  /** `o` is what lines 316-596 make of the prepared state. */
  ghost predicate RunFrom(cfg: Config, en: Engines, pr: Prepared, o: Output)
    requires Positive(en.exp)
  {
    && o.prep == pr
    && Deconvolve(LoopContext(cfg, en, pr.noLoc, pr.noDate, pr.windows, pr.tally), pr.tally.rows, pr.locations) == Success(o.results)
    && Postprocess(cfg.params, pr.variants, o.results, en.summarize, en.exp) == Success(o.aggregated)
    && OutputTable(o.aggregated, cfg.wide, pr.noLoc, pr.noDate) == Success(o.table)
    && (o.json.Some? <==> cfg.writeJson)
    && (o.json.Some? ==> o.json.value == JsonText(JsonDocument(o.aggregated, pr.noDate), en.dumps))
  }

  /** The windows of lines 238-286 for the reconciled variants `vs`: the
      schedule's keys paired up, or a single open window. */
  function ScheduleWindows(cfg: Config, noDate: bool, vs: seq<string>): seq<Window> {
    Intervals(if cfg.schedule.Some? then cfg.schedule.value
              else [Entry(if noDate then DummyBase else cfg.startDate.GetOr(DefaultStart), vs)])
  }

  /** The table and settings preprocessing receives once the locations
      resolve (lines 212-235 and 297-306). */
  function PreprocessInput(cfg: Config, r: Resolved, vs: seq<string>): (Tally, PreprocessConfig) {
    var noDate := EffectiveNoDate(r.tally, cfg.noDate);
    (if noDate then AssignDummyDates(r.tally) else r.tally, PreprocessSettings(cfg, vs, noDate))
  }

  /** A table without a `date` column switches the command to `no_date` and gets
      dummy dates, so preprocessing never meets a missing `date` column. */
  lemma PreprocessInputDated(cfg: Config, r: Resolved, vs: seq<string>)
    ensures PreprocessInput(cfg, r, vs).0.hasDate
    ensures !r.tally.hasDate ==> PreprocessInput(cfg, r, vs).1.noDate
  {
  }

  /** Lines 166-307 once `list(set(...))` has produced `vs`: the first stage
      that fails is reported, otherwise the prepared state. */
  function PrepareOutcome(cfg: Config, t: Tally, vs: seq<string>): Result<Prepared, CliError> {
    match Resolve(t, cfg.locations, cfg.noLoc)
    case Failure(e) => Failure(LocationFailure(e))
    case Success(r) =>
      var noDate := EffectiveNoDate(r.tally, cfg.noDate);
      var windows := ScheduleWindows(cfg, noDate, vs);
      match CheckOrder(windows, noDate)
      case Fail(e) => Failure(ScheduleFailure(e))
      case Pass =>
        var input := PreprocessInput(cfg, r, vs);
        match Preprocess(input.0, input.1)
        case Failure(e) => Failure(PreprocessFailure(e))
        case Success(p) => Success(Prepared(r.noLoc, noDate, r.locations, vs, windows, p))
  }

  /** Lines 316-596: the first stage that fails is reported, otherwise the outputs. */
  function RunOutcome(cfg: Config, en: Engines, pr: Prepared): Result<Output, CliError>
    requires Positive(en.exp)
  {
    match CheckMode(cfg.params)
    case Fail(e) => Failure(DriverFailure(e))
    case Pass =>
      match Deconvolve(LoopContext(cfg, en, pr.noLoc, pr.noDate, pr.windows, pr.tally), pr.tally.rows, pr.locations)
      case Failure(e) => Failure(DriverFailure(e))
      case Success(all) =>
        match Postprocess(cfg.params, pr.variants, all, en.summarize, en.exp)
        case Failure(e) => Failure(PostprocessFailure(e))
        case Success(agg) =>
          match OutputTable(agg, cfg.wide, pr.noLoc, pr.noDate)
          case Failure(e) => Failure(PostprocessFailure(e))
          case Success(table) =>
            var json := if cfg.writeJson then Some(JsonText(JsonDocument(agg, pr.noDate), en.dumps)) else None;
            Success(Output(pr, all, agg, table, json))
  }

  /** The whole command once `list(set(...))` has produced `vs`. */
  function CommandOutcome(cfg: Config, t: Tally, en: Engines, vs: seq<string>): Result<Output, CliError>
    requires Positive(en.exp)
  {
    match PrepareOutcome(cfg, t, vs)
    case Failure(e) => Failure(e)
    case Success(pr) => RunOutcome(cfg, en, pr)
  }

  /** Lines 166-307: locations, dates, schedule, preprocessing; the first
      stage that fails is reported. */
  method Prepare(cfg: Config, t: Tally) returns (res: Result<Prepared, CliError>)
    ensures Resolve(t, cfg.locations, cfg.noLoc).Failure? ==>
              res == Failure(LocationFailure(Resolve(t, cfg.locations, cfg.noLoc).error))
    ensures res.Success? ==> PreparedFrom(cfg, t, res.value)
    ensures Resolve(t, cfg.locations, cfg.noLoc).Success? ==>
              exists vs :: Reconciled(cfg.variantsList, cfg.schedule, cfg.variantsPangolin, vs) && res == PrepareOutcome(cfg, t, vs)
  {
    // lines 166-209
    var resolved := Resolve(t, cfg.locations, cfg.noLoc);
    if resolved.Failure? {
      return Failure(LocationFailure(resolved.error));
    }
    var r := resolved.value;
    // lines 212-235
    var tally := r.tally;
    var noDate := EffectiveNoDate(tally, cfg.noDate);
    if noDate {
      tally := AssignDummyDates(tally);
    }
    // lines 238-295
    var variants, entries := ReconcileVariants(cfg.variantsList, cfg.schedule, cfg.variantsPangolin, noDate, cfg.startDate);
    var windows := Intervals(entries);
    assert windows == ScheduleWindows(cfg, noDate, variants);
    assert Reconciled(cfg.variantsList, cfg.schedule, cfg.variantsPangolin, variants);
    var order := CheckOrder(windows, noDate);
    if order.Fail? {
      return Failure(ScheduleFailure(order.error));
    }
    // lines 297-307
    var pre := PreprocessTally(tally, PreprocessSettings(cfg, variants, noDate), cfg.filters);
    if pre.Failure? {
      return Failure(PreprocessFailure(pre.error));
    }
    res := Success(Prepared(r.noLoc, noDate, r.locations, variants, windows, pre.value));
    assert res == PrepareOutcome(cfg, t, variants);
  }

  /** Lines 316-596: mode check, the slice loop, post-processing, output. */
  method Run(cfg: Config, en: Engines, pr: Prepared) returns (res: Result<Output, CliError>)
    requires Positive(en.exp)
    ensures HaveConfint(cfg.params) && cfg.params.bootstrap > 1 ==> res == Failure(DriverFailure(BootstrapWithConfint))
    ensures res.Success? ==> RunFrom(cfg, en, pr, res.value)
    ensures res == RunOutcome(cfg, en, pr)
  {
    // lines 316-328
    var mode := CheckMode(cfg.params);
    if mode.Fail? {
      return Failure(DriverFailure(mode.error));
    }
    // lines 352-442
    var cx := LoopContext(cfg, en, pr.noLoc, pr.noDate, pr.windows, pr.tally);
    var all := RunSlices(cx, pr.tally.rows, pr.locations);
    if all.Failure? {
      return Failure(DriverFailure(all.error));
    }
    // lines 444-527
    var post := Postprocess(cfg.params, pr.variants, all.value, en.summarize, en.exp);
    if post.Failure? {
      return Failure(PostprocessFailure(post.error));
    }
    var agg := post.value;
    // lines 529-564
    var table := OutputTable(agg, cfg.wide, pr.noLoc, pr.noDate);
    if table.Failure? {
      return Failure(PostprocessFailure(table.error));
    }
    // lines 567-596
    var json: Option<string> := None;
    if cfg.writeJson {
      var doc := BuildDocument(agg, pr.noDate);
      json := Some(JsonText(doc, en.dumps));
    }
    return Success(Output(pr, all.value, agg, table.value, json));
  }

  /** The whole command. A run fails at the first stage that fails; a
      successful run's outputs are those of the stage functions applied to
      the values handed on, its aggregate is sorted by (location, variant,
      date), its CSV table lacks the columns `no_loc` / `no_date` make
      meaningless, and its JSON text has no NaN. */
  method Deconvolute(cfg: Config, t: Tally, en: Engines) returns (res: Result<Output, CliError>)
    requires Positive(en.exp)
    ensures Resolve(t, cfg.locations, cfg.noLoc).Failure? ==>
              res == Failure(LocationFailure(Resolve(t, cfg.locations, cfg.noLoc).error))
    ensures HaveConfint(cfg.params) && cfg.params.bootstrap > 1 ==> res.Failure?
    ensures res.Success? ==>
              var o := res.value;
              && PreparedFrom(cfg, t, o.prep)
              && RunFrom(cfg, en, o.prep, o)
              && (cfg.noLoc ==> o.prep.noLoc && o.prep.locations == [SingleLocation])
              && SortedBy(o.aggregated.rows, AggKey)
              && (o.prep.noLoc ==> "location" !in o.table.header)
              && (o.prep.noDate ==> "date" !in o.table.header)
              && (o.json.Some? ==> !HasNaN(o.json.value))
    ensures Resolve(t, cfg.locations, cfg.noLoc).Success? ==>
              exists vs :: Reconciled(cfg.variantsList, cfg.schedule, cfg.variantsPangolin, vs) && res == CommandOutcome(cfg, t, en, vs)
  {
    var prep := Prepare(cfg, t);
    if prep.Failure? {
      res := Failure(prep.error);
    } else {
      var pr := prep.value;
      if cfg.noLoc {
        NoLocSingle(t, cfg.locations);
      }
      res := Run(cfg, en, pr);
      if res.Success? {
        RunFacts(cfg, en, pr, res.value);
      }
    }
    CommandFromStages(cfg, t, en, prep, res);
  }

  /** The command's outcome is the preparation's failure, or else the run's. */
  lemma CommandFromStages(cfg: Config, t: Tally, en: Engines, prep: Result<Prepared, CliError>, res: Result<Output, CliError>)
    requires Positive(en.exp)
    requires Resolve(t, cfg.locations, cfg.noLoc).Success? ==>
               exists vs :: Reconciled(cfg.variantsList, cfg.schedule, cfg.variantsPangolin, vs) && prep == PrepareOutcome(cfg, t, vs)
    requires prep.Failure? ==> res == Failure(prep.error)
    requires prep.Success? ==> res == RunOutcome(cfg, en, prep.value)
    ensures Resolve(t, cfg.locations, cfg.noLoc).Success? ==>
              exists vs :: Reconciled(cfg.variantsList, cfg.schedule, cfg.variantsPangolin, vs) && res == CommandOutcome(cfg, t, en, vs)
  {
    if Resolve(t, cfg.locations, cfg.noLoc).Success? {
      var vs :| Reconciled(cfg.variantsList, cfg.schedule, cfg.variantsPangolin, vs) && prep == PrepareOutcome(cfg, t, vs);
      assert res == CommandOutcome(cfg, t, en, vs);
    }
  }

  /** What a successful run guarantees of its outputs: the aggregate is
      sorted, the CSV lacks the dropped columns, the JSON text has no NaN. */
  lemma RunFacts(cfg: Config, en: Engines, pr: Prepared, o: Output)
    requires Positive(en.exp)
    requires RunFrom(cfg, en, pr, o)
    ensures SortedBy(o.aggregated.rows, AggKey)
    ensures o.prep.noLoc ==> "location" !in o.table.header
    ensures o.prep.noDate ==> "date" !in o.table.header
    ensures o.json.Some? ==> !HasNaN(o.json.value)
  {
    PostprocessSorted(cfg.params, pr.variants, o.results, en.summarize, en.exp);
  }

  /** Without a schedule, or in `no_date` mode, the order check of lines
      287-292 always passes; otherwise it passes exactly when the schedule keys
      are strictly ascending. */
  lemma ScheduleCheck(cfg: Config, noDate: bool, vs: seq<string>)
    ensures CheckOrder(ScheduleWindows(cfg, noDate, vs), noDate).Pass? <==>
              cfg.schedule.None? || noDate || StrictlyAscending(cfg.schedule.value)
  {
    if cfg.schedule.Some? && !noDate {
      OrderCheckIffAscending(cfg.schedule.value);
    } else if cfg.schedule.None? && !noDate {
      var w := ScheduleWindows(cfg, noDate, vs);
      assert |w| == 1 && w[0].end.None?;
    }
  }

  /** Once the locations resolve, an out-of-order schedule is reported as the
      schedule's error; otherwise preparation succeeds exactly when
      preprocessing does, and a preprocessing failure, such as a
      non-injective `variants_pangolin`, is reported as that error. */
  lemma PrepareStages(cfg: Config, t: Tally, vs: seq<string>)
    requires Resolve(t, cfg.locations, cfg.noLoc).Success?
    ensures var r := Resolve(t, cfg.locations, cfg.noLoc).value;
            var noDate := EffectiveNoDate(r.tally, cfg.noDate);
            var scheduleOk := cfg.schedule.None? || noDate || StrictlyAscending(cfg.schedule.value);
            var pre := Preprocess(PreprocessInput(cfg, r, vs).0, PreprocessInput(cfg, r, vs).1);
            && (!scheduleOk ==> PrepareOutcome(cfg, t, vs).Failure? && PrepareOutcome(cfg, t, vs).error.ScheduleFailure?)
            && (scheduleOk ==> (PrepareOutcome(cfg, t, vs).Success? <==> pre.Success?))
            && (scheduleOk && pre.Failure? ==> PrepareOutcome(cfg, t, vs) == Failure(PreprocessFailure(pre.error)))
            && (scheduleOk && !InjectiveValues(cfg.variantsPangolin) ==>
                  PrepareOutcome(cfg, t, vs) == Failure(PreprocessFailure(DuplicateCanonicalNames)))
  {
    var r := Resolve(t, cfg.locations, cfg.noLoc).value;
    var noDate := EffectiveNoDate(r.tally, cfg.noDate);
    ScheduleCheck(cfg, noDate, vs);
    PreprocessFails(PreprocessInput(cfg, r, vs).0, PreprocessInput(cfg, r, vs).1);
  }

  /** A successful preparation with a variant list lines 238-282 can produce
      is what `PreparedFrom` describes. */
  lemma PrepareSound(cfg: Config, t: Tally, vs: seq<string>)
    requires Reconciled(cfg.variantsList, cfg.schedule, cfg.variantsPangolin, vs)
    requires PrepareOutcome(cfg, t, vs).Success?
    ensures PreparedFrom(cfg, t, PrepareOutcome(cfg, t, vs).value)
  {
    if cfg.schedule.Some? {
      ReconciledCovers(cfg.variantsList, cfg.schedule.value, cfg.variantsPangolin, vs);
    }
  }

  /** The mode check comes first: bootstrapping with a confidence interval
      fails before the loop runs. */
  lemma RunModeFirst(cfg: Config, en: Engines, pr: Prepared)
    requires Positive(en.exp)
    ensures HaveConfint(cfg.params) && cfg.params.bootstrap > 1 ==>
              RunOutcome(cfg, en, pr) == Failure(DriverFailure(BootstrapWithConfint))
  {
  }

  /** A loop that yields no fit ends in `pd.concat`'s error (line 444). */
  lemma RunEmptyLoop(cfg: Config, en: Engines, pr: Prepared)
    requires Positive(en.exp)
    ensures CheckMode(cfg.params).Pass? &&
            Deconvolve(LoopContext(cfg, en, pr.noLoc, pr.noDate, pr.windows, pr.tally), pr.tally.rows, pr.locations) == Success([]) ==>
              RunOutcome(cfg, en, pr) == Failure(PostprocessFailure(NoObjects))
  {
    PostprocessFailures(cfg.params, pr.variants, [], en.summarize, en.exp);
  }

  /** A successful run's outputs are those the stage functions give. */
  lemma RunSound(cfg: Config, en: Engines, pr: Prepared)
    requires Positive(en.exp)
    ensures RunOutcome(cfg, en, pr).Success? ==> RunFrom(cfg, en, pr, RunOutcome(cfg, en, pr).value)
  {
    if RunOutcome(cfg, en, pr).Success? {
      var o := RunOutcome(cfg, en, pr).value;
      var all := Deconvolve(LoopContext(cfg, en, pr.noLoc, pr.noDate, pr.windows, pr.tally), pr.tally.rows, pr.locations);
      assert all == Success(o.results);
      var agg := Postprocess(cfg.params, pr.variants, o.results, en.summarize, en.exp);
      assert agg == Success(o.aggregated);
    }
  }

  /** Conversely, when every stage succeeds the run does, with those outputs. */
  lemma RunComplete(cfg: Config, en: Engines, pr: Prepared, o: Output)
    requires Positive(en.exp)
    requires CheckMode(cfg.params).Pass?
    requires RunFrom(cfg, en, pr, o)
    ensures RunOutcome(cfg, en, pr) == Success(o)
  {
  }

  /** After preparation, a requested location whose name is a tag word
      selects no rows: the replacement at lines 96-100 of the preprocessor
      turned that name into 1 before the loop at line 352 compares it. */
  lemma TagWordLocationEmpty(cfg: Config, t: Tally, pr: Prepared, w: string)
    requires PreparedFrom(cfg, t, pr)
    requires w in TagWords
    ensures !pr.noLoc ==> LocationRows(pr.tally.rows, w, pr.noLoc) == []
  {
    var r := Resolve(t, cfg.locations, cfg.noLoc).value;
    PreprocessNoTagNames(if pr.noDate then AssignDummyDates(r.tally) else r.tally,
                         PreprocessSettings(cfg, pr.variants, pr.noDate));
    FilterNone(pr.tally.rows, AtLocation(w));
  }

  /** The post-processed table is sorted by (location, variant, date). */
  lemma PostprocessSorted(p: DeconvParams, variants: seq<string>, all: seq<Tagged<string>>,
                          summarize: seq<Option<real>> -> Summary, exp: real -> real)
    requires Positive(exp)
    requires Postprocess(p, variants, all, summarize, exp).Success?
    ensures SortedBy(Postprocess(p, variants, all, summarize, exp).value.rows, AggKey)
  {
    var f0 := Concat(all).value;
    var f := if HaveConfint(p) then f0 else FillMissing(f0);
    var long := Melt(f, FoundVariants(variants, f) + ["undetermined"]).value;
    FinalizeResult(p, long, summarize, exp);
  }
}
