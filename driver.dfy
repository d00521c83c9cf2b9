/** The deconvolution loop of the command-line driver
    (lollipop/cli/deconvolute.py, lines 316-442): the mode check, the
    location × bootstrap pass × date window slices, the skip rules, and the
    tagging of each fitted table with its location and estimate kind. The
    regression engine and the resampler are parameters: only what the loop
    does with their results is modelled. */
module Driver {
  import opened Common
  import opened TallyModel
  import opened Schedule

  /** The `deconv` configuration entries the loop reads. `confint` is the raw
      YAML string; `confintParams` holds the string-valued `confint_params`. */
  datatype DeconvParams = DeconvParams(bootstrap: int, confint: Option<string>, confintParams: map<string, string>)

  /** `confints.get(deconv.get("confint"), NullConfint) != NullConfint`: only
      the key "wald" selects a real confidence-interval class. */
  predicate HaveConfint(p: DeconvParams) {
    p.confint == Some("wald")
  }

  function LowerChar(c: char): char {
    if 'A' <= c <= 'Z' then (c as int + 32) as char else c
  }

  function UpperChar(c: char): char {
    if 'a' <= c <= 'z' then (c as int - 32) as char else c
  }

  function LowerAll(s: string): (r: string)
    ensures |r| == |s|
    ensures forall i :: 0 <= i < |s| ==> r[i] == LowerChar(s[i])
  {
    if |s| == 0 then [] else [LowerChar(s[0])] + LowerAll(s[1..])
  }

  /** Python's `str.capitalize` on ASCII text. */
  function Capitalize(s: string): (r: string)
    ensures |r| == |s|
    ensures |s| > 0 ==> r[0] == UpperChar(s[0]) && r[1..] == LowerAll(s[1..])
  {
    if |s| == 0 then [] else [UpperChar(s[0])] + LowerAll(s[1..])
  }

  /** `confint_name`: the capitalised key, which is always "Wald". */
  function ConfintName(p: DeconvParams): (n: string)
    requires HaveConfint(p)
    ensures n == "Wald"
  {
    var n := Capitalize(p.confint.value);
    assert n[0] == 'W' && n[1] == 'a' && n[2] == 'l' && n[3] == 'd';
    n
  }

  datatype DriverError =
    | BootstrapWithConfint                 // the assertion at lines 326-328
    | NonNumericIndicator                  // a non-numeric cell in the window's row-wise sum
    | MissingColumns(missing: set<string>) // KeyError selecting the design columns (line 413)

  /** Lines 326-328: a confidence interval and bootstrapping exclude each other. */
  function CheckMode(p: DeconvParams): (r: Outcome<DriverError>)
    ensures r.Fail? <==> HaveConfint(p) && p.bootstrap > 1
    ensures r.Fail? ==> r.error == BootstrapWithConfint
  {
    if HaveConfint(p) && p.bootstrap > 1 then Fail(BootstrapWithConfint) else Pass
  }

  // ---------------------------------------------------------------------
  // What the engine receives and returns

  /** One fitted row: the estimate per column at one date; None is NaN, and a
      column absent from the map reads as NaN. */
  datatype FitRow = FitRow(date: int, values: map<string, Option<real>>)

  datatype FitTable = FitTable(columns: set<string>, rows: seq<FitRow>)

  /** `t_kdec.fitted`, `conf_bands["lower"]` and `conf_bands["upper"]`. */
  datatype Fit = Fit(fitted: FitTable, lower: FitTable, upper: FitTable)

  /** The arguments of `ll.KernelDeconv`: the selected columns, the slice's rows
      (their indicators, `frac` and `date`), and the resampling weights. */
  datatype Design = Design(columns: seq<string>, rows: seq<Row>, weights: Option<seq<int>>)

  /** A result table stamped with its location (a city for the legacy driver)
      and, with a confidence interval, its estimate kind. */
  datatype Tagged<L> = Tagged(location: L, estimate: Option<string>, table: FitTable)

  /** How many tables one fit contributes. */
  function Width(p: DeconvParams): (w: nat)
    ensures w == 1 || w == 3
  {
    if HaveConfint(p) then 3 else 1
  }

  /** Lines 422-442: with a confidence interval the fit yields three tagged
      tables, otherwise the fitted table alone. */
  function TagFit<L>(p: DeconvParams, loc: L, fit: Fit): (r: seq<Tagged<L>>)
    ensures |r| == Width(p)
    ensures HaveConfint(p) ==> r == [Tagged(loc, Some("MSE"), fit.fitted),
                                     Tagged(loc, Some(ConfintName(p) + "_lower"), fit.lower),
                                     Tagged(loc, Some(ConfintName(p) + "_upper"), fit.upper)]
    ensures !HaveConfint(p) ==> r == [Tagged(loc, None, fit.fitted)]
  {
    if HaveConfint(p) then
      var name := ConfintName(p);
      [Tagged(loc, Some("MSE"), fit.fitted),
       Tagged(loc, Some(name + "_lower"), fit.lower),
       Tagged(loc, Some(name + "_upper"), fit.upper)]
    else [Tagged(loc, None, fit.fitted)]
  }

  /** `all_deconv` for a sequence of produced fits, in order. */
  function TagAll<L>(p: DeconvParams, ps: seq<(L, Fit)>): seq<Tagged<L>> {
    if |ps| == 0 then []
    else TagAll(p, ps[..|ps| - 1]) + TagFit(p, ps[|ps| - 1].0, ps[|ps| - 1].1)
  }

  /** Tagging one more fit of `ps` appends its tables. */
  lemma TagAllPrefix<L>(p: DeconvParams, ps: seq<(L, Fit)>, b: nat)
    requires b < |ps|
    ensures TagAll(p, ps[..b + 1]) == TagAll(p, ps[..b]) + TagFit(p, ps[b].0, ps[b].1)
  {
    assert ps[..b + 1][..b] == ps[..b];
  }

  /** Appending one fit appends its tagging. */
  lemma TagAllSnoc<L>(p: DeconvParams, ps: seq<(L, Fit)>, loc: L, fit: Fit)
    ensures TagAll(p, ps + [(loc, fit)]) == TagAll(p, ps) + TagFit(p, loc, fit)
  {
    assert (ps + [(loc, fit)])[..|ps|] == ps;
  }

  /** Each fit contributes `Width(p)` tables. */
  lemma {:induction false} TagAllLength<L>(p: DeconvParams, ps: seq<(L, Fit)>)
    ensures |TagAll(p, ps)| == Width(p) * |ps|
  {
    if |ps| > 0 {
      var n := |ps| - 1;
      TagAllLength(p, ps[..n]);
      if HaveConfint(p) { assert |TagAll(p, ps)| == 3 * n + 3; } else { assert |TagAll(p, ps)| == n + 1; }
    }
  }

  /** The i-th group of `Width(p)` tables is the tagging of the i-th fit. */
  lemma {:induction false} TagAllGroup<L>(p: DeconvParams, ps: seq<(L, Fit)>, i: nat)
    requires i < |ps|
    ensures Width(p) * i + Width(p) <= |TagAll(p, ps)|
    ensures TagAll(p, ps)[Width(p) * i .. Width(p) * i + Width(p)] == TagFit(p, ps[i].0, ps[i].1)
  {
    var n := |ps| - 1;
    var w := Width(p);
    var front := TagAll(p, ps[..n]);
    var last := TagFit(p, ps[n].0, ps[n].1);
    assert ps == ps[..n] + [ps[n]];
    TagAllSnoc(p, ps[..n], ps[n].0, ps[n].1);
    assert TagAll(p, ps) == front + last;
    TagAllLength(p, ps[..n]);
    BlockSliceAt(front, last, n, w, i);
    if i < n {
      TagAllGroup(p, ps[..n], i);
      assert ps[..n][i] == ps[i];
    }
  }

  /** The `i`-th group of `Width(p)` tables in `out` is the tagging of the
      `i`-th fit. */
  ghost predicate GroupAt<L>(p: DeconvParams, out: seq<Tagged<L>>, ps: seq<(L, Fit)>, i: nat)
    requires i < |ps|
  {
    Width(p) * i + Width(p) <= |out| && out[Width(p) * i .. Width(p) * i + Width(p)] == TagFit(p, ps[i].0, ps[i].1)
  }

  /** `out` is the concatenation of one group of `Width(p)` tables per fit. */
  ghost predicate Grouped<L>(p: DeconvParams, out: seq<Tagged<L>>, ps: seq<(L, Fit)>) {
    && |out| == Width(p) * |ps|
    && forall i :: 0 <= i < |ps| ==> GroupAt(p, out, ps, i)
  }

  lemma TagAllGrouped<L>(p: DeconvParams, ps: seq<(L, Fit)>)
    ensures Grouped(p, TagAll(p, ps), ps)
  {
    TagAllLength(p, ps);
    forall i | 0 <= i < |ps|
      ensures GroupAt(p, TagAll(p, ps), ps, i)
    {
      TagAllGroup(p, ps, i);
    }
  }

  // ---------------------------------------------------------------------
  // One slice

  /** Everything the loop reads besides the table and the location list. */
  datatype Context = Context(
    params: DeconvParams,
    noLoc: bool,
    noDate: bool,
    windows: seq<Window>,
    columns: set<string>,                       // the variant columns of the preprocessed table
    engine: Design -> Fit,                      // `KernelDeconv(...).deconv_all(...)`
    resample: (seq<Row>, nat, nat) -> seq<Row>) // `resample_mutations`, given the location's position and the pass

  /** `trange(bootstrap) if bootstrap > 1 else [0]`. */
  function Passes(p: DeconvParams): (n: nat)
    ensures n >= 1
    ensures p.bootstrap > 1 ==> n == p.bootstrap
  {
    if p.bootstrap > 1 then p.bootstrap else 1
  }

  /** Lines 356-360: the rows of one location; with `no_loc` the whole table. */
  function LocationRows(rows: seq<Row>, loc: string, noLoc: bool): (r: seq<Row>)
    ensures noLoc ==> r == rows
    ensures !noLoc ==> forall x :: x in r <==> x in rows && x.location == Some(loc)
  {
    if noLoc then rows else Filter(rows, AtLocation(loc))
  }

  /** The selection mask `df["location"] == loc`. */
  function AtLocation(loc: string): Row -> bool {
    (x: Row) => x.location == Some(loc)
  }

  /** Lines 366-371: a resampled copy when bootstrapping, else the rows themselves.
      The resampler draws from one seeded generator, so its result depends on how
      many draws came before: the location's position `li` and the pass `b`. */
  function PassRows(cx: Context, locRows: seq<Row>, li: nat, b: nat): seq<Row> {
    if cx.params.bootstrap > 1 then cx.resample(locRows, li, b) else locRows
  }

  /** Lines 405-409: the `resample_value` column as weights when bootstrapping. */
  function Weights(p: DeconvParams, rows: seq<Row>): (r: Option<seq<int>>)
    ensures r.Some? <==> p.bootstrap > 1
    ensures r.Some? ==> |r.value| == |rows| && forall i :: 0 <= i < |rows| ==> r.value[i] == rows[i].resampleValue
  {
    if p.bootstrap > 1 then Some(seq(|rows|, i requires 0 <= i < |rows| => rows[i].resampleValue)) else None
  }

  /** Lines 396-400: drops the rows whose sum over `cols` is 0 or |cols|. */
  function KeepInformative(rows: seq<Row>, cols: seq<string>): (r: seq<Row>)
    ensures forall x :: x in r <==> x in rows && Informative(x, cols)
    ensures IsSubsequence(r, rows)
  {
    Filter(rows, (x: Row) => Informative(x, cols))
  }

  /** Line 393: the window's variants that are columns of the table. */
  function SliceColumns(cx: Context, w: Window): seq<string> {
    PresentVariants(w.variants, cx.columns)
  }

  /** Lines 378-420 for one slice: Success(None) when the slice is skipped. */
  function SliceFit(cx: Context, rows: seq<Row>, w: Window): (r: Result<Option<Fit>, DriverError>)
    ensures r == Success(None) <==>
              || WindowRows(rows, w, cx.noDate) == []
              || (AllNumeric(WindowRows(rows, w, cx.noDate), SliceColumns(cx, w))
                  && KeepInformative(WindowRows(rows, w, cx.noDate), SliceColumns(cx, w)) == [])
    ensures r.Success? && r.value.Some? ==>
              var kept := KeepInformative(WindowRows(rows, w, cx.noDate), SliceColumns(cx, w));
              && |kept| > 0
              && (forall v :: v in w.variants ==> v in cx.columns)
              && r.value.value == cx.engine(Design(w.variants + ["undetermined"], kept, Weights(cx.params, kept)))
    ensures r.Failure? ==>
              r.error == NonNumericIndicator
              || r.error == MissingColumns(set v | v in w.variants && v !in cx.columns)
  {
    var inWindow := WindowRows(rows, w, cx.noDate);
    if |inWindow| == 0 then Success(None)
    else
      var cols := SliceColumns(cx, w);
      if !AllNumeric(inWindow, cols) then Failure(NonNumericIndicator)
      else
        var kept := KeepInformative(inWindow, cols);
        if |kept| == 0 then Success(None)
        else
          if !(forall v :: v in w.variants ==> v in cx.columns) then
            Failure(MissingColumns(set v | v in w.variants && v !in cx.columns))
          else Success(Some(cx.engine(Design(w.variants + ["undetermined"], kept, Weights(cx.params, kept)))))
  }

  /** The rows handed to the engine lie in the slice's window, are informative and
      come from the pass's rows in their order. */
  lemma DesignRows(cx: Context, rows: seq<Row>, w: Window)
    ensures var kept := KeepInformative(WindowRows(rows, w, cx.noDate), SliceColumns(cx, w));
      && IsSubsequence(kept, rows)
      && forall x :: x in kept ==> x in rows && (cx.noDate || InWindow(x.date, w)) && Informative(x, SliceColumns(cx, w))
  {
    var inWindow := WindowRows(rows, w, cx.noDate);
    var kept := KeepInformative(inWindow, SliceColumns(cx, w));
    SubsequenceTransitive(kept, inWindow, rows);
  }

  // ---------------------------------------------------------------------
  // The loop as a fold: the produced (location, fit) pairs, in order

  function RunWindows(cx: Context, rows: seq<Row>, loc: string, ws: seq<Window>): (r: Result<seq<(string, Fit)>, DriverError>)
    ensures r.Success? ==> forall q :: q in r.value ==> q.0 == loc
    decreases |ws|
  {
    if |ws| == 0 then Success([])
    else
      match RunWindows(cx, rows, loc, ws[..|ws| - 1])
      case Failure(e) => Failure(e)
      case Success(ps) =>
        match SliceFit(cx, rows, ws[|ws| - 1])
        case Failure(e) => Failure(e)
        case Success(None) => Success(ps)
        case Success(Some(f)) => Success(ps + [(loc, f)])
  }

  /** Lines 361-371: the rows of every pass over the location at position `li`. */
  function AllPassRows(cx: Context, locRows: seq<Row>, li: nat): (r: seq<seq<Row>>)
    ensures |r| == Passes(cx.params)
    ensures forall b :: 0 <= b < |r| ==> r[b] == PassRows(cx, locRows, li, b)
  {
    seq(Passes(cx.params), b requires 0 <= b < Passes(cx.params) => PassRows(cx, locRows, li, b))
  }

  /** The passes over one location, each over all date windows. */
  function RunPasses(cx: Context, passes: seq<seq<Row>>, loc: string): (r: Result<seq<(string, Fit)>, DriverError>)
    ensures r.Success? ==> forall q :: q in r.value ==> q.0 == loc
  {
    if |passes| == 0 then Success([])
    else
      var n := |passes| - 1;
      match RunPasses(cx, passes[..n], loc)
      case Failure(e) => Failure(e)
      case Success(ps) =>
        match RunWindows(cx, passes[n], loc, cx.windows)
        case Failure(e) => Failure(e)
        case Success(qs) => Success(ps + qs)
  }

  function RunLocations(cx: Context, rows: seq<Row>, locs: seq<string>): (r: Result<seq<(string, Fit)>, DriverError>)
    ensures r.Success? ==> forall q :: q in r.value ==> q.0 in locs
  {
    if |locs| == 0 then Success([])
    else
      var n := |locs| - 1;
      var loc := locs[n];
      match RunLocations(cx, rows, locs[..n])
      case Failure(e) => Failure(e)
      case Success(ps) =>
        match RunPasses(cx, AllPassRows(cx, LocationRows(rows, loc, cx.noLoc), n), loc)
        case Failure(e) => Failure(e)
        case Success(qs) =>
          assert forall q :: q in ps ==> q.0 in locs by {
            forall q | q in ps ensures q.0 in locs {
              assert q.0 in locs[..n];
            }
          }
          Success(ps + qs)
  }

  /** `all_deconv` at the end of the loop: the tagged tables of the fold's
      fits, or the error that stopped it. */
  function TagResult(p: DeconvParams, r: Result<seq<(string, Fit)>, DriverError>): Result<seq<Tagged<string>>, DriverError> {
    match r
    case Failure(e) => Failure(e)
    case Success(ps) => Success(TagAll(p, ps))
  }

  /** `all_deconv` at the end of the loop, or the error that stopped it. */
  function Deconvolve(cx: Context, rows: seq<Row>, locs: seq<string>): Result<seq<Tagged<string>>, DriverError> {
    TagResult(cx.params, RunLocations(cx, rows, locs))
  }

  /** Appending fits appends their tagged tables. */
  lemma {:induction false} TagAllAppend<L>(p: DeconvParams, a: seq<(L, Fit)>, b: seq<(L, Fit)>)
    ensures TagAll(p, a + b) == TagAll(p, a) + TagAll(p, b)
    decreases |b|
  {
    if |b| == 0 {
      assert a + b == a;
    } else {
      var n := |b| - 1;
      var last := TagFit(p, b[n].0, b[n].1);
      calc {
        TagAll(p, a + b);
        { assert a + b == (a + b[..n]) + [b[n]]; }
        TagAll(p, (a + b[..n]) + [b[n]]);
        { TagAllSnoc(p, a + b[..n], b[n].0, b[n].1); }
        TagAll(p, a + b[..n]) + last;
        { TagAllAppend(p, a, b[..n]); }
        TagAll(p, a) + TagAll(p, b[..n]) + last;
        { assert b == b[..n] + [b[n]]; TagAllSnoc(p, b[..n], b[n].0, b[n].1); }
        TagAll(p, a) + TagAll(p, b);
      }
    }
  }

  // ---------------------------------------------------------------------
  // Once a fold fails, the rest does not change the error

  lemma {:induction false} WindowsFailSticks(cx: Context, rows: seq<Row>, loc: string, ws: seq<Window>, k: nat)
    requires k <= |ws| && RunWindows(cx, rows, loc, ws[..k]).Failure?
    ensures RunWindows(cx, rows, loc, ws) == RunWindows(cx, rows, loc, ws[..k])
    decreases |ws| - k
  {
    if k < |ws| {
      assert ws[..k + 1][..k] == ws[..k];
      WindowsFailSticks(cx, rows, loc, ws, k + 1);
    } else {
      assert ws[..k] == ws;
    }
  }

  lemma {:induction false} PassesFailSticks(cx: Context, passes: seq<seq<Row>>, loc: string, k: nat)
    requires k <= |passes| && RunPasses(cx, passes[..k], loc).Failure?
    ensures RunPasses(cx, passes, loc) == RunPasses(cx, passes[..k], loc)
    decreases |passes| - k
  {
    if k < |passes| {
      assert passes[..k + 1][..k] == passes[..k];
      PassesFailSticks(cx, passes, loc, k + 1);
    } else {
      assert passes[..k] == passes;
    }
  }

  lemma {:induction false} LocationsFailSticks(cx: Context, rows: seq<Row>, locs: seq<string>, k: nat)
    requires k <= |locs| && RunLocations(cx, rows, locs[..k]).Failure?
    ensures RunLocations(cx, rows, locs) == RunLocations(cx, rows, locs[..k])
    decreases |locs| - k
  {
    if k < |locs| {
      assert locs[..k + 1][..k] == locs[..k];
      LocationsFailSticks(cx, rows, locs, k + 1);
    } else {
      assert locs[..k] == locs;
    }
  }

  // ---------------------------------------------------------------------
  // Properties of the loop's result

  lemma MulStep(n: nat, k: nat)
    ensures n * k + k == (n + 1) * k
  {
  }

  lemma {:induction false} WindowsBound(cx: Context, rows: seq<Row>, loc: string, ws: seq<Window>)
    requires RunWindows(cx, rows, loc, ws).Success?
    ensures |RunWindows(cx, rows, loc, ws).value| <= |ws|
  {
    if |ws| > 0 {
      WindowsBound(cx, rows, loc, ws[..|ws| - 1]);
    }
  }

  lemma {:induction false} PassesBound(cx: Context, passes: seq<seq<Row>>, loc: string)
    requires RunPasses(cx, passes, loc).Success?
    ensures |RunPasses(cx, passes, loc).value| <= |passes| * |cx.windows|
  {
    if |passes| > 0 {
      var n := |passes| - 1;
      PassesBound(cx, passes[..n], loc);
      WindowsBound(cx, passes[n], loc, cx.windows);
      MulStep(n, |cx.windows|);
    }
  }

  lemma {:induction false} LocationsBound(cx: Context, rows: seq<Row>, locs: seq<string>)
    requires RunLocations(cx, rows, locs).Success?
    ensures |RunLocations(cx, rows, locs).value| <= |locs| * (Passes(cx.params) * |cx.windows|)
  {
    if |locs| > 0 {
      var n := |locs| - 1;
      var k := Passes(cx.params) * |cx.windows|;
      LocationsBound(cx, rows, locs[..n]);
      PassesBound(cx, AllPassRows(cx, LocationRows(rows, locs[n], cx.noLoc), n), locs[n]);
      MulStep(n, k);
    }
  }

  /** Every result table belongs to one produced fit: with a confidence
      interval they come in MSE / Wald_lower / Wald_upper triples of one
      location, otherwise one untagged table per fit; every location is a
      listed one; and there are at most locations × passes × windows fits. */
  lemma DeconvolveShape(cx: Context, rows: seq<Row>, locs: seq<string>)
    requires Deconvolve(cx, rows, locs).Success?
    ensures var out := Deconvolve(cx, rows, locs).value;
      var ps := RunLocations(cx, rows, locs).value;
      && |out| == Width(cx.params) * |ps|
      && |ps| <= |locs| * (Passes(cx.params) * |cx.windows|)
      && (forall i :: 0 <= i < |ps| ==> ps[i].0 in locs)
      && Grouped(cx.params, out, ps)
  {
    var ps := RunLocations(cx, rows, locs).value;
    LocationsBound(cx, rows, locs);
    forall i | 0 <= i < |ps| ensures ps[i].0 in locs {
      assert ps[i] in ps;
    }
    TagAllGrouped(cx.params, ps);
  }

  /** A slice with no rows in its window, or none left after the informative
      filter, contributes nothing to the run. */
  lemma SkippedSliceAddsNothing(cx: Context, rows: seq<Row>, loc: string, ws: seq<Window>)
    requires |ws| > 0
    requires SliceFit(cx, rows, ws[|ws| - 1]) == Success(None)
    ensures RunWindows(cx, rows, loc, ws) == RunWindows(cx, rows, loc, ws[..|ws| - 1])
  {
  }

  // ---------------------------------------------------------------------
  // The loop itself, one method per loop level

  /** The fold's step: a failure stops it, a skipped slice adds nothing, a
      fit is appended with its location. */
  function Extend(acc: Result<seq<(string, Fit)>, DriverError>, slice: Result<Option<Fit>, DriverError>, loc: string): Result<seq<(string, Fit)>, DriverError> {
    if acc.Failure? then acc
    else if slice.Failure? then Failure(slice.error)
    else if slice.value.None? then acc
    else Success(acc.value + [(loc, slice.value.value)])
  }

  /** The step of the pass and location folds: a failure stops the fold,
      otherwise the new fits are appended. */
  function Chain(acc: Result<seq<(string, Fit)>, DriverError>, next: Result<seq<(string, Fit)>, DriverError>): Result<seq<(string, Fit)>, DriverError> {
    if acc.Failure? then acc
    else if next.Failure? then Failure(next.error)
    else Success(acc.value + next.value)
  }

  /** One step of the pass fold. */
  lemma RunPassesStep(cx: Context, passes: seq<seq<Row>>, loc: string, b: nat)
    requires b < |passes|
    ensures RunPasses(cx, passes[..b + 1], loc) ==
              Chain(RunPasses(cx, passes[..b], loc), RunWindows(cx, passes[b], loc, cx.windows))
  {
    assert passes[..b + 1][..b] == passes[..b];
  }

  /** One step of the location fold. */
  lemma RunLocationsStep(cx: Context, rows: seq<Row>, locs: seq<string>, li: nat)
    requires li < |locs|
    ensures RunLocations(cx, rows, locs[..li + 1]) ==
              Chain(RunLocations(cx, rows, locs[..li]),
                    RunPasses(cx, AllPassRows(cx, LocationRows(rows, locs[li], cx.noLoc), li), locs[li]))
  {
    assert locs[..li + 1][..li] == locs[..li];
  }

  /** One step of the window fold: the fold over the first `i + 1` windows
      extends the fold over the first `i` by the slice of window `i`. */
  lemma RunWindowsStep(cx: Context, rows: seq<Row>, loc: string, ws: seq<Window>, i: nat)
    requires i < |ws|
    ensures RunWindows(cx, rows, loc, ws[..i + 1]) ==
              Extend(RunWindows(cx, rows, loc, ws[..i]), SliceFit(cx, rows, ws[i]), loc)
  {
    assert ws[..i + 1][..i] == ws[..i];
  }

  /** Lines 373-442: one pass over the date windows. */
  method RunPass(cx: Context, passRows: seq<Row>, loc: string) returns (res: Result<seq<Tagged<string>>, DriverError>)
    ensures res == TagResult(cx.params, RunWindows(cx, passRows, loc, cx.windows))
  {
    var all: seq<Tagged<string>> := [];
    ghost var done: seq<(string, Fit)> := [];
    var wi := 0;
    while wi < |cx.windows|
      invariant 0 <= wi <= |cx.windows|
      invariant RunWindows(cx, passRows, loc, cx.windows[..wi]) == Success(done)
      invariant all == TagAll(cx.params, done)
    {
      var slice := SliceFit(cx, passRows, cx.windows[wi]);
      RunWindowsStep(cx, passRows, loc, cx.windows, wi);
      if slice.Failure? {
        WindowsFailSticks(cx, passRows, loc, cx.windows, wi + 1);
        return Failure(slice.error);
      }
      if slice.value.Some? {
        var f := slice.value.value;
        TagAllSnoc(cx.params, done, loc, f);
        done := done + [(loc, f)];
        all := all + TagFit(cx.params, loc, f);
      }
      wi := wi + 1;
    }
    assert cx.windows[..wi] == cx.windows;
    return Success(all);
  }

  /** Lines 361-442: the passes over the location at position `li`, resampled
      when bootstrapping. */
  method RunLocation(cx: Context, locRows: seq<Row>, loc: string, li: nat) returns (res: Result<seq<Tagged<string>>, DriverError>)
    ensures res == TagResult(cx.params, RunPasses(cx, AllPassRows(cx, locRows, li), loc))
  {
    ghost var passes := AllPassRows(cx, locRows, li);
    var n := Passes(cx.params);
    var all: seq<Tagged<string>> := [];
    ghost var done: seq<(string, Fit)> := [];
    var b := 0;
    while b < n
      invariant 0 <= b <= n
      invariant RunPasses(cx, passes[..b], loc) == Success(done)
      invariant all == TagAll(cx.params, done)
    {
      var passRows := PassRows(cx, locRows, li, b);
      assert passRows == passes[b];
      RunPassesStep(cx, passes, loc, b);
      var r := RunPass(cx, passRows, loc);
      if r.Failure? {
        PassesFailSticks(cx, passes, loc, b + 1);
        return Failure(r.error);
      }
      ghost var qs := RunWindows(cx, passRows, loc, cx.windows).value;
      TagAllAppend(cx.params, done, qs);
      done := done + qs;
      all := all + r.value;
      b := b + 1;
    }
    assert passes[..b] == passes;
    return Success(all);
  }

  /** Lines 352-442: appends to `all_deconv` location by location; the first
      failing slice stops the run. */
  method RunSlices(cx: Context, rows: seq<Row>, locs: seq<string>) returns (res: Result<seq<Tagged<string>>, DriverError>)
    ensures res == Deconvolve(cx, rows, locs)
  {
    var all: seq<Tagged<string>> := [];
    ghost var done: seq<(string, Fit)> := [];
    var li := 0;
    while li < |locs|
      invariant 0 <= li <= |locs|
      invariant RunLocations(cx, rows, locs[..li]) == Success(done)
      invariant all == TagAll(cx.params, done)
    {
      var loc := locs[li];
      var locRows := LocationRows(rows, loc, cx.noLoc);
      RunLocationsStep(cx, rows, locs, li);
      var r := RunLocation(cx, locRows, loc, li);
      if r.Failure? {
        LocationsFailSticks(cx, rows, locs, li + 1);
        return Failure(r.error);
      }
      ghost var qs := RunPasses(cx, AllPassRows(cx, locRows, li), loc).value;
      TagAllAppend(cx.params, done, qs);
      done := done + qs;
      all := all + r.value;
      li := li + 1;
    }
    assert locs[..li] == locs;
    return Success(all);
  }
}
