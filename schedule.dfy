/** Dates and the variant schedule of the command-line driver
    (lollipop/cli/deconvolute.py, lines 212-295 and 378-388): the automatic
    switch to `no_date`, dummy dates per sample, the merge of the `var_dates`
    schedule with `variants_list`, the date intervals built from the schedule
    keys and their order check, and the half-open window filter. */
module Schedule {
  import opened Common
  import opened TallyModel

  /** 1999-12-01 in days since 1970-01-01: the first dummy date. */
  const DummyBase: int := 10926
  /** 2020-01-01 in days since 1970-01-01: the default first schedule key. */
  const DefaultStart: int := 18262

  // ---------------------------------------------------------------------
  // no_date mode

  /** Lines 213-215: no `date` column, or every date is NaT (vacuously so for an empty table). */
  predicate NoDates(t: Tally) {
    !t.hasDate || forall x :: x in t.rows ==> x.date.None?
  }

  function EffectiveNoDate(t: Tally, noDate: bool): (r: bool)
    ensures r <==> noDate || !t.hasDate || forall x :: x in t.rows ==> x.date.None?
  {
    noDate || NoDates(t)
  }

  function Samples(rows: seq<Row>): (r: seq<string>)
    ensures |r| == |rows|
    ensures forall i :: 0 <= i < |rows| ==> r[i] == rows[i].sample
  {
    seq(|rows|, i requires 0 <= i < |rows| => rows[i].sample)
  }

  /** `df_tally["sample"].unique()`: the samples in order of first appearance. */
  function SampleOrder(rows: seq<Row>): (r: seq<string>)
    ensures forall s :: s in r <==> exists x :: x in rows && x.sample == s
    ensures NoDuplicates(r)
  {
    var ss := Samples(rows);
    assert forall s :: s in ss <==> exists x :: x in rows && x.sample == s by {
      forall s | s in ss ensures exists x :: x in rows && x.sample == s {
        var i :| 0 <= i < |ss| && ss[i] == s;
        assert rows[i] in rows;
      }
      forall s | exists x :: x in rows && x.sample == s ensures s in ss {
        var x :| x in rows && x.sample == s;
        var i :| 0 <= i < |rows| && rows[i] == x;
        assert ss[i] == s;
      }
    }
    Distinct(ss)
  }

  /** Lines 224-235: the i-th distinct sample is dated 1999-12-01 plus i days. */
  function AssignDummyDates(t: Tally): (r: Tally)
    ensures r == t.(hasDate := true, rows := r.rows)
    ensures |r.rows| == |t.rows|
    ensures forall i :: 0 <= i < |t.rows| ==>
              t.rows[i].sample in SampleOrder(t.rows)
              && r.rows[i] == t.rows[i].(date := Some(DummyBase + IndexOf(SampleOrder(t.rows), t.rows[i].sample)))
  {
    var order := SampleOrder(t.rows);
    t.(hasDate := true,
       rows := seq(|t.rows|, i requires 0 <= i < |t.rows| =>
         assert t.rows[i] in t.rows;
         t.rows[i].(date := Some(DummyBase + IndexOf(order, t.rows[i].sample)))))
  }

  lemma IndexOfInjective<T>(s: seq<T>, a: T, b: T)
    requires a in s && b in s && IndexOf(s, a) == IndexOf(s, b)
    ensures a == b
  {
  }

  /** Two rows get the same dummy date exactly when they come from the same
      sample, and the dates run from 1999-12-01 over one day per distinct sample. */
  lemma DummyDatesPerSample(t: Tally)
    ensures var r := AssignDummyDates(t);
      && (forall i, j :: 0 <= i < |t.rows| && 0 <= j < |t.rows| ==>
            (r.rows[i].date == r.rows[j].date <==> t.rows[i].sample == t.rows[j].sample))
      && (forall i :: 0 <= i < |t.rows| ==>
            r.rows[i].date.Some? && DummyBase <= r.rows[i].date.value < DummyBase + |SampleOrder(t.rows)|)
  {
    var r := AssignDummyDates(t);
    var order := SampleOrder(t.rows);
    forall i, j | 0 <= i < |t.rows| && 0 <= j < |t.rows| && r.rows[i].date == r.rows[j].date
      ensures t.rows[i].sample == t.rows[j].sample
    {
      IndexOfInjective(order, t.rows[i].sample, t.rows[j].sample);
    }
  }

  // ---------------------------------------------------------------------
  // The variant schedule

  /** One `var_dates` entry: from `start` on, deconvolute for `variants`. */
  datatype Entry = Entry(start: int, variants: seq<string>)

  /** `all_var_dates`: every variant named anywhere in the schedule. */
  function ScheduleVariants(sched: seq<Entry>): (r: set<string>)
    ensures forall v :: v in r <==> exists e :: e in sched && v in e.variants
  {
    set e, v | e in sched && v in e.variants :: v
  }

  /** `list(s)` for a set of strings: every element once, in some order. */
  method SetToSeq(s: set<string>) returns (r: seq<string>)
    ensures forall x :: x in r <==> x in s
    ensures NoDuplicates(r)
    ensures |r| == |s|
  {
    r := [];
    var rest := s;
    while rest != {}
      invariant rest <= s
      invariant forall x :: x in r <==> x in s && x !in rest
      invariant NoDuplicates(r)
      invariant |r| + |rest| == |s|
      decreases |rest|
    {
      var x :| x in rest;
      r := r + [x];
      rest := rest - {x};
    }
  }

  /** `variants` is a variant list lines 238-282 can produce: with a schedule,
      the listed variants (if any) followed by the schedule-only ones, each once;
      without one, the list itself or the distinct `variants_pangolin` values.
      Only the order `list(set(...))` gives them is left open. */
  ghost predicate Reconciled(list: Option<seq<string>>, sched: Option<seq<Entry>>,
                             pangolin: map<string, string>, variants: seq<string>) {
    && (sched.Some? && list.Some? ==>
          && |list.value| <= |variants| && variants[..|list.value|] == list.value
          && NoDuplicates(variants[|list.value|..])
          && forall v :: v in variants[|list.value|..] <==> v in ScheduleVariants(sched.value) && v !in list.value)
    && (sched.Some? && list.None? ==>
          NoDuplicates(variants) && forall v :: v in variants <==> v in ScheduleVariants(sched.value))
    && (sched.None? && list.Some? ==> variants == list.value)
    && (sched.None? && list.None? ==>
          NoDuplicates(variants) && forall v :: v in variants <==> v in pangolin.Values)
  }

  /** A reconciled list names every variant of the schedule. */
  lemma ReconciledCovers(list: Option<seq<string>>, sched: seq<Entry>, pangolin: map<string, string>, variants: seq<string>)
    requires Reconciled(list, Some(sched), pangolin, variants)
    ensures forall v :: v in ScheduleVariants(sched) ==> v in variants
  {
    if list.Some? {
      var n := |list.value|;
      forall v | v in ScheduleVariants(sched) ensures v in variants {
        if v in list.value {
          var i :| 0 <= i < n && list.value[i] == v;
          assert variants[i] == variants[..n][i];
        } else {
          var j :| 0 <= j < |variants[n..]| && variants[n..][j] == v;
          assert variants[n + j] == v;
        }
      }
    }
  }

  /** Lines 238-282: the variant list and the schedule after reconciliation.
      With a schedule, listed variants come first and the schedule-only ones are
      appended; without one, a single window starts at 1999-12-01 (`no_date`) or
      at the configured start date (2020-01-01 by default). */
  method ReconcileVariants(list: Option<seq<string>>, sched: Option<seq<Entry>>,
                           pangolin: map<string, string>, noDate: bool, startDate: Option<int>)
    returns (variants: seq<string>, windows: seq<Entry>)
    ensures sched.Some? ==> windows == sched.value
    ensures sched.Some? ==> forall v :: v in ScheduleVariants(sched.value) ==> v in variants
    ensures sched.Some? && list.Some? ==>
              && |list.value| <= |variants| && variants[..|list.value|] == list.value
              && NoDuplicates(variants[|list.value|..])
              && forall v :: v in variants[|list.value|..] <==> v in ScheduleVariants(sched.value) && v !in list.value
    ensures sched.Some? && list.None? ==>
              NoDuplicates(variants) && forall v :: v in variants <==> v in ScheduleVariants(sched.value)
    ensures sched.None? && list.Some? ==> variants == list.value
    ensures sched.None? && list.None? ==>
              NoDuplicates(variants) && forall v :: v in variants <==> v in pangolin.Values
    ensures sched.None? ==>
              windows == [Entry(if noDate then DummyBase else startDate.GetOr(DefaultStart), variants)]
    ensures Reconciled(list, sched, pangolin, variants)
  {
    if sched.Some? {
      var all := ScheduleVariants(sched.value);
      if list.None? {
        variants := SetToSeq(all);
      } else {
        var inList := set v | v in list.value;
        var notOnList := SetToSeq(all - inList);
        variants := list.value + notOnList;
        assert variants[..|list.value|] == list.value;
        assert variants[|list.value|..] == notOnList;
      }
      windows := sched.value;
    } else {
      if list.None? {
        variants := SetToSeq(pangolin.Values);
      } else {
        variants := list.value;
      }
      var start := if noDate then DummyBase else startDate.GetOr(DefaultStart);
      windows := [Entry(start, variants)];
    }
  }

  // ---------------------------------------------------------------------
  // Date intervals

  /** A window `[start, end)`; `end` is None for the last one, which is open. */
  datatype Window = Window(start: int, end: Option<int>, variants: seq<string>)

  /** Line 286: each key is paired with the next one, the last with None. */
  function Intervals(s: seq<Entry>): (w: seq<Window>)
    ensures |w| == |s|
    ensures forall i :: 0 <= i < |s| ==> w[i].start == s[i].start && w[i].variants == s[i].variants
    ensures forall i :: 0 <= i < |s| - 1 ==> w[i].end == Some(s[i + 1].start)
    ensures |s| > 0 ==> w[|s| - 1].end.None?
  {
    seq(|s|, i requires 0 <= i < |s| =>
      Window(s[i].start, if i + 1 < |s| then Some(s[i + 1].start) else None, s[i].variants))
  }

  predicate StrictlyAscending(s: seq<Entry>) {
    forall i :: 0 <= i < |s| - 1 ==> s[i].start < s[i + 1].start
  }

  datatype ScheduleError =
    | OutOfOrderDates(from: int, to: int)  // the assertion at lines 290-292
    | UndefinedName(name: string)          // NameError raised while formatting its message

  /** Lines 287-292 as written: the assertion message names `variants_date`,
      which is not defined, so a failing check raises NameError. */
  function CheckOrderAsWritten(w: seq<Window>, noDate: bool): Outcome<ScheduleError> {
    match CheckOrder(w, noDate)
    case Pass => Pass
    case Fail(_) => Fail(UndefinedName("variants_date"))
  }

  /** Lines 287-292 as intended: the first bounded window whose start is not
      before its end is reported. In `no_date` mode nothing is checked. */
  function CheckOrder(w: seq<Window>, noDate: bool): (r: Outcome<ScheduleError>)
    ensures noDate ==> r.Pass?
    ensures r.Pass? <==> noDate || forall i :: 0 <= i < |w| && w[i].end.Some? ==> w[i].start < w[i].end.value
    ensures r.Fail? ==> exists i :: 0 <= i < |w| && w[i].end.Some? && r.error == OutOfOrderDates(w[i].start, w[i].end.value)
  {
    if noDate || |w| == 0 then Pass
    else if w[0].end.Some? && !(w[0].start < w[0].end.value) then Fail(OutOfOrderDates(w[0].start, w[0].end.value))
    else
      var rest := CheckOrder(w[1..], noDate);
      assert forall i :: 1 <= i < |w| ==> w[i] == w[1..][i - 1];
      if rest.Fail? then
        var j :| 0 <= j < |w[1..]| && w[1..][j].end.Some? && rest.error == OutOfOrderDates(w[1..][j].start, w[1..][j].end.value);
        assert w[j + 1] == w[1..][j];
        rest
      else rest
  }

  /** Outside `no_date`, the intervals pass the check exactly when the schedule
      keys are strictly ascending. */
  lemma OrderCheckIffAscending(s: seq<Entry>)
    ensures CheckOrder(Intervals(s), false).Pass? <==> StrictlyAscending(s)
  {
    var w := Intervals(s);
    if StrictlyAscending(s) {
      forall i | 0 <= i < |w| && w[i].end.Some? ensures w[i].start < w[i].end.value {
        assert i < |s| - 1;
      }
    } else {
      var i :| 0 <= i < |s| - 1 && !(s[i].start < s[i + 1].start);
      assert w[i].end == Some(s[i + 1].start);
    }
  }

  /** The code as written fails exactly when the intended check fails, but with
      a NameError instead of the assertion's message. */
  lemma OrderMessageDiscrepancy(w: seq<Window>, noDate: bool)
    ensures CheckOrderAsWritten(w, noDate).Pass? <==> CheckOrder(w, noDate).Pass?
    ensures CheckOrder(w, noDate).Fail? ==>
              CheckOrderAsWritten(w, noDate) == Fail(UndefinedName("variants_date"))
              && CheckOrder(w, noDate).error.OutOfOrderDates?
  {
  }

  /** A concrete schedule that shows it: 2021-02-01 listed before 2021-01-01. */
  lemma OrderMessageExample()
    ensures var s := [Entry(18659, ["B.1.1.7"]), Entry(18628, ["B.1.1.7", "B.1.351"])];
      && CheckOrder(Intervals(s), false) == Fail(OutOfOrderDates(18659, 18628))
      && CheckOrderAsWritten(Intervals(s), false) == Fail(UndefinedName("variants_date"))
  {
    var s := [Entry(18659, ["B.1.1.7"]), Entry(18628, ["B.1.1.7", "B.1.351"])];
    var w := Intervals(s);
    assert w[0] == Window(18659, Some(18628), ["B.1.1.7"]);
  }

  // ---------------------------------------------------------------------
  // Window filtering

  /** Lines 380-385: `between(min, max, inclusive="left")`, or `>= min` for the
      open last window; a NaT date is in no window. */
  predicate InWindow(d: Option<int>, w: Window) {
    d.Some? && w.start <= d.value && (w.end.None? || d.value < w.end.value)
  }

  /** Lines 378-388: the rows of a slice; in `no_date` mode every row. */
  function WindowRows(rows: seq<Row>, w: Window, noDate: bool): (r: seq<Row>)
    ensures noDate ==> r == rows
    ensures !noDate ==> forall x :: x in r <==> x in rows && InWindow(x.date, w)
    ensures IsSubsequence(r, rows)
  {
    if noDate then
      SubsequenceReflexive(rows);
      rows
    else Filter(rows, (x: Row) => InWindow(x.date, w))
  }

  /** The index of the last key at or before `d`, searching down from `k`. */
  function LastStartAtMost(s: seq<Entry>, d: int, k: nat): (i: nat)
    requires k < |s| && s[0].start <= d
    ensures i <= k && s[i].start <= d
    ensures forall j :: i < j <= k ==> s[j].start > d
  {
    if k == 0 || s[k].start <= d then k else LastStartAtMost(s, d, k - 1)
  }

  /** With ascending keys, a date falls into some interval exactly when it is on
      or after the first key. */
  lemma WindowsCover(s: seq<Entry>, d: int)
    requires StrictlyAscending(s)
    ensures var w := Intervals(s);
      (exists i :: 0 <= i < |w| && InWindow(Some(d), w[i])) <==> |s| > 0 && s[0].start <= d
  {
    var w := Intervals(s);
    if |s| > 0 && s[0].start <= d {
      var i := LastStartAtMost(s, d, |s| - 1);
      if i < |s| - 1 {
        assert w[i].end == Some(s[i + 1].start);
      }
      assert InWindow(Some(d), w[i]);
    } else if exists i :: 0 <= i < |w| && InWindow(Some(d), w[i]) {
      var i :| 0 <= i < |w| && InWindow(Some(d), w[i]);
      if 0 < i {
        AscendingFrom(s, 0, i);
      }
    }
  }

  /** With ascending keys, no date falls into two intervals. */
  lemma WindowsDisjoint(s: seq<Entry>, d: int, i: nat, j: nat)
    requires StrictlyAscending(s)
    requires i < j < |s|
    ensures !(InWindow(Some(d), Intervals(s)[i]) && InWindow(Some(d), Intervals(s)[j]))
  {
    var w := Intervals(s);
    var bound := s[i + 1].start;
    assert w[i].end == Some(bound);
    assert w[j].start == s[j].start;
    if i + 1 < j {
      AscendingFrom(s, i + 1, j);
    }
    assert bound <= w[j].start;
    assert InWindow(Some(d), w[i]) ==> d < bound;
    assert InWindow(Some(d), w[j]) ==> bound <= d;
  }

  /** Together: each date on or after the first key is in exactly one interval. */
  lemma WindowsPartition(s: seq<Entry>, d: int)
    requires StrictlyAscending(s)
    ensures var w := Intervals(s);
      && ((exists i :: 0 <= i < |w| && InWindow(Some(d), w[i])) <==> |s| > 0 && s[0].start <= d)
      && forall i, j :: 0 <= i < |w| && 0 <= j < |w| && InWindow(Some(d), w[i]) && InWindow(Some(d), w[j]) ==> i == j
  {
    WindowsCover(s, d);
    var w := Intervals(s);
    forall i, j | 0 <= i < |w| && 0 <= j < |w| && InWindow(Some(d), w[i]) && InWindow(Some(d), w[j])
      ensures i == j
    {
      if i < j {
        WindowsDisjoint(s, d, i, j);
      } else if j < i {
        WindowsDisjoint(s, d, j, i);
      }
    }
  }

  lemma {:induction false} AscendingFrom(s: seq<Entry>, i: nat, j: nat)
    requires StrictlyAscending(s) && i < j < |s|
    ensures s[i].start < s[j].start
    decreases j - i
  {
    if i + 1 < j {
      AscendingFrom(s, i + 1, j);
    }
  }
}
