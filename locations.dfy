/** Location handling of the command-line driver (lollipop/cli/deconvolute.py,
    lines 166-209): the fallbacks when the tally has no `location` column, the
    `no_loc` mode that treats all input as one location, and the choice or
    validation of the list of locations to deconvolute. */
module Locations {
  import opened Common
  import opened TallyModel

  datatype LocationError =
    | LenOfNone                       // `len(locations_list)` evaluated on None (TypeError)
    | NoLocationColumn                // no location, no code, no unique fallback: `sys.exit(1)`
    | BadLocations(bad: set<string>)  // listed locations that occur in no row

  /** The table, the location list and the `no_loc` flag after resolution. */
  datatype Resolved = Resolved(tally: Tally, locations: seq<string>, noLoc: bool)

  /** The name every row carries in `no_loc` mode. */
  const SingleLocation: string := "location"

  /** `df_tally["location"] = df_tally["location_code"]`. */
  function CopyCodes(t: Tally): (r: Tally)
    ensures r.hasLocation && |r.rows| == |t.rows|
    ensures forall i :: 0 <= i < |t.rows| ==> r.rows[i] == t.rows[i].(location := t.rows[i].locationCode)
    ensures r == t.(hasLocation := true, rows := r.rows)
  {
    t.(hasLocation := true,
       rows := seq(|t.rows|, i requires 0 <= i < |t.rows| => t.rows[i].(location := t.rows[i].locationCode)))
  }

  /** `df_tally["location"] = name`: every row gets the same location. */
  function StampAll(t: Tally, name: string): (r: Tally)
    ensures r.hasLocation && |r.rows| == |t.rows|
    ensures forall i :: 0 <= i < |t.rows| ==> r.rows[i] == t.rows[i].(location := Some(name))
    ensures r == t.(hasLocation := true, rows := r.rows)
  {
    t.(hasLocation := true,
       rows := seq(|t.rows|, i requires 0 <= i < |t.rows| => t.rows[i].(location := Some(name))))
  }

  /** The strings that occur in the location column (NaN cells excluded). */
  function RowLocations(rows: seq<Row>): (r: set<string>)
    ensures forall l :: l in r <==> exists x :: x in rows && x.location == Some(l)
  {
    set x | x in rows && x.location.Some? :: x.location.value
  }

  /** The observed locations, without "" and NaN, in order of first appearance. */
  function NamedLocations(rows: seq<Row>): (r: seq<string>)
    ensures forall l :: l in r <==> l != "" && exists x :: x in rows && x.location == Some(l)
  {
    if |rows| == 0 then []
    else
      var rest := NamedLocations(rows[1..]);
      assert forall x :: x in rows[1..] ==> x in rows;
      assert rows == [rows[0]] + rows[1..];
      match rows[0].location
      case Some(l) => if l != "" then [l] + rest else rest
      case None => rest
  }

  function AutoLocations(rows: seq<Row>): (r: seq<string>)
    ensures forall l :: l in r <==> l in RowLocations(rows) && l != ""
    ensures NoDuplicates(r)
  {
    Distinct(NamedLocations(rows))
  }

  /** Lines 166-184 as written: `len(locations_list) == 1` is evaluated before
      the None test, so a missing list raises TypeError instead of switching
      `no_loc` on. */
  function FallbackAsWritten(t: Tally, list: Option<seq<string>>, noLoc: bool): Result<(Tally, bool), LocationError> {
    if !noLoc && !t.hasLocation then
      if t.hasLocationCode then Success((CopyCodes(t), noLoc))
      else if list.None? then Failure(LenOfNone)
      else if |list.value| == 1 then Success((StampAll(t, list.value[0]), noLoc))
      else Failure(NoLocationColumn)
    else Success((t, noLoc))
  }

  /** Lines 166-184 with the None test first, as the branch at line 175 intends. */
  function Fallback(t: Tally, list: Option<seq<string>>, noLoc: bool): (r: Result<(Tally, bool), LocationError>)
    ensures r.Success? ==> r.value.0.hasLocation || r.value.1
    ensures r.Failure? <==> !noLoc && !t.hasLocation && !t.hasLocationCode && list.Some? && |list.value| != 1
    ensures r.Failure? ==> r.error == NoLocationColumn
  {
    if !noLoc && !t.hasLocation then
      if t.hasLocationCode then Success((CopyCodes(t), noLoc))
      else if list.None? then Success((t, true))
      else if |list.value| == 1 then Success((StampAll(t, list.value[0]), noLoc))
      else Failure(NoLocationColumn)
    else Success((t, noLoc))
  }

  /** Lines 186-209, given the outcome of the fallbacks. */
  function Finish(fb: Result<(Tally, bool), LocationError>, list: Option<seq<string>>): Result<Resolved, LocationError> {
    match fb
    case Failure(e) => Failure(e)
    case Success((t1, nl)) =>
      var t2 := if nl then StampAll(t1, SingleLocation) else t1;
      var l2 := if nl then Some([SingleLocation]) else list;
      if l2.None? then Success(Resolved(t2, AutoLocations(t2.rows), nl))
      else
        var bad := set l | l in l2.value && l !in RowLocations(t2.rows);
        if bad == {} then Success(Resolved(t2, l2.value, nl)) else Failure(BadLocations(bad))
  }

  function ResolveAsWritten(t: Tally, list: Option<seq<string>>, noLoc: bool): Result<Resolved, LocationError> {
    Finish(FallbackAsWritten(t, list, noLoc), list)
  }

  function Resolve(t: Tally, list: Option<seq<string>>, noLoc: bool): Result<Resolved, LocationError> {
    Finish(Fallback(t, list, noLoc), list)
  }

  // ---------------------------------------------------------------------
  // Properties

  /** Resolution only ever rewrites the location column. */
  lemma ResolveKeepsRows(t: Tally, list: Option<seq<string>>, noLoc: bool)
    requires Resolve(t, list, noLoc).Success?
    ensures var r := Resolve(t, list, noLoc).value;
      && r.tally.hasLocation
      && |r.tally.rows| == |t.rows|
      && forall i :: 0 <= i < |t.rows| ==> r.tally.rows[i] == t.rows[i].(location := r.tally.rows[i].location)
  {
  }

  /** With `no_loc`, every row is at "location" and that is the only location. */
  lemma NoLocSingle(t: Tally, list: Option<seq<string>>)
    ensures Resolve(t, list, true).Success? <==> |t.rows| > 0
    ensures Resolve(t, list, true).Failure? ==> Resolve(t, list, true).error == BadLocations({SingleLocation})
    ensures Resolve(t, list, true).Success? ==>
              var r := Resolve(t, list, true).value;
              && r.locations == [SingleLocation] && r.noLoc
              && forall x :: x in r.tally.rows ==> x.location == Some(SingleLocation)
  {
    var t2 := StampAll(t, SingleLocation);
    if |t.rows| > 0 {
      assert t2.rows[0] in t2.rows;
      assert SingleLocation in RowLocations(t2.rows);
      assert (set l | l in [SingleLocation] && l !in RowLocations(t2.rows)) == {};
    } else {
      assert (set l | l in [SingleLocation] && l !in RowLocations(t2.rows)) == {SingleLocation};
    }
  }

  /** Without a list (and with a location column), the locations are exactly the
      observed non-empty names, each once. */
  lemma AutoMode(t: Tally)
    requires t.hasLocation
    ensures Resolve(t, None, false).Success?
    ensures var r := Resolve(t, None, false).value;
      && r.tally == t && !r.noLoc && NoDuplicates(r.locations)
      && forall l :: l in r.locations <==> l != "" && exists x :: x in t.rows && x.location == Some(l)
  {
  }

  /** With a list (and a location column), resolution succeeds exactly when every
      listed location occurs in some row, and then the list is kept as given. */
  lemma ExplicitMode(t: Tally, list: seq<string>)
    requires t.hasLocation
    ensures Resolve(t, Some(list), false).Success? <==> forall l :: l in list ==> l in RowLocations(t.rows)
    ensures Resolve(t, Some(list), false).Success? ==> Resolve(t, Some(list), false).value == Resolved(t, list, false)
    ensures Resolve(t, Some(list), false).Failure? ==>
              Resolve(t, Some(list), false).error == BadLocations(set l | l in list && l !in RowLocations(t.rows))
  {
    var bad := set l | l in list && l !in RowLocations(t.rows);
    if !forall l :: l in list ==> l in RowLocations(t.rows) {
      var l :| l in list && l !in RowLocations(t.rows);
      assert l in bad;
    }
  }

  /** Without a location column: the codes stand in when present; otherwise a
      one-element list names the location of every row. */
  lemma MissingColumnFallbacks(t: Tally, list: Option<seq<string>>)
    requires !t.hasLocation
    ensures t.hasLocationCode ==> Fallback(t, list, false) == Success((CopyCodes(t), false))
    ensures !t.hasLocationCode && list.Some? && |list.value| == 1 ==>
              Fallback(t, list, false) == Success((StampAll(t, list.value[0]), false))
    ensures !t.hasLocationCode && list.None? ==> Fallback(t, list, false) == Success((t, true))
    ensures !t.hasLocationCode && list.Some? && |list.value| != 1 ==> Resolve(t, list, false) == Failure(NoLocationColumn)
  {
  }

  /** Both versions agree except when the location column, the codes and the
      list are all missing: there the code as written fails with a TypeError,
      while the intended branch switches to `no_loc`. */
  lemma LenOfNoneDiscrepancy(t: Tally, list: Option<seq<string>>, noLoc: bool)
    ensures !(!noLoc && !t.hasLocation && !t.hasLocationCode && list.None?) ==>
              ResolveAsWritten(t, list, noLoc) == Resolve(t, list, noLoc)
    ensures !noLoc && !t.hasLocation && !t.hasLocationCode && list.None? ==>
              && ResolveAsWritten(t, list, noLoc) == Failure(LenOfNone)
              && Resolve(t, list, noLoc) == Resolve(t, list, true)
  {
  }

  /** A concrete input that shows the discrepancy: one row, no location
      columns, no list. */
  lemma LenOfNoneExample()
    ensures var row := Row("s1", None, None, None, Some(18262), Some(0.5 as real), 1, "A", "1A", map[], 0, 0);
      var t := Tally(true, true, false, false, true, {}, [row]);
      && ResolveAsWritten(t, None, false) == Failure(LenOfNone)
      && Resolve(t, None, false).Success?
      && Resolve(t, None, false).value.locations == [SingleLocation]
  {
    var row := Row("s1", None, None, None, Some(18262), Some(0.5 as real), 1, "A", "1A", map[], 0, 0);
    var t := Tally(true, true, false, false, true, {}, [row]);
    NoLocSingle(t, None);
  }
}
