/**
 * The summary table printed after the whole log has been read: one row per
 * listed aircraft in address order, with its call sign, its first and last
 * sighting and six yes/no columns, followed by the number of aircraft.
 * Formatting of the times and the column layout are presentation and are
 * not modelled; a row carries the values that are printed.
 */
module Summary {
  import opened Wrappers
  import opened DictData
  import opened Ordering
  import opened MainLoop

  /** The yes/no columns of one row. */
  datatype Flags = Flags(coordinates: bool, course: bool, selectedAlt: bool,
                         altitudeDiff: bool, baroCorrection: bool, gnss: bool)

  datatype Row = Row(icao: Address, callsign: string, seen: Seen, flags: Flags)

  const NoCallsign := "N/A"

  /** The row of address `a`; a series counts as present only when it is not empty. */
  function RowOf(st: StoreState, a: Address): (r: Row)
    requires a in st.registry.times
    ensures r.icao == a && r.seen == st.registry.times[a]
    ensures a in st.profile.callsigns ==> r.callsign == st.profile.callsigns[a]
    ensures r.callsign == NoCallsign <==> a !in st.profile.callsigns || st.profile.callsigns[a] == NoCallsign
    ensures r.flags.coordinates <==> a in st.tracks.motion.positions && st.tracks.motion.positions[a] != []
    ensures r.flags.course <==> a in st.tracks.motion.courses && st.tracks.motion.courses[a] != []
    ensures r.flags.selectedAlt <==> a in st.profile.hasSelectedAlt
    ensures r.flags.altitudeDiff <==> a in st.tracks.settings.altitudeDifference && st.tracks.settings.altitudeDifference[a] != []
    ensures r.flags.baroCorrection <==> a in st.tracks.settings.baroCorrection && st.tracks.settings.baroCorrection[a] != []
    ensures r.flags.gnss <==> a in st.profile.hasGnss
  {
    Row(a, if a in st.profile.callsigns then st.profile.callsigns[a] else NoCallsign, st.registry.times[a],
        Flags(st.Positions(a) != [], st.Courses(a) != [], a in st.profile.hasSelectedAlt,
              st.AltitudeDifferences(a) != [], st.BaroCorrections(a) != [], a in st.profile.hasGnss))
  }

  /** The addresses of `order` that have sighting times, in that order (the `continue` of the loop). */
  function Listed(st: StoreState, order: seq<Address>): (r: seq<Address>)
    ensures |r| <= |order|
    ensures forall a :: a in r <==> a in order && a in st.registry.times
  {
    if order == [] then []
    else
      assert order == [order[0]] + order[1..];
      var rest := Listed(st, order[1..]);
      if order[0] in st.registry.times then [order[0]] + rest else rest
  }

  /** The table body: one row per listed address with times, in ascending address order. */
  function Table(st: StoreState): (rows: seq<Row>)
    ensures forall i :: 0 <= i < |rows| ==> rows[i].icao in st.registry.icaos && rows[i].icao in st.registry.times
  {
    var order := Listed(st, SortedList(st.registry.icaos));
    seq(|order|, i requires 0 <= i < |order| => RowOf(st, order[i]))
  }

  /** What the program prints after reading the log. */
  datatype Report =
    | NotFound(target: Address)                  // the filtered aircraft was never seen
    | Listing(rows: seq<Row>, total: nat)

  function MakeReport(st: StoreState, target: string): (r: Report)
    ensures r.NotFound? <==> target != "" && target !in st.registry.icaos
    ensures r.Listing? ==> r.total == |st.registry.icaos|
  {
    if target != "" && target !in st.registry.icaos then NotFound(target)
    else Listing(Table(st), |st.registry.icaos|)
  }

  /** When every address of `order` has times, none is skipped. */
  lemma {:induction false} ListedKeepsAll(st: StoreState, order: seq<Address>)
    requires forall a :: a in order ==> a in st.registry.times
    ensures Listed(st, order) == order
  {
    if order != [] {
      ListedKeepsAll(st, order[1..]);
    }
  }

  /** When every listed address has times, row `i` is the `i`-th address in ascending order. */
  lemma TableFollowsOrder(st: StoreState)
    requires st.registry.icaos <= st.registry.times.Keys
    ensures var rows, order := Table(st), SortedList(st.registry.icaos);
      |rows| == |order| && forall i :: 0 <= i < |rows| ==> rows[i].icao == order[i]
  {
    ListedKeepsAll(st, SortedList(st.registry.icaos));
  }

  /** Rows that follow a strictly sorted list of a set's members list each member once, in order. */
  lemma RowsFollowingSorted(rows: seq<Row>, order: seq<Address>, s: set<Address>)
    requires |rows| == |order| == |s| && StrictlySorted(order) && forall x :: x in order <==> x in s
    requires forall i :: 0 <= i < |rows| ==> rows[i].icao == order[i]
    ensures forall i :: 0 <= i < |rows| ==> rows[i].icao in s
    ensures forall a :: a in s ==> exists i :: 0 <= i < |rows| && rows[i].icao == a
    ensures forall i, j :: 0 <= i < j < |rows| ==> StrLess(rows[i].icao, rows[j].icao)
  {
    forall a | a in s
      ensures exists i :: 0 <= i < |rows| && rows[i].icao == a
    {
      var i :| 0 <= i < |order| && order[i] == a;
      assert rows[i].icao == a;
    }
  }

  /**
   * When the listed addresses are exactly those with sighting times (as the
   * ingestion loop keeps them) the table has exactly one row per listed
   * aircraft, in ascending address order, so it agrees with the printed total.
   */
  lemma TableComplete(st: StoreState)
    requires st.registry.icaos == st.registry.times.Keys
    ensures var rows := Table(st);
      && |rows| == |st.registry.icaos|
      && (forall i :: 0 <= i < |rows| ==> rows[i].icao in st.registry.icaos)
      && (forall a :: a in st.registry.icaos ==> exists i :: 0 <= i < |rows| && rows[i].icao == a)
      && (forall i, j :: 0 <= i < j < |rows| ==> StrLess(rows[i].icao, rows[j].icao))
  {
    TableFollowsOrder(st);
    RowsFollowingSorted(Table(st), SortedList(st.registry.icaos), st.registry.icaos);
  }

  /**
   * Under an aircraft filter the report is either "not found" (the aircraft
   * sent no accepted record) or a one-row table for that aircraft.
   */
  lemma FilteredReport(st: StoreState, target: string)
    requires Consistent(st, target) && target != ""
    ensures var r := MakeReport(st, target);
      && (r.NotFound? <==> st.registry.icaos == {})
      && (r.Listing? ==> r.total == 1 && |r.rows| == 1 && r.rows[0].icao == target)
  {
    if target in st.registry.icaos {
      assert st.registry.icaos == {target};
      TableComplete(st);
    }
  }

  /** Every aircraft with a resolved position is listed and shows "yes" under coordinates. */
  lemma PositionsShown(st: StoreState, target: string, a: Address)
    requires Consistent(st, target) && st.Positions(a) != []
    ensures exists i :: 0 <= i < |Table(st)| && Table(st)[i].icao == a && Table(st)[i].flags.coordinates
  {
    assert a in st.registry.icaos;
    TableComplete(st);
  }

  /**
   * Later records never turn a "yes" into a "no", never change a first
   * sighting and never drop a row.
   */
  lemma RowGrows(st: StoreState, r: StoreState, a: Address)
    requires Grows(st, r) && a in st.registry.times
    ensures a in r.registry.times
    ensures RowOf(r, a).seen.first == RowOf(st, a).seen.first
    ensures var f, g := RowOf(st, a).flags, RowOf(r, a).flags;
      && (f.coordinates ==> g.coordinates) && (f.course ==> g.course) && (f.selectedAlt ==> g.selectedAlt)
      && (f.altitudeDiff ==> g.altitudeDiff) && (f.baroCorrection ==> g.baroCorrection) && (f.gnss ==> g.gnss)
  {
    var m, m' := st.tracks, r.tracks;
    if a in m.motion.positions {
      assert m.motion.positions[a] <= m'.motion.positions[a];
    }
    if a in m.motion.courses {
      assert m.motion.courses[a] <= m'.motion.courses[a];
    }
    if a in m.settings.altitudeDifference {
      assert m.settings.altitudeDifference[a] <= m'.settings.altitudeDifference[a];
    }
    if a in m.settings.baroCorrection {
      assert m.settings.baroCorrection[a] <= m'.settings.baroCorrection[a];
    }
  }
}
