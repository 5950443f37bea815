/**
 * The viewer's computations: the message-interval histogram of one arrival
 * series, the nearest-position search used to anchor heading vectors, and
 * the index navigation between aircraft and plot modes. Drawing is not
 * modelled; a histogram is described by the numbers it shows.
 */
module IcaoPlots {
  import opened Wrappers
  import opened DictData
  import opened Ordering

  // ---------------------------------------------------------------------------
  // Intervals between messages
  // ---------------------------------------------------------------------------

  /** `np.diff(timestamps) * 1000`: the gaps between neighbours, in milliseconds. */
  function Diffs(s: seq<real>): (r: seq<real>)
    ensures |r| == if s == [] then 0 else |s| - 1
    ensures Ascending(s) ==> forall i :: 0 <= i < |r| ==> r[i] >= 0.0
  {
    if |s| <= 1 then []
    else
      assert Ascending(s) ==> s[0] <= s[1] && Ascending(s[1..]);
      [(s[1] - s[0]) * 1000.0] + Diffs(s[1..])
  }

  /** `intervals[intervals >= 0]`. */
  function NonNegative(xs: seq<real>): (r: seq<real>)
    ensures |r| <= |xs|
    ensures forall x :: x in r <==> x in xs && x >= 0.0
    ensures (forall i :: 0 <= i < |xs| ==> xs[i] >= 0.0) ==> r == xs
  {
    if xs == [] then []
    else
      assert xs == [xs[0]] + xs[1..];
      var rest := NonNegative(xs[1..]);
      if xs[0] >= 0.0 then [xs[0]] + rest else rest
  }

  /** The intervals of a timestamp series: sorted, differenced, scaled, negatives dropped. */
  function Intervals(ts: seq<real>): (r: seq<real>)
    ensures forall x :: x in r ==> x >= 0.0
  {
    NonNegative(Diffs(Sort(ts)))
  }

  /**
   * Sorting first makes every gap non-negative, so the filter drops nothing:
   * n timestamps give exactly n - 1 intervals.
   */
  lemma IntervalCount(ts: seq<real>)
    ensures |Intervals(ts)| == if ts == [] then 0 else |ts| - 1
  {
    var s := Sort(ts);
    assert |s| == |multiset(s)| == |multiset(ts)| == |ts|;
  }

  // ---------------------------------------------------------------------------
  // Left, middle and right of the expected band
  // ---------------------------------------------------------------------------

  datatype Band = Left | Middle | Right

  /** Which of the three bars an interval falls into. */
  function BandOf(x: real, low: real, high: real): (b: Band)
    ensures b == Left <==> x < low
    ensures b == Middle <==> low <= x <= high
    ensures b == Right <==> x > high && x >= low
  {
    if x < low then Left else if x <= high then Middle else Right
  }

  /** The intervals that fall into band `b`, in order. */
  function InBand(xs: seq<real>, b: Band, low: real, high: real): (r: seq<real>)
    ensures |r| <= |xs|
    ensures forall x :: x in r <==> x in xs && BandOf(x, low, high) == b
  {
    if xs == [] then []
    else
      assert xs == [xs[0]] + xs[1..];
      var rest := InBand(xs[1..], b, low, high);
      if BandOf(xs[0], low, high) == b then [xs[0]] + rest else rest
  }

  /** The three bands split the intervals: every one lands in exactly one band. */
  lemma {:induction false} BandsPartition(xs: seq<real>, low: real, high: real)
    ensures |InBand(xs, Left, low, high)| + |InBand(xs, Middle, low, high)| + |InBand(xs, Right, low, high)| == |xs|
    ensures multiset(InBand(xs, Left, low, high)) + multiset(InBand(xs, Middle, low, high))
            + multiset(InBand(xs, Right, low, high)) == multiset(xs)
  {
    if xs != [] {
      BandsPartition(xs[1..], low, high);
      assert xs == [xs[0]] + xs[1..];
    }
  }

  // ---------------------------------------------------------------------------
  // Extremes
  // ---------------------------------------------------------------------------

  /** `intervals.min()`. */
  function Minimum(xs: seq<real>): (m: real)
    requires xs != []
    ensures m in xs && forall x :: x in xs ==> m <= x
  {
    if |xs| == 1 then xs[0]
    else
      assert xs == [xs[0]] + xs[1..];
      var rest := Minimum(xs[1..]);
      if xs[0] <= rest then xs[0] else rest
  }

  /** `intervals.max()`. */
  function Maximum(xs: seq<real>): (m: real)
    requires xs != []
    ensures m in xs && forall x :: x in xs ==> x <= m
  {
    if |xs| == 1 then xs[0]
    else
      assert xs == [xs[0]] + xs[1..];
      var rest := Maximum(xs[1..]);
      if xs[0] >= rest then xs[0] else rest
  }

  // ---------------------------------------------------------------------------
  // Histogram modes
  // ---------------------------------------------------------------------------

  datatype HistMode =
    | Reg05 | Reg06High | Reg06Low | Reg08 | Reg09
    | Reg61Status | Reg61Emergency | Reg61ModeChange | Reg61TcasRa
    | Reg62 | Reg65Air | Reg65Surface | Df11

  /** The expected interval in milliseconds, the accepted deviation, and the series shown. */
  datatype HistParams = HistParams(center: int, dev: int, source: Category)

  function Params(m: HistMode): (p: HistParams)
    ensures 0 < p.dev < p.center
  {
    match m
    case Reg05 => HistParams(500, 100, AirbornePos)
    case Reg06High => HistParams(500, 100, SurfacePos)
    case Reg06Low => HistParams(5000, 200, SurfacePos)
    case Reg08 => HistParams(5000, 200, Ident)
    case Reg09 => HistParams(500, 100, Velocity)
    case Reg61Status => HistParams(5000, 200, Status)
    case Reg61Emergency => HistParams(800, 100, Emergency)
    case Reg61ModeChange => HistParams(800, 100, ModeChange)
    case Reg61TcasRa => HistParams(800, 100, TcasRa)
    case Reg62 => HistParams(1250, 50, TargetState)
    case Reg65Air => HistParams(2500, 100, AirOpStatus)
    case Reg65Surface => HistParams(2500, 100, SurfOpStatus)
    case Df11 => HistParams(1000, 200, Acquisition)
  }

  /** Every arrival series the loop collects has a histogram. */
  lemma EveryCategoryShown(c: Category)
    ensures exists m :: Params(m).source == c
  {
    match c
    case AirbornePos => assert Params(Reg05).source == c;
    case SurfacePos => assert Params(Reg06High).source == c;
    case Ident => assert Params(Reg08).source == c;
    case Velocity => assert Params(Reg09).source == c;
    case Status => assert Params(Reg61Status).source == c;
    case Emergency => assert Params(Reg61Emergency).source == c;
    case ModeChange => assert Params(Reg61ModeChange).source == c;
    case TcasRa => assert Params(Reg61TcasRa).source == c;
    case TargetState => assert Params(Reg62).source == c;
    case AirOpStatus => assert Params(Reg65Air).source == c;
    case SurfOpStatus => assert Params(Reg65Surface).source == c;
    case Acquisition => assert Params(Df11).source == c;
  }

  function ModeName(m: HistMode): string {
    match m
    case Reg05 => "reg05_hist"
    case Reg06High => "reg06_1_hist"
    case Reg06Low => "reg06_2_hist"
    case Reg08 => "reg08_hist"
    case Reg09 => "reg09_hist"
    case Reg61Status => "reg61_1_hist"
    case Reg61Emergency => "reg61_2_hist"
    case Reg61ModeChange => "reg61_3_hist"
    case Reg61TcasRa => "reg61_4_hist"
    case Reg62 => "reg62_hist"
    case Reg65Air => "reg65_1_hist"
    case Reg65Surface => "reg65_2_hist"
    case Df11 => "df11_hist"
  }

  /** The `if mode == ...` chain: which histogram a mode name selects. */
  function ModeOf(name: string): (m: Option<HistMode>)
    ensures m.Some? ==> ModeName(m.value) == name
  {
    if name == "reg05_hist" then Some(Reg05)
    else if name == "reg06_1_hist" then Some(Reg06High)
    else if name == "reg06_2_hist" then Some(Reg06Low)
    else if name == "reg08_hist" then Some(Reg08)
    else if name == "reg09_hist" then Some(Reg09)
    else if name == "reg61_1_hist" then Some(Reg61Status)
    else if name == "reg61_2_hist" then Some(Reg61Emergency)
    else if name == "reg61_3_hist" then Some(Reg61ModeChange)
    else if name == "reg61_4_hist" then Some(Reg61TcasRa)
    else if name == "reg62_hist" then Some(Reg62)
    else if name == "reg65_1_hist" then Some(Reg65Air)
    else if name == "reg65_2_hist" then Some(Reg65Surface)
    else if name == "df11_hist" then Some(Df11)
    else None
  }

  /** Each histogram mode is selected by its own name, and only by it. */
  lemma ModeNameRoundTrip(m: HistMode)
    ensures ModeOf(ModeName(m)) == Some(m)
  {
  }

  const GraphModes: seq<string> :=
    ["altitude", "speed", "altitude_speed_combined", "latitude", "course", "track",
     "altitude_diff", "baro_correction", "reg09_tracks", "track_angle", "airspd_angle"]

  const HistModes: seq<string> :=
    ["reg05_hist", "reg06_1_hist", "reg06_2_hist", "reg08_hist", "reg09_hist",
     "reg61_1_hist", "reg61_2_hist", "reg61_3_hist", "reg61_4_hist", "reg62_hist",
     "reg65_1_hist", "reg65_2_hist", "df11_hist"]

  /** Every entry of the histogram list names a histogram mode, and no graph name does. */
  lemma ModeListsSeparate()
    ensures forall i :: 0 <= i < |HistModes| ==> ModeOf(HistModes[i]).Some?
    ensures forall i :: 0 <= i < |GraphModes| ==> ModeOf(GraphModes[i]).None?
  {
  }

  // ---------------------------------------------------------------------------
  // The histogram of one series
  // ---------------------------------------------------------------------------

  datatype Bounds = Bounds(low: real, high: real)
  datatype Counts = Counts(left: nat, middle: nat, right: nat, total: nat)
  datatype Extremes = Extremes(min: real, max: real)

  datatype HistOutcome =
    | NoData                                        // "no data" text, has_plot_data = False
    | Drawn(bounds: Bounds, counts: Counts, middle: seq<real>, extremes: Extremes)

  /** The histogram of arrival timestamps `ts` in mode `m`. */
  function Histogram(ts: seq<real>, m: HistMode): HistOutcome {
    if ts == [] then NoData
    else
      var xs := Intervals(ts);
      if xs == [] then NoData
      else
        var p := Params(m);
        var low, high := (p.center - p.dev) as real, (p.center + p.dev) as real;
        var mid := InBand(xs, Middle, low, high);
        Drawn(Bounds(low, high),
              Counts(|InBand(xs, Left, low, high)|, |mid|, |InBand(xs, Right, low, high)|, |xs|),
              mid, Extremes(Minimum(xs), Maximum(xs)))
  }

  /** The histogram of address `a` in mode `m`; an unseen address reads as an empty series. */
  function AddressHistogram(st: StoreState, a: Address, m: HistMode): HistOutcome {
    Histogram(st.Arrivals(Params(m).source, a), m)
  }

  /** "No data" exactly when the series has fewer than two timestamps. */
  lemma NoDataIffShort(ts: seq<real>, m: HistMode)
    ensures Histogram(ts, m).NoData? <==> |ts| <= 1
  {
    IntervalCount(ts);
  }

  /**
   * A drawn histogram has the mode's band, three bars whose counts add up to
   * the n - 1 intervals, a middle bar whose values all lie in the band, and a
   * minimum and maximum that are intervals with min <= max.
   */
  lemma DrawnShape(ts: seq<real>, m: HistMode)
    requires Histogram(ts, m).Drawn?
    ensures var h := Histogram(ts, m);
      var xs := Intervals(ts);
      && h.bounds.low == (Params(m).center - Params(m).dev) as real
      && h.bounds.high == (Params(m).center + Params(m).dev) as real
      && 0.0 < h.bounds.low < h.bounds.high
      && h.counts.total == |ts| - 1 == |xs|
      && h.counts.left + h.counts.middle + h.counts.right == h.counts.total
      && (forall x :: x in h.middle ==> h.bounds.low <= x <= h.bounds.high)
      && h.extremes.min in xs && h.extremes.max in xs
      && 0.0 <= h.extremes.min <= h.extremes.max
  {
    IntervalCount(ts);
    var xs := Intervals(ts);
    var p := Params(m);
    BandsPartition(xs, (p.center - p.dev) as real, (p.center + p.dev) as real);
  }

  // ---------------------------------------------------------------------------
  // Nearest position
  // ---------------------------------------------------------------------------

  function Distance(a: real, b: real): real {
    if a >= b then a - b else b - a
  }

  /**
   * The position closest in time to `t`; on ties the earliest in the list
   * wins, because only a strictly smaller gap replaces the current choice.
   */
  method NearestPosition(positions: seq<Sample<LatLon>>, t: real) returns (nearest: Option<Sample<LatLon>>)
    ensures nearest.None? <==> positions == []
    ensures nearest.Some? ==>
      exists i :: && 0 <= i < |positions| && positions[i] == nearest.value
                  && (forall j :: 0 <= j < |positions| ==> Distance(positions[j].t, t) >= Distance(positions[i].t, t))
                  && (forall j :: 0 <= j < i ==> Distance(positions[j].t, t) > Distance(positions[i].t, t))
  {
    nearest := None;
    var minDiff: Option<real> := None;
    ghost var best := 0;
    for k := 0 to |positions|
      invariant minDiff.None? <==> k == 0
      invariant nearest.None? <==> k == 0
      invariant k > 0 ==>
        && 0 <= best < k && nearest == Some(positions[best])
        && minDiff == Some(Distance(positions[best].t, t))
        && (forall j :: 0 <= j < k ==> Distance(positions[j].t, t) >= minDiff.value)
        && (forall j :: 0 <= j < best ==> Distance(positions[j].t, t) > minDiff.value)
    {
      var diff := Distance(positions[k].t, t);
      if minDiff.None? || diff < minDiff.value {
        minDiff := Some(diff);
        nearest := Some(positions[k]);
        best := k;
      }
    }
  }

  // ---------------------------------------------------------------------------
  // Navigation
  // ---------------------------------------------------------------------------

  /** `(i + 1) % n`. */
  function NextIndex(i: int, n: int): (r: int)
    requires 0 <= i < n
    ensures 0 <= r < n
    ensures r == if i == n - 1 then 0 else i + 1
  {
    (i + 1) % n
  }

  /** `(i - 1 + n) % n`; the operand is never negative, so Python's `%` and this one agree. */
  function PrevIndex(i: int, n: int): (r: int)
    requires 0 <= i < n
    ensures 0 <= r < n
    ensures r == if i == 0 then n - 1 else i - 1
  {
    (i - 1 + n) % n
  }

  /** Going back undoes going forward, and the other way round. */
  lemma PrevUndoesNext(i: int, n: int)
    requires 0 <= i < n
    ensures PrevIndex(NextIndex(i, n), n) == i
    ensures NextIndex(PrevIndex(i, n), n) == i
  {
  }

  datatype Group = Graphs | Hists

  /** The navigation state of the viewer window. */
  class Viewer {
    var icaoList: seq<Address>
    var icaoIndex: int
    var group: Group
    var plotModes: seq<string>
    var plotModeIdx: int

    /** The indices point into their lists, and the mode list is the current group's. */
    predicate Valid()
      reads this
    {
      && 0 <= icaoIndex && (icaoList == [] ==> icaoIndex == 0) && (icaoList != [] ==> icaoIndex < |icaoList|)
      && plotModes == (if group == Graphs then GraphModes else HistModes)
      && 0 <= plotModeIdx < |plotModes|
    }

    /** `IcaoPlots.__init__`: all listed aircraft in address order, first graph of the first aircraft. */
    constructor(icaos: set<Address>)
      ensures Valid()
      ensures icaoList == SortedList(icaos) && icaoIndex == 0
      ensures group == Graphs && plotModeIdx == 0
    {
      icaoList := SortedList(icaos);
      icaoIndex := 0;
      group := Graphs;
      plotModes := GraphModes;
      plotModeIdx := 0;
    }

    /** The aircraft on screen, when there is one. */
    function CurrentIcao(): (a: Option<Address>)
      requires Valid()
      reads this
      ensures a.Some? <==> icaoList != []
      ensures a.Some? ==> a.value in icaoList
    {
      if icaoList == [] then None else Some(icaoList[icaoIndex])
    }

    /** The histogram mode on screen, when the histogram group is shown. */
    function CurrentHistMode(): (m: Option<HistMode>)
      requires Valid()
      reads this
      ensures m.Some? <==> group == Hists
    {
      ModeListsSeparate();
      ModeOf(plotModes[plotModeIdx])
    }

    method NextIcao()
      requires Valid()
      modifies this
      ensures Valid()
      ensures icaoList == old(icaoList) && group == old(group) && plotModes == old(plotModes) && plotModeIdx == old(plotModeIdx)
      ensures icaoIndex == if icaoList == [] then old(icaoIndex) else NextIndex(old(icaoIndex), |icaoList|)
    {
      if icaoList == [] {
        return;
      }
      icaoIndex := (icaoIndex + 1) % |icaoList|;
    }

    method PrevIcao()
      requires Valid()
      modifies this
      ensures Valid()
      ensures icaoList == old(icaoList) && group == old(group) && plotModes == old(plotModes) && plotModeIdx == old(plotModeIdx)
      ensures icaoIndex == if icaoList == [] then old(icaoIndex) else PrevIndex(old(icaoIndex), |icaoList|)
    {
      if icaoList == [] {
        return;
      }
      icaoIndex := (icaoIndex - 1 + |icaoList|) % |icaoList|;
    }

    /** Cycles through the current group's modes; like the aircraft buttons, does nothing without aircraft. */
    method NextMode()
      requires Valid()
      modifies this
      ensures Valid()
      ensures icaoList == old(icaoList) && icaoIndex == old(icaoIndex) && group == old(group) && plotModes == old(plotModes)
      ensures plotModeIdx == if icaoList == [] then old(plotModeIdx) else NextIndex(old(plotModeIdx), |plotModes|)
    {
      if icaoList == [] {
        return;
      }
      plotModeIdx := (plotModeIdx + 1) % |plotModes|;
    }

    method PrevMode()
      requires Valid()
      modifies this
      ensures Valid()
      ensures icaoList == old(icaoList) && icaoIndex == old(icaoIndex) && group == old(group) && plotModes == old(plotModes)
      ensures plotModeIdx == if icaoList == [] then old(plotModeIdx) else PrevIndex(old(plotModeIdx), |plotModes|)
    {
      if icaoList == [] {
        return;
      }
      plotModeIdx := (plotModeIdx - 1 + |plotModes|) % |plotModes|;
    }

    /** Switches to the graph list at its first mode, unless the graphs are already shown. */
    method ShowGraphs()
      requires Valid()
      modifies this
      ensures Valid()
      ensures old(group) == Graphs ==> plotModeIdx == old(plotModeIdx)
      ensures old(group) == Hists ==> plotModeIdx == 0
      ensures group == Graphs && plotModes == GraphModes
      ensures icaoList == old(icaoList) && icaoIndex == old(icaoIndex)
    {
      if group == Graphs {
        return;
      }
      group := Graphs;
      plotModes := GraphModes;
      plotModeIdx := 0;
    }

    /** Switches to the histogram list at its first mode, unless the histograms are already shown. */
    method ShowHists()
      requires Valid()
      modifies this
      ensures Valid()
      ensures old(group) == Hists ==> plotModeIdx == old(plotModeIdx)
      ensures old(group) == Graphs ==> plotModeIdx == 0
      ensures group == Hists && plotModes == HistModes
      ensures icaoList == old(icaoList) && icaoIndex == old(icaoIndex)
    {
      if group == Hists {
        return;
      }
      group := Hists;
      plotModes := HistModes;
      plotModeIdx := 0;
    }

    /** The radio buttons: "Графики" shows the graphs, "Гистограммы" the histograms, any other choice nothing. */
    method OnRadioChanged(choice: string)
      requires Valid()
      modifies this
      ensures Valid()
      ensures choice == "Графики" ==> group == Graphs
      ensures choice == "Гистограммы" ==> group == Hists
      ensures choice != "Графики" && choice != "Гистограммы" ==>
        group == old(group) && plotModes == old(plotModes) && plotModeIdx == old(plotModeIdx)
      ensures group == old(group) ==> plotModeIdx == old(plotModeIdx)
      ensures group != old(group) ==> plotModeIdx == 0
      ensures icaoList == old(icaoList) && icaoIndex == old(icaoIndex)
    {
      if choice == "Графики" {
        ShowGraphs();
      } else if choice == "Гистограммы" {
        ShowHists();
      }
    }
  }
}
