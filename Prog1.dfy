/**
 * The earlier single-file variant of the analyzer. It reads the same lines
 * with the same parser and filters, but keeps fewer containers: no arrival
 * lists, no DF 11 branch, no angle series, no squawk tracking, and altitude
 * only from TC 9-18. Its containers are local dictionaries of the main loop.
 *
 * Apart from the spec functions and the loop, this module proves how the
 * variant relates to the later program: on every record except two kinds,
 * the later program's store, cut down to the containers kept here, evolves
 * exactly as this variant's does.
 */
module Prog1 {
  import opened Wrappers
  import opened DictData
  import opened Parsing
  import opened Ordering
  import opened IcaoPlots
  import opened MainLoop

  // ---------------------------------------------------------------------------
  // The loop's dictionaries
  // ---------------------------------------------------------------------------

  /** `adsb_icao_list`, `icao_times`, `cpr_messages`. */
  datatype Log = Log(icaos: set<Address>, times: map<Address, Seen>, cpr: map<Address, CprSlots>)

  /** `icao_altitude` (untagged feet), `icao_speed`, `icao_positions`, `icao_courses`. */
  datatype Flight = Flight(
    altitude: map<Address, seq<Sample<int>>>,
    speed: map<Address, seq<Sample<int>>>,
    positions: map<Address, seq<Sample<LatLon>>>,
    courses: map<Address, seq<Sample<real>>>)

  /** `icao_selected_altitude`, `icao_altitude_difference`, `icao_baro_correction`. */
  datatype Autopilot = Autopilot(
    selectedAltitude: map<Address, seq<Sample<int>>>,
    altitudeDifference: map<Address, seq<Sample<int>>>,
    baroCorrection: map<Address, seq<Sample<real>>>)

  /** `icao_callsigns` (call signs and the `_modes` entries) and `icao_has_selected_alt`. */
  datatype Identity = Identity(callsigns: map<Address, string>, modes: map<Address, set<string>>,
                               hasSelectedAlt: set<Address>)

  datatype Collected = Collected(log: Log, flight: Flight, autopilot: Autopilot, identity: Identity)

  const Empty := Collected(Log({}, map[], map[]), Flight(map[], map[], map[], map[]),
                           Autopilot(map[], map[], map[]), Identity(map[], map[], {}))

  // ---------------------------------------------------------------------------
  // One record
  // ---------------------------------------------------------------------------

  /** This variant's `get_altitude`: TC 9-18 only; GNSS altitude (TC 20-22) is never read. */
  function GetBaroAltitude(d: Decoded): (r: Option<int>)
    ensures r.Some? ==> IsAdsb(d) && TypeCodeIn(d, 9, 18)
    ensures TypeCodeIn(d, 20, 22) ==> r == None
    ensures TypeCodeIn(d, 9, 18) ==> r == GetAltitude(d)
  {
    if !IsAdsb(d) || !TypeCodeIn(d, 9, 18) then None else d.altitude
  }

  function AddSighting(st: Collected, a: Address, t: real): Collected {
    var times := st.log.times;
    st.(log := st.log.(icaos := st.log.icaos + {a},
                       times := times[a := if a in times then times[a].(last := t) else Seen(t, t)]))
  }

  /** TC 9-18: altitude in [-1000, 50000] ft, then the CPR slot pair. */
  function Position1(st: Collected, a: Address, t: real, msg: string, d: Decoded, resolve: Resolver): Collected {
    var alt := GetBaroAltitude(d);
    var st1 := if alt.Some? && AltitudeInRange(alt.value)
               then st.(flight := st.flight.(altitude := Append(st.flight.altitude, a, Sample(t, alt.value))))
               else st;
    var o := CprStep(if a in st1.log.cpr then st1.log.cpr[a] else EmptySlots, d.oeFlag, msg, t, resolve);
    var st2 := st1.(log := st1.log.(cpr := st1.log.cpr[a := o.slots]));
    if o.fix.Some? then st2.(flight := st2.flight.(positions := Append(st2.flight.positions, a, Sample(t, o.fix.value))))
    else st2
  }

  /** TC 19: speed in [0, 1000], heading, altitude difference; each getter is guarded on its own. */
  function Velocity1(st: Collected, a: Address, t: real, d: Decoded): Collected {
    var gs := GetVelocity(d);
    var st1 := if gs.Some? && SpeedInRange(gs.value)
               then st.(flight := st.flight.(speed := Append(st.flight.speed, a, Sample(t, gs.value))))
               else st;
    var course := GetCourse(d);
    var st2 := if course.Some?
               then st1.(flight := st1.flight.(courses := Append(st1.flight.courses, a, Sample(t, course.value))))
               else st1;
    var diff := GetAltitudeDifference(d);
    if diff.Some?
    then st2.(autopilot := st2.autopilot.(altitudeDifference := Append(st2.autopilot.altitudeDifference, a, Sample(t, diff.value))))
    else st2
  }

  /** TC 1-4: a non-empty cleaned call sign replaces the stored one. */
  function Callsign1(st: Collected, a: Address, d: Decoded): Collected {
    var cs := GetCallsign(d);
    if cs.Some? && cs.value != [] then st.(identity := st.identity.(callsigns := st.identity.callsigns[a := cs.value]))
    else st
  }

  /** TC 29: selected altitude with the union of modes, then the pressure setting. */
  function TargetState1(st: Collected, a: Address, t: real, d: Decoded): Collected {
    var sel := GetSelectedAltitude(d);
    var st1 := if sel.None? then st
               else
                 var id := st.identity;
                 st.(autopilot := st.autopilot.(selectedAltitude := Append(st.autopilot.selectedAltitude, a, Sample(t, sel.value.alt))),
                     identity := id.(hasSelectedAlt := id.hasSelectedAlt + {a},
                                     modes := id.modes[a := (if a in id.modes then id.modes[a] else {}) + sel.value.modes]));
    var baro := GetBaroCorrection(d);
    if baro.Some?
    then st1.(autopilot := st1.autopilot.(baroCorrection := Append(st1.autopilot.baroCorrection, a, Sample(t, baro.value))))
    else st1
  }

  function Dispatch1(st: Collected, a: Address, tc: int, t: real, msg: string, d: Decoded, resolve: Resolver): Collected {
    if 9 <= tc <= 18 then Position1(st, a, t, msg, d, resolve)
    else if tc == 19 then Velocity1(st, a, t, d)
    else if 1 <= tc <= 4 then Callsign1(st, a, d)
    else if tc == 29 then TargetState1(st, a, t, d)
    else st
  }

  /**
   * One parsed record. A format or address that does not decode skips the
   * record; only DF 17/18 from the filtered aircraft are kept; a type code
   * that does not decode skips the rest of the record.
   */
  function Step1(st: Collected, t: real, msg: string, d: Decoded, target: string, resolve: Resolver): Collected {
    if d.df.None? || d.icao.None? || !IsAdsb(d) || !PassesFilter(target, d.icao.value) then st
    else
      var st1 := AddSighting(st, d.icao.value, t);
      match d.typecode
      case None => st1
      case Some(tc) => Dispatch1(st1, d.icao.value, tc, t, msg, d, resolve)
  }

  function Ingested1(st: Collected, lines: seq<string>, toFloat: string -> Option<real>,
                     decode: string -> Decoded, target: string, resolve: Resolver): Collected
  {
    if lines == [] then st
    else
      var prev := Ingested1(st, lines[..|lines| - 1], toFloat, decode, target, resolve);
      match ParseLine(lines[|lines| - 1], toFloat)
      case None => prev
      case Some(p) => Step1(prev, p.t, p.msg, decode(p.msg), target, resolve)
  }

  /** The `__main__` loop: every line in order, from empty dictionaries. */
  method Ingest(lines: seq<string>, toFloat: string -> Option<real>, decode: string -> Decoded,
                target: string, resolve: Resolver) returns (st: Collected)
    ensures st == Ingested1(Empty, lines, toFloat, decode, target, resolve)
  {
    st := Empty;
    for i := 0 to |lines|
      invariant st == Ingested1(Empty, lines[..i], toFloat, decode, target, resolve)
    {
      assert lines[..i + 1][..i] == lines[..i];
      var parsed := ParseLine(lines[i], toFloat);
      if parsed.None? {
        continue;
      }
      var t, msg := parsed.value.t, parsed.value.msg;
      var d := decode(msg);
      if d.df.None? || d.icao.None? {
        continue;
      }
      if !IsAdsb(d) {
        continue;
      }
      var a := d.icao.value;
      if !PassesFilter(target, a) {
        continue;
      }
      st := AddSighting(st, a, t);
      if d.typecode.None? {
        continue;
      }
      var tc := d.typecode.value;
      if 9 <= tc <= 18 {
        st := Position1(st, a, t, msg, d, resolve);
      } else if tc == 19 {
        st := Velocity1(st, a, t, d);
      } else if 1 <= tc <= 4 {
        st := Callsign1(st, a, d);
      } else if tc == 29 {
        st := TargetState1(st, a, t, d);
      }
    }
    assert lines[..|lines|] == lines;
  }

  // ---------------------------------------------------------------------------
  // Properties of the variant
  // ---------------------------------------------------------------------------

  /** There is no DF 11 branch: such records, like every non-17/18 format, change nothing. */
  lemma OnlyExtendedSquitters(st: Collected, t: real, msg: string, d: Decoded, target: string, resolve: Resolver)
    requires !IsAdsb(d)
    ensures Step1(st, t, msg, d, target, resolve) == st
  {
  }

  /** A GNSS-altitude record (TC 20-22) only records the sighting. */
  lemma GnssAltitudeIgnored(st: Collected, t: real, msg: string, d: Decoded, target: string, resolve: Resolver)
    requires IsAdsb(d) && d.icao.Some? && PassesFilter(target, d.icao.value) && TypeCodeIn(d, 20, 22)
    ensures Step1(st, t, msg, d, target, resolve) == AddSighting(st, d.icao.value, t)
  {
  }

  /**
   * TC 9-18 pairs CPR halves as the later program does: the slot of the
   * message's parity is overwritten, a pair less than 10 s apart is resolved
   * and both slots emptied, and a pair 10 s or more apart is kept.
   */
  lemma PositionPairing(st: Collected, a: Address, t: real, msg: string, d: Decoded, resolve: Resolver)
    ensures var r := Position1(st, a, t, msg, d, resolve);
      var slots := if a in st.log.cpr then st.log.cpr[a] else EmptySlots;
      var other := slots.Get(Flip(d.oeFlag));
      && a in r.log.cpr
      && (other.Some? && Abs(other.value.t - t) < PairWindow ==> r.log.cpr[a] == EmptySlots)
      && (!(other.Some? && Abs(other.value.t - t) < PairWindow) ==>
            && r.log.cpr[a].Get(d.oeFlag) == Some(CprHalf(msg, t)) && r.log.cpr[a].Get(Flip(d.oeFlag)) == other
            && r.flight.positions == st.flight.positions)
      && |Series(r.flight.positions, a)| <= |Series(st.flight.positions, a)| + 1
  {
  }

  // ---------------------------------------------------------------------------
  // The later program, cut down to this variant's containers
  // ---------------------------------------------------------------------------

  /** An altitude series without its source tags. */
  function Feet(s: seq<Sample<Altitude>>): (r: seq<Sample<int>>)
    ensures |r| == |s|
    ensures forall i :: 0 <= i < |s| ==> r[i] == Sample(s[i].t, s[i].v.feet)
  {
    seq(|s|, i requires 0 <= i < |s| => Sample(s[i].t, s[i].v.feet))
  }

  function StripTags(m: map<Address, seq<Sample<Altitude>>>): (r: map<Address, seq<Sample<int>>>)
    ensures r.Keys == m.Keys
  {
    map k | k in m :: Feet(m[k])
  }

  /** The containers of the later program that this variant also keeps. */
  function Project(st: StoreState): Collected {
    Collected(
      Log(st.registry.icaos, st.registry.times, st.pending.cpr),
      Flight(StripTags(st.tracks.motion.altitude), st.tracks.motion.speed,
             st.tracks.motion.positions, st.tracks.motion.courses),
      Autopilot(st.tracks.settings.selectedAltitude, st.tracks.settings.altitudeDifference,
                st.tracks.settings.baroCorrection),
      Identity(st.profile.callsigns, st.profile.modes, st.profile.hasSelectedAlt))
  }

  lemma StripTagsAppend(m: map<Address, seq<Sample<Altitude>>>, a: Address, t: real, x: Altitude)
    ensures StripTags(Append(m, a, Sample(t, x))) == Append(StripTags(m), a, Sample(t, x.feet))
  {
    var l, r := StripTags(Append(m, a, Sample(t, x))), Append(StripTags(m), a, Sample(t, x.feet));
    assert Feet(Series(m, a) + [Sample(t, x)]) == Feet(Series(m, a)) + [Sample(t, x.feet)];
    assert Series(StripTags(m), a) == Feet(Series(m, a));
    forall k | k in l
      ensures l[k] == r[k]
    {
    }
  }

  /**
   * The two kinds of record on which the variants part: a GNSS altitude the
   * later program stores (this variant reads altitude from TC 9-18 only), and
   * a TC 19 message whose velocity fails to decode but whose altitude
   * difference passes (the later program skips the rest of such a message,
   * this variant still stores the difference).
   */
  predicate Diverges(d: Decoded) {
    IsAdsb(d) && d.typecode.Some? &&
    ((20 <= d.typecode.value <= 22 && d.altitude.Some? && AltitudeInRange(d.altitude.value))
     || (d.typecode.value == 19 && d.velocity.None? && GetAltitudeDifference(d).Some?))
  }

  lemma PositionAgrees(st: StoreState, a: Address, t: real, msg: string, d: Decoded, resolve: Resolver)
    requires TypeCodeIn(d, 9, 18)
    ensures Project(AirbornePosition(st, a, t, msg, d, resolve)) == Position1(Project(st), a, t, msg, d, resolve)
  {
    var alt := GetAltitude(d);
    if alt.Some? && AltitudeInRange(alt.value) {
      StripTagsAppend(st.tracks.motion.altitude, a, t, Altitude(alt.value, Baro));
    }
  }

  lemma VelocityFieldsAgree(st: StoreState, a: Address, t: real, d: Decoded)
    ensures Project(VelocityFieldsUpdate(st, a, t, d)) == Velocity1(Project(st), a, t, d)
  {
  }

  lemma VelocityAgrees(st: StoreState, a: Address, t: real, d: Decoded)
    requires d.typecode == Some(19) && !Diverges(d)
    ensures Project(VelocityMessage(st, a, t, d)) == Velocity1(Project(st), a, t, d)
  {
    var st1 := st.AddArrival(Velocity, a, t);
    assert Project(st1) == Project(st);
    if d.velocity.Some? {
      var st2 := AngleBySubtype(st1, a, t, d.subtype, d.velocity.value.angle);
      assert Project(st2) == Project(st);
      VelocityFieldsAgree(st2, a, t, d);
    }
  }

  lemma CallsignAgrees(st: StoreState, a: Address, t: real, d: Decoded)
    ensures Project(Identification(st, a, t, d)) == Callsign1(Project(st), a, d)
  {
  }

  lemma TargetStateAgrees(st: StoreState, a: Address, t: real, d: Decoded)
    ensures Project(TargetStateMessage(st, a, t, d)) == TargetState1(Project(st), a, t, d)
  {
  }

  lemma GnssAgrees(st: StoreState, a: Address, t: real, d: Decoded)
    requires TypeCodeIn(d, 20, 22) && !Diverges(d)
    ensures Project(GnssPosition(st, a, t, d)) == Project(st)
  {
  }

  lemma StatusAgrees(st: StoreState, a: Address, t: real, d: Decoded)
    ensures Project(StatusMessage(st, a, t, d)) == Project(st)
  {
    if !d.tcasRa && d.squawk.Some? {
      var st1 := st.AddArrival(if d.isEmergency then Emergency else Status, a, t);
      var e := EpisodeStep(Lookup(st1.pending.lastModeA, a), Lookup(st1.pending.changeEventStart, a), d.squawk.value, t);
      var st2 := if e.start.Some? then st1.SetEpisodeStart(a, e.start.value) else st1;
      assert Project(st2) == Project(st);
    }
  }

  lemma DispatchAgrees(st: StoreState, a: Address, tc: int, t: real, msg: string, d: Decoded, resolve: Resolver)
    requires d.typecode == Some(tc) && IsAdsb(d) && !Diverges(d)
    ensures Project(Dispatch(st, a, tc, t, msg, d, resolve)) == Dispatch1(Project(st), a, tc, t, msg, d, resolve)
  {
    if 5 <= tc <= 8 {
    } else if 9 <= tc <= 18 {
      PositionAgrees(st, a, t, msg, d, resolve);
    } else if 1 <= tc <= 4 {
      CallsignAgrees(st, a, t, d);
    } else if tc == 19 {
      VelocityAgrees(st, a, t, d);
    } else if 20 <= tc <= 22 {
      GnssAgrees(st, a, t, d);
    } else if tc == 28 {
      StatusAgrees(st, a, t, d);
    } else if tc == 29 {
      TargetStateAgrees(st, a, t, d);
    }
  }

  /** On any record that does not diverge, both variants make the same change to the shared containers. */
  lemma StepAgrees(st: StoreState, t: real, msg: string, d: Decoded, target: string, resolve: Resolver)
    requires !Diverges(d)
    ensures Project(Step(st, t, msg, d, target, resolve)) == Step1(Project(st), t, msg, d, target, resolve)
  {
    var r := Step(st, t, msg, d, target, resolve);
    if d.df.None? || d.icao.None? {
      assert r == st;
    } else if d.df.value == 11 {
      assert r == st.AddArrival(Acquisition, d.icao.value, t);
    } else if !IsAdsb(d) || !PassesFilter(target, d.icao.value) {
      assert r == st;
    } else {
      var a := d.icao.value;
      var st1 := Touch(st, a, t);
      assert Project(st1) == AddSighting(Project(st), a, t);
      if d.typecode.Some? {
        assert r == Dispatch(st1, a, d.typecode.value, t, msg, d, resolve);
        DispatchAgrees(st1, a, d.typecode.value, t, msg, d, resolve);
      } else {
        assert r == st1;
      }
    }
  }

  /** The records of `lines` on which the variants part. */
  predicate AnyDiverges(lines: seq<string>, toFloat: string -> Option<real>, decode: string -> Decoded) {
    exists i :: 0 <= i < |lines| && ParseLine(lines[i], toFloat).Some?
      && Diverges(decode(ParseLine(lines[i], toFloat).value.msg))
  }

  /** A whole log without diverging records leaves both variants with the same shared containers. */
  lemma {:induction false} IngestedAgrees(st: StoreState, lines: seq<string>, toFloat: string -> Option<real>,
                                          decode: string -> Decoded, target: string, resolve: Resolver)
    requires !AnyDiverges(lines, toFloat, decode)
    ensures Project(Ingested(st, lines, toFloat, decode, target, resolve))
         == Ingested1(Project(st), lines, toFloat, decode, target, resolve)
  {
    if lines != [] {
      var prefix := lines[..|lines| - 1];
      assert forall i :: 0 <= i < |prefix| ==> prefix[i] == lines[i];
      IngestedAgrees(st, prefix, toFloat, decode, target, resolve);
      var mid := Ingested(st, prefix, toFloat, decode, target, resolve);
      match ParseLine(lines[|lines| - 1], toFloat)
      case None =>
      case Some(p) =>
        StepAgrees(mid, p.t, p.msg, decode(p.msg), target, resolve);
    }
  }

  /** A GNSS altitude in range is stored by the later program and not by this variant. */
  lemma GnssAltitudeDiverges(st: StoreState, t: real, msg: string, d: Decoded, target: string, resolve: Resolver)
    requires IsAdsb(d) && d.icao.Some? && PassesFilter(target, d.icao.value)
    requires TypeCodeIn(d, 20, 22) && d.altitude.Some? && AltitudeInRange(d.altitude.value)
    ensures var a := d.icao.value;
      && |Series(Project(Step(st, t, msg, d, target, resolve)).flight.altitude, a)|
           == |Series(Project(st).flight.altitude, a)| + 1
      && Step1(Project(st), t, msg, d, target, resolve).flight.altitude == Project(st).flight.altitude
  {
    var a := d.icao.value;
    var st1 := Touch(st, a, t);
    var x := Altitude(d.altitude.value, Gnss);
    assert Step(st, t, msg, d, target, resolve) == GnssPosition(st1, a, t, d);
    StripTagsAppend(st1.AddArrival(AirbornePos, a, t).tracks.motion.altitude, a, t, x);
  }

  /** A TC 19 record whose velocity fails but whose altitude difference passes: only this variant stores it. */
  lemma AltitudeDifferenceDiverges(st: StoreState, t: real, msg: string, d: Decoded, target: string, resolve: Resolver)
    requires IsAdsb(d) && d.icao.Some? && PassesFilter(target, d.icao.value)
    requires d.typecode == Some(19) && d.velocity.None? && GetAltitudeDifference(d).Some?
    ensures var a := d.icao.value;
      && Project(Step(st, t, msg, d, target, resolve)).autopilot.altitudeDifference == Project(st).autopilot.altitudeDifference
      && Series(Step1(Project(st), t, msg, d, target, resolve).autopilot.altitudeDifference, a)
           == Series(Project(st).autopilot.altitudeDifference, a) + [Sample(t, GetAltitudeDifference(d).value)]
  {
  }

  // ---------------------------------------------------------------------------
  // Altitude-interval histogram
  // ---------------------------------------------------------------------------

  const ClipCenter := 500
  const ClipDev := 100

  /** `np.clip(x, lo, hi)`. */
  function Clip(x: real, lo: real, hi: real): (r: real)
    requires lo <= hi
    ensures lo <= r <= hi
    ensures lo <= x <= hi ==> r == x
  {
    if x < lo then lo else if x > hi then hi else x
  }

  function ClipAll(xs: seq<real>, lo: real, hi: real): (r: seq<real>)
    requires lo <= hi
    ensures |r| == |xs|
    ensures forall i :: 0 <= i < |r| ==> r[i] == Clip(xs[i], lo, hi)
  {
    seq(|xs|, i requires 0 <= i < |xs| => Clip(xs[i], lo, hi))
  }

  /** Gaps between strictly increasing timestamps are positive. */
  lemma {:induction false} DiffsPositive(s: seq<real>)
    requires StrictlyAscending(s)
    ensures forall i :: 0 <= i < |Diffs(s)| ==> Diffs(s)[i] > 0.0
  {
    if |s| > 1 {
      assert s[0] < s[1];
      DiffsPositive(s[1..]);
      assert Diffs(s) == [(s[1] - s[0]) * 1000.0] + Diffs(s[1..]);
    }
  }

  datatype AltIntervals =
    | NoAltData
    | Clipped(count: nat, values: seq<real>)   // the legend's count and the clipped values binned

  /** The `alt_msg_intervals` mode for an altitude series. */
  function AltitudeIntervals(samples: seq<Sample<int>>): AltIntervals {
    if |samples| <= 1 then NoAltData
    else
      var ts := Unique(seq(|samples|, i requires 0 <= i < |samples| => samples[i].t));
      var xs := NonNegative(Diffs(ts));
      if xs == [] then NoAltData
      else Clipped(|xs|, ClipAll(xs, (ClipCenter - ClipDev) as real, (ClipCenter + ClipDev) as real))
  }

  /**
   * After removing repeated timestamps every interval is positive, one fewer
   * than the distinct timestamps, and every clipped value lies in [400, 600].
   */
  lemma AltitudeIntervalsShape(samples: seq<Sample<int>>)
    requires AltitudeIntervals(samples).Clipped?
    ensures var h := AltitudeIntervals(samples);
      var ts := Unique(seq(|samples|, i requires 0 <= i < |samples| => samples[i].t));
      && h.count == |h.values| == |ts| - 1
      && (forall x :: x in h.values ==> 400.0 <= x <= 600.0)
      && (forall x :: x in NonNegative(Diffs(ts)) ==> x > 0.0)
  {
    var ts := Unique(seq(|samples|, i requires 0 <= i < |samples| => samples[i].t));
    DiffsPositive(ts);
  }

  /** A series whose timestamps are all equal has no intervals, however long it is. */
  lemma RepeatedTimestampsNoData(samples: seq<Sample<int>>, t: real)
    requires forall i :: 0 <= i < |samples| ==> samples[i].t == t
    ensures AltitudeIntervals(samples).NoAltData?
  {
    if |samples| > 1 {
      var ts := Unique(seq(|samples|, i requires 0 <= i < |samples| => samples[i].t));
      assert forall y :: y in ts ==> y == t;
      forall i | 0 <= i < |ts|
        ensures ts[i] == t
      {
        assert ts[i] in ts;
      }
    }
  }

  // ---------------------------------------------------------------------------
  // The graph window
  // ---------------------------------------------------------------------------

  const GraphModes1: seq<string> :=
    ["altitude", "speed", "altitude_speed_combined", "latitude", "course", "track", "altitude_diff",
     "baro_correction", "alt_msg_intervals", "spd_msg_intervals", "course_msg_intervals",
     "sel_alt_msg_intervals", "alt_diff_msg_intervals", "baro_corr_msg_intervals"]

  /** The aircraft shown: those with altitude, speed, position or course data that are listed. */
  function IcaoList(st: Collected): (r: seq<Address>)
    ensures forall a :: a in r <==>
      a in st.log.icaos && (a in st.flight.altitude || a in st.flight.speed || a in st.flight.positions || a in st.flight.courses)
    ensures StrictlySorted(r)
  {
    SortedList((st.flight.altitude.Keys + st.flight.speed.Keys + st.flight.positions.Keys + st.flight.courses.Keys)
               * st.log.icaos)
  }

  /** `IcaoGraphs`: the navigation state; without aircraft the constructor stops before choosing modes. */
  class Graphs {
    var icaoList: seq<Address>
    var icaoIndex: int
    var plotModes: seq<string>
    var plotModeIdx: int

    predicate Valid()
      reads this
    {
      && 0 <= icaoIndex && (icaoList == [] ==> icaoIndex == 0) && (icaoList != [] ==> icaoIndex < |icaoList|)
      && (icaoList != [] ==> plotModes == GraphModes1 && 0 <= plotModeIdx < |plotModes|)
      && (icaoList == [] ==> plotModes == [] && plotModeIdx == 0)
    }

    constructor(st: Collected)
      ensures Valid() && icaoList == IcaoList(st) && icaoIndex == 0 && plotModeIdx == 0
    {
      icaoList := IcaoList(st);
      icaoIndex := 0;
      plotModeIdx := 0;
      if IcaoList(st) == [] {
        plotModes := [];
      } else {
        plotModes := GraphModes1;
      }
    }

    method NextIcao()
      requires Valid()
      modifies this
      ensures Valid()
      ensures icaoList == old(icaoList) && plotModes == old(plotModes) && plotModeIdx == old(plotModeIdx)
      ensures icaoIndex == if icaoList == [] then old(icaoIndex) else NextIndex(old(icaoIndex), |icaoList|)
    {
      if icaoList == [] {
        return;
      }
      icaoIndex := (icaoIndex + 1) % |icaoList|;
    }

    method PrevIcao()
      requires Valid()
      modifies this
      ensures Valid()
      ensures icaoList == old(icaoList) && plotModes == old(plotModes) && plotModeIdx == old(plotModeIdx)
      ensures icaoIndex == if icaoList == [] then old(icaoIndex) else PrevIndex(old(icaoIndex), |icaoList|)
    {
      if icaoList == [] {
        return;
      }
      icaoIndex := (icaoIndex - 1 + |icaoList|) % |icaoList|;
    }

    method NextMode()
      requires Valid()
      modifies this
      ensures Valid()
      ensures icaoList == old(icaoList) && icaoIndex == old(icaoIndex) && plotModes == old(plotModes)
      ensures plotModeIdx == if icaoList == [] then old(plotModeIdx) else NextIndex(old(plotModeIdx), |plotModes|)
    {
      if icaoList == [] {
        return;
      }
      plotModeIdx := (plotModeIdx + 1) % |plotModes|;
    }

    method PrevMode()
      requires Valid()
      modifies this
      ensures Valid()
      ensures icaoList == old(icaoList) && icaoIndex == old(icaoIndex) && plotModes == old(plotModes)
      ensures plotModeIdx == if icaoList == [] then old(plotModeIdx) else PrevIndex(old(plotModeIdx), |plotModes|)
    {
      if icaoList == [] {
        return;
      }
      plotModeIdx := (plotModeIdx - 1 + |plotModes|) % |plotModes|;
    }
  }
}
