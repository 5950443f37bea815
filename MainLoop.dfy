/**
 * The ingestion loop: one decoded record at a time, routed by downlink format
 * and type code into the store's containers.
 *
 * `Step` is the specification of one record's effect on the store; the
 * methods below perform the same updates in place on a `Store` object and
 * are proved to agree with it. The lemmas state the rules the loop keeps.
 */
module MainLoop {
  import opened Wrappers
  import opened DictData
  import opened Parsing

  /** The external CPR resolver: even message, odd message, their timestamps. */
  type Resolver = (string, string, real, real) -> Option<LatLon>

  /** Two CPR halves are paired only when their timestamps differ by less than this (seconds). */
  const PairWindow: real := 10.0

  /** A squawk-change episode stays active this long after it opens (seconds, inclusive). */
  const EpisodeWindow: real := 24.5

  /** Codes whose appearance never opens a change episode. */
  const ReservedSquawks: set<string> := {"1000", "7500", "7600", "7700"}

  function Abs(x: real): real {
    if x < 0.0 then -x else x
  }

  function Flip(p: Parity): Parity {
    if p == Even then Odd else Even
  }

  /** The accepted altitude range, feet, bounds included. */
  predicate AltitudeInRange(x: int) {
    -1000 <= x <= 50000
  }

  /** The accepted ground-speed range, knots, bounds included. */
  predicate SpeedInRange(x: int) {
    0 <= x <= 1000
  }

  // ---------------------------------------------------------------------------
  // CPR even/odd pairing
  // ---------------------------------------------------------------------------

  /** The new slot pair and the position appended, if any. */
  datatype CprOutcome = CprOutcome(slots: CprSlots, fix: Option<LatLon>)

  /**
   * A position message goes into the slot of its parity, replacing any
   * earlier occupant. When the other slot is filled and the two timestamps
   * are less than `PairWindow` apart, the resolver is asked for a position and
   * both slots are emptied; otherwise both halves are kept.
   */
  function CprStep(slots: CprSlots, p: Parity, msg: string, t: real, resolve: Resolver): (r: CprOutcome)
    ensures var other := slots.Get(Flip(p));
      if other.Some? && Abs(other.value.t - t) < PairWindow then
        r.slots == EmptySlots
        && r.fix == (if p == Even then resolve(msg, other.value.msg, t, other.value.t)
                     else resolve(other.value.msg, msg, other.value.t, t))
      else
        r.fix == None && r.slots.Get(p) == Some(CprHalf(msg, t)) && r.slots.Get(Flip(p)) == other
  {
    var s := slots.Put(p, CprHalf(msg, t));
    if s.even.Some? && s.odd.Some? then
      var h0 := s.even.value;
      var h1 := s.odd.value;
      if Abs(h0.t - h1.t) < PairWindow then CprOutcome(EmptySlots, resolve(h0.msg, h1.msg, h0.t, h1.t))
      else CprOutcome(s, None)
    else CprOutcome(s, None)
  }

  // ---------------------------------------------------------------------------
  // Squawk-change episode window
  // ---------------------------------------------------------------------------

  /** The episode start after a status message, and whether the message falls inside the episode. */
  datatype EpisodeOutcome = EpisodeOutcome(start: Option<real>, inEpisode: bool)

  /** A status message with code `c` opens an episode when it changes a known code to a non-reserved one. */
  predicate OpensEpisode(prev: Option<string>, c: string) {
    prev.Some? && c != prev.value && c !in ReservedSquawks
  }

  /**
   * `prev` is the last code seen from the aircraft, `start` the open episode's
   * start. The message opens (or re-opens) an episode at `t`, and it is counted
   * as a mode change when `t` is at most `EpisodeWindow` after the start.
   */
  function EpisodeStep(prev: Option<string>, start: Option<real>, c: string, t: real): (r: EpisodeOutcome)
    ensures OpensEpisode(prev, c) ==> r.start == Some(t) && r.inEpisode
    ensures !OpensEpisode(prev, c) ==> r.start == start
    ensures r.inEpisode <==> r.start.Some? && t - r.start.value <= EpisodeWindow
  {
    var s := if OpensEpisode(prev, c) then Some(t) else start;
    EpisodeOutcome(s, s.Some? && t - s.value <= EpisodeWindow)
  }

  // ---------------------------------------------------------------------------
  // One record
  // ---------------------------------------------------------------------------

  function Lookup<K, V>(m: map<K, V>, k: K): Option<V> {
    if k in m then Some(m[k]) else None
  }

  /** `adsb_icao_list.add(aa)` and the first/last-seen update. */
  function Touch(st: StoreState, a: Address, t: real): StoreState {
    var times := st.registry.times;
    st.AddIcao(a).SetTimes(a, if a in times then times[a].(last := t) else Seen(t, t))
  }

  /** TC 9-18: arrival, barometric altitude, CPR pairing. */
  function AirbornePosition(st: StoreState, a: Address, t: real, msg: string, d: Decoded,
                            resolve: Resolver): StoreState
  {
    var st1 := st.AddArrival(AirbornePos, a, t);
    var alt := GetAltitude(d);
    var st2 := if alt.Some? && AltitudeInRange(alt.value) then st1.AppendAltitude(a, Sample(t, Altitude(alt.value, Baro)))
               else st1;
    var cpr := st2.pending.cpr;
    var o := CprStep(if a in cpr then cpr[a] else EmptySlots, d.oeFlag, msg, t, resolve);
    var st3 := st2.SetSlots(a, o.slots);
    if o.fix.Some? then st3.AppendPosition(a, Sample(t, o.fix.value)) else st3
  }

  /** TC 1-4: arrival; a non-empty cleaned callsign replaces the stored one. */
  function Identification(st: StoreState, a: Address, t: real, d: Decoded): StoreState {
    var st1 := st.AddArrival(Ident, a, t);
    var cs := GetCallsign(d);
    if cs.Some? && cs.value != [] then st1.SetCallsign(a, cs.value) else st1
  }

  /** TC 19 angle routing: subtype 1 is ground-speed, subtype 3 airspeed; other subtypes keep no angle. */
  function AngleBySubtype(st: StoreState, a: Address, t: real, subtype: int, angle: Option<real>): StoreState {
    if subtype == 1 then st.AppendGsAngle(a, Sample(t, angle))
    else if subtype == 3 then st.AppendAirspdAngle(a, Sample(t, angle))
    else st
  }

  /** TC 19 filtered fields: ground speed in [0, 1000], track angle, heading, altitude difference. */
  function VelocityFieldsUpdate(st: StoreState, a: Address, t: real, d: Decoded): StoreState {
    var gs := GetVelocity(d);
    var st1 := if gs.Some? && SpeedInRange(gs.value) then st.AppendSpeed(a, Sample(t, gs.value)) else st;
    var track := GetTrackAngle(d);
    var st2 := if track.Some? then st1.AppendTrackAngle(a, Sample(t, track.value)) else st1;
    var course := GetCourse(d);
    var st3 := if course.Some? then st2.AppendCourse(a, Sample(t, course.value)) else st2;
    var diff := GetAltitudeDifference(d);
    if diff.Some? then st3.AppendAltitudeDifference(a, Sample(t, diff.value)).MarkGnss(a) else st3
  }

  /** TC 19: arrival; if the velocity decodes, the angle series by subtype and the filtered fields. */
  function VelocityMessage(st: StoreState, a: Address, t: real, d: Decoded): StoreState {
    var st1 := st.AddArrival(Velocity, a, t);
    match d.velocity
    case None => st1
    case Some(v) => VelocityFieldsUpdate(AngleBySubtype(st1, a, t, d.subtype, v.angle), a, t, d)
  }

  /** TC 20-22: arrival and GNSS altitude. */
  function GnssPosition(st: StoreState, a: Address, t: real, d: Decoded): StoreState {
    var st1 := st.AddArrival(AirbornePos, a, t);
    var alt := GetAltitude(d);
    if alt.Some? && AltitudeInRange(alt.value)
    then st1.AppendAltitude(a, Sample(t, Altitude(alt.value, Gnss))).MarkGnss(a)
    else st1
  }

  /** TC 28 with a decoded squawk: emergency/status split, episode window, last code. */
  function Squawk(st: StoreState, a: Address, t: real, c: string, emergency: bool): StoreState {
    var st1 := st.AddArrival(if emergency then Emergency else Status, a, t);
    var e := EpisodeStep(Lookup(st1.pending.lastModeA, a), Lookup(st1.pending.changeEventStart, a), c, t);
    var st2 := if e.start.Some? then st1.SetEpisodeStart(a, e.start.value) else st1;
    var st3 := if e.inEpisode then st2.AddArrival(ModeChange, a, t) else st2;
    st3.SetLastModeA(a, c)
  }

  /** TC 28: a resolution advisory goes to its own series only; otherwise the squawk, if any. */
  function StatusMessage(st: StoreState, a: Address, t: real, d: Decoded): StoreState {
    if d.tcasRa then st.AddArrival(TcasRa, a, t)
    else match d.squawk
      case None => st
      case Some(c) => Squawk(st, a, t, c, d.isEmergency)
  }

  /** TC 29: arrival, selected altitude with the union of modes, pressure setting. */
  function TargetStateMessage(st: StoreState, a: Address, t: real, d: Decoded): StoreState {
    var st1 := st.AddArrival(TargetState, a, t);
    var sel := GetSelectedAltitude(d);
    var st2 := if sel.Some?
               then st1.AppendSelectedAltitude(a, Sample(t, sel.value.alt)).MarkSelectedAlt(a).UnionModes(a, sel.value.modes)
               else st1;
    var baro := GetBaroCorrection(d);
    if baro.Some? then st2.AppendBaroCorrection(a, Sample(t, baro.value)) else st2
  }

  /** TC 31: airborne (subtype 0) or surface (subtype 1) operational status. */
  function OperationalStatus(st: StoreState, a: Address, t: real, d: Decoded): StoreState {
    if d.subtype == 0 then st.AddArrival(AirOpStatus, a, t)
    else if d.subtype == 1 then st.AddArrival(SurfOpStatus, a, t)
    else st
  }

  /** The type-code dispatch of an accepted DF 17/18 record. */
  function Dispatch(st: StoreState, a: Address, tc: int, t: real, msg: string, d: Decoded,
                    resolve: Resolver): StoreState
  {
    if 5 <= tc <= 8 then st.AddArrival(SurfacePos, a, t)
    else if 9 <= tc <= 18 then AirbornePosition(st, a, t, msg, d, resolve)
    else if 1 <= tc <= 4 then Identification(st, a, t, d)
    else if tc == 19 then VelocityMessage(st, a, t, d)
    else if 20 <= tc <= 22 then GnssPosition(st, a, t, d)
    else if tc == 28 then StatusMessage(st, a, t, d)
    else if tc == 29 then TargetStateMessage(st, a, t, d)
    else if tc == 31 then OperationalStatus(st, a, t, d)
    else st
  }

  /** The record passes the aircraft filter: none is set, or it names this address. */
  predicate PassesFilter(target: string, a: Address) {
    target == "" || a == target
  }

  /**
   * The effect of one record with timestamp `t`, hex message `msg` and
   * decoder answers `d` on the store. `target` is the upper-cased aircraft
   * filter, empty when none was given.
   */
  function Step(st: StoreState, t: real, msg: string, d: Decoded, target: string, resolve: Resolver): StoreState {
    match d.df
    case None => st
    case Some(df) =>
      if df == 11 then
        (match d.icao
         case None => st
         case Some(a) => st.AddArrival(Acquisition, a, t))
      else if df != 17 && df != 18 then st
      else match d.icao
        case None => st
        case Some(a) =>
          if !PassesFilter(target, a) then st
          else
            var st1 := Touch(st, a, t);
            match d.typecode
            case None => st1
            case Some(tc) => Dispatch(st1, a, tc, t, msg, d, resolve)
  }

  /** The effect of one input line: lines that do not parse are skipped. */
  function LineStep(st: StoreState, line: string, toFloat: string -> Option<real>, decode: string -> Decoded,
                    target: string, resolve: Resolver): StoreState
  {
    match ParseLine(line, toFloat)
    case None => st
    case Some(p) => Step(st, p.t, p.msg, decode(p.msg), target, resolve)
  }

  /** The store after a whole log, line by line in order. */
  function Ingested(st: StoreState, lines: seq<string>, toFloat: string -> Option<real>,
                    decode: string -> Decoded, target: string, resolve: Resolver): StoreState
  {
    if lines == [] then st
    else LineStep(Ingested(st, lines[..|lines| - 1], toFloat, decode, target, resolve),
                  lines[|lines| - 1], toFloat, decode, target, resolve)
  }

  // ---------------------------------------------------------------------------
  // The same updates, in place
  // ---------------------------------------------------------------------------

  method AirbornePositionUpdate(s: Store, a: Address, t: real, msg: string, d: Decoded, resolve: Resolver)
    modifies s
    ensures s.State() == AirbornePosition(old(s.State()), a, t, msg, d, resolve)
  {
    s.AddArrival(AirbornePos, a, t);
    var alt := GetAltitude(d);
    if alt.Some? && AltitudeInRange(alt.value) {
      s.AppendAltitude(a, Sample(t, Altitude(alt.value, Baro)));
    }
    var o := CprStep(if a in s.cpr then s.cpr[a] else EmptySlots, d.oeFlag, msg, t, resolve);
    s.SetSlots(a, o.slots);
    if o.fix.Some? {
      s.AppendPosition(a, Sample(t, o.fix.value));
    }
  }

  method IdentificationUpdate(s: Store, a: Address, t: real, d: Decoded)
    modifies s
    ensures s.State() == Identification(old(s.State()), a, t, d)
  {
    s.AddArrival(Ident, a, t);
    var cs := GetCallsign(d);
    if cs.Some? && cs.value != [] {
      s.SetCallsign(a, cs.value);
    }
  }

  method VelocityUpdate(s: Store, a: Address, t: real, d: Decoded)
    modifies s
    ensures s.State() == VelocityMessage(old(s.State()), a, t, d)
  {
    s.AddArrival(Velocity, a, t);
    if d.velocity.None? {
      return;
    }
    var v := d.velocity.value;
    if d.subtype == 1 {
      s.AppendGsAngle(a, Sample(t, v.angle));
    } else if d.subtype == 3 {
      s.AppendAirspdAngle(a, Sample(t, v.angle));
    }
    VelocityFieldsInPlace(s, a, t, d);
  }

  method VelocityFieldsInPlace(s: Store, a: Address, t: real, d: Decoded)
    modifies s
    ensures s.State() == VelocityFieldsUpdate(old(s.State()), a, t, d)
  {
    var gs := GetVelocity(d);
    if gs.Some? && SpeedInRange(gs.value) {
      s.AppendSpeed(a, Sample(t, gs.value));
    }
    var track := GetTrackAngle(d);
    if track.Some? {
      s.AppendTrackAngle(a, Sample(t, track.value));
    }
    var course := GetCourse(d);
    if course.Some? {
      s.AppendCourse(a, Sample(t, course.value));
    }
    var diff := GetAltitudeDifference(d);
    if diff.Some? {
      s.AppendAltitudeDifference(a, Sample(t, diff.value));
      s.MarkGnss(a);
    }
  }

  method GnssPositionUpdate(s: Store, a: Address, t: real, d: Decoded)
    modifies s
    ensures s.State() == GnssPosition(old(s.State()), a, t, d)
  {
    s.AddArrival(AirbornePos, a, t);
    var alt := GetAltitude(d);
    if alt.Some? && AltitudeInRange(alt.value) {
      s.AppendAltitude(a, Sample(t, Altitude(alt.value, Gnss)));
      s.MarkGnss(a);
    }
  }

  method SquawkUpdate(s: Store, a: Address, t: real, c: string, emergency: bool)
    modifies s
    ensures s.State() == Squawk(old(s.State()), a, t, c, emergency)
  {
    if emergency {
      s.AddArrival(Emergency, a, t);
    } else {
      s.AddArrival(Status, a, t);
    }
    var e := EpisodeStep(Lookup(s.lastModeA, a), Lookup(s.changeEventStart, a), c, t);
    if e.start.Some? {
      s.SetEpisodeStart(a, e.start.value);
    }
    if e.inEpisode {
      s.AddArrival(ModeChange, a, t);
    }
    s.SetLastModeA(a, c);
  }

  method StatusUpdate(s: Store, a: Address, t: real, d: Decoded)
    modifies s
    ensures s.State() == StatusMessage(old(s.State()), a, t, d)
  {
    if d.tcasRa {
      s.AddArrival(TcasRa, a, t);
    } else if d.squawk.Some? {
      SquawkUpdate(s, a, t, d.squawk.value, d.isEmergency);
    }
  }

  method TargetStateUpdate(s: Store, a: Address, t: real, d: Decoded)
    modifies s
    ensures s.State() == TargetStateMessage(old(s.State()), a, t, d)
  {
    s.AddArrival(TargetState, a, t);
    var sel := GetSelectedAltitude(d);
    if sel.Some? {
      s.AppendSelectedAltitude(a, Sample(t, sel.value.alt));
      s.MarkSelectedAlt(a);
      s.UnionModes(a, sel.value.modes);
    }
    var baro := GetBaroCorrection(d);
    if baro.Some? {
      s.AppendBaroCorrection(a, Sample(t, baro.value));
    }
  }

  method OperationalStatusUpdate(s: Store, a: Address, t: real, d: Decoded)
    modifies s
    ensures s.State() == OperationalStatus(old(s.State()), a, t, d)
  {
    if d.subtype == 0 {
      s.AddArrival(AirOpStatus, a, t);
    } else if d.subtype == 1 {
      s.AddArrival(SurfOpStatus, a, t);
    }
  }

  /** The type-code dispatch of an accepted record, in place. */
  method DispatchUpdate(s: Store, a: Address, tc: int, t: real, msg: string, d: Decoded, resolve: Resolver)
    modifies s
    ensures s.State() == Dispatch(old(s.State()), a, tc, t, msg, d, resolve)
  {
    if 5 <= tc <= 8 {
      s.AddArrival(SurfacePos, a, t);
    } else if 9 <= tc <= 18 {
      AirbornePositionUpdate(s, a, t, msg, d, resolve);
    } else if 1 <= tc <= 4 {
      IdentificationUpdate(s, a, t, d);
    } else if tc == 19 {
      VelocityUpdate(s, a, t, d);
    } else if 20 <= tc <= 22 {
      GnssPositionUpdate(s, a, t, d);
    } else if tc == 28 {
      StatusUpdate(s, a, t, d);
    } else if tc == 29 {
      TargetStateUpdate(s, a, t, d);
    } else if tc == 31 {
      OperationalStatusUpdate(s, a, t, d);
    }
  }

  /** The loop body for one parsed record, on the store in place. */
  method ProcessRecord(s: Store, t: real, msg: string, d: Decoded, target: string, resolve: Resolver)
    modifies s
    ensures s.State() == Step(old(s.State()), t, msg, d, target, resolve)
  {
    if d.df.None? {
      return;
    }
    var df := d.df.value;
    if df == 11 {
      if d.icao.Some? {
        s.AddArrival(Acquisition, d.icao.value, t);
      }
      return;
    }
    if (df != 17 && df != 18) || d.icao.None? {
      return;
    }
    var a := d.icao.value;
    if target != "" && a != target {
      return;
    }
    s.AddIcao(a);
    if a !in s.times {
      s.SetTimes(a, Seen(t, t));
    } else {
      s.SetTimes(a, s.times[a].(last := t));
    }
    if d.typecode.Some? {
      DispatchUpdate(s, a, d.typecode.value, t, msg, d, resolve);
    }
  }

  /** The main loop over the lines of a log, filling the store in place. */
  method Run(s: Store, lines: seq<string>, toFloat: string -> Option<real>, decode: string -> Decoded,
             target: string, resolve: Resolver)
    modifies s
    ensures s.State() == Ingested(old(s.State()), lines, toFloat, decode, target, resolve)
  {
    for i := 0 to |lines|
      invariant s.State() == Ingested(old(s.State()), lines[..i], toFloat, decode, target, resolve)
    {
      assert lines[..i + 1][..i] == lines[..i];
      var parsed := ParseLine(lines[i], toFloat);
      if parsed.Some? {
        ProcessRecord(s, parsed.value.t, parsed.value.msg, decode(parsed.value.msg), target, resolve);
      }
    }
    assert lines[..|lines|] == lines;
  }

  // ---------------------------------------------------------------------------
  // What one record does
  // ---------------------------------------------------------------------------

  /** The record is a DF 17/18 message with a decoded address that passes the filter. */
  predicate Accepted(d: Decoded, target: string) {
    IsAdsb(d) && d.icao.Some? && PassesFilter(target, d.icao.value)
  }

  /** `r` differs from `st` at most in the arrival lists. */
  predicate OnlyArrivalsDiffer(st: StoreState, r: StoreState) {
    && r.registry.icaos == st.registry.icaos && r.registry.times == st.registry.times
    && r.tracks == st.tracks && r.profile == st.profile && r.pending == st.pending
  }

  /**
   * A DF 11 record appends its timestamp to the acquisition series of its
   * address, whatever the filter, and changes nothing else.
   */
  lemma Df11OnlyAcquisition(st: StoreState, t: real, msg: string, d: Decoded, target: string, resolve: Resolver)
    requires d.df == Some(11)
    ensures var r := Step(st, t, msg, d, target, resolve);
      && OnlyArrivalsDiffer(st, r)
      && (d.icao.None? ==> r == st)
      && (d.icao.Some? ==>
            && r.Arrivals(Acquisition, d.icao.value) == st.Arrivals(Acquisition, d.icao.value) + [t]
            && forall k :: k != (Acquisition, d.icao.value) ==> Series(r.registry.arrivals, k) == Series(st.registry.arrivals, k))
  {
  }

  /** Records of any other downlink format, or whose format does not decode, change nothing. */
  lemma OtherFormatsIgnored(st: StoreState, t: real, msg: string, d: Decoded, target: string, resolve: Resolver)
    requires d.df.None? || d.df.value !in {11, 17, 18}
    ensures Step(st, t, msg, d, target, resolve) == st
  {
  }

  /** A DF 17/18 record without a decoded address, or from another aircraft than the filter's, changes nothing. */
  lemma RejectedUnchanged(st: StoreState, t: real, msg: string, d: Decoded, target: string, resolve: Resolver)
    requires IsAdsb(d) && !Accepted(d, target)
    ensures Step(st, t, msg, d, target, resolve) == st
  {
  }

  /** `r` lists the same aircraft as `st`, with the same first/last-seen times. */
  predicate SameSightings(st: StoreState, r: StoreState) {
    r.registry.icaos == st.registry.icaos && r.registry.times == st.registry.times
  }

  lemma AirbornePositionKeepsSightings(st: StoreState, a: Address, t: real, msg: string, d: Decoded, resolve: Resolver)
    ensures SameSightings(st, AirbornePosition(st, a, t, msg, d, resolve))
  {
  }

  lemma VelocityKeepsSightings(st: StoreState, a: Address, t: real, d: Decoded)
    ensures SameSightings(st, VelocityMessage(st, a, t, d))
  {
  }

  lemma StatusKeepsSightings(st: StoreState, a: Address, t: real, d: Decoded)
    ensures SameSightings(st, StatusMessage(st, a, t, d))
  {
  }

  lemma TargetStateKeepsSightings(st: StoreState, a: Address, t: real, d: Decoded)
    ensures SameSightings(st, TargetStateMessage(st, a, t, d))
  {
  }

  /** The type-code dispatch never touches the address list or the first/last-seen times. */
  lemma DispatchKeepsSightings(st: StoreState, a: Address, tc: int, t: real, msg: string, d: Decoded, resolve: Resolver)
    ensures SameSightings(st, Dispatch(st, a, tc, t, msg, d, resolve))
  {
    if 5 <= tc <= 8 {
    } else if 9 <= tc <= 18 {
      AirbornePositionKeepsSightings(st, a, t, msg, d, resolve);
    } else if 1 <= tc <= 4 {
    } else if tc == 19 {
      VelocityKeepsSightings(st, a, t, d);
    } else if 20 <= tc <= 22 {
    } else if tc == 28 {
      StatusKeepsSightings(st, a, t, d);
    } else if tc == 29 {
      TargetStateKeepsSightings(st, a, t, d);
    }
  }

  /**
   * An accepted record lists its address, stamps its last-seen time, and sets
   * its first-seen time only if the address had none; other addresses' times
   * are untouched.
   */
  lemma SeenTimes(st: StoreState, t: real, msg: string, d: Decoded, target: string, resolve: Resolver)
    requires Accepted(d, target)
    ensures var r := Step(st, t, msg, d, target, resolve);
      var a := d.icao.value;
      && r.registry.icaos == st.registry.icaos + {a}
      && a in r.registry.times && r.registry.times[a].last == t
      && r.registry.times[a].first == (if a in st.registry.times then st.registry.times[a].first else t)
      && forall b :: b != a ==> Lookup(r.registry.times, b) == Lookup(st.registry.times, b)
  {
    var a := d.icao.value;
    var st1 := Touch(st, a, t);
    if d.typecode.Some? {
      DispatchKeepsSightings(st1, a, d.typecode.value, t, msg, d, resolve);
    }
  }

  /** A record whose type code does not decode only updates the address list and the times. */
  lemma NoTypeCodeOnlyTouches(st: StoreState, t: real, msg: string, d: Decoded, target: string, resolve: Resolver)
    requires Accepted(d, target) && d.typecode.None?
    ensures var r := Step(st, t, msg, d, target, resolve);
      r.registry.arrivals == st.registry.arrivals && r.tracks == st.tracks && r.profile == st.profile && r.pending == st.pending
  {
  }

  /**
   * TC 9-18: the barometric altitude is appended exactly when it decodes and
   * lies in [-1000, 50000]; a completed CPR pair appends at most one
   * position, stamped with this record's time, and empties both slots;
   * otherwise the message waits in the slot of its parity and nothing is
   * appended.
   */
  lemma AirbornePositionEffect(st: StoreState, a: Address, t: real, msg: string, d: Decoded, resolve: Resolver)
    ensures var r := AirbornePosition(st, a, t, msg, d, resolve);
      var alt := GetAltitude(d);
      var cpr := st.pending.cpr;
      var other := (if a in cpr then cpr[a] else EmptySlots).Get(Flip(d.oeFlag));
      && r.Arrivals(AirbornePos, a) == st.Arrivals(AirbornePos, a) + [t]
      && r.Altitudes(a) == st.Altitudes(a)
           + (if alt.Some? && AltitudeInRange(alt.value) then [Sample(t, Altitude(alt.value, Baro))] else [])
      && a in r.pending.cpr
      && (if other.Some? && Abs(other.value.t - t) < PairWindow then
            && r.pending.cpr[a] == EmptySlots
            && (r.Positions(a) == st.Positions(a) || exists p :: r.Positions(a) == st.Positions(a) + [Sample(t, p)])
          else
            && r.pending.cpr[a].Get(d.oeFlag) == Some(CprHalf(msg, t))
            && r.pending.cpr[a].Get(Flip(d.oeFlag)) == other
            && r.tracks.motion.positions == st.tracks.motion.positions)
      && r.profile == st.profile
  {
    var cpr := st.pending.cpr;
    var o := CprStep(if a in cpr then cpr[a] else EmptySlots, d.oeFlag, msg, t, resolve);
    if o.fix.Some? {
      assert AirbornePosition(st, a, t, msg, d, resolve).Positions(a) == st.Positions(a) + [Sample(t, o.fix.value)];
    }
  }

  /** TC 20-22: the GNSS altitude is appended, and the aircraft marked GNSS-equipped, exactly when it lies in [-1000, 50000]. */
  lemma GnssAltitudeEffect(st: StoreState, a: Address, t: real, d: Decoded)
    ensures var r := GnssPosition(st, a, t, d);
      var alt := GetAltitude(d);
      var kept := alt.Some? && AltitudeInRange(alt.value);
      && r.Arrivals(AirbornePos, a) == st.Arrivals(AirbornePos, a) + [t]
      && r.Altitudes(a) == st.Altitudes(a) + (if kept then [Sample(t, Altitude(alt.value, Gnss))] else [])
      && (a in r.profile.hasGnss <==> a in st.profile.hasGnss || kept)
      && r.tracks.motion.positions == st.tracks.motion.positions && r.pending == st.pending
  {
  }

  /** TC 19: the velocity arrival is recorded before decoding; a velocity that does not decode stops there. */
  lemma VelocityDecodeFailure(st: StoreState, a: Address, t: real, d: Decoded)
    requires d.velocity.None?
    ensures VelocityMessage(st, a, t, d) == st.AddArrival(Velocity, a, t)
  {
  }

  /** The filtered TC 19 fields leave the arrival lists and the subtype angle series alone. */
  lemma VelocityFieldsFrame(st: StoreState, a: Address, t: real, d: Decoded)
    ensures var r := VelocityFieldsUpdate(st, a, t, d);
      && r.registry == st.registry
      && r.tracks.angles.gsAngles == st.tracks.angles.gsAngles
      && r.tracks.angles.airspdAngles == st.tracks.angles.airspdAngles
  {
  }

  /** TC 19 with a decoded velocity: subtype 1 feeds the ground-speed angle series, subtype 3 the airspeed one. */
  lemma VelocityAngleRouting(st: StoreState, a: Address, t: real, d: Decoded)
    requires d.velocity.Some?
    ensures var r := VelocityMessage(st, a, t, d);
      var angle := d.velocity.value.angle;
      && r.Arrivals(Velocity, a) == st.Arrivals(Velocity, a) + [t]
      && r.GsAngles(a) == st.GsAngles(a) + (if d.subtype == 1 then [Sample(t, angle)] else [])
      && r.AirspdAngles(a) == st.AirspdAngles(a) + (if d.subtype == 3 then [Sample(t, angle)] else [])
  {
    var st1 := AngleBySubtype(st.AddArrival(Velocity, a, t), a, t, d.subtype, d.velocity.value.angle);
    VelocityFieldsFrame(st1, a, t, d);
  }

  /** TC 19 with a decoded velocity: the ground speed is kept exactly when it lies in [0, 1000]. */
  lemma GroundSpeedFilter(st: StoreState, a: Address, t: real, d: Decoded)
    requires d.velocity.Some?
    ensures var gs := GetVelocity(d);
      VelocityMessage(st, a, t, d).Speeds(a)
        == st.Speeds(a) + (if gs.Some? && SpeedInRange(gs.value) then [Sample(t, gs.value)] else [])
  {
  }

  /** TC 1-4: the stored callsign changes only to a non-empty, alphanumeric one; the last such one wins. */
  lemma CallsignEffect(st: StoreState, a: Address, t: real, d: Decoded)
    ensures var r := Identification(st, a, t, d);
      var cs := GetCallsign(d);
      && r.Arrivals(Ident, a) == st.Arrivals(Ident, a) + [t]
      && (if cs.Some? && cs.value != [] then r.profile.callsigns == st.profile.callsigns[a := cs.value] && AllAlnum(cs.value)
          else r.profile.callsigns == st.profile.callsigns)
  {
  }

  /**
   * TC 28: a resolution advisory only adds to the TCAS series; a message
   * without a decoded squawk changes nothing; otherwise the message goes to
   * exactly one of the emergency and status series.
   */
  lemma StatusSplit(st: StoreState, a: Address, t: real, d: Decoded)
    ensures var r := StatusMessage(st, a, t, d);
      && (d.tcasRa ==> r == st.AddArrival(TcasRa, a, t))
      && (!d.tcasRa && d.squawk.None? ==> r == st)
      && (!d.tcasRa && d.squawk.Some? ==>
            && r.Arrivals(Emergency, a) == st.Arrivals(Emergency, a) + (if d.isEmergency then [t] else [])
            && r.Arrivals(Status, a) == st.Arrivals(Status, a) + (if d.isEmergency then [] else [t])
            && r.Arrivals(TcasRa, a) == st.Arrivals(TcasRa, a))
  {
  }

  /**
   * The squawk-change episode: the start is set to `t` exactly when a
   * previous code exists, differs, and the new code is not reserved; the
   * message counts as a mode change exactly when a start exists and `t` is at
   * most 24.5 s after it; the last code becomes the new one in every case.
   */
  lemma EpisodeEffect(st: StoreState, a: Address, t: real, c: string, emergency: bool)
    ensures var r := Squawk(st, a, t, c, emergency);
      var last := st.pending.lastModeA;
      var opens := a in last && c != last[a] && c !in ReservedSquawks;
      var start := r.pending.changeEventStart;
      && (opens ==> a in start && start[a] == t)
      && (!opens ==> start == st.pending.changeEventStart)
      && r.Arrivals(ModeChange, a) == st.Arrivals(ModeChange, a)
           + (if a in start && t - start[a] <= EpisodeWindow then [t] else [])
      && r.pending.lastModeA == last[a := c]
  {
  }

  /** Emergency-classified messages take part in change detection exactly as ordinary status messages do. */
  lemma EmergencyStillTracked(st: StoreState, a: Address, t: real, c: string)
    ensures var e := Squawk(st, a, t, c, true);
      var s := Squawk(st, a, t, c, false);
      && e.pending == s.pending
      && e.Arrivals(ModeChange, a) == s.Arrivals(ModeChange, a)
  {
  }

  /**
   * TC 29: the selected altitude, its flag and the union of modes change
   * together; the stored modes of an address only grow. The pressure
   * setting is appended whenever it passed its filter, independently.
   */
  lemma TargetStateEffect(st: StoreState, a: Address, t: real, d: Decoded)
    ensures var r := TargetStateMessage(st, a, t, d);
      var sel := GetSelectedAltitude(d);
      var modes := st.profile.modes;
      && r.Arrivals(TargetState, a) == st.Arrivals(TargetState, a) + [t]
      && (a in modes ==> a in r.profile.modes && modes[a] <= r.profile.modes[a])
      && (sel.Some? ==>
            && r.profile.modes == modes[a := (if a in modes then modes[a] else {}) + sel.value.modes]
            && r.profile.hasSelectedAlt == st.profile.hasSelectedAlt + {a}
            && r.SelectedAltitudes(a) == st.SelectedAltitudes(a) + [Sample(t, sel.value.alt)])
      && (sel.None? ==>
            && r.profile.modes == modes && r.profile.hasSelectedAlt == st.profile.hasSelectedAlt
            && r.tracks.settings.selectedAltitude == st.tracks.settings.selectedAltitude)
  {
  }

  /** TC 29: the pressure setting is appended exactly when it is in [800, 1100] hPa. */
  lemma TargetStateBaroEffect(st: StoreState, a: Address, t: real, d: Decoded)
    requires IsAdsb(d) && d.typecode == Some(29)
    ensures var r := TargetStateMessage(st, a, t, d);
      && (d.baroSetting.Some? && 800.0 <= d.baroSetting.value <= 1100.0 ==>
            r.BaroCorrections(a) == st.BaroCorrections(a) + [Sample(t, d.baroSetting.value)])
      && (d.baroSetting.None? || d.baroSetting.value < 800.0 || d.baroSetting.value > 1100.0 ==>
            r.tracks.settings.baroCorrection == st.tracks.settings.baroCorrection)
  {
  }

  /** TC 31: subtype 0 feeds the airborne and subtype 1 the surface operational-status series. */
  lemma OperationalStatusRouting(st: StoreState, a: Address, t: real, d: Decoded)
    ensures var r := OperationalStatus(st, a, t, d);
      && r.Arrivals(AirOpStatus, a) == st.Arrivals(AirOpStatus, a) + (if d.subtype == 0 then [t] else [])
      && r.Arrivals(SurfOpStatus, a) == st.Arrivals(SurfOpStatus, a) + (if d.subtype == 1 then [t] else [])
      && OnlyArrivalsDiffer(st, r)
  {
  }

  // ---------------------------------------------------------------------------
  // Append-only, grow-only
  // ---------------------------------------------------------------------------

  /** Every series of `m` is a prefix of the same series in `m'`. */
  ghost predicate SeriesGrow<K, T>(m: map<K, seq<T>>, m': map<K, seq<T>>) {
    m.Keys <= m'.Keys && forall k :: k in m ==> m[k] <= m'[k]
  }

  ghost predicate TracksGrow(x: Tracks, y: Tracks) {
    && SeriesGrow(x.motion.altitude, y.motion.altitude)
    && SeriesGrow(x.motion.speed, y.motion.speed)
    && SeriesGrow(x.motion.positions, y.motion.positions)
    && SeriesGrow(x.motion.courses, y.motion.courses)
    && SeriesGrow(x.angles.trackAngles, y.angles.trackAngles)
    && SeriesGrow(x.angles.gsAngles, y.angles.gsAngles)
    && SeriesGrow(x.angles.airspdAngles, y.angles.airspdAngles)
    && SeriesGrow(x.settings.selectedAltitude, y.settings.selectedAltitude)
    && SeriesGrow(x.settings.altitudeDifference, y.settings.altitudeDifference)
    && SeriesGrow(x.settings.baroCorrection, y.settings.baroCorrection)
  }

  ghost predicate ProfileGrows(x: Profile, y: Profile) {
    && x.callsigns.Keys <= y.callsigns.Keys
    && x.modes.Keys <= y.modes.Keys && (forall a :: a in x.modes ==> x.modes[a] <= y.modes[a])
    && x.hasSelectedAlt <= y.hasSelectedAlt
    && x.hasGnss <= y.hasGnss
  }

  /**
   * `r` extends `st`: no address, series entry, mode or flag is ever lost,
   * and a first-seen time never changes once set.
   */
  ghost predicate Grows(st: StoreState, r: StoreState) {
    && st.registry.icaos <= r.registry.icaos
    && st.registry.times.Keys <= r.registry.times.Keys
    && (forall a :: a in st.registry.times ==> r.registry.times[a].first == st.registry.times[a].first)
    && SeriesGrow(st.registry.arrivals, r.registry.arrivals)
    && TracksGrow(st.tracks, r.tracks)
    && ProfileGrows(st.profile, r.profile)
  }

  lemma AppendGrows<K(!new), T>(m: map<K, seq<T>>, k: K, x: T)
    ensures SeriesGrow(m, Append(m, k, x))
  {
  }

  lemma SeriesGrowTrans<K, T>(m1: map<K, seq<T>>, m2: map<K, seq<T>>, m3: map<K, seq<T>>)
    requires SeriesGrow(m1, m2) && SeriesGrow(m2, m3)
    ensures SeriesGrow(m1, m3)
  {
    forall k | k in m1
      ensures m1[k] <= m3[k]
    {
      assert m1[k] <= m2[k] <= m3[k];
    }
  }

  lemma GrowsRefl(st: StoreState)
    ensures Grows(st, st)
  {
  }

  lemma GrowsTrans(x: StoreState, y: StoreState, z: StoreState)
    requires Grows(x, y) && Grows(y, z)
    ensures Grows(x, z)
  {
    SeriesGrowTrans(x.registry.arrivals, y.registry.arrivals, z.registry.arrivals);
    SeriesGrowTrans(x.tracks.motion.altitude, y.tracks.motion.altitude, z.tracks.motion.altitude);
    SeriesGrowTrans(x.tracks.motion.speed, y.tracks.motion.speed, z.tracks.motion.speed);
    SeriesGrowTrans(x.tracks.motion.positions, y.tracks.motion.positions, z.tracks.motion.positions);
    SeriesGrowTrans(x.tracks.motion.courses, y.tracks.motion.courses, z.tracks.motion.courses);
    SeriesGrowTrans(x.tracks.angles.trackAngles, y.tracks.angles.trackAngles, z.tracks.angles.trackAngles);
    SeriesGrowTrans(x.tracks.angles.gsAngles, y.tracks.angles.gsAngles, z.tracks.angles.gsAngles);
    SeriesGrowTrans(x.tracks.angles.airspdAngles, y.tracks.angles.airspdAngles, z.tracks.angles.airspdAngles);
    SeriesGrowTrans(x.tracks.settings.selectedAltitude, y.tracks.settings.selectedAltitude, z.tracks.settings.selectedAltitude);
    SeriesGrowTrans(x.tracks.settings.altitudeDifference, y.tracks.settings.altitudeDifference, z.tracks.settings.altitudeDifference);
    SeriesGrowTrans(x.tracks.settings.baroCorrection, y.tracks.settings.baroCorrection, z.tracks.settings.baroCorrection);
  }

  lemma AddArrivalGrows(st: StoreState, c: Category, a: Address, t: real)
    ensures Grows(st, st.AddArrival(c, a, t))
  {
    AppendGrows(st.registry.arrivals, (c, a), t);
  }

  lemma AppendAltitudeGrows(st: StoreState, a: Address, x: Sample<Altitude>)
    ensures Grows(st, st.AppendAltitude(a, x))
  {
    AppendGrows(st.tracks.motion.altitude, a, x);
  }

  lemma AppendSpeedGrows(st: StoreState, a: Address, x: Sample<int>)
    ensures Grows(st, st.AppendSpeed(a, x))
  {
    AppendGrows(st.tracks.motion.speed, a, x);
  }

  lemma AppendPositionGrows(st: StoreState, a: Address, x: Sample<LatLon>)
    ensures Grows(st, st.AppendPosition(a, x))
  {
    AppendGrows(st.tracks.motion.positions, a, x);
  }

  lemma AppendCourseGrows(st: StoreState, a: Address, x: Sample<real>)
    ensures Grows(st, st.AppendCourse(a, x))
  {
    AppendGrows(st.tracks.motion.courses, a, x);
  }

  lemma AppendTrackAngleGrows(st: StoreState, a: Address, x: Sample<real>)
    ensures Grows(st, st.AppendTrackAngle(a, x))
  {
    AppendGrows(st.tracks.angles.trackAngles, a, x);
  }

  lemma AppendGsAngleGrows(st: StoreState, a: Address, x: Sample<Option<real>>)
    ensures Grows(st, st.AppendGsAngle(a, x))
  {
    AppendGrows(st.tracks.angles.gsAngles, a, x);
  }

  lemma AppendAirspdAngleGrows(st: StoreState, a: Address, x: Sample<Option<real>>)
    ensures Grows(st, st.AppendAirspdAngle(a, x))
  {
    AppendGrows(st.tracks.angles.airspdAngles, a, x);
  }

  lemma AppendSelectedAltitudeGrows(st: StoreState, a: Address, x: Sample<int>)
    ensures Grows(st, st.AppendSelectedAltitude(a, x))
  {
    AppendGrows(st.tracks.settings.selectedAltitude, a, x);
  }

  lemma AppendAltitudeDifferenceGrows(st: StoreState, a: Address, x: Sample<int>)
    ensures Grows(st, st.AppendAltitudeDifference(a, x))
  {
    AppendGrows(st.tracks.settings.altitudeDifference, a, x);
  }

  lemma AppendBaroCorrectionGrows(st: StoreState, a: Address, x: Sample<real>)
    ensures Grows(st, st.AppendBaroCorrection(a, x))
  {
    AppendGrows(st.tracks.settings.baroCorrection, a, x);
  }

  /** Changes to the CPR slots, the last code and the episode start lose nothing. */
  lemma PendingGrows(st: StoreState, p: Pending)
    ensures Grows(st, st.(pending := p))
  {
  }

  lemma ProfileUpdateGrows(st: StoreState, a: Address, cs: string, m: set<string>)
    ensures Grows(st, st.SetCallsign(a, cs))
    ensures Grows(st, st.UnionModes(a, m))
    ensures Grows(st, st.MarkSelectedAlt(a))
    ensures Grows(st, st.MarkGnss(a))
  {
  }

  /** Listing an address and stamping its times keeps every first-seen time. */
  lemma TouchGrows(st: StoreState, a: Address, t: real)
    ensures Grows(st, Touch(st, a, t))
  {
  }

  lemma AirbornePositionGrows(st: StoreState, a: Address, t: real, msg: string, d: Decoded, resolve: Resolver)
    ensures Grows(st, AirbornePosition(st, a, t, msg, d, resolve))
  {
    var st1 := st.AddArrival(AirbornePos, a, t);
    AddArrivalGrows(st, AirbornePos, a, t);
    var alt := GetAltitude(d);
    var st2 := if alt.Some? && AltitudeInRange(alt.value) then st1.AppendAltitude(a, Sample(t, Altitude(alt.value, Baro)))
               else st1;
    if alt.Some? && AltitudeInRange(alt.value) {
      AppendAltitudeGrows(st1, a, Sample(t, Altitude(alt.value, Baro)));
      GrowsTrans(st, st1, st2);
    }
    var cpr := st2.pending.cpr;
    var o := CprStep(if a in cpr then cpr[a] else EmptySlots, d.oeFlag, msg, t, resolve);
    var st3 := st2.SetSlots(a, o.slots);
    PendingGrows(st2, st3.pending);
    GrowsTrans(st, st2, st3);
    if o.fix.Some? {
      AppendPositionGrows(st3, a, Sample(t, o.fix.value));
      GrowsTrans(st, st3, st3.AppendPosition(a, Sample(t, o.fix.value)));
    }
  }

  lemma IdentificationGrows(st: StoreState, a: Address, t: real, d: Decoded)
    ensures Grows(st, Identification(st, a, t, d))
  {
    var st1 := st.AddArrival(Ident, a, t);
    AddArrivalGrows(st, Ident, a, t);
    var cs := GetCallsign(d);
    if cs.Some? && cs.value != [] {
      ProfileUpdateGrows(st1, a, cs.value, {});
      GrowsTrans(st, st1, st1.SetCallsign(a, cs.value));
    }
  }

  lemma VelocityFieldsGrows(st: StoreState, a: Address, t: real, d: Decoded)
    ensures Grows(st, VelocityFieldsUpdate(st, a, t, d))
  {
    var gs := GetVelocity(d);
    var st1 := if gs.Some? && SpeedInRange(gs.value) then st.AppendSpeed(a, Sample(t, gs.value)) else st;
    if gs.Some? && SpeedInRange(gs.value) {
      AppendSpeedGrows(st, a, Sample(t, gs.value));
    } else {
      GrowsRefl(st);
    }
    var track := GetTrackAngle(d);
    var st2 := if track.Some? then st1.AppendTrackAngle(a, Sample(t, track.value)) else st1;
    if track.Some? {
      AppendTrackAngleGrows(st1, a, Sample(t, track.value));
      GrowsTrans(st, st1, st2);
    }
    var course := GetCourse(d);
    var st3 := if course.Some? then st2.AppendCourse(a, Sample(t, course.value)) else st2;
    if course.Some? {
      AppendCourseGrows(st2, a, Sample(t, course.value));
      GrowsTrans(st, st2, st3);
    }
    var diff := GetAltitudeDifference(d);
    if diff.Some? {
      var st4 := st3.AppendAltitudeDifference(a, Sample(t, diff.value));
      AppendAltitudeDifferenceGrows(st3, a, Sample(t, diff.value));
      ProfileUpdateGrows(st4, a, [], {});
      GrowsTrans(st, st3, st4);
      GrowsTrans(st, st4, st4.MarkGnss(a));
    }
  }

  lemma VelocityGrows(st: StoreState, a: Address, t: real, d: Decoded)
    ensures Grows(st, VelocityMessage(st, a, t, d))
  {
    var st1 := st.AddArrival(Velocity, a, t);
    AddArrivalGrows(st, Velocity, a, t);
    if d.velocity.Some? {
      var angle := d.velocity.value.angle;
      var st2 := AngleBySubtype(st1, a, t, d.subtype, angle);
      if d.subtype == 1 {
        AppendGsAngleGrows(st1, a, Sample(t, angle));
      } else if d.subtype == 3 {
        AppendAirspdAngleGrows(st1, a, Sample(t, angle));
      } else {
        GrowsRefl(st1);
      }
      GrowsTrans(st, st1, st2);
      VelocityFieldsGrows(st2, a, t, d);
      GrowsTrans(st, st2, VelocityFieldsUpdate(st2, a, t, d));
    }
  }

  lemma GnssPositionGrows(st: StoreState, a: Address, t: real, d: Decoded)
    ensures Grows(st, GnssPosition(st, a, t, d))
  {
    var st1 := st.AddArrival(AirbornePos, a, t);
    AddArrivalGrows(st, AirbornePos, a, t);
    var alt := GetAltitude(d);
    if alt.Some? && AltitudeInRange(alt.value) {
      var st2 := st1.AppendAltitude(a, Sample(t, Altitude(alt.value, Gnss)));
      AppendAltitudeGrows(st1, a, Sample(t, Altitude(alt.value, Gnss)));
      ProfileUpdateGrows(st2, a, [], {});
      GrowsTrans(st, st1, st2);
      GrowsTrans(st, st2, st2.MarkGnss(a));
    }
  }

  lemma SquawkGrows(st: StoreState, a: Address, t: real, c: string, emergency: bool)
    ensures Grows(st, Squawk(st, a, t, c, emergency))
  {
    var st1 := st.AddArrival(if emergency then Emergency else Status, a, t);
    AddArrivalGrows(st, if emergency then Emergency else Status, a, t);
    var e := EpisodeStep(Lookup(st1.pending.lastModeA, a), Lookup(st1.pending.changeEventStart, a), c, t);
    var st2 := if e.start.Some? then st1.SetEpisodeStart(a, e.start.value) else st1;
    PendingGrows(st1, st2.pending);
    GrowsTrans(st, st1, st2);
    var st3 := if e.inEpisode then st2.AddArrival(ModeChange, a, t) else st2;
    if e.inEpisode {
      AddArrivalGrows(st2, ModeChange, a, t);
      GrowsTrans(st, st2, st3);
    }
    PendingGrows(st3, st3.SetLastModeA(a, c).pending);
    GrowsTrans(st, st3, st3.SetLastModeA(a, c));
  }

  lemma StatusMessageGrows(st: StoreState, a: Address, t: real, d: Decoded)
    ensures Grows(st, StatusMessage(st, a, t, d))
  {
    if d.tcasRa {
      AddArrivalGrows(st, TcasRa, a, t);
    } else if d.squawk.Some? {
      SquawkGrows(st, a, t, d.squawk.value, d.isEmergency);
    } else {
      GrowsRefl(st);
    }
  }

  lemma TargetStateGrows(st: StoreState, a: Address, t: real, d: Decoded)
    ensures Grows(st, TargetStateMessage(st, a, t, d))
  {
    var st1 := st.AddArrival(TargetState, a, t);
    AddArrivalGrows(st, TargetState, a, t);
    var sel := GetSelectedAltitude(d);
    var st2 := if sel.Some?
               then st1.AppendSelectedAltitude(a, Sample(t, sel.value.alt)).MarkSelectedAlt(a).UnionModes(a, sel.value.modes)
               else st1;
    if sel.Some? {
      var x := st1.AppendSelectedAltitude(a, Sample(t, sel.value.alt));
      AppendSelectedAltitudeGrows(st1, a, Sample(t, sel.value.alt));
      ProfileUpdateGrows(x, a, [], sel.value.modes);
      ProfileUpdateGrows(x.MarkSelectedAlt(a), a, [], sel.value.modes);
      GrowsTrans(st, st1, x);
      GrowsTrans(st, x, x.MarkSelectedAlt(a));
      GrowsTrans(st, x.MarkSelectedAlt(a), st2);
    }
    var baro := GetBaroCorrection(d);
    if baro.Some? {
      AppendBaroCorrectionGrows(st2, a, Sample(t, baro.value));
      GrowsTrans(st, st2, st2.AppendBaroCorrection(a, Sample(t, baro.value)));
    }
  }

  lemma OperationalStatusGrows(st: StoreState, a: Address, t: real, d: Decoded)
    ensures Grows(st, OperationalStatus(st, a, t, d))
  {
    if d.subtype == 0 {
      AddArrivalGrows(st, AirOpStatus, a, t);
    } else if d.subtype == 1 {
      AddArrivalGrows(st, SurfOpStatus, a, t);
    } else {
      GrowsRefl(st);
    }
  }

  lemma DispatchGrows(st: StoreState, a: Address, tc: int, t: real, msg: string, d: Decoded, resolve: Resolver)
    ensures Grows(st, Dispatch(st, a, tc, t, msg, d, resolve))
  {
    if 5 <= tc <= 8 {
      AddArrivalGrows(st, SurfacePos, a, t);
    } else if 9 <= tc <= 18 {
      AirbornePositionGrows(st, a, t, msg, d, resolve);
    } else if 1 <= tc <= 4 {
      IdentificationGrows(st, a, t, d);
    } else if tc == 19 {
      VelocityGrows(st, a, t, d);
    } else if 20 <= tc <= 22 {
      GnssPositionGrows(st, a, t, d);
    } else if tc == 28 {
      StatusMessageGrows(st, a, t, d);
    } else if tc == 29 {
      TargetStateGrows(st, a, t, d);
    } else if tc == 31 {
      OperationalStatusGrows(st, a, t, d);
    } else {
      GrowsRefl(st);
    }
  }

  /** One record never removes anything from the store and never changes a first-seen time. */
  lemma StepGrows(st: StoreState, t: real, msg: string, d: Decoded, target: string, resolve: Resolver)
    ensures Grows(st, Step(st, t, msg, d, target, resolve))
  {
    var r := Step(st, t, msg, d, target, resolve);
    if d.df.None? || d.icao.None? {
      assert r == st;
      GrowsRefl(st);
    } else if d.df.value == 11 {
      assert r == st.AddArrival(Acquisition, d.icao.value, t);
      AddArrivalGrows(st, Acquisition, d.icao.value, t);
    } else if (d.df.value != 17 && d.df.value != 18) || !PassesFilter(target, d.icao.value) {
      assert r == st;
      GrowsRefl(st);
    } else {
      var a := d.icao.value;
      var st1 := Touch(st, a, t);
      TouchGrows(st, a, t);
      if d.typecode.Some? {
        assert r == Dispatch(st1, a, d.typecode.value, t, msg, d, resolve);
        DispatchGrows(st1, a, d.typecode.value, t, msg, d, resolve);
        GrowsTrans(st, st1, r);
      } else {
        assert r == st1;
      }
    }
  }

  /** Reading a log line by line only ever extends the store: every prefix's store is contained in the whole log's. */
  lemma {:induction false} IngestedGrows(st: StoreState, lines: seq<string>, toFloat: string -> Option<real>,
                                         decode: string -> Decoded, target: string, resolve: Resolver)
    ensures Grows(st, Ingested(st, lines, toFloat, decode, target, resolve))
  {
    if lines == [] {
      GrowsRefl(st);
    } else {
      var prefix := lines[..|lines| - 1];
      var mid := Ingested(st, prefix, toFloat, decode, target, resolve);
      IngestedGrows(st, prefix, toFloat, decode, target, resolve);
      var line := lines[|lines| - 1];
      match ParseLine(line, toFloat)
      case None =>
        GrowsRefl(mid);
      case Some(p) =>
        StepGrows(mid, p.t, p.msg, decode(p.msg), target, resolve);
      GrowsTrans(st, mid, Ingested(st, lines, toFloat, decode, target, resolve));
    }
  }

  // ---------------------------------------------------------------------------
  // Every aircraft with data is listed
  // ---------------------------------------------------------------------------

  /** Every per-aircraft series and flag of `st` belongs to an address of `S`; DF 11 acquisitions are exempt. */
  ghost predicate KeysWithin(st: StoreState, S: set<Address>) {
    && (forall c, b :: (c, b) in st.registry.arrivals && c != Acquisition ==> b in S)
    && st.tracks.motion.altitude.Keys <= S && st.tracks.motion.speed.Keys <= S
    && st.tracks.motion.positions.Keys <= S && st.tracks.motion.courses.Keys <= S
    && st.tracks.angles.trackAngles.Keys <= S && st.tracks.angles.gsAngles.Keys <= S
    && st.tracks.angles.airspdAngles.Keys <= S
    && st.tracks.settings.selectedAltitude.Keys <= S && st.tracks.settings.altitudeDifference.Keys <= S
    && st.tracks.settings.baroCorrection.Keys <= S
    && st.profile.callsigns.Keys <= S && st.profile.modes.Keys <= S
    && st.profile.hasSelectedAlt <= S && st.profile.hasGnss <= S
    && st.pending.cpr.Keys <= S && st.pending.lastModeA.Keys <= S && st.pending.changeEventStart.Keys <= S
  }

  lemma ArrivalWithin(st: StoreState, S: set<Address>, c: Category, a: Address, t: real)
    requires KeysWithin(st, S) && (a in S || c == Acquisition)
    ensures KeysWithin(st.AddArrival(c, a, t), S)
  {
    var r := st.AddArrival(c, a, t);
    forall c', b | (c', b) in r.registry.arrivals && c' != Acquisition
      ensures b in S
    {
      if (c', b) != (c, a) {
        assert (c', b) in st.registry.arrivals;
      }
    }
  }

  lemma MotionWithin(st: StoreState, S: set<Address>, a: Address, alt: Sample<Altitude>, spd: Sample<int>,
                     pos: Sample<LatLon>, course: Sample<real>)
    requires KeysWithin(st, S) && a in S
    ensures KeysWithin(st.AppendAltitude(a, alt), S)
    ensures KeysWithin(st.AppendSpeed(a, spd), S)
    ensures KeysWithin(st.AppendPosition(a, pos), S)
    ensures KeysWithin(st.AppendCourse(a, course), S)
  {
  }

  lemma AnglesWithin(st: StoreState, S: set<Address>, a: Address, track: Sample<real>, angle: Sample<Option<real>>)
    requires KeysWithin(st, S) && a in S
    ensures KeysWithin(st.AppendTrackAngle(a, track), S)
    ensures KeysWithin(st.AppendGsAngle(a, angle), S)
    ensures KeysWithin(st.AppendAirspdAngle(a, angle), S)
  {
  }

  lemma SettingsWithin(st: StoreState, S: set<Address>, a: Address, x: Sample<int>, baro: Sample<real>)
    requires KeysWithin(st, S) && a in S
    ensures KeysWithin(st.AppendSelectedAltitude(a, x), S)
    ensures KeysWithin(st.AppendAltitudeDifference(a, x), S)
    ensures KeysWithin(st.AppendBaroCorrection(a, baro), S)
  {
  }

  lemma ProfileWithin(st: StoreState, S: set<Address>, a: Address, cs: string, m: set<string>)
    requires KeysWithin(st, S) && a in S
    ensures KeysWithin(st.SetCallsign(a, cs), S)
    ensures KeysWithin(st.UnionModes(a, m), S)
    ensures KeysWithin(st.MarkSelectedAlt(a), S)
    ensures KeysWithin(st.MarkGnss(a), S)
  {
  }

  lemma AirbornePositionWithin(st: StoreState, S: set<Address>, a: Address, t: real, msg: string, d: Decoded, resolve: Resolver)
    requires KeysWithin(st, S) && a in S
    ensures KeysWithin(AirbornePosition(st, a, t, msg, d, resolve), S)
  {
    var st1 := st.AddArrival(AirbornePos, a, t);
    ArrivalWithin(st, S, AirbornePos, a, t);
    var alt := GetAltitude(d);
    var st2 := if alt.Some? && AltitudeInRange(alt.value) then st1.AppendAltitude(a, Sample(t, Altitude(alt.value, Baro))) else st1;
    if alt.Some? && AltitudeInRange(alt.value) {
      MotionWithin(st1, S, a, Sample(t, Altitude(alt.value, Baro)), Sample(t, 0), Sample(t, LatLon(0.0, 0.0)), Sample(t, 0.0));
    }
    var o := CprStep(if a in st2.pending.cpr then st2.pending.cpr[a] else EmptySlots, d.oeFlag, msg, t, resolve);
    var st3 := st2.SetSlots(a, o.slots);
    assert KeysWithin(st3, S);
    if o.fix.Some? {
      MotionWithin(st3, S, a, Sample(t, Altitude(0, Baro)), Sample(t, 0), Sample(t, o.fix.value), Sample(t, 0.0));
    }
  }

  lemma IdentificationWithin(st: StoreState, S: set<Address>, a: Address, t: real, d: Decoded)
    requires KeysWithin(st, S) && a in S
    ensures KeysWithin(Identification(st, a, t, d), S)
  {
    ArrivalWithin(st, S, Ident, a, t);
    var cs := GetCallsign(d);
    if cs.Some? && cs.value != [] {
      ProfileWithin(st.AddArrival(Ident, a, t), S, a, cs.value, {});
    }
  }

  lemma VelocityFieldsWithin(st: StoreState, S: set<Address>, a: Address, t: real, d: Decoded)
    requires KeysWithin(st, S) && a in S
    ensures KeysWithin(VelocityFieldsUpdate(st, a, t, d), S)
  {
    var gs := GetVelocity(d);
    var st1 := if gs.Some? && SpeedInRange(gs.value) then st.AppendSpeed(a, Sample(t, gs.value)) else st;
    if gs.Some? && SpeedInRange(gs.value) {
      MotionWithin(st, S, a, Sample(t, Altitude(0, Baro)), Sample(t, gs.value), Sample(t, LatLon(0.0, 0.0)), Sample(t, 0.0));
    }
    var track := GetTrackAngle(d);
    var st2 := if track.Some? then st1.AppendTrackAngle(a, Sample(t, track.value)) else st1;
    if track.Some? {
      AnglesWithin(st1, S, a, Sample(t, track.value), Sample(t, None));
    }
    var course := GetCourse(d);
    var st3 := if course.Some? then st2.AppendCourse(a, Sample(t, course.value)) else st2;
    if course.Some? {
      MotionWithin(st2, S, a, Sample(t, Altitude(0, Baro)), Sample(t, 0), Sample(t, LatLon(0.0, 0.0)), Sample(t, course.value));
    }
    var diff := GetAltitudeDifference(d);
    if diff.Some? {
      SettingsWithin(st3, S, a, Sample(t, diff.value), Sample(t, 0.0));
      ProfileWithin(st3.AppendAltitudeDifference(a, Sample(t, diff.value)), S, a, [], {});
    }
  }

  lemma VelocityWithin(st: StoreState, S: set<Address>, a: Address, t: real, d: Decoded)
    requires KeysWithin(st, S) && a in S
    ensures KeysWithin(VelocityMessage(st, a, t, d), S)
  {
    var st1 := st.AddArrival(Velocity, a, t);
    ArrivalWithin(st, S, Velocity, a, t);
    if d.velocity.Some? {
      var angle := d.velocity.value.angle;
      AnglesWithin(st1, S, a, Sample(t, 0.0), Sample(t, angle));
      VelocityFieldsWithin(AngleBySubtype(st1, a, t, d.subtype, angle), S, a, t, d);
    }
  }

  lemma GnssPositionWithin(st: StoreState, S: set<Address>, a: Address, t: real, d: Decoded)
    requires KeysWithin(st, S) && a in S
    ensures KeysWithin(GnssPosition(st, a, t, d), S)
  {
    var st1 := st.AddArrival(AirbornePos, a, t);
    ArrivalWithin(st, S, AirbornePos, a, t);
    var alt := GetAltitude(d);
    if alt.Some? && AltitudeInRange(alt.value) {
      var x := Sample(t, Altitude(alt.value, Gnss));
      MotionWithin(st1, S, a, x, Sample(t, 0), Sample(t, LatLon(0.0, 0.0)), Sample(t, 0.0));
      ProfileWithin(st1.AppendAltitude(a, x), S, a, [], {});
    }
  }

  lemma SquawkWithin(st: StoreState, S: set<Address>, a: Address, t: real, c: string, emergency: bool)
    requires KeysWithin(st, S) && a in S
    ensures KeysWithin(Squawk(st, a, t, c, emergency), S)
  {
    var st1 := st.AddArrival(if emergency then Emergency else Status, a, t);
    ArrivalWithin(st, S, if emergency then Emergency else Status, a, t);
    var e := EpisodeStep(Lookup(st1.pending.lastModeA, a), Lookup(st1.pending.changeEventStart, a), c, t);
    var st2 := if e.start.Some? then st1.SetEpisodeStart(a, e.start.value) else st1;
    assert KeysWithin(st2, S);
    if e.inEpisode {
      ArrivalWithin(st2, S, ModeChange, a, t);
    }
  }

  lemma TargetStateWithin(st: StoreState, S: set<Address>, a: Address, t: real, d: Decoded)
    requires KeysWithin(st, S) && a in S
    ensures KeysWithin(TargetStateMessage(st, a, t, d), S)
  {
    var st1 := st.AddArrival(TargetState, a, t);
    ArrivalWithin(st, S, TargetState, a, t);
    var sel := GetSelectedAltitude(d);
    var st2 := if sel.Some?
               then st1.AppendSelectedAltitude(a, Sample(t, sel.value.alt)).MarkSelectedAlt(a).UnionModes(a, sel.value.modes)
               else st1;
    if sel.Some? {
      var x := st1.AppendSelectedAltitude(a, Sample(t, sel.value.alt));
      SettingsWithin(st1, S, a, Sample(t, sel.value.alt), Sample(t, 0.0));
      ProfileWithin(x, S, a, [], sel.value.modes);
      ProfileWithin(x.MarkSelectedAlt(a), S, a, [], sel.value.modes);
    }
    var baro := GetBaroCorrection(d);
    if baro.Some? {
      SettingsWithin(st2, S, a, Sample(t, 0), Sample(t, baro.value));
    }
  }

  lemma DispatchWithin(st: StoreState, S: set<Address>, a: Address, tc: int, t: real, msg: string, d: Decoded, resolve: Resolver)
    requires KeysWithin(st, S) && a in S
    ensures KeysWithin(Dispatch(st, a, tc, t, msg, d, resolve), S)
  {
    if 5 <= tc <= 8 {
      ArrivalWithin(st, S, SurfacePos, a, t);
    } else if 9 <= tc <= 18 {
      AirbornePositionWithin(st, S, a, t, msg, d, resolve);
    } else if 1 <= tc <= 4 {
      IdentificationWithin(st, S, a, t, d);
    } else if tc == 19 {
      VelocityWithin(st, S, a, t, d);
    } else if 20 <= tc <= 22 {
      GnssPositionWithin(st, S, a, t, d);
    } else if tc == 28 {
      if d.tcasRa {
        ArrivalWithin(st, S, TcasRa, a, t);
      } else if d.squawk.Some? {
        SquawkWithin(st, S, a, t, d.squawk.value, d.isEmergency);
      }
    } else if tc == 29 {
      TargetStateWithin(st, S, a, t, d);
    } else if tc == 31 {
      if d.subtype == 0 {
        ArrivalWithin(st, S, AirOpStatus, a, t);
      } else if d.subtype == 1 {
        ArrivalWithin(st, S, SurfOpStatus, a, t);
      }
    }
  }

  // ---------------------------------------------------------------------------
  // A record writes only under its own address
  // ---------------------------------------------------------------------------

  /** The series of address `b` are the same in `x` and `y`. */
  ghost predicate SameTracksFor(x: Tracks, y: Tracks, b: Address) {
    && Series(y.motion.altitude, b) == Series(x.motion.altitude, b)
    && Series(y.motion.speed, b) == Series(x.motion.speed, b)
    && Series(y.motion.positions, b) == Series(x.motion.positions, b)
    && Series(y.motion.courses, b) == Series(x.motion.courses, b)
    && Series(y.angles.trackAngles, b) == Series(x.angles.trackAngles, b)
    && Series(y.angles.gsAngles, b) == Series(x.angles.gsAngles, b)
    && Series(y.angles.airspdAngles, b) == Series(x.angles.airspdAngles, b)
    && Series(y.settings.selectedAltitude, b) == Series(x.settings.selectedAltitude, b)
    && Series(y.settings.altitudeDifference, b) == Series(x.settings.altitudeDifference, b)
    && Series(y.settings.baroCorrection, b) == Series(x.settings.baroCorrection, b)
  }

  /** Everything `st` holds for address `b` is the same in `r`: listing, times, series, flags and pending state. */
  ghost predicate SameFor(st: StoreState, r: StoreState, b: Address) {
    && (b in r.registry.icaos <==> b in st.registry.icaos)
    && Lookup(r.registry.times, b) == Lookup(st.registry.times, b)
    && (forall c :: r.Arrivals(c, b) == st.Arrivals(c, b))
    && SameTracksFor(st.tracks, r.tracks, b)
    && Lookup(r.profile.callsigns, b) == Lookup(st.profile.callsigns, b)
    && Lookup(r.profile.modes, b) == Lookup(st.profile.modes, b)
    && (b in r.profile.hasSelectedAlt <==> b in st.profile.hasSelectedAlt)
    && (b in r.profile.hasGnss <==> b in st.profile.hasGnss)
    && Lookup(r.pending.cpr, b) == Lookup(st.pending.cpr, b)
    && Lookup(r.pending.lastModeA, b) == Lookup(st.pending.lastModeA, b)
    && Lookup(r.pending.changeEventStart, b) == Lookup(st.pending.changeEventStart, b)
  }

  lemma SameForTrans(x: StoreState, y: StoreState, z: StoreState, b: Address)
    requires SameFor(x, y, b) && SameFor(y, z, b)
    ensures SameFor(x, z, b)
  {
  }

  lemma ArrivalOthers(st: StoreState, c: Category, a: Address, t: real, b: Address)
    requires b != a
    ensures SameFor(st, st.AddArrival(c, a, t), b)
  {
    var r := st.AddArrival(c, a, t);
    forall c' ensures r.Arrivals(c', b) == st.Arrivals(c', b) {
      assert (c', b) != (c, a);
    }
  }

  lemma AirbornePositionOthers(st: StoreState, a: Address, t: real, msg: string, d: Decoded, resolve: Resolver, b: Address)
    requires b != a
    ensures SameFor(st, AirbornePosition(st, a, t, msg, d, resolve), b)
  {
    var st1 := st.AddArrival(AirbornePos, a, t);
    ArrivalOthers(st, AirbornePos, a, t, b);
    var alt := GetAltitude(d);
    var st2 := if alt.Some? && AltitudeInRange(alt.value) then st1.AppendAltitude(a, Sample(t, Altitude(alt.value, Baro))) else st1;
    assert SameFor(st1, st2, b);
    var o := CprStep(if a in st2.pending.cpr then st2.pending.cpr[a] else EmptySlots, d.oeFlag, msg, t, resolve);
    var st3 := st2.SetSlots(a, o.slots);
    assert SameFor(st2, st3, b);
    var r := if o.fix.Some? then st3.AppendPosition(a, Sample(t, o.fix.value)) else st3;
    assert r == AirbornePosition(st, a, t, msg, d, resolve);
    assert SameFor(st3, r, b);
    SameForTrans(st1, st2, st3, b);
    SameForTrans(st1, st3, r, b);
    SameForTrans(st, st1, r, b);
  }

  lemma IdentificationOthers(st: StoreState, a: Address, t: real, d: Decoded, b: Address)
    requires b != a
    ensures SameFor(st, Identification(st, a, t, d), b)
  {
    var st1 := st.AddArrival(Ident, a, t);
    ArrivalOthers(st, Ident, a, t, b);
    assert SameFor(st1, Identification(st, a, t, d), b);
    SameForTrans(st, st1, Identification(st, a, t, d), b);
  }

  lemma VelocityFieldsOthers(st: StoreState, a: Address, t: real, d: Decoded, b: Address)
    requires b != a
    ensures SameFor(st, VelocityFieldsUpdate(st, a, t, d), b)
  {
    var gs := GetVelocity(d);
    var st1 := if gs.Some? && SpeedInRange(gs.value) then st.AppendSpeed(a, Sample(t, gs.value)) else st;
    assert SameFor(st, st1, b);
    var track := GetTrackAngle(d);
    var st2 := if track.Some? then st1.AppendTrackAngle(a, Sample(t, track.value)) else st1;
    assert SameFor(st1, st2, b);
    var course := GetCourse(d);
    var st3 := if course.Some? then st2.AppendCourse(a, Sample(t, course.value)) else st2;
    assert SameFor(st2, st3, b);
    var diff := GetAltitudeDifference(d);
    var r := if diff.Some? then st3.AppendAltitudeDifference(a, Sample(t, diff.value)).MarkGnss(a) else st3;
    assert r == VelocityFieldsUpdate(st, a, t, d);
    assert SameFor(st3, r, b);
    SameForTrans(st, st1, st2, b);
    SameForTrans(st, st2, st3, b);
    SameForTrans(st, st3, r, b);
  }

  lemma VelocityOthers(st: StoreState, a: Address, t: real, d: Decoded, b: Address)
    requires b != a
    ensures SameFor(st, VelocityMessage(st, a, t, d), b)
  {
    var st1 := st.AddArrival(Velocity, a, t);
    ArrivalOthers(st, Velocity, a, t, b);
    if d.velocity.Some? {
      var st2 := AngleBySubtype(st1, a, t, d.subtype, d.velocity.value.angle);
      assert SameFor(st1, st2, b);
      VelocityFieldsOthers(st2, a, t, d, b);
      SameForTrans(st, st1, st2, b);
      SameForTrans(st, st2, VelocityFieldsUpdate(st2, a, t, d), b);
    }
  }

  lemma GnssPositionOthers(st: StoreState, a: Address, t: real, d: Decoded, b: Address)
    requires b != a
    ensures SameFor(st, GnssPosition(st, a, t, d), b)
  {
    var st1 := st.AddArrival(AirbornePos, a, t);
    ArrivalOthers(st, AirbornePos, a, t, b);
    assert SameFor(st1, GnssPosition(st, a, t, d), b);
    SameForTrans(st, st1, GnssPosition(st, a, t, d), b);
  }

  lemma SquawkOthers(st: StoreState, a: Address, t: real, c: string, emergency: bool, b: Address)
    requires b != a
    ensures SameFor(st, Squawk(st, a, t, c, emergency), b)
  {
    var st1 := st.AddArrival(if emergency then Emergency else Status, a, t);
    ArrivalOthers(st, if emergency then Emergency else Status, a, t, b);
    var e := EpisodeStep(Lookup(st1.pending.lastModeA, a), Lookup(st1.pending.changeEventStart, a), c, t);
    var st2 := if e.start.Some? then st1.SetEpisodeStart(a, e.start.value) else st1;
    assert SameFor(st1, st2, b);
    var st3 := if e.inEpisode then st2.AddArrival(ModeChange, a, t) else st2;
    if e.inEpisode {
      ArrivalOthers(st2, ModeChange, a, t, b);
    }
    var r := st3.SetLastModeA(a, c);
    assert r == Squawk(st, a, t, c, emergency);
    assert SameFor(st3, r, b);
    SameForTrans(st, st1, st2, b);
    SameForTrans(st, st2, st3, b);
    SameForTrans(st, st3, r, b);
  }

  lemma TargetStateOthers(st: StoreState, a: Address, t: real, d: Decoded, b: Address)
    requires b != a
    ensures SameFor(st, TargetStateMessage(st, a, t, d), b)
  {
    var st1 := st.AddArrival(TargetState, a, t);
    ArrivalOthers(st, TargetState, a, t, b);
    var sel := GetSelectedAltitude(d);
    var st2 := if sel.Some?
               then st1.AppendSelectedAltitude(a, Sample(t, sel.value.alt)).MarkSelectedAlt(a).UnionModes(a, sel.value.modes)
               else st1;
    assert SameFor(st1, st2, b);
    var baro := GetBaroCorrection(d);
    var r := if baro.Some? then st2.AppendBaroCorrection(a, Sample(t, baro.value)) else st2;
    assert r == TargetStateMessage(st, a, t, d);
    assert SameFor(st2, r, b);
    SameForTrans(st, st1, st2, b);
    SameForTrans(st, st2, r, b);
  }

  /**
   * A dispatched record writes only under its own address: every other
   * address keeps its listing, times, arrival lists, series, call sign,
   * modes, flags, CPR slots, last squawk and episode start.
   */
  lemma DispatchOthersUnchanged(st: StoreState, a: Address, tc: int, t: real, msg: string, d: Decoded,
                                resolve: Resolver, b: Address)
    requires b != a
    ensures SameFor(st, Dispatch(st, a, tc, t, msg, d, resolve), b)
  {
    if 5 <= tc <= 8 {
      ArrivalOthers(st, SurfacePos, a, t, b);
    } else if 9 <= tc <= 18 {
      AirbornePositionOthers(st, a, t, msg, d, resolve, b);
    } else if 1 <= tc <= 4 {
      IdentificationOthers(st, a, t, d, b);
    } else if tc == 19 {
      VelocityOthers(st, a, t, d, b);
    } else if 20 <= tc <= 22 {
      GnssPositionOthers(st, a, t, d, b);
    } else if tc == 28 {
      if d.tcasRa {
        ArrivalOthers(st, TcasRa, a, t, b);
      } else if d.squawk.Some? {
        SquawkOthers(st, a, t, d.squawk.value, d.isEmergency, b);
      }
    } else if tc == 29 {
      TargetStateOthers(st, a, t, d, b);
    } else if tc == 31 {
      if d.subtype == 0 {
        ArrivalOthers(st, AirOpStatus, a, t, b);
      } else if d.subtype == 1 {
        ArrivalOthers(st, SurfOpStatus, a, t, b);
      }
    }
  }

  /**
   * A whole record writes only under the address it carries: a record
   * without an address changes nothing, and any address other than the
   * record's own keeps everything it had.
   */
  lemma StepOthersUnchanged(st: StoreState, t: real, msg: string, d: Decoded, target: string, resolve: Resolver,
                            b: Address)
    requires d.icao != Some(b)
    ensures SameFor(st, Step(st, t, msg, d, target, resolve), b)
  {
    var r := Step(st, t, msg, d, target, resolve);
    if d.df.None? || d.icao.None? {
      assert r == st;
    } else if d.df.value == 11 {
      ArrivalOthers(st, Acquisition, d.icao.value, t, b);
    } else if (d.df.value != 17 && d.df.value != 18) || !PassesFilter(target, d.icao.value) {
      assert r == st;
    } else {
      var a := d.icao.value;
      var st1 := Touch(st, a, t);
      assert SameFor(st, st1, b);
      if d.typecode.Some? {
        DispatchOthersUnchanged(st1, a, d.typecode.value, t, msg, d, resolve, b);
        SameForTrans(st, st1, r, b);
      } else {
        assert r == st1;
      }
    }
  }

  /**
   * What the loop keeps true of the store: the address list is exactly the
   * set of addresses with first/last-seen times, every series and flag
   * except DF 11 acquisitions belongs to a listed address, and under a
   * filter only the filtered address is listed.
   */
  ghost predicate Consistent(st: StoreState, target: string) {
    && st.registry.icaos == st.registry.times.Keys
    && KeysWithin(st, st.registry.icaos)
    && (target != "" ==> st.registry.icaos <= {target})
  }

  lemma EmptyConsistent(target: string)
    ensures Consistent(EmptyState, target)
  {
  }

  lemma StepConsistent(st: StoreState, t: real, msg: string, d: Decoded, target: string, resolve: Resolver)
    requires Consistent(st, target)
    ensures Consistent(Step(st, t, msg, d, target, resolve), target)
  {
    var r := Step(st, t, msg, d, target, resolve);
    if d.df.None? || d.icao.None? {
      assert r == st;
    } else if d.df.value == 11 {
      assert r == st.AddArrival(Acquisition, d.icao.value, t);
      ArrivalWithin(st, st.registry.icaos, Acquisition, d.icao.value, t);
    } else if (d.df.value != 17 && d.df.value != 18) || !PassesFilter(target, d.icao.value) {
      assert r == st;
    } else {
      var a := d.icao.value;
      var S := st.registry.icaos + {a};
      var st1 := Touch(st, a, t);
      assert KeysWithin(st1, S);
      if d.typecode.Some? {
        assert r == Dispatch(st1, a, d.typecode.value, t, msg, d, resolve);
        DispatchWithin(st1, S, a, d.typecode.value, t, msg, d, resolve);
        DispatchKeepsSightings(st1, a, d.typecode.value, t, msg, d, resolve);
      } else {
        assert r == st1;
      }
    }
  }

  /** From an empty store, the store after any log is consistent. */
  lemma {:induction false} IngestedConsistent(lines: seq<string>, toFloat: string -> Option<real>,
                                              decode: string -> Decoded, target: string, resolve: Resolver)
    ensures Consistent(Ingested(EmptyState, lines, toFloat, decode, target, resolve), target)
  {
    if lines == [] {
      EmptyConsistent(target);
    } else {
      var mid := Ingested(EmptyState, lines[..|lines| - 1], toFloat, decode, target, resolve);
      IngestedConsistent(lines[..|lines| - 1], toFloat, decode, target, resolve);
      match ParseLine(lines[|lines| - 1], toFloat)
      case None =>
      case Some(p) =>
        StepConsistent(mid, p.t, p.msg, decode(p.msg), target, resolve);
    }
  }
}
