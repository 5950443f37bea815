/**
 * The per-address containers that the ingestion loop fills in place, and the
 * table that translates autopilot mode codes into readable abbreviations.
 *
 * In the source these are module-level dictionaries, `defaultdict(list)`s and
 * one set. Here they are the fields of the class `Store`; `StoreState` is the
 * value those fields hold at one moment, which the specification functions of
 * the ingestion loop take and return.
 */
module DictData {
  import opened Wrappers

  /** An aircraft address, the six hex digits the decoder reports. */
  type Address = string

  // ---------------------------------------------------------------------------
  // Autopilot mode symbol table
  // ---------------------------------------------------------------------------

  /** The seven single-character autopilot mode codes and their abbreviations. */
  const ModeMap: map<string, string> := map[
    "U" := "AP",     // autopilot engaged
    "/" := "ALT",    // altitude hold
    "M" := "VNAV",   // vertical navigation
    "F" := "LNAV",   // lateral navigation
    "P" := "APP",    // approach
    "T" := "TCAS",   // TCAS resolution advisory active
    "C" := "HDG"     // selected heading
  ]

  /** `MODE_MAP.get(m, m)`: a known code becomes its abbreviation, any other passes through. */
  function TranslateMode(m: string): (r: string)
    ensures m in ModeMap ==> r == ModeMap[m]
    ensures m !in ModeMap ==> r == m
  {
    if m in ModeMap then ModeMap[m] else m
  }

  /** No two codes share an abbreviation. */
  ghost predicate Injective<K, V>(m: map<K, V>) {
    forall x, y :: x in m && y in m && x != y ==> m[x] != m[y]
  }

  /** The table has exactly the seven documented codes. */
  lemma ModeMapKeys()
    ensures ModeMap.Keys == {"U", "/", "M", "F", "P", "T", "C"}
    ensures |ModeMap.Keys| == 7
  {
  }

  /** Every code translates to a distinct abbreviation. */
  lemma ModeMapInjective()
    ensures Injective(ModeMap)
  {
    ModeMapKeys();
  }

  // ---------------------------------------------------------------------------
  // Entries of the series
  // ---------------------------------------------------------------------------

  /** A timestamped value of one series: `(timestamp, value)` in the source. */
  datatype Sample<T> = Sample(t: real, v: T)

  /** The tag of an altitude observation: barometric (TC 9-18) or GNSS (TC 20-22). */
  datatype AltSource = Baro | Gnss

  datatype Altitude = Altitude(feet: int, source: AltSource)

  datatype LatLon = LatLon(lat: real, lon: real)

  /** First and last timestamp of an aircraft's extended squitters. */
  datatype Seen = Seen(first: real, last: real)

  /** The CPR format bit of an airborne position message: index 0 or 1 of the slot pair. */
  datatype Parity = Even | Odd

  /** One stored CPR half: the hex message and its timestamp. */
  datatype CprHalf = CprHalf(msg: string, t: real)

  /** `cpr_messages[aa]`: the two slots, `[None, None]` when empty. */
  datatype CprSlots = CprSlots(even: Option<CprHalf>, odd: Option<CprHalf>) {

    function Get(p: Parity): Option<CprHalf> {
      if p == Even then even else odd
    }

    function Put(p: Parity, h: CprHalf): (r: CprSlots)
      ensures r.Get(p) == Some(h)
      ensures forall q :: q != p ==> r.Get(q) == Get(q)
    {
      if p == Even then this.(even := Some(h)) else this.(odd := Some(h))
    }
  }

  const EmptySlots := CprSlots(None, None)

  /**
   * The arrival-time lists kept for periodicity analysis, one per message
   * category (the `*_ts` containers of the source).
   */
  datatype Category =
    | AirbornePos     // icao_airborne_pos_ts, TC 9-18 and 20-22
    | SurfacePos      // icao_surface_pos_ts, TC 5-8
    | Ident           // icao_ident_ts, TC 1-4
    | Velocity        // icao_spd_ts, TC 19
    | Status          // icao_status_ts, TC 28 non-emergency
    | Emergency       // icao_emg_ts, TC 28 emergency
    | ModeChange      // icao_mode_a_ts, TC 28 inside a squawk-change episode
    | TcasRa          // icao_tcas_ts, TC 28 resolution advisory
    | TargetState     // icao_target_state_ts, TC 29
    | AirOpStatus     // icao_air_op_status_ts, TC 31 subtype 0
    | SurfOpStatus    // icao_surf_op_status_ts, TC 31 subtype 1
    | Acquisition     // icao_acq_ts, DF 11

  // ---------------------------------------------------------------------------
  // defaultdict(list) semantics
  // ---------------------------------------------------------------------------

  /** Reading a series: an address never written reads as the empty series. */
  function Series<K, T>(m: map<K, seq<T>>, k: K): seq<T> {
    if k in m then m[k] else []
  }

  /** `m[k].append(x)` on a `defaultdict(list)`. */
  function Append<K(!new), T>(m: map<K, seq<T>>, k: K, x: T): (r: map<K, seq<T>>)
    ensures r.Keys == m.Keys + {k}
    ensures Series(r, k) == Series(m, k) + [x]
    ensures forall j :: j != k ==> Series(r, j) == Series(m, j)
  {
    m[k := Series(m, k) + [x]]
  }

  // ---------------------------------------------------------------------------
  // The store
  // ---------------------------------------------------------------------------

  // The containers are grouped into small records; the grouping is only a
  // matter of presentation and keeps each record's update cheap to reason about.

  /** Which aircraft were heard, when, and the arrival lists of every message category. */
  datatype Registry = Registry(
    icaos: set<Address>,                              // adsb_icao_list
    times: map<Address, Seen>,                        // icao_times
    arrivals: map<(Category, Address), seq<real>>)    // the *_ts lists

  /** Altitude, ground speed, resolved positions and heading. */
  datatype Motion = Motion(
    altitude: map<Address, seq<Sample<Altitude>>>,    // icao_altitude
    speed: map<Address, seq<Sample<int>>>,            // icao_speed
    positions: map<Address, seq<Sample<LatLon>>>,     // icao_positions
    courses: map<Address, seq<Sample<real>>>)         // icao_courses

  /** The angle series of velocity messages. */
  datatype Angles = Angles(
    trackAngles: map<Address, seq<Sample<real>>>,            // icao_track_angles
    gsAngles: map<Address, seq<Sample<Option<real>>>>,       // icao_gs_spd_ts
    airspdAngles: map<Address, seq<Sample<Option<real>>>>)   // icao_airspd_ts

  /** Autopilot and altimeter settings. */
  datatype Settings = Settings(
    selectedAltitude: map<Address, seq<Sample<int>>>,    // icao_selected_altitude
    altitudeDifference: map<Address, seq<Sample<int>>>,  // icao_altitude_difference
    baroCorrection: map<Address, seq<Sample<real>>>)     // icao_baro_correction

  datatype Tracks = Tracks(motion: Motion, angles: Angles, settings: Settings)

  /** Per-aircraft identity and equipment flags. */
  datatype Profile = Profile(
    callsigns: map<Address, string>,      // icao_callsigns[aa]
    modes: map<Address, set<string>>,     // icao_callsigns[f"{aa}_modes"]
    hasSelectedAlt: set<Address>,         // icao_has_selected_alt[aa] = True
    hasGnss: set<Address>)                // icao_has_gnss[aa] = True

  /** The per-aircraft state carried from one record to the next. */
  datatype Pending = Pending(
    cpr: map<Address, CprSlots>,          // cpr_messages
    lastModeA: map<Address, string>,      // last_mode_a
    changeEventStart: map<Address, real>) // change_event_start

  /** Every container of the store, as one value. */
  datatype StoreState = StoreState(registry: Registry, tracks: Tracks, profile: Profile, pending: Pending) {

    /** The arrival-time list of one category for one address. */
    function Arrivals(c: Category, a: Address): seq<real> {
      Series(registry.arrivals, (c, a))
    }

    function Altitudes(a: Address): seq<Sample<Altitude>> {
      Series(tracks.motion.altitude, a)
    }

    function Speeds(a: Address): seq<Sample<int>> {
      Series(tracks.motion.speed, a)
    }

    function Positions(a: Address): seq<Sample<LatLon>> {
      Series(tracks.motion.positions, a)
    }

    function Courses(a: Address): seq<Sample<real>> {
      Series(tracks.motion.courses, a)
    }

    function TrackAngles(a: Address): seq<Sample<real>> {
      Series(tracks.angles.trackAngles, a)
    }

    function GsAngles(a: Address): seq<Sample<Option<real>>> {
      Series(tracks.angles.gsAngles, a)
    }

    function AirspdAngles(a: Address): seq<Sample<Option<real>>> {
      Series(tracks.angles.airspdAngles, a)
    }

    function SelectedAltitudes(a: Address): seq<Sample<int>> {
      Series(tracks.settings.selectedAltitude, a)
    }

    function AltitudeDifferences(a: Address): seq<Sample<int>> {
      Series(tracks.settings.altitudeDifference, a)
    }

    function BaroCorrections(a: Address): seq<Sample<real>> {
      Series(tracks.settings.baroCorrection, a)
    }

    // Updates of one container each.

    function AddArrival(c: Category, a: Address, t: real): StoreState {
      this.(registry := registry.(arrivals := Append(registry.arrivals, (c, a), t)))
    }

    function AddIcao(a: Address): StoreState {
      this.(registry := registry.(icaos := registry.icaos + {a}))
    }

    function SetTimes(a: Address, seen: Seen): StoreState {
      this.(registry := registry.(times := registry.times[a := seen]))
    }

    function AppendAltitude(a: Address, x: Sample<Altitude>): StoreState {
      this.(tracks := tracks.(motion := tracks.motion.(altitude := Append(tracks.motion.altitude, a, x))))
    }

    function AppendSpeed(a: Address, x: Sample<int>): StoreState {
      this.(tracks := tracks.(motion := tracks.motion.(speed := Append(tracks.motion.speed, a, x))))
    }

    function AppendPosition(a: Address, x: Sample<LatLon>): StoreState {
      this.(tracks := tracks.(motion := tracks.motion.(positions := Append(tracks.motion.positions, a, x))))
    }

    function AppendCourse(a: Address, x: Sample<real>): StoreState {
      this.(tracks := tracks.(motion := tracks.motion.(courses := Append(tracks.motion.courses, a, x))))
    }

    function AppendTrackAngle(a: Address, x: Sample<real>): StoreState {
      this.(tracks := tracks.(angles := tracks.angles.(trackAngles := Append(tracks.angles.trackAngles, a, x))))
    }

    function AppendGsAngle(a: Address, x: Sample<Option<real>>): StoreState {
      this.(tracks := tracks.(angles := tracks.angles.(gsAngles := Append(tracks.angles.gsAngles, a, x))))
    }

    function AppendAirspdAngle(a: Address, x: Sample<Option<real>>): StoreState {
      this.(tracks := tracks.(angles := tracks.angles.(airspdAngles := Append(tracks.angles.airspdAngles, a, x))))
    }

    function AppendSelectedAltitude(a: Address, x: Sample<int>): StoreState {
      this.(tracks := tracks.(settings := tracks.settings.(selectedAltitude := Append(tracks.settings.selectedAltitude, a, x))))
    }

    function AppendAltitudeDifference(a: Address, x: Sample<int>): StoreState {
      this.(tracks := tracks.(settings := tracks.settings.(altitudeDifference := Append(tracks.settings.altitudeDifference, a, x))))
    }

    function AppendBaroCorrection(a: Address, x: Sample<real>): StoreState {
      this.(tracks := tracks.(settings := tracks.settings.(baroCorrection := Append(tracks.settings.baroCorrection, a, x))))
    }

    function SetCallsign(a: Address, cs: string): StoreState {
      this.(profile := profile.(callsigns := profile.callsigns[a := cs]))
    }

    /** The union of the stored modes with `m`; an address without modes has none. */
    function UnionModes(a: Address, m: set<string>): StoreState {
      this.(profile := profile.(modes := profile.modes[a := (if a in profile.modes then profile.modes[a] else {}) + m]))
    }

    function MarkSelectedAlt(a: Address): StoreState {
      this.(profile := profile.(hasSelectedAlt := profile.hasSelectedAlt + {a}))
    }

    function MarkGnss(a: Address): StoreState {
      this.(profile := profile.(hasGnss := profile.hasGnss + {a}))
    }

    function SetSlots(a: Address, slots: CprSlots): StoreState {
      this.(pending := pending.(cpr := pending.cpr[a := slots]))
    }

    function SetLastModeA(a: Address, code: string): StoreState {
      this.(pending := pending.(lastModeA := pending.lastModeA[a := code]))
    }

    function SetEpisodeStart(a: Address, t: real): StoreState {
      this.(pending := pending.(changeEventStart := pending.changeEventStart[a := t]))
    }
  }

  const EmptyState := StoreState(
    Registry({}, map[], map[]),
    Tracks(Motion(map[], map[], map[], map[]), Angles(map[], map[], map[]), Settings(map[], map[], map[])),
    Profile(map[], map[], {}, {}),
    Pending(map[], map[], map[]))

  /** The module-level containers, updated in place record by record. */
  class Store {
    var icaos: set<Address>
    var times: map<Address, Seen>
    var arrivals: map<(Category, Address), seq<real>>
    var altitude: map<Address, seq<Sample<Altitude>>>
    var speed: map<Address, seq<Sample<int>>>
    var positions: map<Address, seq<Sample<LatLon>>>
    var courses: map<Address, seq<Sample<real>>>
    var trackAngles: map<Address, seq<Sample<real>>>
    var gsAngles: map<Address, seq<Sample<Option<real>>>>
    var airspdAngles: map<Address, seq<Sample<Option<real>>>>
    var selectedAltitude: map<Address, seq<Sample<int>>>
    var altitudeDifference: map<Address, seq<Sample<int>>>
    var baroCorrection: map<Address, seq<Sample<real>>>
    var callsigns: map<Address, string>
    var modes: map<Address, set<string>>
    var hasSelectedAlt: set<Address>
    var hasGnss: set<Address>
    var cpr: map<Address, CprSlots>
    var lastModeA: map<Address, string>
    var changeEventStart: map<Address, real>

    /** The value all the containers hold now. */
    function State(): StoreState
      reads this
    {
      StoreState(
        Registry(icaos, times, arrivals),
        Tracks(Motion(altitude, speed, positions, courses),
               Angles(trackAngles, gsAngles, airspdAngles),
               Settings(selectedAltitude, altitudeDifference, baroCorrection)),
        Profile(callsigns, modes, hasSelectedAlt, hasGnss),
        Pending(cpr, lastModeA, changeEventStart))
    }

    /** All containers start empty. */
    constructor ()
      ensures State() == EmptyState
    {
      icaos, times, arrivals := {}, map[], map[];
      altitude, speed, positions, courses, trackAngles := map[], map[], map[], map[], map[];
      gsAngles, airspdAngles := map[], map[];
      selectedAltitude, altitudeDifference, baroCorrection := map[], map[], map[];
      callsigns, modes, hasSelectedAlt, hasGnss := map[], map[], {}, {};
      cpr, lastModeA, changeEventStart := map[], map[], map[];
    }

    // One method per in-place container operation of the source; each
    // changes exactly one container, as the matching `StoreState` update says.

    /** `icao_acq_ts[aa].append(t)` and its siblings: append to one arrival list. */
    method AddArrival(c: Category, a: Address, t: real)
      modifies this
      ensures State() == old(State()).AddArrival(c, a, t)
    {
      arrivals := Append(arrivals, (c, a), t);
    }

    /** `adsb_icao_list.add(aa)`. */
    method AddIcao(a: Address)
      modifies this
      ensures State() == old(State()).AddIcao(a)
    {
      icaos := icaos + {a};
    }

    /** `icao_times[aa] = ...`. */
    method SetTimes(a: Address, seen: Seen)
      modifies this
      ensures State() == old(State()).SetTimes(a, seen)
    {
      times := times[a := seen];
    }

    /** `icao_altitude[aa].append(x)`. */
    method AppendAltitude(a: Address, x: Sample<Altitude>)
      modifies this
      ensures State() == old(State()).AppendAltitude(a, x)
    {
      altitude := Append(altitude, a, x);
    }

    /** `icao_speed[aa].append(x)`. */
    method AppendSpeed(a: Address, x: Sample<int>)
      modifies this
      ensures State() == old(State()).AppendSpeed(a, x)
    {
      speed := Append(speed, a, x);
    }

    /** `icao_positions[aa].append(x)`. */
    method AppendPosition(a: Address, x: Sample<LatLon>)
      modifies this
      ensures State() == old(State()).AppendPosition(a, x)
    {
      positions := Append(positions, a, x);
    }

    /** `icao_courses[aa].append(x)`. */
    method AppendCourse(a: Address, x: Sample<real>)
      modifies this
      ensures State() == old(State()).AppendCourse(a, x)
    {
      courses := Append(courses, a, x);
    }

    /** `icao_track_angles[aa].append(x)`. */
    method AppendTrackAngle(a: Address, x: Sample<real>)
      modifies this
      ensures State() == old(State()).AppendTrackAngle(a, x)
    {
      trackAngles := Append(trackAngles, a, x);
    }

    /** `icao_gs_spd_ts[aa].append(x)`. */
    method AppendGsAngle(a: Address, x: Sample<Option<real>>)
      modifies this
      ensures State() == old(State()).AppendGsAngle(a, x)
    {
      gsAngles := Append(gsAngles, a, x);
    }

    /** `icao_airspd_ts[aa].append(x)`. */
    method AppendAirspdAngle(a: Address, x: Sample<Option<real>>)
      modifies this
      ensures State() == old(State()).AppendAirspdAngle(a, x)
    {
      airspdAngles := Append(airspdAngles, a, x);
    }

    /** `icao_selected_altitude[aa].append(x)`. */
    method AppendSelectedAltitude(a: Address, x: Sample<int>)
      modifies this
      ensures State() == old(State()).AppendSelectedAltitude(a, x)
    {
      selectedAltitude := Append(selectedAltitude, a, x);
    }

    /** `icao_altitude_difference[aa].append(x)`. */
    method AppendAltitudeDifference(a: Address, x: Sample<int>)
      modifies this
      ensures State() == old(State()).AppendAltitudeDifference(a, x)
    {
      altitudeDifference := Append(altitudeDifference, a, x);
    }

    /** `icao_baro_correction[aa].append(x)`. */
    method AppendBaroCorrection(a: Address, x: Sample<real>)
      modifies this
      ensures State() == old(State()).AppendBaroCorrection(a, x)
    {
      baroCorrection := Append(baroCorrection, a, x);
    }

    /** `icao_callsigns[aa] = cs`. */
    method SetCallsign(a: Address, cs: string)
      modifies this
      ensures State() == old(State()).SetCallsign(a, cs)
    {
      callsigns := callsigns[a := cs];
    }

    /** `icao_callsigns[f"{aa}_modes"] = existing.union(new)`. */
    method UnionModes(a: Address, m: set<string>)
      modifies this
      ensures State() == old(State()).UnionModes(a, m)
    {
      var existing := if a in modes then modes[a] else {};
      modes := modes[a := existing + m];
    }

    /** `icao_has_selected_alt[aa] = True`. */
    method MarkSelectedAlt(a: Address)
      modifies this
      ensures State() == old(State()).MarkSelectedAlt(a)
    {
      hasSelectedAlt := hasSelectedAlt + {a};
    }

    /** `icao_has_gnss[aa] = True`. */
    method MarkGnss(a: Address)
      modifies this
      ensures State() == old(State()).MarkGnss(a)
    {
      hasGnss := hasGnss + {a};
    }

    /** `cpr_messages[aa] = slots`. */
    method SetSlots(a: Address, slots: CprSlots)
      modifies this
      ensures State() == old(State()).SetSlots(a, slots)
    {
      cpr := cpr[a := slots];
    }

    /** `last_mode_a[aa] = code`. */
    method SetLastModeA(a: Address, code: string)
      modifies this
      ensures State() == old(State()).SetLastModeA(a, code)
    {
      lastModeA := lastModeA[a := code];
    }

    /** `change_event_start[aa] = t`. */
    method SetEpisodeStart(a: Address, t: real)
      modifies this
      ensures State() == old(State()).SetEpisodeStart(a, t)
    {
      changeEventStart := changeEventStart[a := t];
    }
  }
}
