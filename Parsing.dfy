/**
 * Line parsing and the validity filters applied to decoded fields.
 *
 * The bit-level decoder is external: `Decoded` holds what each of its calls
 * returns for one message, `None` standing both for a call that raised and
 * for one that returned nothing. Every getter below only filters those values.
 */
module Parsing {
  import opened Wrappers
  import opened DictData

  // ---------------------------------------------------------------------------
  // What the decoder reports for one message
  // ---------------------------------------------------------------------------

  /** The four values of a velocity decode: speed, angle, vertical rate, speed type. */
  datatype VelocityFields = VelocityFields(speed: Option<int>, angle: Option<real>,
                                           verticalRate: Option<int>, speedType: string)

  /** A selected-altitude decode: the altitude (possibly absent) and the raw mode codes. */
  datatype SelectedAltitudeFields = SelectedAltitudeFields(alt: Option<int>, rawModes: seq<string>)

  /** The decoder's answers for one hex message. */
  datatype Decoded = Decoded(
    df: Option<int>,                                    // downlink format
    icao: Option<Address>,                              // aircraft address
    typecode: Option<int>,                              // ADS-B type code
    oeFlag: Parity,                                     // CPR format bit
    altitude: Option<int>,                              // altitude in feet
    velocity: Option<VelocityFields>,                   // TC 19 velocity
    selectedAltitude: Option<SelectedAltitudeFields>,   // TC 29 selected altitude and modes
    altitudeDiff: Option<int>,                          // GNSS minus baro altitude, feet
    baroSetting: Option<real>,                          // pressure setting, hPa
    callsign: Option<string>,                           // TC 1-4 identification
    tcasRa: bool,                                       // TC 28 resolution advisory (false if it raised)
    squawk: Option<string>,                             // TC 28 squawk code
    isEmergency: bool,                                  // TC 28 emergency flag (false if it raised)
    subtype: int                                        // bits 37-39 of the message, as an integer
  )

  /** Downlink format 17 or 18: an extended squitter. */
  predicate IsAdsb(d: Decoded) {
    d.df == Some(17) || d.df == Some(18)
  }

  /** The decoded type code lies in `lo..hi` inclusive. */
  predicate TypeCodeIn(d: Decoded, lo: int, hi: int) {
    d.typecode.Some? && lo <= d.typecode.value <= hi
  }

  // ---------------------------------------------------------------------------
  // Tokenising
  // ---------------------------------------------------------------------------

  /** The characters Python's `str.split()` treats as separators. */
  predicate IsSpace(c: char) {
    c == ' ' || '\t' <= c <= '\r' || '\U{1C}' <= c <= '\U{1F}' || c == '\U{85}' || c == '\U{A0}'
    || c == '\U{1680}' || '\U{2000}' <= c <= '\U{200A}' || c == '\U{2028}' || c == '\U{2029}'
    || c == '\U{202F}' || c == '\U{205F}' || c == '\U{3000}'
  }

  predicate NoSpace(s: string) {
    forall i :: 0 <= i < |s| ==> !IsSpace(s[i])
  }

  /** Length of the longest prefix of `s` without whitespace. */
  function WordLen(s: string): (n: nat)
    ensures n <= |s| && NoSpace(s[..n])
    ensures n < |s| ==> IsSpace(s[n])
  {
    if s == [] || IsSpace(s[0]) then 0 else 1 + WordLen(s[1..])
  }

  /** `s.strip().split()`: the maximal runs of non-whitespace characters, in order. */
  function Tokens(s: string): seq<string>
    decreases |s|
  {
    if s == [] then []
    else if IsSpace(s[0]) then Tokens(s[1..])
    else
      var n := WordLen(s);
      [s[..n]] + Tokens(s[n..])
  }

  /** The characters of `s` that are not whitespace. */
  function DropWhitespace(s: string): string {
    if s == [] then [] else (if IsSpace(s[0]) then [] else [s[0]]) + DropWhitespace(s[1..])
  }

  function Concat(ss: seq<string>): string {
    if ss == [] then [] else ss[0] + Concat(ss[1..])
  }

  /** Every token is non-empty and holds no whitespace. */
  lemma {:induction false} TokensWellFormed(s: string)
    ensures forall k :: 0 <= k < |Tokens(s)| ==> Tokens(s)[k] != [] && NoSpace(Tokens(s)[k])
    decreases |s|
  {
    if s == [] {
    } else if IsSpace(s[0]) {
      TokensWellFormed(s[1..]);
    } else {
      var n := WordLen(s);
      TokensWellFormed(s[n..]);
      forall k | 0 <= k < |Tokens(s)|
        ensures Tokens(s)[k] != [] && NoSpace(Tokens(s)[k])
      {
        if k > 0 {
          assert Tokens(s)[k] == Tokens(s[n..])[k - 1];
        }
      }
    }
  }

  lemma {:induction false} DropWhitespaceAppend(a: string, b: string)
    ensures DropWhitespace(a + b) == DropWhitespace(a) + DropWhitespace(b)
  {
    if a == [] {
      assert a + b == b;
    } else {
      assert (a + b)[0] == a[0] && (a + b)[1..] == a[1..] + b;
      var head := if IsSpace(a[0]) then [] else [a[0]];
      assert DropWhitespace(a + b) == head + DropWhitespace(a[1..] + b);
      DropWhitespaceAppend(a[1..], b);
      assert DropWhitespace(a) == head + DropWhitespace(a[1..]);
    }
  }

  lemma {:induction false} DropWhitespaceOfWord(w: string)
    requires NoSpace(w)
    ensures DropWhitespace(w) == w
  {
    if w != [] {
      DropWhitespaceOfWord(w[1..]);
    }
  }

  /** Splitting loses exactly the whitespace: the tokens glued together are the line without it. */
  lemma {:induction false} TokensConcat(s: string)
    ensures Concat(Tokens(s)) == DropWhitespace(s)
    decreases |s|
  {
    if s == [] {
    } else if IsSpace(s[0]) {
      TokensConcat(s[1..]);
    } else {
      var n := WordLen(s);
      assert s == s[..n] + s[n..];
      DropWhitespaceAppend(s[..n], s[n..]);
      DropWhitespaceOfWord(s[..n]);
      TokensConcat(s[n..]);
      assert Tokens(s)[1..] == Tokens(s[n..]);
    }
  }

  // ---------------------------------------------------------------------------
  // Upper-casing, joining, hex check
  // ---------------------------------------------------------------------------

  /** `str.upper()` on one character; only ASCII letters are modelled. */
  function UpperChar(c: char): char {
    if 'a' <= c <= 'z' then (c as int - 32) as char else c
  }

  function Upper(s: string): (r: string)
    ensures |r| == |s| && forall i :: 0 <= i < |s| ==> r[i] == UpperChar(s[i])
  {
    seq(|s|, i requires 0 <= i < |s| => UpperChar(s[i]))
  }

  predicate HasNoLower(s: string) {
    forall i :: 0 <= i < |s| ==> !('a' <= s[i] <= 'z')
  }

  /** `' '.join(parts)`. */
  function Join(parts: seq<string>): string {
    if parts == [] then []
    else if |parts| == 1 then parts[0]
    else parts[0] + " " + Join(parts[1..])
  }

  /** `s.replace(" ", "")`. */
  function RemoveSpaces(s: string): string {
    if s == [] then [] else (if s[0] == ' ' then [] else [s[0]]) + RemoveSpaces(s[1..])
  }

  predicate IsHexDigit(c: char) {
    '0' <= c <= '9' || 'A' <= c <= 'F'
  }

  predicate AllHex(s: string) {
    forall i :: 0 <= i < |s| ==> IsHexDigit(s[i])
  }

  lemma {:induction false} RemoveSpacesAppend(a: string, b: string)
    ensures RemoveSpaces(a + b) == RemoveSpaces(a) + RemoveSpaces(b)
  {
    if a == [] {
      assert a + b == b;
    } else {
      assert (a + b)[0] == a[0] && (a + b)[1..] == a[1..] + b;
      RemoveSpacesAppend(a[1..], b);
    }
  }

  lemma {:induction false} RemoveSpacesOfWord(w: string)
    requires NoSpace(w)
    ensures RemoveSpaces(w) == w
  {
    if w != [] {
      RemoveSpacesOfWord(w[1..]);
    }
  }

  /** Joining whitespace-free parts with spaces and then deleting spaces glues them together. */
  lemma {:induction false} RemoveSpacesJoin(parts: seq<string>)
    requires forall k :: 0 <= k < |parts| ==> NoSpace(parts[k])
    ensures RemoveSpaces(Join(parts)) == Concat(parts)
  {
    if |parts| == 1 {
      RemoveSpacesOfWord(parts[0]);
      assert Concat(parts) == parts[0] + Concat([]);
    } else if |parts| > 1 {
      RemoveSpacesJoin(parts[1..]);
      RemoveSpacesOfWord(parts[0]);
      RemoveSpacesAppend(parts[0] + " ", Join(parts[1..]));
      RemoveSpacesAppend(parts[0], " ");
    }
  }

  /** Upper-casing an ASCII string commutes with deleting its spaces. */
  lemma {:induction false} RemoveSpacesUpper(s: string)
    ensures RemoveSpaces(Upper(s)) == Upper(RemoveSpaces(s))
  {
    if s != [] {
      assert Upper(s)[1..] == Upper(s[1..]);
      RemoveSpacesUpper(s[1..]);
      var head := if s[0] == ' ' then [] else [s[0]];
      assert RemoveSpaces(s) == head + RemoveSpaces(s[1..]);
      assert Upper(RemoveSpaces(s)) == Upper(head) + Upper(RemoveSpaces(s[1..]));
    }
  }

  // ---------------------------------------------------------------------------
  // parse_ads_b_line
  // ---------------------------------------------------------------------------

  /** A parsed line: the timestamp, the upper-cased payload with its spaces, and without them. */
  datatype ParsedLine = ParsedLine(t: real, spaced: string, msg: string)

  /** The tokens that carry the hex payload: an optional `DF`/`UF` marker after the timestamp is skipped. */
  function PayloadTokens(parts: seq<string>): seq<string>
    requires |parts| >= 2
  {
    if |parts| >= 3 && (parts[1] == "DF" || parts[1] == "UF") then parts[2..] else parts[1..]
  }

  /**
   * `parse_ads_b_line`. `toFloat` stands for `np.float64` on the first token
   * (`None` where it raises `ValueError`).
   */
  function ParseLine(line: string, toFloat: string -> Option<real>): (r: Option<ParsedLine>)
    ensures |Tokens(line)| < 2 ==> r == None
    ensures |Tokens(line)| >= 2 && toFloat(Tokens(line)[0]) == None ==> r == None
    ensures r.Some? ==> toFloat(Tokens(line)[0]) == Some(r.value.t)
    ensures r.Some? ==> |r.value.msg| > 0 && AllHex(r.value.msg)
    ensures r.Some? ==> HasNoLower(r.value.spaced) && r.value.msg == RemoveSpaces(r.value.spaced)
  {
    var parts := Tokens(line);
    if |parts| < 2 then None
    else match toFloat(parts[0])
      case None => None
      case Some(t) =>
        var spaced := Upper(Join(PayloadTokens(parts)));
        var msg := RemoveSpaces(spaced);
        if |msg| == 0 || !AllHex(msg) then None
        else Some(ParsedLine(t, spaced, msg))
  }

  /**
   * What `ParseLine` accepts, and the message it yields: the payload tokens
   * (from the third token when the second is exactly `DF` or `UF` and there
   * are at least three, else from the second), glued and upper-cased, provided
   * that this is non-empty and all hex digits.
   */
  lemma ParseLineCharacterised(line: string, toFloat: string -> Option<real>)
    ensures var parts := Tokens(line);
      ParseLine(line, toFloat).Some? <==>
        |parts| >= 2 && toFloat(parts[0]).Some?
        && |Upper(Concat(PayloadTokens(parts)))| > 0 && AllHex(Upper(Concat(PayloadTokens(parts))))
    ensures var parts := Tokens(line);
      ParseLine(line, toFloat).Some? ==>
        ParseLine(line, toFloat).value.msg == Upper(Concat(PayloadTokens(parts)))
  {
    var parts := Tokens(line);
    if |parts| >= 2 {
      TokensWellFormed(line);
      var payload := PayloadTokens(parts);
      assert forall k :: 0 <= k < |payload| ==> NoSpace(payload[k]);
      RemoveSpacesUpper(Join(payload));
      RemoveSpacesJoin(payload);
    }
  }

  /**
   * A marker needs a payload after it: in a line of exactly two tokens a
   * second token `DF` is itself the (hex) payload, and a second token `UF`
   * is a payload that is not hex, so the line is rejected.
   */
  lemma DfMarkerAloneIsPayload(line: string, toFloat: string -> Option<real>)
    requires |Tokens(line)| == 2 && toFloat(Tokens(line)[0]).Some?
    ensures Tokens(line)[1] == "DF" ==>
              ParseLine(line, toFloat) == Some(ParsedLine(toFloat(Tokens(line)[0]).value, "DF", "DF"))
    ensures Tokens(line)[1] == "UF" ==> ParseLine(line, toFloat) == None
  {
    var parts := Tokens(line);
    var marker := parts[1];
    if marker == "DF" || marker == "UF" {
      assert PayloadTokens(parts) == [marker];
      assert Join([marker]) == marker;
      assert Upper(marker) == marker;
      assert RemoveSpaces(marker[2..]) == [];
      assert RemoveSpaces(marker[1..]) == marker[1..];
      assert RemoveSpaces(marker) == marker;
      if marker == "UF" {
        assert !IsHexDigit(marker[0]);
      }
    }
  }

  // ---------------------------------------------------------------------------
  // Decoded-field filters
  // ---------------------------------------------------------------------------

  /** `get_altitude`: the decoded altitude of a DF 17/18 message of TC 9-18 or 20-22. */
  function GetAltitude(d: Decoded): (r: Option<int>)
    ensures !IsAdsb(d) ==> r == None
    ensures r.Some? ==> TypeCodeIn(d, 9, 18) || TypeCodeIn(d, 20, 22)
    ensures IsAdsb(d) && (TypeCodeIn(d, 9, 18) || TypeCodeIn(d, 20, 22)) ==> r == d.altitude
  {
    if !IsAdsb(d) || d.typecode.None? then None
    else if 9 <= d.typecode.value <= 18 || 20 <= d.typecode.value <= 22 then d.altitude
    else None
  }

  /** `get_velocity`: the speed of a DF 17/18, TC 19 velocity decode. */
  function GetVelocity(d: Decoded): (r: Option<int>)
    ensures !IsAdsb(d) || d.typecode != Some(19) || d.velocity.None? ==> r == None
    ensures IsAdsb(d) && d.typecode == Some(19) && d.velocity.Some? ==> r == d.velocity.value.speed
  {
    if !IsAdsb(d) || d.typecode != Some(19) then None
    else match d.velocity
      case None => None
      case Some(v) => v.speed
  }

  /** `get_course`: the angle of a DF 17/18, TC 19 velocity decode, whatever its speed type. */
  function GetCourse(d: Decoded): (r: Option<real>)
    ensures !IsAdsb(d) || d.typecode != Some(19) || d.velocity.None? ==> r == None
    ensures IsAdsb(d) && d.typecode == Some(19) && d.velocity.Some? ==> r == d.velocity.value.angle
  {
    if !IsAdsb(d) || d.typecode != Some(19) then None
    else match d.velocity
      case None => None
      case Some(v) => v.angle
  }

  /** `get_track_angle`: the angle of a TC 19 velocity decode, only when it is a ground-speed track. */
  function GetTrackAngle(d: Decoded): (r: Option<real>)
    ensures !IsAdsb(d) || d.typecode != Some(19) || d.velocity.None? ==> r == None
    ensures r.Some? ==> d.velocity.value.speedType == "GS" && r == d.velocity.value.angle
    ensures r.None? && IsAdsb(d) && d.typecode == Some(19) && d.velocity.Some? ==>
              d.velocity.value.speedType != "GS" || d.velocity.value.angle.None?
  {
    if !IsAdsb(d) || d.typecode != Some(19) then None
    else match d.velocity
      case None => None
      case Some(v) => if v.speedType == "GS" then v.angle else None
  }

  /** The set `{MODE_MAP.get(m, m) for m in raw_modes}`. */
  function ModeImage(raw: seq<string>): (r: set<string>)
    ensures forall m :: m in raw ==> TranslateMode(m) in r
    ensures forall x :: x in r ==> exists m :: m in raw && TranslateMode(m) == x
  {
    set m | m in raw :: TranslateMode(m)
  }

  /** A selected altitude that passed the range filter, with its translated modes. */
  datatype SelectedTarget = SelectedTarget(alt: int, modes: set<string>)

  /** `get_selected_altitude`: TC 29 selected altitude in [-2000, 50000] ft, modes translated. */
  function GetSelectedAltitude(d: Decoded): (r: Option<SelectedTarget>)
    ensures !IsAdsb(d) || d.typecode != Some(29) ==> r == None
    ensures r.Some? ==> -2000 <= r.value.alt <= 50000
    ensures r.Some? ==> d.selectedAltitude.Some? && d.selectedAltitude.value.alt == Some(r.value.alt)
    ensures r.Some? ==> r.value.modes == ModeImage(d.selectedAltitude.value.rawModes)
    ensures (IsAdsb(d) && d.typecode == Some(29) && d.selectedAltitude.Some?
             && d.selectedAltitude.value.alt.Some?
             && -2000 <= d.selectedAltitude.value.alt.value <= 50000) ==> r.Some?
  {
    if !IsAdsb(d) || d.typecode != Some(29) then None
    else match d.selectedAltitude
      case None => None
      case Some(info) =>
        match info.alt
        case None => None
        case Some(a) =>
          if -2000 <= a <= 50000 then Some(SelectedTarget(a, ModeImage(info.rawModes))) else None
  }

  /** `get_altitude_difference`: TC 19 GNSS-minus-baro difference in [-2500, 2500] ft. */
  function GetAltitudeDifference(d: Decoded): (r: Option<int>)
    ensures !IsAdsb(d) || d.typecode != Some(19) ==> r == None
    ensures r.Some? ==> -2500 <= r.value <= 2500 && r == d.altitudeDiff
    ensures (IsAdsb(d) && d.typecode == Some(19) && d.altitudeDiff.Some?
             && -2500 <= d.altitudeDiff.value <= 2500) ==> r.Some?
  {
    if !IsAdsb(d) || d.typecode != Some(19) then None
    else match d.altitudeDiff
      case None => None
      case Some(x) => if -2500 <= x <= 2500 then Some(x) else None
  }

  /** `get_baro_correction`: TC 29 pressure setting in [800, 1100] hPa. */
  function GetBaroCorrection(d: Decoded): (r: Option<real>)
    ensures !IsAdsb(d) || d.typecode != Some(29) ==> r == None
    ensures r.Some? ==> 800.0 <= r.value <= 1100.0 && r == d.baroSetting
    ensures (IsAdsb(d) && d.typecode == Some(29) && d.baroSetting.Some?
             && 800.0 <= d.baroSetting.value <= 1100.0) ==> r.Some?
  {
    if !IsAdsb(d) || d.typecode != Some(29) then None
    else match d.baroSetting
      case None => None
      case Some(p) => if 800.0 <= p <= 1100.0 then Some(p) else None
  }

  // ---------------------------------------------------------------------------
  // Callsign cleaning
  // ---------------------------------------------------------------------------

  /** `str.isalnum()` on one character; only ASCII letters and digits are modelled. */
  predicate IsAlnum(c: char) {
    'A' <= c <= 'Z' || 'a' <= c <= 'z' || '0' <= c <= '9'
  }

  predicate AllAlnum(s: string) {
    forall i :: 0 <= i < |s| ==> IsAlnum(s[i])
  }

  /** `''.join(c for c in s if c.isalnum())`. */
  function KeepAlnum(s: string): string {
    if s == [] then [] else (if IsAlnum(s[0]) then [s[0]] else []) + KeepAlnum(s[1..])
  }

  /** `a` can be obtained from `b` by deleting characters. */
  predicate IsSubsequence(a: string, b: string)
    decreases |b|
  {
    a == [] || (b != [] && ((a[0] == b[0] && IsSubsequence(a[1..], b[1..])) || IsSubsequence(a, b[1..])))
  }

  /** The cleaned callsign holds only alphanumeric characters. */
  lemma {:induction false} KeepAlnumAllAlnum(s: string)
    ensures AllAlnum(KeepAlnum(s))
  {
    if s != [] {
      KeepAlnumAllAlnum(s[1..]);
    }
  }

  /** The cleaned callsign is obtained from the decoded one by deleting characters. */
  lemma {:induction false} KeepAlnumSubsequence(s: string)
    ensures IsSubsequence(KeepAlnum(s), s)
  {
    if s != [] {
      KeepAlnumSubsequence(s[1..]);
      if IsAlnum(s[0]) {
        assert KeepAlnum(s)[0] == s[0] && KeepAlnum(s)[1..] == KeepAlnum(s[1..]);
      } else {
        assert KeepAlnum(s) == KeepAlnum(s[1..]);
      }
    }
  }

  /** Cleaning deletes only non-alphanumeric characters: each alphanumeric one keeps its count. */
  lemma {:induction false} KeepAlnumCounts(s: string)
    ensures forall c :: IsAlnum(c) ==> multiset(KeepAlnum(s))[c] == multiset(s)[c]
    ensures forall c :: !IsAlnum(c) ==> multiset(KeepAlnum(s))[c] == 0
  {
    if s != [] {
      KeepAlnumCounts(s[1..]);
      assert s == [s[0]] + s[1..];
      var head := if IsAlnum(s[0]) then [s[0]] else [];
      assert KeepAlnum(s) == head + KeepAlnum(s[1..]);
      assert multiset(KeepAlnum(s)) == multiset(head) + multiset(KeepAlnum(s[1..]));
      assert multiset(s) == multiset{s[0]} + multiset(s[1..]);
    }
  }

  /** `get_callsign`: the cleaned identification of a DF 17/18, TC 1-4 message with a non-empty callsign. */
  function GetCallsign(d: Decoded): (r: Option<string>)
    ensures r.Some? ==> IsAdsb(d) && TypeCodeIn(d, 1, 4)
    ensures r.Some? ==> d.callsign.Some? && d.callsign.value != []
    ensures r.Some? ==> r.value == KeepAlnum(d.callsign.value)
    ensures r.Some? ==> AllAlnum(r.value) && IsSubsequence(r.value, d.callsign.value)
    ensures IsAdsb(d) && TypeCodeIn(d, 1, 4) && d.callsign.Some? && d.callsign.value != [] ==> r.Some?
  {
    if !IsAdsb(d) || !TypeCodeIn(d, 1, 4) then None
    else match d.callsign
      case None => None
      case Some(cs) =>
        if cs == [] then None
        else KeepAlnumAllAlnum(cs); KeepAlnumSubsequence(cs); Some(KeepAlnum(cs))
  }
}
