/**
 * Input validation, text truncation and the horoscope calculator
 * (src/utils/helpers.py). The ephemeris engine is not part of this model:
 * its two routines are passed in as functions, `julday` for the Julian Day
 * and `calcUt` for a body's ecliptic longitude (`None` when it raises).
 */
module Helpers {
  import opened Wrappers
  import Settings

  // ---------------------------------------------------------------------
  // Validation of the horoscope form
  // ---------------------------------------------------------------------

  /** The characters Python's `str.isspace` accepts, which `str.strip` removes. */
  predicate IsSpace(c: char)
    ensures c < '\U{80}' ==> (IsSpace(c) <==> c == ' ' || '\t' <= c <= '\r' || '\U{1C}' <= c <= '\U{1F}')
    ensures c == '\U{200B}' ==> !IsSpace(c)
  {
    c in {' ', '\t', '\n', '\r', '\U{B}', '\U{C}', '\U{1C}', '\U{1D}', '\U{1E}', '\U{1F}',
          '\U{85}', '\U{A0}', '\U{1680}', '\U{2028}', '\U{2029}', '\U{202F}', '\U{205F}', '\U{3000}'}
    || ('\U{2000}' <= c <= '\U{200A}')
  }

  /** Python's `s.lstrip()`: drops the leading whitespace and nothing else. */
  function StripLeading(s: string): (r: string)
    ensures |r| <= |s| && r == s[|s| - |r|..]
    ensures forall i :: 0 <= i < |s| - |r| ==> IsSpace(s[i])
    ensures r != [] ==> !IsSpace(r[0])
  {
    if s != [] && IsSpace(s[0]) then
      var r := StripLeading(s[1..]);
      assert forall i :: 1 <= i < |s| - |r| ==> s[i] == s[1..][i - 1];
      r
    else s
  }

  /** Python's `s.rstrip()`: drops the trailing whitespace and nothing else. */
  function StripTrailing(s: string): (r: string)
    ensures |r| <= |s| && r == s[..|r|]
    ensures forall i :: |r| <= i < |s| ==> IsSpace(s[i])
    ensures r != [] ==> !IsSpace(r[|r| - 1])
  {
    if s != [] && IsSpace(s[|s| - 1]) then
      var r := StripTrailing(s[..|s| - 1]);
      assert forall i :: |r| <= i < |s| - 1 ==> s[i] == s[..|s| - 1][i];
      r
    else s
  }

  /** Python's `s.strip()`. */
  function Strip(s: string): (r: string)
    ensures r == [] <==> forall i :: 0 <= i < |s| ==> IsSpace(s[i])
  {
    var left := StripLeading(s);
    var r := StripTrailing(left);
    assert r == [] ==> left == [];
    assert r != [] ==> !IsSpace(s[|s| - |left|]) by {
      if r != [] {
        assert left != [] && s[|s| - |left|] == left[0];
      }
    }
    r
  }

  /**
   * `name and name.strip() != ""`: the name is accepted exactly when it
   * holds a character that is not whitespace.
   */
  function ValidateName(name: string): (ok: bool)
    ensures ok <==> exists i :: 0 <= i < |name| && !IsSpace(name[i])
  {
    name != "" && Strip(name) != ""
  }

  /** The same check for the birth place. */
  function ValidateLocation(location: string): (ok: bool)
    ensures ok <==> exists i :: 0 <= i < |location| && !IsSpace(location[i])
  {
    location != "" && Strip(location) != ""
  }

  /** The empty name and a name of blanks are both refused. */
  lemma BlankInputRejected(blanks: string)
    requires forall i :: 0 <= i < |blanks| ==> IsSpace(blanks[i])
    ensures !ValidateName(blanks) && !ValidateLocation(blanks)
    ensures !ValidateName("") && !ValidateName("   ") && !ValidateLocation("")
  {
    assert !IsSpace('a');
    var three := "   ";
    assert forall i :: 0 <= i < |three| ==> three[i] == ' ';
  }

  // ---------------------------------------------------------------------
  // Text truncation
  // ---------------------------------------------------------------------

  /** Python's `s[:stop]`, where a negative `stop` counts from the end. */
  function SliceTo(s: string, stop: int): (r: string)
    ensures stop >= 0 ==> |r| == if stop <= |s| then stop else |s|
    ensures stop < 0 ==> |r| == if |s| + stop >= 0 then |s| + stop else 0
    ensures r == s[..|r|]
  {
    if stop >= 0 then (if stop <= |s| then s[..stop] else s)
    else if |s| + stop >= 0 then s[..|s| + stop]
    else []
  }

  /** `truncate_text`: shorten an over-long text and mark the cut with "...". */
  function TruncateText(text: string, maxLength: int := 100): (r: string)
    ensures |text| <= maxLength ==> r == text
    ensures |text| > maxLength >= 3 ==> r == text[..maxLength - 3] + "..." && |r| == maxLength
    ensures |text| > maxLength ==> |r| >= 3 && r[..|r| - 3] <= text && r[|r| - 3..] == "..."
  {
    if |text| <= maxLength then text else SliceTo(text, maxLength - 3) + "..."
  }

  /** With a limit of at least 3 the result never exceeds the limit and truncation is idempotent. */
  lemma TruncateIdempotent(text: string, maxLength: int)
    requires maxLength >= 3
    ensures |TruncateText(text, maxLength)| <= maxLength
    ensures TruncateText(TruncateText(text, maxLength), maxLength) == TruncateText(text, maxLength)
  {
  }

  /**
   * Below a limit of 3 the slice bound `max_length - 3` is negative and Python
   * counts it from the end of the text, so the result is longer than the limit.
   */
  lemma TruncateSmallLimitOverflows()
    ensures TruncateText("abcdef", 1) == "abcd..."
    ensures |TruncateText("abcdef", 1)| > 1
  {
    assert SliceTo("abcdef", -2) == "abcd";
  }

  // ---------------------------------------------------------------------
  // Julian Day
  // ---------------------------------------------------------------------

  /** A civil timestamp as Python's `datetime` holds it (microseconds are never read). */
  datatype DateTime = DateTime(year: int, month: int, day: int, hour: int, minute: int, second: int)

  /** The range Python's `datetime` enforces on the time of day. */
  predicate ValidClock(dt: DateTime)
  {
    0 <= dt.hour < 24 && 0 <= dt.minute < 60 && 0 <= dt.second < 60
  }

  /** The hour of the day with minutes and seconds as its fractional part. */
  function FractionalHour(hour: int, minute: int, second: int): (h: real)
    ensures h * 3600.0 == (hour * 3600 + minute * 60 + second) as real
    ensures 0 <= hour < 24 && 0 <= minute < 60 && 0 <= second < 60 ==> 0.0 <= h < 24.0
  {
    hour as real + minute as real / 60.0 + second as real / 3600.0
  }

  /** `calculate_julian_day`: the ephemeris day count of the date at the given hour of that day. */
  function CalculateJulianDay(dt: DateTime, julday: (int, int, int, real) -> real): (jd: real)
    ensures ValidClock(dt) ==>
      exists h :: 0.0 <= h < 24.0 && h * 3600.0 == (dt.hour * 3600 + dt.minute * 60 + dt.second) as real
                  && jd == julday(dt.year, dt.month, dt.day, h)
  {
    julday(dt.year, dt.month, dt.day, FractionalHour(dt.hour, dt.minute, dt.second))
  }

  // ---------------------------------------------------------------------
  // Sign bucketing
  // ---------------------------------------------------------------------

  /** `int(degrees // 30)`: the 30-degree bucket a longitude falls in. */
  function SignIndex(longitude: real): (sign: int)
    ensures 30.0 * sign as real <= longitude < 30.0 * (sign + 1) as real
  {
    (longitude / 30.0).Floor
  }

  /** `degrees % 30`: Python's float remainder, which takes the sign of the divisor. */
  function DegreeInSign(longitude: real): (d: real)
    ensures 0.0 <= d < 30.0
    ensures longitude == 30.0 * SignIndex(longitude) as real + d
  {
    longitude - 30.0 * SignIndex(longitude) as real
  }

  /**
   * `zodiac_signs[sign]` with Python's list indexing: an index in -12..-1
   * counts from the end, anything outside -12..11 raises IndexError (`None`).
   */
  function SignName(sign: int): (n: Option<string>)
    ensures n.Some? <==> -12 <= sign < 12
    ensures n.Some? ==> n.value == Settings.ZodiacSigns[sign % 12]
  {
    var count := |Settings.ZodiacSigns|;
    assert count == 12;
    if 0 <= sign < count then
      assert sign % 12 == sign;
      Some(Settings.ZodiacSigns[sign])
    else if -count <= sign < 0 then
      assert sign % 12 == sign + count;
      Some(Settings.ZodiacSigns[sign + count])
    else None
  }

  /** One entry of the chart. */
  datatype Position = Position(degrees: real, sign: int, signName: string, degreeInSign: real, emoji: string)

  /** `planet_emojis.get(name, "🪐")`. */
  function EmojiFor(name: string): (e: string)
    ensures name in Settings.PlanetEmojis ==> e == Settings.PlanetEmojis[name]
    ensures name !in Settings.PlanetEmojis ==> e == "\U{1FA90}" && e !in Settings.PlanetEmojis.Values
  {
    if name in Settings.PlanetEmojis then Settings.PlanetEmojis[name] else "\U{1FA90}"
  }

  /**
   * The chart entry for a body at `longitude`, or `None` where the source
   * raises: the longitude itself, its bucket, the bucket's sign name, the
   * degree within the sign and the body's symbol.
   */
  function PositionOf(name: string, longitude: real): (p: Option<Position>)
    ensures p.Some? <==> -12 <= SignIndex(longitude) < 12
    ensures p.Some? ==>
      p.value.degrees == longitude && p.value.sign == SignIndex(longitude) &&
      p.value.signName == Settings.ZodiacSigns[SignIndex(longitude) % 12] &&
      0.0 <= p.value.degreeInSign < 30.0 &&
      longitude == 30.0 * p.value.sign as real + p.value.degreeInSign &&
      p.value.emoji == EmojiFor(name)
  {
    var sign := SignIndex(longitude);
    match SignName(sign)
    case None => None
    case Some(signName) => Some(Position(longitude, sign, signName, DegreeInSign(longitude), EmojiFor(name)))
  }

  /** For a longitude in [0, 360) the bucket is one of the twelve signs, taken in order. */
  lemma SignBucketing(longitude: real)
    requires 0.0 <= longitude < 360.0
    ensures 0 <= SignIndex(longitude) <= 11
    ensures SignName(SignIndex(longitude)) == Some(Settings.ZodiacSigns[SignIndex(longitude)])
    ensures 0.0 <= DegreeInSign(longitude) < 30.0
    ensures longitude == 30.0 * SignIndex(longitude) as real + DegreeInSign(longitude)
  {
  }

  /** The bucket is the unique sign whose 30-degree range holds the longitude. */
  lemma SignIndexUnique(longitude: real, k: int)
    requires 30.0 * k as real <= longitude < 30.0 * (k + 1) as real
    ensures SignIndex(longitude) == k
    ensures DegreeInSign(longitude) == longitude - 30.0 * k as real
  {
  }

  /** Worked values: 47.5 is Taurus at 17.5, 0 is Aries at 0, 30 is Taurus at 0. */
  lemma SignExamples()
    ensures SignIndex(47.5) == 1 && DegreeInSign(47.5) == 17.5 && SignName(1) == Some("Taurus")
    ensures SignIndex(0.0) == 0 && DegreeInSign(0.0) == 0.0 && SignName(0) == Some("Aries")
    ensures SignIndex(30.0) == 1 && DegreeInSign(30.0) == 0.0
    ensures SignIndex(359.999) == 11 && SignName(11) == Some("Pisces")
  {
    SignIndexUnique(47.5, 1);
    SignIndexUnique(0.0, 0);
    SignIndexUnique(30.0, 1);
    SignIndexUnique(359.999, 11);
  }

  /**
   * An entry exists exactly for longitudes in [-360, 360): at 360 and above
   * the index is 12 or more and the lookup raises.
   */
  lemma PositionDefinedRange(name: string, longitude: real)
    ensures PositionOf(name, longitude).Some? <==> -360.0 <= longitude < 360.0
  {
    var s := SignIndex(longitude);
    assert 30.0 * s as real <= longitude < 30.0 * (s + 1) as real;
  }

  /**
   * Python's negative indexing makes a longitude in [-360, 0) land on the
   * sign, and the in-sign degree, of the same direction taken in [0, 360).
   */
  lemma NegativeLongitudeWraps(name: string, longitude: real)
    requires -360.0 <= longitude < 0.0
    ensures PositionOf(name, longitude).Some? && PositionOf(name, longitude + 360.0).Some?
    ensures PositionOf(name, longitude).value.signName == PositionOf(name, longitude + 360.0).value.signName
    ensures PositionOf(name, longitude).value.degreeInSign == PositionOf(name, longitude + 360.0).value.degreeInSign
  {
    var s := SignIndex(longitude);
    assert 30.0 * s as real <= longitude < 30.0 * (s + 1) as real;
    SignIndexUnique(longitude + 360.0, s + 12);
  }

  // ---------------------------------------------------------------------
  // Planetary positions
  // ---------------------------------------------------------------------

  /** The ephemeris identifiers of the ten bodies. */
  datatype Body = Sun | Moon | Mars | Mercury | Jupiter | Venus | Saturn | Uranus | Neptune | Pluto

  /** `planet_names`, in the order the chart is filled. */
  const PlanetNames: seq<string> :=
    ["Sun", "Moon", "Mars", "Mercury", "Jupiter", "Venus", "Saturn", "Uranus", "Neptune", "Pluto"]

  /** `planet_ids`, parallel to `PlanetNames`. */
  const PlanetIds: seq<Body> :=
    [Sun, Moon, Mars, Mercury, Jupiter, Venus, Saturn, Uranus, Neptune, Pluto]

  /** The name the ephemeris body is reported under. */
  function BodyName(b: Body): string
  {
    match b
    case Sun => "Sun" case Moon => "Moon" case Mars => "Mars" case Mercury => "Mercury"
    case Jupiter => "Jupiter" case Venus => "Venus" case Saturn => "Saturn"
    case Uranus => "Uranus" case Neptune => "Neptune" case Pluto => "Pluto"
  }

  /**
   * The two parallel lists line up: the entry filed under `PlanetNames[i]` is
   * computed for the body of that name, the names are distinct, and every
   * name has an emoji, so the default symbol is never used.
   */
  lemma PlanetTablesAgree()
    ensures |PlanetNames| == |PlanetIds| == 10
    ensures forall i :: 0 <= i < 10 ==> BodyName(PlanetIds[i]) == PlanetNames[i]
    ensures forall i, j :: 0 <= i < j < 10 ==> PlanetNames[i] != PlanetNames[j]
    ensures forall i :: 0 <= i < 10 ==> PlanetNames[i] in Settings.PlanetEmojis
    ensures forall i :: 0 <= i < 10 ==> EmojiFor(PlanetNames[i]) == Settings.PlanetEmojis[PlanetNames[i]]
  {
    Settings.PlanetEmojiKeys();
  }

  /** The entry for the `i`-th body, or `None` when its computation raises. */
  function BodyPosition(julianDay: real, calcUt: (real, Body) -> Option<real>, i: nat): (p: Option<Position>)
    requires i < |PlanetIds|
    ensures calcUt(julianDay, PlanetIds[i]).None? ==> p.None?
    ensures calcUt(julianDay, PlanetIds[i]).Some? ==>
      p == PositionOf(PlanetNames[i], calcUt(julianDay, PlanetIds[i]).value)
    ensures p.Some? ==> p.value.degrees == calcUt(julianDay, PlanetIds[i]).value
                        && 0.0 <= p.value.degreeInSign < 30.0
                        && p.value.emoji == Settings.PlanetEmojis[PlanetNames[i]]
  {
    match calcUt(julianDay, PlanetIds[i])
    case None => None
    case Some(longitude) => PositionOf(PlanetNames[i], longitude)
  }

  /** Every one of the ten bodies can be placed. */
  predicate AllPlaced(julianDay: real, calcUt: (real, Body) -> Option<real>)
  {
    forall i :: 0 <= i < |PlanetIds| ==> BodyPosition(julianDay, calcUt, i).Some?
  }

  /**
   * The chart `get_planetary_positions` returns, as an ordered list of
   * (name, entry) pairs: all ten bodies, or the empty chart if any fails.
   */
  function Chart(julianDay: real, calcUt: (real, Body) -> Option<real>): (chart: seq<(string, Position)>)
    ensures chart != [] <==> AllPlaced(julianDay, calcUt)
    ensures chart != [] ==> |chart| == 10
    ensures chart != [] ==> forall i :: 0 <= i < |chart| ==>
      chart[i].0 == PlanetNames[i] && Some(chart[i].1) == BodyPosition(julianDay, calcUt, i)
  {
    if AllPlaced(julianDay, calcUt)
    then seq(|PlanetIds|, i requires 0 <= i < |PlanetIds| => (PlanetNames[i], BodyPosition(julianDay, calcUt, i).value))
    else []
  }

  /**
   * `get_planetary_positions`: asks the ephemeris for each body in turn and
   * files its entry; the first failure discards everything computed so far.
   * `calls` lists the bodies the ephemeris was asked about, in order.
   */
  method GetPlanetaryPositions(julianDay: real, calcUt: (real, Body) -> Option<real>)
    returns (planets: seq<(string, Position)>, calls: seq<Body>)
    ensures planets == Chart(julianDay, calcUt)
    ensures 1 <= |calls| <= 10 && calls == PlanetIds[..|calls|]
    ensures planets != [] ==> |calls| == 10
    ensures forall i :: 0 <= i < |calls| - 1 ==> BodyPosition(julianDay, calcUt, i).Some?
    ensures planets == [] ==> BodyPosition(julianDay, calcUt, |calls| - 1).None?
  {
    var filed: seq<(string, Position)> := [];
    calls := [];
    var i := 0;
    while i < |PlanetIds|
      invariant 0 <= i <= |PlanetIds| && |filed| == i
      invariant calls == PlanetIds[..i]
      invariant forall j :: 0 <= j < i ==> filed[j].0 == PlanetNames[j] && Some(filed[j].1) == BodyPosition(julianDay, calcUt, j)
    {
      var body := PlanetIds[i];
      calls := calls + [body];
      assert calls == PlanetIds[..i + 1];
      var longitude := calcUt(julianDay, body);
      if longitude.None? {
        ChartEmptyOnFailure(julianDay, calcUt, i);
        return [], calls;
      }
      var degrees := longitude.value;
      var sign := SignIndex(degrees);
      var signName := SignName(sign);
      if signName.None? {
        ChartEmptyOnFailure(julianDay, calcUt, i);
        return [], calls;
      }
      var entry := Position(degrees, sign, signName.value, DegreeInSign(degrees), EmojiFor(PlanetNames[i]));
      PlacedAt(julianDay, calcUt, i, entry);
      filed := filed + [(PlanetNames[i], entry)];
      i := i + 1;
    }
    ChartOnSuccess(julianDay, calcUt, filed);
    planets := filed;
  }

  /** One body that cannot be placed leaves the chart empty. */
  lemma ChartEmptyOnFailure(julianDay: real, calcUt: (real, Body) -> Option<real>, i: nat)
    requires i < |PlanetIds|
    requires calcUt(julianDay, PlanetIds[i]).None? ||
             SignName(SignIndex(calcUt(julianDay, PlanetIds[i]).value)).None?
    ensures BodyPosition(julianDay, calcUt, i).None?
    ensures Chart(julianDay, calcUt) == []
  {
  }

  /** The entry the loop files for body `i` is that body's position. */
  lemma PlacedAt(julianDay: real, calcUt: (real, Body) -> Option<real>, i: nat, entry: Position)
    requires i < |PlanetIds| && calcUt(julianDay, PlanetIds[i]).Some?
    requires var degrees := calcUt(julianDay, PlanetIds[i]).value;
      SignName(SignIndex(degrees)).Some? &&
      entry == Position(degrees, SignIndex(degrees), SignName(SignIndex(degrees)).value,
                        DegreeInSign(degrees), EmojiFor(PlanetNames[i]))
    ensures BodyPosition(julianDay, calcUt, i) == Some(entry)
  {
  }

  /** A list holding every body's entry, in order, is the chart. */
  lemma ChartOnSuccess(julianDay: real, calcUt: (real, Body) -> Option<real>, filed: seq<(string, Position)>)
    requires |filed| == |PlanetIds|
    requires forall j :: 0 <= j < |PlanetIds| ==> filed[j].0 == PlanetNames[j] && Some(filed[j].1) == BodyPosition(julianDay, calcUt, j)
    ensures filed == Chart(julianDay, calcUt)
  {
  }

  /** When the ephemeris keeps to [0, 360), every entry carries a proper sign in order. */
  lemma ChartInRange(julianDay: real, calcUt: (real, Body) -> Option<real>)
    requires forall b: Body :: calcUt(julianDay, b).Some? ==> 0.0 <= calcUt(julianDay, b).value < 360.0
    requires forall b: Body :: calcUt(julianDay, b).Some?
    ensures |Chart(julianDay, calcUt)| == 10
    ensures forall i :: 0 <= i < 10 ==>
      var p := Chart(julianDay, calcUt)[i].1;
      0 <= p.sign <= 11 && p.signName == Settings.ZodiacSigns[p.sign] &&
      0.0 <= p.degreeInSign < 30.0 && p.degrees == 30.0 * p.sign as real + p.degreeInSign
  {
    forall i | 0 <= i < 10 ensures BodyPosition(julianDay, calcUt, i).Some? {
      SignBucketing(calcUt(julianDay, PlanetIds[i]).value);
    }
    forall i | 0 <= i < 10
      ensures var p := Chart(julianDay, calcUt)[i].1;
        0 <= p.sign <= 11 && p.signName == Settings.ZodiacSigns[p.sign] &&
        0.0 <= p.degreeInSign < 30.0 && p.degrees == 30.0 * p.sign as real + p.degreeInSign
    {
      SignBucketing(calcUt(julianDay, PlanetIds[i]).value);
    }
  }

  /**
   * A single failing body, or a single longitude of 360 or more, empties the
   * whole chart: the bodies placed before it are not returned.
   */
  lemma ChartAllOrNothing(julianDay: real, calcUt: (real, Body) -> Option<real>, k: nat)
    requires k < 10
    requires calcUt(julianDay, PlanetIds[k]).None? ||
             calcUt(julianDay, PlanetIds[k]).value >= 360.0
    ensures Chart(julianDay, calcUt) == []
  {
    if calcUt(julianDay, PlanetIds[k]).Some? {
      PositionDefinedRange(PlanetNames[k], calcUt(julianDay, PlanetIds[k]).value);
    }
    assert BodyPosition(julianDay, calcUt, k).None?;
  }
}
