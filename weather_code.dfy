/** WeatherCodeUtil: the WMO weather interpretation codes (WW, code table 4677) that
    Open-Meteo reports, as text and as an icon. */
module WeatherCode {
  import opened Wrappers
  import opened Strings

  /** The codes with a description of their own, in the order of the table. */
  const KnownCodes: seq<int> := [0, 1, 2, 3, 45, 48, 51, 53, 55, 56, 57, 61, 63, 65, 66, 67,
                                 71, 73, 75, 77, 80, 81, 82, 85, 86, 95, 96, 99]

  /** The description table: the text of a listed code, None for any other code. */
  function Listed(code: int): Option<string> {
    match code
    case 0 => Some("Clear sky")
    case 1 => Some("Mainly clear")
    case 2 => Some("Partly cloudy")
    case 3 => Some("Overcast")
    case 45 => Some("Fog")
    case 48 => Some("Depositing rime fog")
    case 51 => Some("Light drizzle")
    case 53 => Some("Moderate drizzle")
    case 55 => Some("Dense drizzle")
    case 56 => Some("Light freezing drizzle")
    case 57 => Some("Dense freezing drizzle")
    case 61 => Some("Slight rain")
    case 63 => Some("Moderate rain")
    case 65 => Some("Heavy rain")
    case 66 => Some("Light freezing rain")
    case 67 => Some("Heavy freezing rain")
    case 71 => Some("Slight snow fall")
    case 73 => Some("Moderate snow fall")
    case 75 => Some("Heavy snow fall")
    case 77 => Some("Snow grains")
    case 80 => Some("Slight rain showers")
    case 81 => Some("Moderate rain showers")
    case 82 => Some("Violent rain showers")
    case 85 => Some("Slight snow showers")
    case 86 => Some("Heavy snow showers")
    case 95 => Some("Thunderstorm")
    case 96 => Some("Thunderstorm with slight hail")
    case 99 => Some("Thunderstorm with heavy hail")
    case _ => None
  }

  const UnknownPrefix := "Unknown ("

  /** getDescription: total over every int; a listed code has its text, any other
      code (negative ones included) reads "Unknown (code)". */
  function Description(code: int): (r: string)
    ensures Listed(code).Some? ==> r == Listed(code).value
    ensures Listed(code).None? ==> r == UnknownPrefix + IntToString(code) + ")"
  {
    match Listed(code)
    case Some(text) => text
    case None => UnknownPrefix + IntToString(code) + ")"
  }

  /** Exactly the 28 codes of the table have a text of their own. */
  lemma ListedCodes(code: int)
    ensures Listed(code).Some? <==> code in KnownCodes
    ensures |KnownCodes| == 28
  {
  }

  /** No listed text reads like the text of an unlisted code. */
  lemma ListedNotUnknown(code: int)
    requires Listed(code).Some?
    ensures !StartsWith(Description(code), UnknownPrefix)
  {
    assert Listed(code).value[0] != 'U';
  }

  /** Different codes have different descriptions, so the code can be read back
      from its text. */
  lemma {:induction false} DescriptionInjective(a: int, b: int)
    requires Description(a) == Description(b)
    ensures a == b
  {
    var d := Description(a);
    if Listed(a).None? && Listed(b).None? {
      var ta, tb := IntToString(a), IntToString(b);
      assert d == UnknownPrefix + ta + ")" == UnknownPrefix + tb + ")";
      assert ta == d[|UnknownPrefix|..|d| - 1] == tb;
      IntToStringInjective(a, b);
    } else if Listed(a).None? {
      ListedNotUnknown(b);
      assert StartsWith(d, UnknownPrefix);
    } else if Listed(b).None? {
      ListedNotUnknown(a);
      assert StartsWith(d, UnknownPrefix);
    } else {
      ListedTextsDistinct(a, b);
    }
  }

  /** The texts of the table are pairwise different. */
  lemma ListedTextsDistinct(a: int, b: int)
    requires Listed(a).Some? && Listed(b).Some? && Listed(a) == Listed(b)
    ensures a == b
  {
  }

  /** The icons getIcon chooses between. Their text is left opaque; rain and rain
      showers share one icon. */
  datatype Icon = Sun | SunBehindCloud | FogIcon | SunBehindRain | RainCloud | Snowflake
                | SnowCloud | ThunderCloud | Thermometer

  /** getIcon: the icon of the range that holds the code, and the thermometer exactly
      when no range holds it. */
  function IconOf(code: int): (r: Icon)
    ensures forall i :: 0 <= i < |IconRanges| && InRange(IconRanges[i], code) ==> r == IconRanges[i].icon
    ensures r == Thermometer <==> forall i :: 0 <= i < |IconRanges| ==> !InRange(IconRanges[i], code)
  {
    var rs := IconRanges;
    if code == 0 then assert InRange(rs[0], code); Sun
    else if 1 <= code <= 3 then assert InRange(rs[1], code); SunBehindCloud
    else if 45 <= code <= 48 then assert InRange(rs[2], code); FogIcon
    else if 51 <= code <= 57 then assert InRange(rs[3], code); SunBehindRain
    else if 61 <= code <= 67 then assert InRange(rs[4], code); RainCloud
    else if 71 <= code <= 77 then assert InRange(rs[5], code); Snowflake
    else if 80 <= code <= 82 then assert InRange(rs[6], code); RainCloud
    else if 85 <= code <= 86 then assert InRange(rs[7], code); SnowCloud
    else if 95 <= code <= 99 then assert InRange(rs[8], code); ThunderCloud
    else Thermometer
  }

  /** One range of getIcon: the codes lo..hi get the icon. */
  datatype IconRange = IconRange(lo: int, hi: int, icon: Icon)

  /** getIcon's ranges, in the order it tests them. */
  const IconRanges: seq<IconRange> := [
    IconRange(0, 0, Sun), IconRange(1, 3, SunBehindCloud), IconRange(45, 48, FogIcon),
    IconRange(51, 57, SunBehindRain), IconRange(61, 67, RainCloud), IconRange(71, 77, Snowflake),
    IconRange(80, 82, RainCloud), IconRange(85, 86, SnowCloud), IconRange(95, 99, ThunderCloud)]

  predicate InRange(r: IconRange, code: int) {
    r.lo <= code <= r.hi
  }

  /** The ranges do not overlap, so the order of the tests does not matter. */
  lemma IconRangesDisjoint()
    ensures forall i, j, code :: 0 <= i < j < |IconRanges| && InRange(IconRanges[i], code) ==> !InRange(IconRanges[j], code)
  {
  }

  /** Every code with a description of its own has an icon of its own. */
  lemma ListedHaveIcons(code: int)
    requires Listed(code).Some?
    ensures IconOf(code) != Thermometer
  {
  }

  /** The converse fails: 46 lies in the fog range but is not in the table. */
  lemma IconWithoutDescription()
    ensures IconOf(46) == FogIcon && Description(46) == UnknownPrefix + "46)"
  {
    assert IntToString(46) == "46";
  }
}
