/** McpToolService of the weather MCP server: the fixed tool catalogue, dispatch of a
    tool call by name with its argument defaults, and the text reports the tools
    return inside an MCP content list. */
module WeatherTools {
  import opened Wrappers
  import opened Strings
  import opened Json
  import opened JavaInt
  import opened WeatherCode
  import McpClient
  import McpTypes
  import Orchestration

  // ---------------------------------------------------------------------------
  // The catalogue (getTools)

  /** ToolDefinition: a tool's name, description and JSON schema of its arguments. */
  datatype ToolDefinition = ToolDefinition(name: string, description: string, inputSchema: Json)

  /** A schema property with its JSON type and description. */
  function Property(kind: string, description: string): Json {
    JObj([Field("type", JStr(kind)), Field("description", JStr(description))])
  }

  /** An integral JSON number. */
  function Number(n: int): Json {
    JNum(n as real, IntToString(n))
  }

  /** An object schema with its properties and the names it requires. */
  function ObjectSchema(properties: seq<Field>, required: seq<string>): Json {
    JObj([Field("type", JStr("object")), Field("properties", JObj(properties)),
          Field("required", JArr(seq(|required|, i requires 0 <= i < |required| => JStr(required[i]))))])
  }

  const SearchLocationName := "search_location"
  const CurrentWeatherName := "get_current_weather"
  const ForecastName := "get_weather_forecast"

  const LatitudeProperty := Field("latitude", Property("number", "Latitude coordinate (e.g., 52.52)"))
  const LongitudeProperty := Field("longitude", Property("number", "Longitude coordinate (e.g., 13.41)"))

  const SearchLocationTool := ToolDefinition(
    SearchLocationName,
    "Search for a location by name to get coordinates for weather queries. Returns location details including latitude, longitude, country, and timezone. IMPORTANT: Only works with city names in English.",
    ObjectSchema([Field("name", Property("string", "Location name to search for in English only (e.g., 'Berlin', 'New York', 'Tokyo', 'Moscow', 'Paris')")),
                  Field("count", JObj([Field("type", JStr("integer")),
                                       Field("description", JStr("Maximum number of results to return (default: 5)")),
                                       Field("default", Number(5))]))],
                 ["name"]))

  const CurrentWeatherTool := ToolDefinition(
    CurrentWeatherName,
    "Get current weather conditions for a specific location using coordinates. Includes temperature, humidity, precipitation, wind, and weather conditions.",
    ObjectSchema([LatitudeProperty, LongitudeProperty], ["latitude", "longitude"]))

  const ForecastTool := ToolDefinition(
    ForecastName,
    "Get weather forecast for a specific location using coordinates. Provides daily forecast including temperature range, precipitation, and conditions.",
    ObjectSchema([LatitudeProperty, LongitudeProperty,
                  Field("days", JObj([Field("type", JStr("integer")),
                                      Field("description", JStr("Number of forecast days (1-16, default: 7)")),
                                      Field("default", Number(7)), Field("minimum", Number(1)), Field("maximum", Number(16))]))],
                 ["latitude", "longitude"]))

  /** The catalogue getTools returns. */
  function Catalog(): seq<ToolDefinition> {
    [SearchLocationTool, CurrentWeatherTool, ForecastTool]
  }

  /** getTools: adds the three tools to a new list, in order. */
  method GetTools() returns (tools: seq<ToolDefinition>)
    ensures tools == Catalog()
  {
    tools := [];
    tools := tools + [SearchLocationTool];
    tools := tools + [CurrentWeatherTool];
    tools := tools + [ForecastTool];
  }

  /** The names a tool's schema lists as required. */
  function Required(tool: ToolDefinition): seq<string> {
    match Get(tool.inputSchema, "required")
    case Some(JArr(items)) => seq(|items|, i requires 0 <= i < |items| => AsText(items[i]))
    case _ => []
  }

  lemma RequiredOfSchema(properties: seq<Field>, required: seq<string>, tool: ToolDefinition)
    requires tool.inputSchema == ObjectSchema(properties, required)
    ensures Required(tool) == required
  {
    var fields := tool.inputSchema.fields;
    LookupFirst(fields, 2, "required");
  }

  /** The catalogue: three tools with distinct names, in the order search_location,
      get_current_weather, get_weather_forecast; the first requires a name, the other
      two a latitude and a longitude. */
  lemma CatalogShape()
    ensures |Catalog()| == 3
    ensures Catalog()[0].name == SearchLocationName && Catalog()[1].name == CurrentWeatherName
            && Catalog()[2].name == ForecastName
    ensures forall i, j :: 0 <= i < j < |Catalog()| ==> Catalog()[i].name != Catalog()[j].name
    ensures Required(Catalog()[0]) == ["name"]
    ensures Required(Catalog()[1]) == ["latitude", "longitude"]
    ensures Required(Catalog()[2]) == ["latitude", "longitude"]
  {
    RequiredOfSchema(SearchLocationTool.inputSchema.fields[1].value.fields, ["name"], SearchLocationTool);
    RequiredOfSchema([LatitudeProperty, LongitudeProperty], ["latitude", "longitude"], CurrentWeatherTool);
    RequiredOfSchema(ForecastTool.inputSchema.fields[1].value.fields, ["latitude", "longitude"], ForecastTool);
    assert SearchLocationName[0] != CurrentWeatherName[0];
    assert SearchLocationName[0] != ForecastName[0];
    assert CurrentWeatherName[4] != ForecastName[4];
  }

  /** A tool definition as Jackson writes it into the tools/list result. */
  function DefinitionJson(tool: ToolDefinition): Json {
    JObj([Field("name", JStr(tool.name)), Field("description", JStr(tool.description)), Field("inputSchema", tool.inputSchema)])
  }

  /** What the server lists, the MCP client reads back unchanged, tagged with the
      server's id. */
  lemma DefinitionReadBack(tool: ToolDefinition, serverId: string)
    requires tool.inputSchema.JObj?
    ensures McpClient.ToolFromNode(DefinitionJson(tool), serverId)
            == Some(McpTypes.McpTool(tool.name, tool.description, tool.inputSchema, serverId))
  {
    var fields := DefinitionJson(tool).fields;
    LookupFirst(fields, 0, "name");
    LookupFirst(fields, 1, "description");
    LookupFirst(fields, 2, "inputSchema");
  }

  // ---------------------------------------------------------------------------
  // What the tools read: arguments and the Open-Meteo client

  /** An exception a tool throws while it runs. */
  datatype Fault =
    | NullArguments            // the arguments map is null
    | MissingNumber(key: string)   // a null Number unboxed
    | NotANumber(key: string)      // a value cast to Number that is not one
    | NotAString(key: string)      // a value cast to String that is not one
    | NullWeatherCode(day: nat)    // a null weather code unboxed to int

  /** The arguments of a call: a JSON object's members, None for a null map. */
  type Arguments = Option<seq<Field>>

  /** (String) arguments.get(key): null when missing or null. */
  function StringArg(arguments: Arguments, key: string): (r: Result<Option<string>, Fault>)
    ensures arguments.None? ==> r == Failure(NullArguments)
    ensures arguments.Some? && (Lookup(arguments.value, key).None? || Lookup(arguments.value, key) == Some(JNull)) ==>
              r == Success(None)
    ensures arguments.Some? && Lookup(arguments.value, key).Some? && Lookup(arguments.value, key).value.JStr? ==>
              r == Success(Some(Lookup(arguments.value, key).value.s))
    ensures (arguments.Some? && Lookup(arguments.value, key).Some? && !Lookup(arguments.value, key).value.JNull?
             && !Lookup(arguments.value, key).value.JStr?) ==> r == Failure(NotAString(key))
  {
    if arguments.None? then Failure(NullArguments)
    else match Lookup(arguments.value, key)
      case None => Success(None)
      case Some(JNull) => Success(None)
      case Some(JStr(s)) => Success(Some(s))
      case Some(_) => Failure(NotAString(key))
  }

  /** ((Number) arguments.get(key)).doubleValue(). */
  function NumberArg(arguments: Arguments, key: string): (r: Result<real, Fault>)
    ensures arguments.None? ==> r == Failure(NullArguments)
    ensures arguments.Some? && (Lookup(arguments.value, key).None? || Lookup(arguments.value, key) == Some(JNull)) ==>
              r == Failure(MissingNumber(key))
    ensures arguments.Some? && Lookup(arguments.value, key).Some? && Lookup(arguments.value, key).value.JNum? ==>
              r == Success(Lookup(arguments.value, key).value.n)
    ensures (arguments.Some? && Lookup(arguments.value, key).Some? && !Lookup(arguments.value, key).value.JNull?
             && !Lookup(arguments.value, key).value.JNum?) ==> r == Failure(NotANumber(key))
  {
    if arguments.None? then Failure(NullArguments)
    else match Lookup(arguments.value, key)
      case None => Failure(MissingNumber(key))
      case Some(JNull) => Failure(MissingNumber(key))
      case Some(JNum(n, _)) => Success(n)
      case Some(_) => Failure(NotANumber(key))
  }

  /** arguments.containsKey(key) ? ((Number) arguments.get(key)).intValue() : default. */
  function IntArg(arguments: Arguments, key: string, default: Int32): (r: Result<Int32, Fault>)
    ensures arguments.None? ==> r == Failure(NullArguments)
    ensures arguments.Some? && Lookup(arguments.value, key).None? ==> r == Success(default)
    ensures arguments.Some? && Lookup(arguments.value, key) == Some(JNull) ==> r == Failure(MissingNumber(key))
    ensures arguments.Some? && Lookup(arguments.value, key).Some? && Lookup(arguments.value, key).value.JNum? ==>
              var number := Lookup(arguments.value, key).value;
              r == Success(NumberIntValue(number.n, number.text))
    ensures (arguments.Some? && Lookup(arguments.value, key).Some? && !Lookup(arguments.value, key).value.JNull?
             && !Lookup(arguments.value, key).value.JNum?) ==> r == Failure(NotANumber(key))
  {
    if arguments.None? then Failure(NullArguments)
    else match Lookup(arguments.value, key)
      case None => Success(default)
      case Some(JNull) => Failure(MissingNumber(key))
      case Some(JNum(n, text)) => Success(NumberIntValue(n, text))
      case Some(_) => Failure(NotANumber(key))
  }

  /** Location, as the geocoding API returns it (its id is not used). */
  datatype Location = Location(
    name: Option<string>, latitude: Option<real>, longitude: Option<real>,
    country: Option<string>, countryCode: Option<string>, admin1: Option<string>,
    timezone: Option<string>, elevation: Option<Int32>)

  /** CurrentWeather (its interval is not used). */
  datatype CurrentWeather = CurrentWeather(
    time: Option<string>, temperature: Option<real>, humidity: Option<real>,
    apparentTemperature: Option<real>, precipitation: Option<real>, weatherCode: Option<Int32>,
    windSpeed: Option<real>, windDirection: Option<Int32>)

  /** DailyWeather: one list per variable, any of them null, any element null. */
  datatype DailyWeather = DailyWeather(
    time: Option<seq<Option<string>>>,
    temperatureMax: Option<seq<Option<real>>>,
    temperatureMin: Option<seq<Option<real>>>,
    precipitationSum: Option<seq<Option<real>>>,
    weatherCode: Option<seq<Option<Int32>>>,
    windSpeedMax: Option<seq<Option<real>>>)

  /** WeatherResponse (elevation, units and the timezone abbreviation are not used). */
  datatype WeatherResponse = WeatherResponse(
    latitude: Option<real>, longitude: Option<real>, timezone: Option<string>,
    current: Option<CurrentWeather>, daily: Option<DailyWeather>)

  /** OpenMeteoClient, as an oracle: it never throws, and answers null (None) or an
      empty list when a request fails. */
  datatype WeatherApi = WeatherApi(
    searchLocations: (Option<string>, Int32) -> Option<seq<Location>>,
    currentWeather: (real, real) -> Option<WeatherResponse>,
    forecast: (real, real, Int32) -> Option<WeatherResponse>)

  /** The text of floating-point numbers, which the model leaves open:
      String.format("%.Nf", x) (which prints "null" for null) and Double.toString. */
  datatype NumberText = NumberText(fixed: (Option<real>, nat) -> string, plain: real -> string)

  /** What the tools run against: the weather client, the number formatting, and the
      message the JVM gives each fault. */
  datatype Environment = Environment(api: WeatherApi, text: NumberText, message: Fault -> Option<string>)

  // ---------------------------------------------------------------------------
  // The reports

  /** A run of n box-drawing characters (U+2550). */
  function Rule(n: nat): string {
    seq(n, _ => '\U{2550}')
  }

  const Degrees := "\U{00B0}"

  /** The part of formatLocationsResponse for the location numbered `number`. */
  function LocationEntry(number: nat, loc: Location, text: NumberText): string {
    NatToString(number) + ". " + Str(loc.name)
    + (if loc.country.Some? then
         ", " + loc.country.value + (if loc.countryCode.Some? then " (" + loc.countryCode.value + ")" else "")
       else "")
    + (if loc.admin1.Some? then " - " + loc.admin1.value else "")
    + "\n"
    + (if loc.latitude.Some? && loc.longitude.Some? then
         "   Coordinates: " + text.fixed(loc.latitude, 4) + ", " + text.fixed(loc.longitude, 4) + "\n"
       else "")
    + (if loc.timezone.Some? then "   Timezone: " + loc.timezone.value + "\n" else "")
    + (if loc.elevation.Some? then "   Elevation: " + IntToString(loc.elevation.value as int) + "m\n" else "")
    + "\n"
  }

  /** The entries of the locations, numbered from 1 in order. */
  function LocationEntries(locs: seq<Location>, text: NumberText): string
    decreases |locs|
  {
    if locs == [] then ""
    else LocationEntries(locs[..|locs| - 1], text) + LocationEntry(|locs|, locs[|locs| - 1], text)
  }

  function LocationsHeader(n: nat): string {
    "Found " + NatToString(n) + " location(s):\n\n"
  }

  /** The report of a location search: "No locations found" exactly for a null or
      empty list, otherwise a header counting the locations followed by one entry per
      location, in order, the i-th (from 0) numbered i + 1. */
  function LocationsText(locations: Option<seq<Location>>, text: NumberText): (r: string)
    ensures r == "No locations found" <==> locations.None? || locations.value == []
    ensures locations.Some? && locations.value != [] ==>
              StartsWith(r, LocationsHeader(|locations.value|))
              && r == LocationsHeader(|locations.value|)
                      + Concat(seq(|locations.value|, i requires 0 <= i < |locations.value| =>
                                     LocationEntry(i + 1, locations.value[i], text)))
  {
    if locations.None? || locations.value == [] then "No locations found"
    else
      var header := LocationsHeader(|locations.value|);
      var entries := LocationEntries(locations.value, text);
      LocationEntriesNumbered(locations.value, text);
      assert (header + entries)[..|header|] == header;
      assert (header + entries)[0] == 'F';
      header + entries
  }

  /** formatLocationsResponse: the StringBuilder loop over the locations. */
  method FormatLocationsResponse(locations: Option<seq<Location>>, text: NumberText) returns (s: string)
    ensures s == LocationsText(locations, text)
  {
    if locations.None? || locations.value == [] {
      return "No locations found";
    }
    var locs := locations.value;
    var entries := "";
    var i := 0;
    while i < |locs|
      invariant 0 <= i <= |locs|
      invariant entries == LocationEntries(locs[..i], text)
    {
      assert locs[..i + 1][..i] == locs[..i];
      entries := entries + LocationEntry(i + 1, locs[i], text);
      i := i + 1;
    }
    assert locs[..|locs|] == locs;
    s := LocationsHeader(|locs|) + entries;
  }

  /** The entries are the locations' entries one after the other, the i-th (from 0)
      numbered i + 1. */
  lemma {:induction false} LocationEntriesNumbered(locs: seq<Location>, text: NumberText)
    ensures LocationEntries(locs, text) == Concat(seq(|locs|, i requires 0 <= i < |locs| => LocationEntry(i + 1, locs[i], text)))
    decreases |locs|
  {
    if locs != [] {
      var init := locs[..|locs| - 1];
      var all := seq(|locs|, i requires 0 <= i < |locs| => LocationEntry(i + 1, locs[i], text));
      var front := seq(|init|, i requires 0 <= i < |init| => LocationEntry(i + 1, init[i], text));
      LocationEntriesNumbered(init, text);
      assert all == front + [LocationEntry(|locs|, locs[|locs| - 1], text)];
      ConcatAppend(front, [LocationEntry(|locs|, locs[|locs| - 1], text)]);
      assert Concat([LocationEntry(|locs|, locs[|locs| - 1], text)]) == LocationEntry(|locs|, locs[|locs| - 1], text) by {
        ConcatAppend([], [LocationEntry(|locs|, locs[|locs| - 1], text)]);
      }
    }
  }

  /** Each entry begins with its number, a dot and a space. */
  lemma LocationEntryStartsWithNumber(number: nat, loc: Location, text: NumberText)
    ensures StartsWith(LocationEntry(number, loc, text), NatToString(number) + ". ")
  {
    var prefix := NatToString(number) + ". ";
    assert LocationEntry(number, loc, text)[..|prefix|] == prefix;
  }

  /** What formatCurrentWeatherResponse appends before the conditions: the title, the
      place and time, and the temperature, one piece per appended group. */
  function OpeningPieces(w: WeatherResponse, text: NumberText): seq<string>
    requires w.current.Some?
  {
    var c := w.current.value;
    ["Current Weather\n", Rule(15) + "\n\n"]
    + (if w.latitude.Some? && w.longitude.Some? then
         ["Location: " + text.fixed(w.latitude, 4) + ", " + text.fixed(w.longitude, 4) + "\n"] else [])
    + (if w.timezone.Some? then ["Timezone: " + w.timezone.value + "\n"] else [])
    + (if c.time.Some? then ["Time: " + c.time.value + "\n"] else [])
    + ["\n"]
    + (if c.temperature.Some? then
         ["Temperature: " + text.fixed(c.temperature, 1) + Degrees + "C"
          + (if c.apparentTemperature.Some? then " (feels like " + text.fixed(c.apparentTemperature, 1) + Degrees + "C)" else "")
          + "\n"] else [])
  }

  /** The conditions line, when the weather code is known. */
  function ConditionsPieces(c: CurrentWeather): seq<string> {
    if c.weatherCode.Some? then [ConditionsLine(c.weatherCode.value)] else []
  }

  /** What it appends after the conditions: humidity, precipitation and wind. */
  function ClosingPieces(c: CurrentWeather, text: NumberText): seq<string> {
    (if c.humidity.Some? then ["Humidity: " + text.plain(c.humidity.value) + "%\n"] else [])
    + (if c.precipitation.Some? then ["Precipitation: " + text.plain(c.precipitation.value) + " mm\n"] else [])
    + (if c.windSpeed.Some? then
         ["Wind: " + text.fixed(c.windSpeed, 1) + " km/h"
          + (if c.windDirection.Some? then " from " + IntToString(c.windDirection.value as int) + Degrees else "")
          + "\n"] else [])
  }

  /** The pieces of formatCurrentWeatherResponse, in the order it appends them. */
  function CurrentPieces(w: WeatherResponse, text: NumberText): seq<string>
    requires w.current.Some?
  {
    OpeningPieces(w, text) + ConditionsPieces(w.current.value) + ClosingPieces(w.current.value, text)
  }

  /** None of the pieces begins like a conditions line. */
  predicate NoConditions(pieces: seq<string>) {
    forall p :: p in pieces ==> !StartsWith(p, ConditionsPrefix)
  }

  lemma OpeningNoConditions(w: WeatherResponse, text: NumberText)
    requires w.current.Some?
    ensures NoConditions(OpeningPieces(w, text))
  {
    forall p | p in OpeningPieces(w, text) ensures !StartsWith(p, ConditionsPrefix) {
      assert p[0] != 'C' || p[1] != 'o';
    }
  }

  lemma ClosingNoConditions(c: CurrentWeather, text: NumberText)
    ensures NoConditions(ClosingPieces(c, text))
  {
    forall p | p in ClosingPieces(c, text) ensures !StartsWith(p, ConditionsPrefix) {
      assert p[0] != 'C';
    }
  }

  const ConditionsPrefix := "Conditions: "

  function ConditionsLine(code: Int32): string {
    ConditionsPrefix + Description(code as int) + "\n"
  }

  const CurrentTitle := "Current Weather\n" + Rule(15) + "\n\n"

  /** The report of the current weather: its pieces one after the other, opening with
      the title and its rule (CurrentConditions says which conditions line it holds). */
  function CurrentWeatherText(w: WeatherResponse, text: NumberText): (r: string)
    requires w.current.Some?
    ensures r == Concat(CurrentPieces(w, text))
    ensures StartsWith(r, CurrentTitle)
  {
    var pieces := CurrentPieces(w, text);
    var title := pieces[..2];
    assert pieces == title + pieces[2..];
    ConcatAppend(title, pieces[2..]);
    assert title == ["Current Weather\n", Rule(15) + "\n\n"] by {
      assert pieces[0] == "Current Weather\n" && pieces[1] == Rule(15) + "\n\n";
    }
    assert Concat(title) == CurrentTitle by {
      assert title[..1] == ["Current Weather\n"];
      assert title[..1][..0] == [];
      assert Concat(title[..1]) == "Current Weather\n";
    }
    assert (Concat(title) + Concat(pieces[2..]))[..|CurrentTitle|] == CurrentTitle;
    Concat(pieces)
  }

  /** The current report has a conditions line exactly when the weather code is
      known, and then it is the code's description. */
  lemma CurrentConditions(w: WeatherResponse, text: NumberText)
    requires w.current.Some?
    ensures w.current.value.weatherCode.Some? ==> ConditionsLine(w.current.value.weatherCode.value) in CurrentPieces(w, text)
    ensures (exists p :: p in CurrentPieces(w, text) && StartsWith(p, ConditionsPrefix)) <==> w.current.value.weatherCode.Some?
  {
    var c := w.current.value;
    var opening, closing := OpeningPieces(w, text), ClosingPieces(c, text);
    if c.weatherCode.Some? {
      var line := ConditionsLine(c.weatherCode.value);
      assert CurrentPieces(w, text) == opening + [line] + closing;
      assert line in CurrentPieces(w, text);
      assert StartsWith(line, ConditionsPrefix) by {
        assert line[..|ConditionsPrefix|] == ConditionsPrefix;
      }
    } else {
      assert CurrentPieces(w, text) == opening + [] + closing;
      OpeningNoConditions(w, text);
      ClosingNoConditions(c, text);
      forall p | p in CurrentPieces(w, text) ensures !StartsWith(p, ConditionsPrefix) {
        assert p in opening || p in closing;
      }
    }
  }

  /** The text of the current report: the opening lines (title, location,
      temperature), the conditions line exactly when the weather code is known, then
      the closing lines (humidity, precipitation, wind). */
  lemma CurrentReportText(w: WeatherResponse, text: NumberText)
    requires w.current.Some?
    ensures w.current.value.weatherCode.Some? ==>
              CurrentWeatherText(w, text) == Concat(OpeningPieces(w, text)) + ConditionsLine(w.current.value.weatherCode.value)
                                             + Concat(ClosingPieces(w.current.value, text))
    ensures w.current.value.weatherCode.None? ==>
              CurrentWeatherText(w, text) == Concat(OpeningPieces(w, text)) + Concat(ClosingPieces(w.current.value, text))
  {
    var c := w.current.value;
    var opening, closing := OpeningPieces(w, text), ClosingPieces(c, text);
    if c.weatherCode.Some? {
      var line := ConditionsLine(c.weatherCode.value);
      assert CurrentPieces(w, text) == (opening + [line]) + closing;
      ConcatAppend(opening + [line], closing);
      ConcatAppend(opening, [line]);
      assert Concat([line]) == line by { assert [line][..0] == opening[..0]; }
    } else {
      assert CurrentPieces(w, text) == opening + closing;
      ConcatAppend(opening, closing);
    }
  }

  /** The conditions line of forecast day i: nothing when the list is missing or
      short, or (as the day then throws) when the code there is null. */
  function DayConditions(daily: DailyWeather, i: nat): string {
    if daily.weatherCode.Some? && i < |daily.weatherCode.value| && daily.weatherCode.value[i].Some? then
      "  " + ConditionsPrefix + Description(daily.weatherCode.value[i].value as int) + "\n"
    else ""
  }

  /** The temperature range of forecast day i; each list is read at i only when it
      is long enough, as are those of the two lines after it. */
  function TemperatureLine(daily: DailyWeather, i: nat, text: NumberText): string {
    if daily.temperatureMin.Some? && daily.temperatureMax.Some?
       && i < |daily.temperatureMin.value| && i < |daily.temperatureMax.value| then
      "  Temperature: " + text.fixed(daily.temperatureMin.value[i], 1) + Degrees + "C to "
      + text.fixed(daily.temperatureMax.value[i], 1) + Degrees + "C\n"
    else ""
  }

  function PrecipitationLine(daily: DailyWeather, i: nat, text: NumberText): string {
    if daily.precipitationSum.Some? && i < |daily.precipitationSum.value| then
      "  Precipitation: " + text.fixed(daily.precipitationSum.value[i], 1) + " mm\n"
    else ""
  }

  function WindLine(daily: DailyWeather, i: nat, text: NumberText): string {
    if daily.windSpeedMax.Some? && i < |daily.windSpeedMax.value| then
      "  Max Wind: " + text.fixed(daily.windSpeedMax.value[i], 1) + " km/h\n"
    else ""
  }

  /** The block of forecast day i: its date, conditions and lines, then a blank line. */
  function DayBlock(daily: DailyWeather, i: nat, text: NumberText): string
    requires daily.time.Some? && i < |daily.time.value|
  {
    Str(daily.time.value[i]) + ":\n" + DayConditions(daily, i) + TemperatureLine(daily, i, text)
    + PrecipitationLine(daily, i, text) + WindLine(daily, i, text) + "\n"
  }

  /** A null day code in range: unboxing it throws. */
  predicate NullCodeAt(daily: DailyWeather, i: nat) {
    daily.weatherCode.Some? && i < |daily.weatherCode.value| && daily.weatherCode.value[i].None?
  }

  function DayCount(daily: DailyWeather): nat {
    if daily.time.Some? then |daily.time.value| else 0
  }

  /** The first of the first n days whose weather code is null, if any. */
  function FirstNullCode(daily: DailyWeather, n: nat): Option<nat>
  {
    if n == 0 then None
    else match FirstNullCode(daily, n - 1)
      case Some(i) => Some(i)
      case None => if NullCodeAt(daily, n - 1) then Some(n - 1) else None
  }

  /** The blocks of the days in order. */
  function DayBlocks(daily: DailyWeather, n: nat, text: NumberText): (r: seq<string>)
    requires n <= DayCount(daily)
    ensures |r| == n && forall i :: 0 <= i < n ==> r[i] == DayBlock(daily, i, text)
  {
    if n == 0 then [] else DayBlocks(daily, n - 1, text) + [DayBlock(daily, n - 1, text)]
  }

  function ForecastHeader(w: WeatherResponse, days: nat, text: NumberText): string {
    NatToString(days) + "-Day Weather Forecast\n" + Rule(23) + "\n\n"
    + (if w.latitude.Some? && w.longitude.Some? then
         "Location: " + text.fixed(w.latitude, 4) + ", " + text.fixed(w.longitude, 4) + "\n" else "")
    + "\n"
  }

  /** The report of a forecast: it fails exactly when some day in range has a null
      weather code, and then with the earliest such day; otherwise it is the header
      followed by one block per day. */
  function ForecastText(w: WeatherResponse, text: NumberText): (r: Result<string, Fault>)
    requires w.daily.Some?
    ensures r.Failure? <==> exists i :: 0 <= i < DayCount(w.daily.value) && NullCodeAt(w.daily.value, i)
    ensures r.Failure? ==>
              exists i :: 0 <= i < DayCount(w.daily.value) && NullCodeAt(w.daily.value, i)
                          && (forall j :: 0 <= j < i ==> !NullCodeAt(w.daily.value, j))
                          && r.error == NullWeatherCode(i)
    ensures r.Success? ==>
              r.value == ForecastHeader(w, DayCount(w.daily.value), text)
                         + Concat(DayBlocks(w.daily.value, DayCount(w.daily.value), text))
    ensures r.Success? ==> StartsWith(r.value, ForecastHeader(w, DayCount(w.daily.value), text))
  {
    var daily := w.daily.value;
    FirstNullCodeSpec(daily, DayCount(daily));
    match FirstNullCode(daily, DayCount(daily))
    case Some(i) => Failure(NullWeatherCode(i))
    case None =>
      var header := ForecastHeader(w, DayCount(daily), text);
      var blocks := Concat(DayBlocks(daily, DayCount(daily), text));
      assert (header + blocks)[..|header|] == header;
      Success(header + blocks)
  }

  /** formatForecastResponse: the StringBuilder loop over the days. It has no
      precondition on the lengths of the lists, so none is read out of range. */
  method FormatForecastResponse(w: WeatherResponse, text: NumberText) returns (r: Result<string, Fault>)
    requires w.daily.Some?
    ensures r == ForecastText(w, text)
  {
    var daily := w.daily.value;
    var days := DayCount(daily);
    var blocks := "";
    var i := 0;
    while i < days
      invariant 0 <= i <= days
      invariant FirstNullCode(daily, i) == None
      invariant blocks == Concat(DayBlocks(daily, i, text))
    {
      var block := FormatDay(daily, i, text);
      if block.Failure? {
        FirstNullSticks(daily, i + 1, days);
        return Failure(block.error);
      }
      DayBlocksStep(daily, i, text, blocks);
      blocks := blocks + block.value;
      i := i + 1;
    }
    r := Success(ForecastHeader(w, days, text) + blocks);
  }

  /** The body of formatForecastResponse's loop for day i: the day's block, or the
      fault of unboxing its null weather code. */
  method FormatDay(daily: DailyWeather, i: nat, text: NumberText) returns (r: Result<string, Fault>)
    requires daily.time.Some? && i < |daily.time.value|
    ensures NullCodeAt(daily, i) ==> r == Failure(NullWeatherCode(i))
    ensures !NullCodeAt(daily, i) ==> r == Success(DayBlock(daily, i, text))
  {
    var block := Str(daily.time.value[i]) + ":\n";
    if daily.weatherCode.Some? && i < |daily.weatherCode.value| {
      var code := daily.weatherCode.value[i];
      if code.None? {
        return Failure(NullWeatherCode(i));
      }
      block := block + "  " + ConditionsPrefix + Description(code.value as int) + "\n";
    }
    assert block == Str(daily.time.value[i]) + ":\n" + DayConditions(daily, i);
    var temperature := "";
    if daily.temperatureMin.Some? && daily.temperatureMax.Some?
       && i < |daily.temperatureMin.value| && i < |daily.temperatureMax.value| {
      temperature := "  Temperature: " + text.fixed(daily.temperatureMin.value[i], 1) + Degrees + "C to "
                     + text.fixed(daily.temperatureMax.value[i], 1) + Degrees + "C\n";
    }
    var precipitation := "";
    if daily.precipitationSum.Some? && i < |daily.precipitationSum.value| {
      precipitation := "  Precipitation: " + text.fixed(daily.precipitationSum.value[i], 1) + " mm\n";
    }
    var wind := "";
    if daily.windSpeedMax.Some? && i < |daily.windSpeedMax.value| {
      wind := "  Max Wind: " + text.fixed(daily.windSpeedMax.value[i], 1) + " km/h\n";
    }
    r := Success(block + temperature + precipitation + wind + "\n");
  }

  /** One more day without a null code: one more block. */
  lemma DayBlocksStep(daily: DailyWeather, i: nat, text: NumberText, blocks: string)
    requires i < DayCount(daily)
    requires FirstNullCode(daily, i) == None && !NullCodeAt(daily, i)
    requires blocks == Concat(DayBlocks(daily, i, text))
    ensures FirstNullCode(daily, i + 1) == None
    ensures blocks + DayBlock(daily, i, text) == Concat(DayBlocks(daily, i + 1, text))
  {
    var before, block := DayBlocks(daily, i, text), DayBlock(daily, i, text);
    assert (before + [block])[..i] == before;
  }

  /** Once a day has a null code, the first null code stays that day's. */
  lemma {:induction false} FirstNullSticks(daily: DailyWeather, m: nat, n: nat)
    requires m <= n
    requires FirstNullCode(daily, m).Some?
    ensures FirstNullCode(daily, n) == FirstNullCode(daily, m)
    decreases n - m
  {
    if m < n {
      FirstNullSticks(daily, m, n - 1);
    }
  }

  /** FirstNullCode finds a day with a null code exactly when there is one, and then
      the earliest. */
  lemma {:induction false} FirstNullCodeSpec(daily: DailyWeather, n: nat)
    ensures FirstNullCode(daily, n).None? <==> forall i :: 0 <= i < n ==> !NullCodeAt(daily, i)
    ensures FirstNullCode(daily, n).Some? ==>
              var i := FirstNullCode(daily, n).value;
              i < n && NullCodeAt(daily, i) && forall j :: 0 <= j < i ==> !NullCodeAt(daily, j)
    decreases n
  {
    if n > 0 {
      FirstNullCodeSpec(daily, n - 1);
    }
  }

  /** Every block of a forecast begins with its date and a colon. */
  lemma ForecastDayStartsWithDate(daily: DailyWeather, i: nat, text: NumberText)
    requires daily.time.Some? && i < |daily.time.value|
    ensures StartsWith(DayBlock(daily, i, text), Str(daily.time.value[i]) + ":\n")
  {
    var head := Str(daily.time.value[i]) + ":\n";
    assert DayBlock(daily, i, text)[..|head|] == head;
  }

  // ---------------------------------------------------------------------------
  // executeTool

  /** A successful tool result: one text element of an MCP content list. */
  function ContentResult(text: string): Json {
    JObj([Field("content", JArr([JObj([Field("type", JStr("text")), Field("text", JStr(text))])]))])
  }

  /** A failed tool result, which is still an ordinary JSON-RPC result. */
  function ErrorResult(message: string): Json {
    JObj([Field("error", JStr(message))])
  }

  const UnknownToolPrefix := "Unknown tool: "
  const FailedPrefix := "Tool execution failed: "

  /** The arguments of search_location: the name, then the count (5 by default). */
  function SearchArgs(arguments: Arguments): Result<(Option<string>, Int32), Fault> {
    match StringArg(arguments, "name")
    case Failure(f) => Failure(f)
    case Success(name) =>
      match IntArg(arguments, "count", 5)
      case Failure(f) => Failure(f)
      case Success(count) => Success((name, count))
  }

  /** The coordinates, latitude first. */
  function CoordinateArgs(arguments: Arguments): Result<(real, real), Fault> {
    match NumberArg(arguments, "latitude")
    case Failure(f) => Failure(f)
    case Success(latitude) =>
      match NumberArg(arguments, "longitude")
      case Failure(f) => Failure(f)
      case Success(longitude) => Success((latitude, longitude))
  }

  /** The arguments of get_weather_forecast: the coordinates, then the days (7 by default). */
  function ForecastArgs(arguments: Arguments): Result<(real, real, Int32), Fault> {
    match CoordinateArgs(arguments)
    case Failure(f) => Failure(f)
    case Success(coordinates) =>
      match IntArg(arguments, "days", 7)
      case Failure(f) => Failure(f)
      case Success(days) => Success((coordinates.0, coordinates.1, days))
  }

  function NoDataText(what: string, latitude: real, longitude: real, text: NumberText): string {
    "No " + what + " data found for coordinates: " + text.plain(latitude) + ", " + text.plain(longitude)
  }

  /** search_location: the name is read first, then the count (5 when absent); what
      the client finds for them comes back as one text content. */
  function SearchLocation(arguments: Arguments, env: Environment): (r: Result<Json, Fault>)
    ensures StringArg(arguments, "name").Failure? ==> r == Failure(StringArg(arguments, "name").error)
    ensures StringArg(arguments, "name").Success? && IntArg(arguments, "count", 5).Failure? ==>
              r == Failure(IntArg(arguments, "count", 5).error)
    ensures StringArg(arguments, "name").Success? && IntArg(arguments, "count", 5).Success? ==>
              r == Success(ContentResult(LocationsText(env.api.searchLocations(StringArg(arguments, "name").value,
                                                                               IntArg(arguments, "count", 5).value),
                                                       env.text)))
  {
    match SearchArgs(arguments)
    case Failure(f) => Failure(f)
    case Success(args) => Success(ContentResult(LocationsText(env.api.searchLocations(args.0, args.1), env.text)))
  }

  /** get_current_weather: the latitude is read first, then the longitude; without
      weather for them the text says so, otherwise it is the current report. */
  function GetCurrentWeather(arguments: Arguments, env: Environment): (r: Result<Json, Fault>)
    ensures NumberArg(arguments, "latitude").Failure? ==> r == Failure(NumberArg(arguments, "latitude").error)
    ensures NumberArg(arguments, "latitude").Success? && NumberArg(arguments, "longitude").Failure? ==>
              r == Failure(NumberArg(arguments, "longitude").error)
    ensures CoordinateArgs(arguments).Success? ==> r.Success?
    ensures CoordinateArgs(arguments).Success? ==>
              var weather := env.api.currentWeather(CoordinateArgs(arguments).value.0, CoordinateArgs(arguments).value.1);
              if weather.None? || weather.value.current.None? then
                r.value == ContentResult(NoDataText("weather", CoordinateArgs(arguments).value.0,
                                                    CoordinateArgs(arguments).value.1, env.text))
              else r.value == ContentResult(CurrentWeatherText(weather.value, env.text))
  {
    match CoordinateArgs(arguments)
    case Failure(f) => Failure(f)
    case Success(args) =>
      var weather := env.api.currentWeather(args.0, args.1);
      if weather.None? || weather.value.current.None? then Success(ContentResult(NoDataText("weather", args.0, args.1, env.text)))
      else Success(ContentResult(CurrentWeatherText(weather.value, env.text)))
  }

  /** get_weather_forecast: the coordinates are read first, then the days (7 when
      absent); without a forecast the text says so, otherwise it is the forecast
      report, whose fault (a null day code) is the call's. */
  function GetWeatherForecast(arguments: Arguments, env: Environment): (r: Result<Json, Fault>)
    ensures CoordinateArgs(arguments).Failure? ==> r == Failure(CoordinateArgs(arguments).error)
    ensures CoordinateArgs(arguments).Success? && IntArg(arguments, "days", 7).Failure? ==>
              r == Failure(IntArg(arguments, "days", 7).error)
    ensures ForecastArgs(arguments).Success? ==>
              var forecast := env.api.forecast(ForecastArgs(arguments).value.0, ForecastArgs(arguments).value.1,
                                               ForecastArgs(arguments).value.2);
              if forecast.None? || forecast.value.daily.None? then
                r == Success(ContentResult(NoDataText("forecast", ForecastArgs(arguments).value.0,
                                                      ForecastArgs(arguments).value.1, env.text)))
              else if ForecastText(forecast.value, env.text).Failure? then
                r == Failure(ForecastText(forecast.value, env.text).error)
              else r == Success(ContentResult(ForecastText(forecast.value, env.text).value))
  {
    match ForecastArgs(arguments)
    case Failure(f) => Failure(f)
    case Success(args) =>
      var weather := env.api.forecast(args.0, args.1, args.2);
      if weather.None? || weather.value.daily.None? then Success(ContentResult(NoDataText("forecast", args.0, args.1, env.text)))
      else match ForecastText(weather.value, env.text)
        case Failure(f) => Failure(f)
        case Success(report) => Success(ContentResult(report))
  }

  /** The names executeTool dispatches on. */
  predicate IsToolName(name: string) {
    name == SearchLocationName || name == CurrentWeatherName || name == ForecastName
  }

  /** The outcome of the tool a known name selects. */
  function ToolOutcome(toolName: string, arguments: Arguments, env: Environment): Result<Json, Fault>
    requires IsToolName(toolName)
  {
    if toolName == SearchLocationName then SearchLocation(arguments, env)
    else if toolName == CurrentWeatherName then GetCurrentWeather(arguments, env)
    else GetWeatherForecast(arguments, env)
  }

  /** executeTool: dispatch by name. It never throws: every call answers with a content
      list or an error member; the error says "Unknown tool" exactly when the name is
      not one of the three, and a tool's exception becomes "Tool execution failed"
      with the exception's message. */
  function ExecuteTool(toolName: string, arguments: Arguments, env: Environment): (r: Json)
    ensures (exists t :: r == ContentResult(t)) || (exists m :: r == ErrorResult(m))
    ensures r == ErrorResult(UnknownToolPrefix + toolName) <==> !IsToolName(toolName)
    ensures IsToolName(toolName) && ToolOutcome(toolName, arguments, env).Failure? ==>
              r == ErrorResult(FailedPrefix + Str(env.message(ToolOutcome(toolName, arguments, env).error)))
    ensures IsToolName(toolName) && ToolOutcome(toolName, arguments, env).Success? ==>
              r == ToolOutcome(toolName, arguments, env).value
  {
    if !IsToolName(toolName) then ErrorResult(UnknownToolPrefix + toolName)
    else match ToolOutcome(toolName, arguments, env)
      case Failure(f) =>
        var message := FailedPrefix + Str(env.message(f));
        assert message[0] != (UnknownToolPrefix + toolName)[0];
        ErrorResult(message)
      case Success(result) =>
        assert result.fields[0].key == "content";
        result
  }

  /** The names executeTool knows are exactly the catalogue's names. */
  lemma DispatchMatchesCatalog(name: string)
    ensures IsToolName(name) <==> exists i :: 0 <= i < |Catalog()| && Catalog()[i].name == name
  {
    if IsToolName(name) {
      if name == SearchLocationName { assert Catalog()[0].name == name; }
      else if name == CurrentWeatherName { assert Catalog()[1].name == name; }
      else { assert Catalog()[2].name == name; }
    }
  }

  /** A missing count searches for five locations and a missing days asks for seven. */
  lemma ArgumentDefaults(fields: seq<Field>)
    ensures Lookup(fields, "count").None? && StringArg(Some(fields), "name").Success? ==>
              SearchArgs(Some(fields)) == Success((StringArg(Some(fields), "name").value, 5))
    ensures Lookup(fields, "days").None? && CoordinateArgs(Some(fields)).Success? ==>
              ForecastArgs(Some(fields)) == Success((CoordinateArgs(Some(fields)).value.0, CoordinateArgs(Some(fields)).value.1, 7))
  {
  }

  /** A weather call without a latitude fails with the exception it throws, before the
      weather client is asked. */
  lemma MissingLatitude(toolName: string, fields: seq<Field>, env: Environment)
    requires toolName == CurrentWeatherName || toolName == ForecastName
    requires Lookup(fields, "latitude").None?
    ensures ExecuteTool(toolName, Some(fields), env) == ErrorResult(FailedPrefix + Str(env.message(MissingNumber("latitude"))))
  {
  }

  /** The text of a tool result reaches the language model unchanged: the chat
      application's formatToolResult reads it back from the content list. */
  lemma ToolTextReachesModel(text: string)
    ensures Orchestration.FormatToolResult(ContentResult(text)) == text
  {
    var item := JObj([Field("type", JStr("text")), Field("text", JStr(text))]);
    assert Orchestration.ContentText(item) == Some(text) by {
      LookupFirst(item.fields, 1, "text");
    }
    assert Orchestration.ContentTexts([item]) == [text] by {
      assert [item][..0] == [];
    }
  }

  /** A tool's error is an ordinary result, so the model receives it as the map's
      text, not as a failed call. */
  lemma ToolErrorReachesModel(message: string)
    ensures Orchestration.FormatToolResult(ErrorResult(message)) == "{error=" + message + "}"
  {
    var fields := [Field("error", JStr(message))];
    assert Lookup(fields, "content").None? by {
      assert "error"[0] != "content"[0];
    }
    var pieces := seq(|fields|, i requires 0 <= i < |fields| => fields[i].key + "=" + ValueOf(fields[i].value));
    assert |pieces| == 1 && pieces[0] == "error=" + message;
  }
}
