/**
 * The `OpenWeatherMap` client: its settings record, the three setters, the
 * `getSettings` / `getAllSettings` getters, `buildURL`, and the query string
 * each `getCurrentWeatherBy*` lookup hands to `buildURL`. The client is an
 * immutable value; a setter returns the updated client.
 */
module OpenWeatherMap {
  import opened Wrappers
  import opened NumberText

  const Host: string := "https://api.openweathermap.org/data/"
  const ApiVersion: string := "2.5/"
  /** The prefix of every request URL. */
  const BaseURL: string := Host + ApiVersion

  const DefaultUnits: string := "imperial"
  const DefaultLanguage: string := "en"
  const NotFoundSuffix: string := " is not found!"
  const AppIdParameter: string := "&appid="

  /** The own properties of the settings object. */
  const FieldNames: set<string> := {"apiKey", "units", "language"}

  /** The `TypeQuery` of a request: the path segment after the base URL. */
  datatype Endpoint = Weather | Forecast {
    function Name(): string {
      match this
      case Weather => "weather"
      case Forecast => "forecast"
    }
  }

  /** Units and language are plain strings: their enumerations are not part of this model. */
  datatype Settings = Settings(apiKey: string, units: string, language: string)

  datatype Client = Client(settings: Settings, baseURL: string)

  /** The record passed to the constructor, as a JavaScript object: property name to value. */
  type InitRecord = map<string, string>

  /** The settings object seen as a JavaScript object: exactly its own properties. */
  function Fields(s: Settings): (m: map<string, string>)
    ensures m.Keys == FieldNames
  {
    map["apiKey" := s.apiKey, "units" := s.units, "language" := s.language]
  }

  /**
   * `new OpenWeatherMap(init)`: keeps `apiKey`, `units` and `language`, with
   * the defaults for an absent `units` or `language`, and drops every other key.
   */
  function New(init: InitRecord): (c: Client)
    requires "apiKey" in init
    ensures c.baseURL == BaseURL
    ensures forall k :: k in FieldNames && k in init ==> Fields(c.settings)[k] == init[k]
    ensures "units" !in init ==> c.settings.units == DefaultUnits
    ensures "language" !in init ==> c.settings.language == DefaultLanguage
  {
    var units := if "units" in init then init["units"] else DefaultUnits;
    var language := if "language" in init then init["language"] else DefaultLanguage;
    Client(Settings(init["apiKey"], units, language), BaseURL)
  }

  function SetApiKey(c: Client, apiKey: string): (r: Client)
    ensures Fields(r.settings) == Fields(c.settings)["apiKey" := apiKey]
    ensures r.baseURL == c.baseURL
  {
    c.(settings := c.settings.(apiKey := apiKey))
  }

  function SetUnits(c: Client, units: string): (r: Client)
    ensures Fields(r.settings) == Fields(c.settings)["units" := units]
    ensures r.baseURL == c.baseURL
  {
    c.(settings := c.settings.(units := units))
  }

  function SetLanguage(c: Client, language: string): (r: Client)
    ensures Fields(r.settings) == Fields(c.settings)["language" := language]
    ensures r.baseURL == c.baseURL
  {
    c.(settings := c.settings.(language := language))
  }

  /**
   * What `getSettings` returns: a string (a stored value or the not-found
   * message), the whole settings record, or, in the source as written, a
   * member inherited from `Object.prototype`.
   */
  datatype Setting = Text(text: string) | Record(record: Settings) | Inherited(name: string)

  /** JavaScript truthiness of a `string | undefined`. */
  predicate Truthy(v: Option<string>) {
    v.Some? && v.value != ""
  }

  function NotFound(key: string): string {
    key + NotFoundSuffix
  }

  /** `settings[key]` restricted to the object's own properties. */
  function OwnProperty(s: Settings, key: string): Option<string> {
    if key in Fields(s) then Some(Fields(s)[key]) else None
  }

  function GetAllSettings(c: Client): (r: Settings)
    ensures Fields(r) == Fields(c.settings)
  {
    c.settings
  }

  /**
   * `getSettings(key?)`: the stored value of a non-empty key when that value
   * is non-empty, the not-found message for any other non-empty key, and the
   * whole record when the key is absent or empty.
   */
  function GetSettings(c: Client, key: Option<string>): (r: Setting)
    ensures !Truthy(key) ==> r == Record(GetAllSettings(c))
    ensures Truthy(key) && key.value in FieldNames && Fields(c.settings)[key.value] != ""
            ==> r == Text(Fields(c.settings)[key.value])
    ensures Truthy(key) && (key.value !in FieldNames || Fields(c.settings)[key.value] == "")
            ==> r == Text(key.value + NotFoundSuffix)
  {
    if Truthy(key) && Truthy(OwnProperty(c.settings, key.value)) then
      Text(OwnProperty(c.settings, key.value).value)
    else if Truthy(key) then
      Text(NotFound(key.value))
    else
      Record(c.settings)
  }

  /** The properties every plain object inherits from `Object.prototype`. */
  const ObjectPrototypeMembers: set<string> := {
    "constructor", "hasOwnProperty", "isPrototypeOf", "propertyIsEnumerable",
    "toLocaleString", "toString", "valueOf", "__defineGetter__",
    "__defineSetter__", "__lookupGetter__", "__lookupSetter__", "__proto__"
  }

  /** A property read on the settings object, inherited members included. */
  datatype Property = Own(value: string) | InheritedMember(name: string) | Undefined {
    /** Strings are truthy when non-empty; functions and objects always are. */
    predicate Truthy() {
      match this
      case Own(v) => v != ""
      case InheritedMember(_) => true
      case Undefined => false
    }
  }

  function ReadProperty(s: Settings, key: string): Property {
    if key in Fields(s) then Own(Fields(s)[key])
    else if key in ObjectPrototypeMembers then InheritedMember(key)
    else Undefined
  }

  /** `getSettings` as written: `settings[key]` also finds inherited members. */
  function GetSettingsAsWritten(c: Client, key: Option<string>): (r: Setting)
    ensures Truthy(key) && key.value in ObjectPrototypeMembers ==> r == Inherited(key.value)
    ensures !(Truthy(key) && key.value in ObjectPrototypeMembers) ==> r == GetSettings(c, key)
  {
    if Truthy(key) then
      var property := ReadProperty(c.settings, key.value);
      if property.Truthy() then
        match property
        case Own(v) => Text(v)
        case InheritedMember(name) => Inherited(name)
      else
        Text(NotFound(key.value))
    else
      Record(c.settings)
  }

  /** The text before the query in every URL built for `endpoint`. */
  function URLPrefix(c: Client, endpoint: Endpoint): string {
    c.baseURL + endpoint.Name() + "?"
  }

  /** The text after the query in every URL built with the current key. */
  function URLSuffix(c: Client): string {
    AppIdParameter + c.settings.apiKey
  }

  /** `buildURL(queryType, query)`: neither units nor language take part. */
  function BuildURL(c: Client, endpoint: Endpoint, query: string): (url: string)
    ensures |url| == |URLPrefix(c, endpoint)| + |query| + |URLSuffix(c)|
    ensures url[..|URLPrefix(c, endpoint)|] == URLPrefix(c, endpoint)
    ensures url[|url| - |URLSuffix(c)|..] == URLSuffix(c)
    ensures url[|URLPrefix(c, endpoint)|..|url| - |URLSuffix(c)|] == query
  {
    var p := URLPrefix(c, endpoint);
    var s := URLSuffix(c);
    var url := p + query + s;
    assert url[..|p|] == p;
    assert url[|url| - |s|..] == s;
    assert url[|p|..|url| - |s|] == query;
    url
  }

  /** The query of a URL built for `endpoint` with the client's current key, if it is one. */
  function QueryOf(c: Client, endpoint: Endpoint, url: string): Option<string> {
    var p := URLPrefix(c, endpoint);
    var s := URLSuffix(c);
    if |url| >= |p| + |s| && url[..|p|] == p && url[|url| - |s|..] == s then
      Some(url[|p|..|url| - |s|])
    else
      None
  }

  /**
   * The locator of one current-weather lookup. Coordinates are taken already
   * rendered as text; the country code of a zipcode lookup is taken already
   * resolved and lower-cased.
   */
  datatype Locator =
    | CityName(name: string)
    | CityId(id: SafeInteger)
    | GeoCoordinates(latitude: string, longitude: string)
    | Zipcode(zip: SafeInteger, countryCode: string)

  /**
   * The zipcode query: the rendered zipcode, then a comma and the country code
   * when that code is non-empty.
   */
  function ZipQuery(zip: SafeInteger, code: string): (q: string)
    ensures |q| > 4 && q[..4] == "zip=" && (',' in q <==> code != "")
    ensures code == "" ==> ParseNumber(q[4..]) == Some(zip as int)
    ensures code != "" ==>
      && |q| > 5 + |code|
      && q[|q| - |code| - 1..] == "," + code
      && ParseNumber(q[4..|q| - |code| - 1]) == Some(zip as int)
  {
    NumberRoundTrip(zip);
    var n := NumberToString(zip);
    var q := "zip=" + n + (if code != "" then "," + code else "");
    assert code != "" ==> q[4 + |n|] == ',';
    assert code != "" ==> q[4..|q| - |code| - 1] == n && q[|q| - |code| - 1..] == "," + code;
    assert code == "" ==> q[4..] == n;
    q
  }

  /** The query string each `getCurrentWeatherBy*` method builds. */
  function QueryString(l: Locator): (q: string)
    ensures l.CityName? ==> q == "q=" + l.name
    ensures l.CityId? ==> |q| > 3 && q[..3] == "id=" && ParseNumber(q[3..]) == Some(l.id as int)
    ensures l.GeoCoordinates? ==> q == "lat=" + l.latitude + "&lon=" + l.longitude
    ensures l.Zipcode? ==> q == ZipQuery(l.zip, l.countryCode)
  {
    match l
    case CityName(name) => "q=" + name
    case CityId(id) =>
      NumberRoundTrip(id);
      var q := "id=" + NumberToString(id);
      assert q[3..] == NumberToString(id);
      q
    case GeoCoordinates(lat, lon) => "lat=" + lat + "&lon=" + lon
    case Zipcode(zip, code) => ZipQuery(zip, code)
  }

  /** Every current-weather lookup requests the `weather` endpoint. */
  function CurrentWeatherURL(c: Client, l: Locator): (url: string)
    ensures QueryOf(c, Weather, url) == Some(QueryString(l))
  {
    var url := BuildURL(c, Weather, QueryString(l));
    assert |url| >= |URLPrefix(c, Weather)| + |URLSuffix(c)|;
    url
  }
}
