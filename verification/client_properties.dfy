/**
 * Properties of the client that relate several of its operations: the
 * constructor and the getters, the setters and the getters, the setters and
 * the URL builder, and the URL builder and its reader.
 */
module ClientProperties {
  import opened Wrappers
  import opened NumberText
  import opened OpenWeatherMap
  import opened QueryParsing

  /** Two init records that agree on the three settings build the same client: other keys are dropped. */
  lemma NewDropsExtraKeys(a: InitRecord, b: InitRecord)
    requires "apiKey" in a && "apiKey" in b
    requires forall k :: k in FieldNames ==> (k in a <==> k in b)
    requires forall k :: k in FieldNames && k in a ==> a[k] == b[k]
    ensures New(a) == New(b)
  {
  }

  /** Right after construction, each setting reads back as given or as its default. */
  lemma GetSettingsAfterNew(init: InitRecord, key: string)
    requires "apiKey" in init && key in FieldNames
    ensures var stored := if key in init then init[key] else if key == "units" then DefaultUnits else DefaultLanguage;
            GetSettings(New(init), Some(key)) == Text(if stored != "" then stored else key + NotFoundSuffix)
  {
  }

  /** `getSettings()` and `getSettings("")` both return what `getAllSettings()` returns. */
  lemma GetSettingsWithoutKeyIsAll(c: Client)
    ensures GetSettings(c, None) == Record(GetAllSettings(c))
    ensures GetSettings(c, Some("")) == Record(GetAllSettings(c))
  {
  }

  /**
   * A setting whose stored value is literally the not-found message reads the
   * same as one that was cleared: the string result cannot tell them apart.
   */
  lemma NotFoundIsAmbiguous(c: Client)
    ensures GetSettings(SetUnits(c, NotFound("units")), Some("units"))
         == GetSettings(SetUnits(c, ""), Some("units"))
  {
  }

  /** `setApiKey` followed by a lookup: `apiKey` reads the new key, every other key reads as before. */
  lemma GetSettingsAfterSetApiKey(c: Client, apiKey: string, key: string)
    requires key != ""
    ensures key == "apiKey" ==>
      GetSettings(SetApiKey(c, apiKey), Some(key)) == Text(if apiKey != "" then apiKey else NotFound(key))
    ensures key != "apiKey" ==>
      GetSettings(SetApiKey(c, apiKey), Some(key)) == GetSettings(c, Some(key))
  {
  }

  /** `buildURL` and its reader are inverse: a URL reads back as `q` exactly when it is built from `q`. */
  lemma BuildURLReadsBack(c: Client, endpoint: Endpoint, query: string, url: string)
    ensures QueryOf(c, endpoint, url) == Some(query) <==> BuildURL(c, endpoint, query) == url
  {
  }

  /** Distinct queries give distinct URLs for the same client and endpoint. */
  lemma BuildURLInjective(c: Client, endpoint: Endpoint, q1: string, q2: string)
    requires BuildURL(c, endpoint, q1) == BuildURL(c, endpoint, q2)
    ensures q1 == q2
  {
  }

  /** The URL depends on the settings only through the API key: units and language never reach it. */
  lemma BuildURLIgnoresUnitsAndLanguage(c: Client, units: string, language: string, endpoint: Endpoint, query: string)
    ensures BuildURL(SetLanguage(SetUnits(c, units), language), endpoint, query) == BuildURL(c, endpoint, query)
  {
  }

  /** After `setApiKey(k)`, every URL ends with `&appid=` followed by `k`. */
  lemma BuildURLEndsWithApiKey(c: Client, apiKey: string, endpoint: Endpoint, query: string)
    ensures var url := BuildURL(SetApiKey(c, apiKey), endpoint, query);
            |url| >= |AppIdParameter + apiKey| && url[|url| - |AppIdParameter + apiKey|..] == AppIdParameter + apiKey
  {
  }

  /** The request URL of a lookup determines the lookup's locator, and the other way round. */
  lemma CurrentWeatherURLInjective(c: Client, l1: Locator, l2: Locator)
    requires Readable(l1) && Readable(l2)
    requires CurrentWeatherURL(c, l1) == CurrentWeatherURL(c, l2)
    ensures l1 == l2
  {
    BuildURLInjective(c, Weather, QueryString(l1), QueryString(l2));
    QueryRoundTrip(l1);
    QueryRoundTrip(l2);
  }

  /**
   * `settings[key]` as written also finds the members every object inherits,
   * so `getSettings("constructor")` returns a function where the not-found
   * message was intended; the corrected lookup returns the message.
   */
  lemma InheritedKeyFinding(c: Client)
    ensures GetSettingsAsWritten(c, Some("constructor")) == Inherited("constructor")
    ensures GetSettings(c, Some("constructor")) == Text("constructor is not found!")
  {
    assert "constructor" in ObjectPrototypeMembers;
    assert "constructor" !in FieldNames;
  }

  /** Outside the inherited member names the two lookups agree. */
  lemma AsWrittenAgreesElsewhere(c: Client, key: Option<string>)
    requires key.Some? ==> key.value !in ObjectPrototypeMembers
    ensures GetSettingsAsWritten(c, key) == GetSettings(c, key)
  {
  }

  /** The URL is the base URL, the endpoint, `?`, the query, `&appid=` and the API key, in that order. */
  lemma BuildURLShape(c: Client, endpoint: Endpoint, query: string)
    ensures BuildURL(c, endpoint, query) == c.baseURL + endpoint.Name() + "?" + query + "&appid=" + c.settings.apiKey
  {
  }

  /** A client built from `{apiKey: "K1"}` holds the defaults for units and language. */
  lemma ExampleSettings()
    ensures New(map["apiKey" := "K1"]) == Client(Settings("K1", "imperial", "en"), BaseURL)
    ensures GetSettings(New(map["apiKey" := "K1"]), None) == Record(Settings("K1", "imperial", "en"))
  {
  }

  lemma ExampleCityIdQuery()
    ensures QueryString(CityId(300)) == "id=300"
  {
    assert NatToDecimal(3) == "3";
    assert NatToDecimal(30) == "30";
  }

  lemma RenderExampleZipcode()
    ensures NumberToString(78754) == "78754"
  {
    assert NatToDecimal(7) == "7";
    assert NatToDecimal(78) == "78";
    assert NatToDecimal(787) == "787";
    assert NatToDecimal(7875) == "7875";
  }

  lemma ExampleZipcodeQuery()
    ensures QueryString(Zipcode(78754, "us")) == "zip=78754,us"
    ensures QueryString(Zipcode(78754, "")) == "zip=78754"
  {
    RenderExampleZipcode();
  }

  /** `getCurrentWeatherByCityId(300)` on a client built from `{apiKey: "K1"}`. */
  lemma ExampleCityIdRequest()
    ensures CurrentWeatherURL(New(map["apiKey" := "K1"]), CityId(300))
         == BaseURL + "weather" + "?" + "id=300" + "&appid=" + "K1"
  {
    ExampleCityIdQuery();
    ExampleSettings();
    BuildURLShape(New(map["apiKey" := "K1"]), Weather, "id=300");
  }

  /** `getCurrentWeatherByZipcode(78754, country)` once the country resolves to `us`. */
  lemma ExampleZipcodeRequest()
    ensures CurrentWeatherURL(New(map["apiKey" := "K1"]), Zipcode(78754, "us"))
         == BaseURL + "weather" + "?" + "zip=78754,us" + "&appid=" + "K1"
  {
    ExampleZipcodeQuery();
    ExampleSettings();
    BuildURLShape(New(map["apiKey" := "K1"]), Weather, "zip=78754,us");
  }

  /** The base URL is the host followed by the API version. */
  lemma BaseURLValue()
    ensures BaseURL == "https://api.openweathermap.org/data/2.5/"
  {
  }
}
