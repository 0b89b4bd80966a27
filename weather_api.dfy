/** The weather provider's response, the record the page keeps, and the
    icon URL built from an icon code. */
module WeatherApi {
  import opened Wrappers

  /** One entry of the response's `weather` array. */
  datatype Condition = Condition(description: string, icon: string)
  /** The response's `main` object; only `temp` is read. */
  datatype Reading = Reading(temp: real)
  /** The body of a successful response. */
  datatype Response = Response(name: string, main: Reading, weather: seq<Condition>)

  /** The weather state: city, temperature, condition text and icon code. */
  datatype WeatherRecord = WeatherRecord(city: string, temperature: real, currentCondition: string, currentIcon: string)

  /** How one request to the provider ended: a response with a body, a
      response without one, an error response carrying the provider's
      message, or a failure with no response at all. */
  datatype FetchOutcome =
    | Data(body: Response)
    | NoData
    | ProviderError(message: string)
    | TransportError

  const EmptyRecord := WeatherRecord("", 0.0, "", "")

  /** The record read off a response: every field comes from the same
      response, the condition and icon from the first `weather` entry. */
  function FromResponse(data: Response): (r: WeatherRecord)
    requires |data.weather| > 0
    ensures r.city == data.name && r.temperature == data.main.temp
    ensures r.currentCondition == data.weather[0].description
    ensures r.currentIcon == data.weather[0].icon
  {
    WeatherRecord(data.name, data.main.temp, data.weather[0].description, data.weather[0].icon)
  }

  const IconUrlPrefix := "https://openweathermap.org/img/wn/"
  const IconUrlSuffix := "@4x.png"

  /** The icon code inside an icon URL, if `url` has the icon URL's shape. */
  function IconCodeOf(url: string): Option<string> {
    if |url| >= |IconUrlPrefix| + |IconUrlSuffix|
       && url[..|IconUrlPrefix|] == IconUrlPrefix
       && url[|url| - |IconUrlSuffix|..] == IconUrlSuffix
    then Some(url[|IconUrlPrefix|..|url| - |IconUrlSuffix|])
    else None
  }

  /** The image source for an icon code: the provider's image host with the
      code in the file name, from which the code can be read back. */
  function IconUrl(icon: string): (url: string)
    ensures |url| == |IconUrlPrefix| + |icon| + |IconUrlSuffix|
    ensures IconCodeOf(url) == Some(icon)
  {
    var url := IconUrlPrefix + icon + IconUrlSuffix;
    assert url[..|IconUrlPrefix|] == IconUrlPrefix;
    assert url[|url| - |IconUrlSuffix|..] == IconUrlSuffix;
    assert url[|IconUrlPrefix|..|url| - |IconUrlSuffix|] == icon;
    url
  }

  /** Two different icon codes never give the same image source: a
      corollary of the round trip through `IconCodeOf` in `IconUrl`. */
  lemma IconUrlInjective(a: string, b: string)
    requires IconUrl(a) == IconUrl(b)
    ensures a == b
  {
    assert Some(a) == IconCodeOf(IconUrl(a)) == IconCodeOf(IconUrl(b)) == Some(b);
  }
}
