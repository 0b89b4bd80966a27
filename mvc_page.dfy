/** The class-based variant of the page (mvc-main.js): a `Weather` model
    whose setters overwrite its fields in place, a view holding the DOM
    targets, and a controller wiring input events to both.

    Its quirks are kept as written: `setCurrentConditions` writes a field
    `currentConditions` that nothing reads, and `getCurrentConditions`
    returns the icon code, so the conditions element shows the icon code. */
module MvcPage {
  import opened Wrappers
  import opened Dom
  import opened ZipCode
  import opened WeatherApi

  /** All the fields of a `Weather` object; `currentConditions` is `None`
      while the property is still undefined. */
  datatype WeatherFields = WeatherFields(
    city: string,
    temperature: real,
    currentCondition: string,
    currentIcon: string,
    currentConditions: Option<string>)

  /** The model: only the data. */
  class Weather {
    var city: string
    var temperature: real
    var currentCondition: string
    var currentIcon: string
    var currentConditions: Option<string>

    function Fields(): WeatherFields
      reads this
    {
      WeatherFields(city, temperature, currentCondition, currentIcon, currentConditions)
    }

    /** The four fields that `setWeather` writes, as one record. */
    function Record(): WeatherRecord
      reads this
    {
      WeatherRecord(city, temperature, currentCondition, currentIcon)
    }

    constructor ()
      ensures Fields() == WeatherFields("", 0.0, "", "", None)
    {
      city := "";
      temperature := 0.0;
      currentCondition := "";
      currentIcon := "";
      currentConditions := None;
    }

    /** Copies exactly the four record fields from `x`. */
    method SetWeather(x: WeatherRecord)
      modifies this
      ensures Record() == x
      ensures currentConditions == old(currentConditions)
    {
      city := x.city;
      temperature := x.temperature;
      currentCondition := x.currentCondition;
      currentIcon := x.currentIcon;
    }

    method SetCity(x: string)
      modifies this
      ensures GetCity() == x
      ensures Fields() == old(Fields()).(city := x)
    {
      city := x;
    }

    function GetCity(): (c: string)
      reads this
      ensures c == Fields().city
    {
      city
    }

    method SetTemperture(x: real)
      modifies this
      ensures GetTemperture() == x
      ensures Fields() == old(Fields()).(temperature := x)
    {
      temperature := x;
    }

    function GetTemperture(): (t: real)
      reads this
      ensures t == Fields().temperature
    {
      temperature
    }

    /** Writes `currentConditions`, a field of its own: `currentCondition`,
        which `setWeather` fills, stays as it was. */
    method SetCurrentConditions(x: string)
      modifies this
      ensures currentConditions == Some(x) && currentCondition == old(currentCondition)
      ensures Fields() == old(Fields()).(currentConditions := Some(x))
    {
      currentConditions := Some(x);
    }

    /** Returns the icon code, not the condition. */
    function GetCurrentConditions(): (c: string)
      reads this
      ensures c == Fields().currentIcon
    {
      currentIcon
    }

    method SetCurrentIcon(x: string)
      modifies this
      ensures GetCurrentIcon() == x
      ensures Fields() == old(Fields()).(currentIcon := x)
    {
      currentIcon := x;
    }

    function GetCurrentIcon(): (i: string)
      reads this
      ensures i == Fields().currentIcon
    {
      currentIcon
    }
  }

  /** The view: the DOM targets the page writes. */
  class WeatherView {
    var cityText: Text
    var conditionsText: Text
    var temperatureText: Text
    var iconSrc: string

    /** The source only looks up elements that already exist in the page's
        markup; that they start empty is an assumption of the model, and no
        contract depends on it. */
    constructor ()
      ensures cityText == conditionsText == temperatureText == Str("") && iconSrc == ""
    {
      cityText := Str("");
      conditionsText := Str("");
      temperatureText := Str("");
      iconSrc := "";
    }

    /** Writes the model's city, its icon code (through the conditions
        getter) and its temperature to the three text targets, and the icon
        URL to the image. */
    method DisplayWeather(model: Weather)
      modifies this
      ensures cityText == Str(model.GetCity())
      ensures conditionsText == Str(model.GetCurrentConditions()) == Str(model.currentIcon)
      ensures temperatureText == Number(model.temperature)
      ensures iconSrc == IconUrl(model.currentIcon)
    {
      cityText := Str(model.GetCity());
      conditionsText := Str(model.GetCurrentConditions());
      temperatureText := Number(model.GetTemperture());
      iconSrc := IconUrlPrefix + model.GetCurrentIcon() + IconUrlSuffix;
    }
  }

  /** The controller: validates the field value and, for a valid zip, stores
      the response in the model and displays it. */
  class WeatherController {
    const m: Weather
    const v: WeatherView

    constructor (model: Weather, view: WeatherView)
      ensures m == model && v == view
    {
      m := model;
      v := view;
    }

    /** Same test as the free-function page. */
    function ValidateZipCode(value: string, numeric: string -> bool): (ok: bool)
      ensures ok ==> |value| == 5
      ensures DigitsAreNumeric(numeric) && |value| == 5 && AllDigits(value) ==> ok
    {
      ZipCode.ValidateZipCode(value, numeric)
    }

    /** The request's result as the handler sees it: the body of a response
        that has one; every failure is caught (and logged) and yields
        `undefined`. */
    method GetWeatherByZipcode(zip: string, outcome: FetchOutcome) returns (data: Option<Response>)
      ensures data.Some? <==> outcome.Data?
      ensures outcome.Data? ==> data.value == outcome.body
    {
      if outcome.Data? {
        data := Some(outcome.body);
      } else {
        data := None;
      }
    }

    /** `handleZipInputChange` for the field value `value`. An invalid zip
        changes nothing. A valid zip with a response carrying a `weather`
        entry sets the model's four record fields from it and displays them.
        With no data, or no `weather` entry, the handler throws while
        building the record (`fulfilled` is false) and nothing changes. */
    method HandleZipInputChange(value: string, numeric: string -> bool, outcome: FetchOutcome)
      returns (fulfilled: bool)
      modifies m, v
      ensures !ValidateZipCode(value, numeric) ==> fulfilled && unchanged(m, v)
      ensures ValidateZipCode(value, numeric) ==>
        (fulfilled <==> outcome.Data? && |outcome.body.weather| > 0)
      ensures ValidateZipCode(value, numeric) && !fulfilled ==> unchanged(m, v)
      ensures fulfilled && ValidateZipCode(value, numeric) ==>
        && m.Record() == FromResponse(outcome.body)
        && m.currentConditions == old(m.currentConditions)
        && v.cityText == Str(outcome.body.name)
        && v.conditionsText == Str(outcome.body.weather[0].icon)
        && v.temperatureText == Number(outcome.body.main.temp)
        && v.iconSrc == IconUrl(outcome.body.weather[0].icon)
    {
      var validZip := ValidateZipCode(value, numeric);
      if !validZip {
        return true;
      }
      var data := GetWeatherByZipcode(value, outcome);
      if data.None? || |data.value.weather| == 0 {
        return false;
      }
      var d := data.value;
      m.SetWeather(WeatherRecord(d.name, d.main.temp, d.weather[0].description, d.weather[0].icon));
      v.DisplayWeather(m);
      fulfilled := true;
    }
  }
}
