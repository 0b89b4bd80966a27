/** The free-function page of main.js: three module-level state records and
    the DOM targets they are projected onto. `weatherData` is always replaced
    wholesale; `page` is replaced in `setPage` but has `errorVisible` written
    in place; `userData.zip` is written in place. No other code holds these
    objects, so each is modelled as a value held in a field. */
module MainPage {
  import opened Wrappers
  import opened Dom
  import opened ZipCode
  import opened WeatherApi

  datatype UserData = UserData(zip: string)

  /** The `page` record: whether the error and the weather content are shown. */
  datatype PageFlags = PageFlags(errorVisible: bool, contentVisible: bool)

  /** The DOM targets the page writes: the three text elements, the icon's
      `src`, the weather container's opacity, the body's background colour
      (`None` when `undefined` was assigned or nothing yet) and the error
      element's text and `display` (true for `block`, false for `none`). */
  datatype View = View(
    cityText: Text,
    conditionText: Text,
    temperatureText: Text,
    iconSrc: string,
    opacity: Opacity,
    background: Option<string>,
    errorText: string,
    errorShown: bool)

  /** The whole state of the page at one moment. */
  datatype Snapshot = Snapshot(weatherData: WeatherRecord, userData: UserData, page: PageFlags, view: View)

  /** One input event: the value of the zip field, and how the request it
      triggers (if any) ends. */
  datatype Input = Input(value: string, outcome: FetchOutcome)

  /** How `getWeatherByZipcode` ends: it returns the response data (or
      `undefined`), or it throws from inside its own `catch`. */
  datatype Completion = Returned(data: Option<Response>) | Threw

  const RetrySuffix := ", Please Try Again."

  /** The state the page starts in once the DOM has been built. */
  const InitialState := Snapshot(
    EmptyRecord,
    UserData(""),
    PageFlags(false, false),
    View(Str(""), Str(""), Str(""), "", Unset, None, "", false))

  /** The colour table: only five conditions have an entry. */
  const BackgroundColors: map<string, string> := map[
    "overcast clouds" := "gray",
    "rain" := "darkblue",
    "clear sky" := "lightblue",
    "tornado" := "rainbow",
    "snow" := "white"]

  /** The background colour looked up for a condition; `None` (JavaScript's
      `undefined`) for any condition outside the table. */
  function BackgroundColor(condition: string): (color: Option<string>)
    ensures color.Some? <==> condition in {"overcast clouds", "rain", "clear sky", "tornado", "snow"}
    ensures condition == "overcast clouds" ==> color == Some("gray")
    ensures condition == "rain" ==> color == Some("darkblue")
    ensures condition == "clear sky" ==> color == Some("lightblue")
    ensures condition == "tornado" ==> color == Some("rainbow")
    ensures condition == "snow" ==> color == Some("white")
  {
    if condition in BackgroundColors then Some(BackgroundColors[condition]) else None
  }

  /** The text shown after a failed request: the provider's message followed
      by the retry prompt. */
  function ErrorText(message: string): (text: string)
    ensures |text| == |message| + |RetrySuffix|
    ensures text[..|message|] == message && text[|message|..] == RetrySuffix
  {
    message + RetrySuffix
  }

  /** The targets show `record` in full. */
  ghost predicate Shows(view: View, record: WeatherRecord) {
    && view.cityText == Str(record.city)
    && view.conditionText == Str(record.currentCondition)
    && view.temperatureText == Number(record.temperature)
    && view.iconSrc == IconUrl(record.currentIcon)
    && view.background == BackgroundColor(record.currentCondition)
  }

  /** What `setPage(show)` does to the DOM targets: showing writes the whole
      record and makes the container opaque; hiding only makes it
      transparent and leaves every other target as it was. */
  function Render(view: View, record: WeatherRecord, show: bool): (v: View)
    ensures show ==> Shows(v, record) && v.opacity == Level(1)
    ensures show ==> v.errorText == view.errorText && v.errorShown == view.errorShown
    ensures !show ==> v.opacity == Level(0)
    ensures !show ==> v == view.(opacity := v.opacity)
  {
    if show then
      view.(background := BackgroundColor(record.currentCondition),
            iconSrc := IconUrl(record.currentIcon),
            cityText := Str(record.city),
            conditionText := Str(record.currentCondition),
            temperatureText := Number(record.temperature),
            opacity := Level(1))
    else
      view.(opacity := Level(0))
  }

  /** The state after `setPage(show)`: `contentVisible` becomes `show`, the
      error flag and every record stay, and the targets are rendered. */
  function SetPageSpec(s: Snapshot, show: bool): (t: Snapshot)
    ensures t.page == PageFlags(s.page.errorVisible, show)
    ensures t.weatherData == s.weatherData && t.userData == s.userData
    ensures t.view == Render(s.view, s.weatherData, show)
  {
    s.(page := s.page.(contentVisible := show), view := Render(s.view, s.weatherData, show))
  }

  /** What `getWeatherByZipcode` does around the request: it first clears the
      error flag and hides the error element; an error response then shows
      its message; a failure without a response throws inside the `catch`
      (reading `err.response.data`) before anything is shown. */
  function Fetch(s: Snapshot, outcome: FetchOutcome): (result: (Snapshot, Completion))
    ensures result.0.weatherData == s.weatherData && result.0.userData == s.userData
    ensures result.0.page == s.page.(errorVisible := false)
    ensures result.0.view.errorShown <==> outcome.ProviderError?
    ensures outcome.ProviderError? ==> result.0.view.errorText == ErrorText(outcome.message)
    ensures !outcome.ProviderError? ==> result.0.view == s.view.(errorShown := false)
    ensures result.0.view.(errorText := s.view.errorText, errorShown := s.view.errorShown) == s.view
    ensures result.1 == Threw <==> outcome.TransportError?
    ensures result.1.Returned? ==> (result.1.data.Some? <==> outcome.Data?)
    ensures outcome.Data? ==> result.1 == Returned(Some(outcome.body))
  {
    var cleared := s.(page := s.page.(errorVisible := false), view := s.view.(errorShown := false));
    match outcome
    case Data(body) => (cleared, Returned(Some(body)))
    case NoData => (cleared, Returned(None))
    case ProviderError(message) =>
      (cleared.(view := cleared.view.(errorText := ErrorText(message), errorShown := true)), Returned(None))
    case TransportError => (cleared, Threw)
  }

  /** An input whose request yields a record: a valid zip whose response has
      a body with at least one `weather` entry. */
  predicate Usable(numeric: string -> bool, input: Input) {
    ValidateZipCode(input.value, numeric) && input.outcome.Data? && |input.outcome.body.weather| > 0
  }

  /** Whether `handleZipInputChange` rejects instead of completing: a valid
      zip whose request fails without a response, or whose response has an
      empty `weather` array (`data.weather[0]` is undefined). */
  predicate Rejects(numeric: string -> bool, input: Input) {
    ValidateZipCode(input.value, numeric)
    && (input.outcome.TransportError? || (input.outcome.Data? && |input.outcome.body.weather| == 0))
  }

  /** The state after `handleZipInputChange` handles one input. An invalid
      zip hides the content and keeps the zip and the record; a valid zip
      is stored and clears the error flag; a usable response replaces the
      record and shows it; any other outcome keeps the record and leaves the
      content as visible or hidden as it was. */
  function Step(numeric: string -> bool, s: Snapshot, input: Input): (t: Snapshot)
    ensures !ValidateZipCode(input.value, numeric) ==>
      && t.page.contentVisible == false && t.view.opacity == Level(0)
      && t.userData == s.userData && t.weatherData == s.weatherData
      && t.view == s.view.(opacity := Level(0))
    ensures ValidateZipCode(input.value, numeric) ==>
      t.userData.zip == input.value && !t.page.errorVisible
    ensures Usable(numeric, input) ==>
      && t.weatherData == FromResponse(input.outcome.body)
      && t.page.contentVisible && Shows(t.view, t.weatherData) && t.view.opacity == Level(1)
    ensures ValidateZipCode(input.value, numeric) && !Usable(numeric, input) ==>
      && t.weatherData == s.weatherData
      && t.page.contentVisible == s.page.contentVisible
      && t.view.(errorText := s.view.errorText, errorShown := s.view.errorShown) == s.view
    ensures ValidateZipCode(input.value, numeric) ==>
      (t.view.errorShown <==> input.outcome.ProviderError?)
    ensures !ValidateZipCode(input.value, numeric) ==> t.page.errorVisible == s.page.errorVisible
    ensures ValidateZipCode(input.value, numeric) && input.outcome.ProviderError? ==>
      t.view.errorText == ErrorText(input.outcome.message)
    ensures !input.outcome.ProviderError? ==> t.view.errorText == s.view.errorText
  {
    if !ValidateZipCode(input.value, numeric) then
      SetPageSpec(s, false)
    else
      var (fetched, completion) := Fetch(s.(userData := s.userData.(zip := input.value)), input.outcome);
      match completion
      case Threw => fetched
      case Returned(None) => fetched
      case Returned(Some(data)) =>
        if |data.weather| == 0 then fetched
        else SetPageSpec(fetched.(weatherData := FromResponse(data)), true)
  }

  /** The module-level state of main.js together with the DOM targets. */
  class WeatherPage {
    var weatherData: WeatherRecord
    var userData: UserData
    var page: PageFlags
    var view: View

    function State(): Snapshot
      reads this
    {
      Snapshot(weatherData, userData, page, view)
    }

    /** The initial records, and the targets as `init` leaves them. */
    constructor ()
      ensures State() == InitialState
    {
      weatherData := EmptyRecord;
      userData := UserData("");
      page := PageFlags(false, false);
      view := InitialState.view;
    }

    /** `setWeatherData`: replaces the whole record from a response. With no
        `weather` entry the new record cannot be built: it throws and nothing
        changes. */
    method SetWeatherData(data: Response) returns (ok: bool)
      modifies this
      ensures ok <==> |data.weather| > 0
      ensures ok ==> State() == old(State()).(weatherData := FromResponse(data))
      ensures !ok ==> State() == old(State())
    {
      if |data.weather| == 0 {
        return false;
      }
      weatherData := WeatherRecord(data.name, data.main.temp, data.weather[0].description, data.weather[0].icon);
      ok := true;
    }

    /** `setBackgroundColor`: assigns the table entry for `condition`. */
    method SetBackgroundColor(condition: string)
      modifies this
      ensures State() == old(State()).(view := old(view).(background := BackgroundColor(condition)))
    {
      view := view.(background := BackgroundColor(condition));
    }

    /** `setPage`: replaces the page record with `contentVisible := show`,
        then writes the targets one by one. */
    method SetPage(show: bool)
      modifies this
      ensures State() == SetPageSpec(old(State()), show)
    {
      page := page.(contentVisible := show);
      if show {
        SetBackgroundColor(weatherData.currentCondition);
        view := view.(iconSrc := IconUrl(weatherData.currentIcon));
        view := view.(cityText := Str(weatherData.city));
        view := view.(conditionText := Str(weatherData.currentCondition));
        view := view.(temperatureText := Number(weatherData.temperature));
        view := view.(opacity := Level(1));
      } else {
        view := view.(opacity := Level(0));
      }
    }

    /** `getWeatherByZipcode`, with the request replaced by its outcome. */
    method GetWeatherByZipcode(zipcode: string, outcome: FetchOutcome) returns (completion: Completion)
      modifies this
      ensures (State(), completion) == Fetch(old(State()), outcome)
    {
      page := page.(errorVisible := false);
      view := view.(errorShown := false);
      match outcome {
        case Data(body) =>
          completion := Returned(Some(body));
        case NoData =>
          completion := Returned(None);
        case ProviderError(message) =>
          view := view.(errorText := message + RetrySuffix);
          view := view.(errorShown := true);
          completion := Returned(None);
        case TransportError =>
          completion := Threw;
      }
    }

    /** `handleZipInputChange` for the field value `value`; `fulfilled` is
        false when the handler's promise rejects. */
    method HandleZipInputChange(value: string, numeric: string -> bool, outcome: FetchOutcome)
      returns (fulfilled: bool)
      modifies this
      ensures State() == Step(numeric, old(State()), Input(value, outcome))
      ensures fulfilled <==> !Rejects(numeric, Input(value, outcome))
    {
      var zipValid := ValidateZipCode(value, numeric);
      if zipValid {
        userData := userData.(zip := value);
        var completion := GetWeatherByZipcode(value, outcome);
        match completion {
          case Threw =>
            fulfilled := false;
          case Returned(data) =>
            if data.Some? {
              var ok := SetWeatherData(data.value);
              if ok {
                SetPage(true);
              }
              fulfilled := ok;
            } else {
              fulfilled := true;
            }
        }
      } else {
        SetPage(false);
        fulfilled := true;
      }
    }
  }
}
