/** The page of main.js over a whole session: a sequence of input events, each
    handled to completion before the next one. */
module MainPageTraces {
  import opened Dom
  import opened ZipCode
  import opened WeatherApi
  import opened MainPage

  /** The state after handling `inputs` in order, starting from `s`. */
  function Run(numeric: string -> bool, s: Snapshot, inputs: seq<Input>): Snapshot
    decreases |inputs|
  {
    if inputs == [] then s
    else Step(numeric, Run(numeric, s, inputs[..|inputs| - 1]), inputs[|inputs| - 1])
  }

  /** What the page keeps true between events: visible content shows the
      current record on an opaque container, hidden content is not opaque,
      the stored zip is empty or valid, and the `errorVisible` flag is never
      raised (the error path only shows the error element). */
  ghost predicate Coherent(numeric: string -> bool, s: Snapshot) {
    && (s.page.contentVisible ==> Shows(s.view, s.weatherData) && s.view.opacity == Level(1))
    && (!s.page.contentVisible ==> s.view.opacity != Level(1))
    && (s.userData.zip == "" || ValidateZipCode(s.userData.zip, numeric))
    && !s.page.errorVisible
  }

  lemma InitialCoherent(numeric: string -> bool)
    ensures Coherent(numeric, InitialState)
  {
  }

  lemma StepKeepsCoherent(numeric: string -> bool, s: Snapshot, input: Input)
    requires Coherent(numeric, s)
    ensures Coherent(numeric, Step(numeric, s, input))
  {
  }

  /** Every session that starts coherent stays coherent. */
  lemma {:induction false} RunKeepsCoherent(numeric: string -> bool, s: Snapshot, inputs: seq<Input>)
    requires Coherent(numeric, s)
    ensures Coherent(numeric, Run(numeric, s, inputs))
    decreases |inputs|
  {
    if inputs != [] {
      var prefix := inputs[..|inputs| - 1];
      RunKeepsCoherent(numeric, s, prefix);
      StepKeepsCoherent(numeric, Run(numeric, s, prefix), inputs[|inputs| - 1]);
    }
  }

  /** In any session from the initial page, the flag `errorVisible` stays
      false, whatever errors the provider reports. */
  lemma ErrorFlagNeverRaised(numeric: string -> bool, inputs: seq<Input>)
    ensures !Run(numeric, InitialState, inputs).page.errorVisible
  {
    InitialCoherent(numeric);
    RunKeepsCoherent(numeric, InitialState, inputs);
  }

  /** One step replaces the record exactly when the input is usable. */
  lemma StepRecord(numeric: string -> bool, s: Snapshot, input: Input)
    ensures Step(numeric, s, input).weatherData ==
      if Usable(numeric, input) then FromResponse(input.outcome.body) else s.weatherData
  {
  }

  /** No input of `inputs` after position `i` is usable. */
  ghost predicate NoneUsableAfter(numeric: string -> bool, inputs: seq<Input>, i: int) {
    forall j :: 0 <= j < |inputs| && i < j ==> !Usable(numeric, inputs[j])
  }

  /** The record left by `inputs` on its own: the last usable response's,
      else `r`. */
  function LastRecord(numeric: string -> bool, r: WeatherRecord, inputs: seq<Input>): WeatherRecord
    decreases |inputs|
  {
    if inputs == [] then r
    else if Usable(numeric, inputs[|inputs| - 1]) then FromResponse(inputs[|inputs| - 1].outcome.body)
    else LastRecord(numeric, r, inputs[..|inputs| - 1])
  }

  lemma {:induction false} RunRecord(numeric: string -> bool, s: Snapshot, inputs: seq<Input>)
    ensures Run(numeric, s, inputs).weatherData == LastRecord(numeric, s.weatherData, inputs)
    decreases |inputs|
  {
    if inputs != [] {
      RunRecord(numeric, s, inputs[..|inputs| - 1]);
      StepRecord(numeric, Run(numeric, s, inputs[..|inputs| - 1]), inputs[|inputs| - 1]);
    }
  }

  lemma {:induction false} LastRecordWithoutUsable(numeric: string -> bool, r: WeatherRecord, inputs: seq<Input>)
    requires NoneUsableAfter(numeric, inputs, -1)
    ensures LastRecord(numeric, r, inputs) == r
    decreases |inputs|
  {
    if inputs != [] {
      var prefix := inputs[..|inputs| - 1];
      assert !Usable(numeric, inputs[|inputs| - 1]);
      forall j | 0 <= j < |prefix| ensures !Usable(numeric, prefix[j]) {
        assert prefix[j] == inputs[j];
      }
      LastRecordWithoutUsable(numeric, r, prefix);
    }
  }

  lemma {:induction false} LastRecordIsLastUsable(numeric: string -> bool, r: WeatherRecord, inputs: seq<Input>, i: nat)
    requires i < |inputs| && Usable(numeric, inputs[i]) && NoneUsableAfter(numeric, inputs, i)
    ensures LastRecord(numeric, r, inputs) == FromResponse(inputs[i].outcome.body)
    decreases |inputs|
  {
    var n := |inputs| - 1;
    if i < n {
      var prefix := inputs[..n];
      assert !Usable(numeric, inputs[n]);
      assert prefix[i] == inputs[i];
      forall j | 0 <= j < n && i < j ensures !Usable(numeric, prefix[j]) {
        assert prefix[j] == inputs[j];
      }
      LastRecordIsLastUsable(numeric, r, prefix, i);
    }
  }

  /** The record after a session is never a mixture: it is the record of the
      last usable response, or the starting record if there was none. */
  lemma RecordFromLastUsableInput(numeric: string -> bool, s: Snapshot, inputs: seq<Input>)
    ensures NoneUsableAfter(numeric, inputs, -1) ==> Run(numeric, s, inputs).weatherData == s.weatherData
    ensures forall i :: 0 <= i < |inputs| && Usable(numeric, inputs[i]) && NoneUsableAfter(numeric, inputs, i) ==>
      Run(numeric, s, inputs).weatherData == FromResponse(inputs[i].outcome.body)
  {
    RunRecord(numeric, s, inputs);
    if NoneUsableAfter(numeric, inputs, -1) {
      LastRecordWithoutUsable(numeric, s.weatherData, inputs);
    }
    forall i | 0 <= i < |inputs| && Usable(numeric, inputs[i]) && NoneUsableAfter(numeric, inputs, i)
      ensures Run(numeric, s, inputs).weatherData == FromResponse(inputs[i].outcome.body)
    {
      LastRecordIsLastUsable(numeric, s.weatherData, inputs, i);
    }
  }

  /** A successful lookup followed by an error response: the error element
      shows beside the previous record, and neither visit sets
      `errorVisible`. */
  lemma ErrorBesideStaleContent()
    ensures var t := Run(s => true, InitialState, [
              Input("93722", Data(Response("Fresno", Reading(72.0), [Condition("clear sky", "01d")]))),
              Input("00000", ProviderError("city not found"))]);
            && t.page.contentVisible && !t.page.errorVisible && t.view.errorShown
            && t.view.cityText == Str("Fresno")
            && t.view.errorText == "city not found, Please Try Again."
  {
  }
}
