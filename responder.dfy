/** `get_gemini_response`: the choice between the offline placeholder and
    the live Gemini call, the placeholder's keyword rules, and how the live
    call's outcome becomes reply text. */
module Responder {
  import opened Text

  const Greeting: string := "Hello! How can I help you today?"
  // The longer replies are written in pieces; each constant is the one
  // string of the placeholder table.
  const WeatherReply: string := "I don't have access to current weather " + "data, but I hope it's nice where you are!"
  const TimeReply: string := "I don't have access to real-time data, " + "but you can check your device's clock."
  const DefaultOpen: string := "I heard you say: '"
  const DefaultClose: string := "'. Hello, this is a sample response " + "from Gemini AI placeholder."

  /** The `"default"` entry of the placeholder table: the text as it was
      heard, quoted inside a fixed sentence. */
  function DefaultReply(text: string): string
  {
    DefaultOpen + text + DefaultClose
  }

  /** `if not use_api or not api_key`: the placeholder is used when the
      toggle is off or the key field is empty. */
  predicate UseOffline(useApi: bool, apiKey: string)
  {
    !useApi || apiKey == ""
  }

  const DefaultModel: string := "gemini-pro"
  const ModelOptions: seq<string> := ["gemini-pro", "gemini-pro-vision", "gemini-2.0-flash"]

  /** `model_choice` in `main`: the select box's value when the live API is
      in use, "gemini-pro" otherwise. */
  function ModelChoice(useApi: bool, apiKey: string, selected: string): string
  {
    if useApi && apiKey != "" then selected else DefaultModel
  }

  /** How the placeholder's keyword test reads: the keyword occurs,
      anywhere, in the lower-cased text. */
  ghost predicate Mentions(text: string, word: string)
  {
    Occurs(word, Lower(text))
  }

  /** The placeholder reply: greeting if "hello" or "hi" is in the
      lower-cased text, else weather for "weather", else time for "time",
      else the default template over the original text. */
  function OfflineReply(text: string): string
  {
    var low := Lower(text);
    if Contains(low, "hello") || Contains(low, "hi") then Greeting
    else if Contains(low, "weather") then WeatherReply
    else if Contains(low, "time") then TimeReply
    else DefaultReply(text)
  }

  /** What the live call ended in: `response.text`, or the description of
      the exception it raised. The call itself is not modelled. */
  datatype LiveOutcome = LiveText(text: string) | LiveFailure(detail: string)

  const LiveErrorPrefix: string := "Error calling Gemini API: "

  /** `get_gemini_response(text, api_key, use_api, model_name)`, with the
      live call's outcome passed in. */
  function GeminiResponse(text: string, apiKey: string, useApi: bool, modelName: string, live: LiveOutcome): string
  {
    if UseOffline(useApi, apiKey) then OfflineReply(text)
    else match live
      case LiveText(reply) => reply
      case LiveFailure(detail) => LiveErrorPrefix + detail
  }

  /** The default template never coincides with one of the three fixed
      replies, whatever the text. */
  lemma DefaultDiffers(text: string)
    ensures DefaultReply(text) != Greeting
    ensures DefaultReply(text) != WeatherReply
    ensures DefaultReply(text) != TimeReply
  {
    var d := DefaultReply(text);
    assert d[1] == ' ' && d[2] == 'h';
    assert Greeting[1] == 'e';
    assert WeatherReply[2] == 'd' && TimeReply[2] == 'd';
  }

  /** The three fixed replies are distinct. */
  lemma FixedRepliesDiffer()
    ensures Greeting != WeatherReply && Greeting != TimeReply && WeatherReply != TimeReply
  {
    assert Greeting[1] == 'e' && WeatherReply[1] == ' ' && TimeReply[1] == ' ';
    assert WeatherReply[23] == 'c' && TimeReply[23] == 'r';
  }

  /** The placeholder fires exactly one of the four rules, in priority
      order greeting > weather > time > default, each keyword matched as a
      substring anywhere in the lower-cased text. */
  lemma OfflineRules(text: string)
    ensures OfflineReply(text) == Greeting <==> Mentions(text, "hello") || Mentions(text, "hi")
    ensures OfflineReply(text) == WeatherReply <==>
      !Mentions(text, "hello") && !Mentions(text, "hi") && Mentions(text, "weather")
    ensures OfflineReply(text) == TimeReply <==>
      !Mentions(text, "hello") && !Mentions(text, "hi") && !Mentions(text, "weather") && Mentions(text, "time")
    ensures OfflineReply(text) == DefaultReply(text) <==>
      !Mentions(text, "hello") && !Mentions(text, "hi") && !Mentions(text, "weather") && !Mentions(text, "time")
  {
    var low := Lower(text);
    ContainsIff(low, "hello");
    ContainsIff(low, "hi");
    ContainsIff(low, "weather");
    ContainsIff(low, "time");
    DefaultDiffers(text);
    FixedRepliesDiffer();
  }

  /** The default reply carries the original text verbatim (not lower-cased),
      right after the opening quote. */
  lemma DefaultEchoesText(text: string)
    ensures OccursAt(text, DefaultReply(text), |DefaultOpen|)
    ensures Occurs(text, DefaultReply(text))
    ensures Contains(DefaultReply(text), text)
  {
    var d := DefaultReply(text);
    assert d[|DefaultOpen|..|DefaultOpen| + |text|] == text;
    assert OccursAt(text, d, |DefaultOpen|);
    ContainsIff(d, text);
  }

  /** In offline mode the reply depends on the text alone: not on the key,
      the model name or anything the live service would have said. */
  lemma OfflineIgnoresConfig(text: string, key1: string, key2: string, useApi1: bool, useApi2: bool,
                             model1: string, model2: string, live1: LiveOutcome, live2: LiveOutcome)
    requires UseOffline(useApi1, key1) && UseOffline(useApi2, key2)
    ensures GeminiResponse(text, key1, useApi1, model1, live1) == GeminiResponse(text, key2, useApi2, model2, live2)
    ensures GeminiResponse(text, key1, useApi1, model1, live1) == OfflineReply(text)
  {
  }

  /** In live mode the service's text is the reply verbatim, and a failed
      call still yields reply text: the fixed prefix and the failure's
      description, never the empty string. */
  lemma LiveReply(text: string, apiKey: string, useApi: bool, modelName: string, live: LiveOutcome)
    requires !UseOffline(useApi, apiKey)
    ensures live.LiveText? ==> GeminiResponse(text, apiKey, useApi, modelName, live) == live.text
    ensures live.LiveFailure? ==> GeminiResponse(text, apiKey, useApi, modelName, live) == LiveErrorPrefix + live.detail
    ensures live.LiveFailure? ==> StartsWith(GeminiResponse(text, apiKey, useApi, modelName, live), LiveErrorPrefix)
    ensures live.LiveFailure? ==> GeminiResponse(text, apiKey, useApi, modelName, live) != ""
  {
    if live.LiveFailure? {
      StartsWithConcat(LiveErrorPrefix, live.detail);
    }
  }

  /** The model name the live call receives is one of the select box's
      options whenever the selection is, and "gemini-pro" in offline mode. */
  lemma ModelChoiceInOptions(useApi: bool, apiKey: string, selected: string)
    requires selected in ModelOptions
    ensures ModelChoice(useApi, apiKey, selected) in ModelOptions
    ensures UseOffline(useApi, apiKey) ==> ModelChoice(useApi, apiKey, selected) == DefaultModel
    ensures !UseOffline(useApi, apiKey) ==> ModelChoice(useApi, apiKey, selected) == selected
  {
  }

  // The examples below fix their input through a `requires` rather than
  // writing the literal into the `ensures`: on a literal argument the
  // verifier unfolds `OfflineReply` and `Lower` into the literal's
  // characters many levels deep, and the examples no longer fit.

  /** A greeting in any capitalisation gets the greeting. */
  lemma GreetingExample(text: string)
    requires text == "Hello there"
    ensures OfflineReply(text) == Greeting
  {
    assert Lower(text) == "hello there";
    assert "hello there"[..5] == "hello";
  }

  /** "hi" also counts inside another word: any text with "this" in it,
      in any capitalisation, gets the greeting. */
  lemma HiInsideThis(text: string)
    requires Mentions(text, "this")
    ensures Mentions(text, "hi")
    ensures OfflineReply(text) == Greeting
  {
    var low := Lower(text);
    var i :| OccursAt("this", low, i);
    assert low[i..i + 4] == "this";
    assert low[i + 1] == low[i..i + 4][1] == 'h';
    assert low[i + 2] == low[i..i + 4][2] == 'i';
    assert low[i + 1..i + 3] == "hi";
    assert OccursAt("hi", low, i + 1);
    ContainsIff(low, "hi");
  }

  lemma WhatsTheWeatherKeywords()
    ensures !Occurs("hello", "what's the weather") && !Occurs("hi", "what's the weather")
    ensures Occurs("weather", "what's the weather")
  {
    var low := "what's the weather";
    assert !Occurs("hello", low) by { AbsentCharNotContained(low, "hello", 2); }
    assert !Occurs("hi", low) by { AbsentCharNotContained(low, "hi", 1); }
    assert OccursAt("weather", low, 11);
  }

  /** A weather question with a capital letter gets the weather reply. */
  lemma WeatherExample(text: string)
    requires text == "What's the weather"
    ensures OfflineReply(text) == WeatherReply
  {
    OfflineRules(text);
    assert Lower(text) == "what's the weather";
    WhatsTheWeatherKeywords();
  }

  lemma TellMeAJokeKeywords()
    ensures !Occurs("hello", "tell me a joke") && !Occurs("hi", "tell me a joke")
    ensures !Occurs("weather", "tell me a joke") && !Occurs("time", "tell me a joke")
  {
    var low := "tell me a joke";
    assert !Occurs("hello", low) by { AbsentCharNotContained(low, "hello", 0); }
    assert !Occurs("hi", low) by { AbsentCharNotContained(low, "hi", 0); }
    assert !Occurs("weather", low) by { AbsentCharNotContained(low, "weather", 0); }
    assert !Occurs("time", low) by { AbsentCharNotContained(low, "time", 1); }
  }

  /** No keyword: the default reply, with the capitals of the input kept. */
  lemma DefaultExample(text: string)
    requires text == "Tell me a JOKE"
    ensures OfflineReply(text) == DefaultReply("Tell me a JOKE")
  {
    OfflineRules(text);
    assert Lower(text) == "tell me a joke";
    TellMeAJokeKeywords();
  }
}
