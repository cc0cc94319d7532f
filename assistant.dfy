/** The running assistant: the global `assistant` and `person` objects as
    one state record, the command handlers acting on it, the dispatch loop
    of `execute_command_with_name` and one pass of the main loop.

    What the assistant says, which pages it opens and which external
    services it asks are kept as append-only logs; the answers of those
    services, and the random draws, come in as parameters. */
module Assistant {
  import opened Options
  import opened Tokens
  import opened Voice
  import opened Phrases
  import opened Commands
  import opened Rules

  /** One piece of a spoken text. */
  datatype Part =
    | Phrase(key: string, fills: seq<string>)  // translator.get(key).format(*fills)
    | Literal(text: string)                     // a string spoken as it is
    | Listing(items: seq<string>)               // a list of strings handed to the engine

  /** One call of `play_voice_assistant_speech`: the engine voice and the
      speech language (under which `Translation.get` renders phrases) at
      that moment, and what is said. */
  datatype Speech = Speech(voice: nat, language: string, parts: seq<Part>)

  /** A call into an external service. */
  datatype Request =
    | GoogleQuery(term: string, language: string)
    | WikiQuery(term: string, language: string)
    | TranslateQuery(text: string, source: string, target: string)
    | WeatherQuery(city: string)

  /** A handler run by the dispatcher, with the argument words it received. */
  datatype Invocation = Invocation(handler: Handler, args: seq<string>)

  /** The result links the search yields before it stops, and whether it
      stopped by failing. */
  datatype SearchOutcome = SearchOutcome(results: seq<string>, failed: bool)

  datatype WikiOutcome = WikiFailed | NoPage | Page(url: string, summary: string)

  /** The readings of a weather observation, already as text. */
  datatype WeatherOutcome =
    | WeatherFailed
    | Observation(status: string, temperature: string, windSpeed: string, pressure: string)

  type Flips = s: seq<int> | |s| == FLIPS_COUNT witness [0, 0, 0]

  /** Everything one pass of the main loop may learn from outside: the
      random choices and the answers of the external services. A translation
      of `None` is a failing translate call. */
  datatype Environment = Environment(
    secondGreeting: bool, secondFarewell: bool, search: SearchOutcome, wiki: WikiOutcome,
    translation: Option<string>, weather: WeatherOutcome, flips: Flips)

  const GREETINGS: seq<string> := ["Hello, {}! How can I help you?", "Good day to you {}! How can I help you?"]
  const FAREWELLS: seq<string> := ["Goodbye, {}! Have a nice day!", "See you soon, {}!"]
  const TROUBLE := "Seems like we have a trouble. See logs for more information"
  const GOOGLE_FOUND := "Here is what I found for you on google"
  const YOUTUBE_FOUND := "Here is what I found for {} on youtube"
  const WIKI_FOUND := "Here is what I found for {} on Wikipedia"
  const WIKI_MISSING := "Can't find {} on Wikipedia. But here is what I found on google"
  const SOCIAL_FOUND := "Here is what I found for {} on social nets"

  const GOOGLE_SEARCH := "https://google.com/search?q="
  const YOUTUBE_SEARCH := "https://www.youtube.com/results?search_query="
  const VK_PEOPLE := "https://vk.com/people/"
  const FACEBOOK_PUBLIC := "https://www.facebook.com/public/"

  /** The handlers that return at once when they get no argument words. */
  predicate NeedsArguments(h: Handler)
  {
    h in {GoogleSearch, YoutubeSearch, WikipediaDefinition, Translation, SocialNets}
  }

  /** The invocations of `handlers`, each with the same argument words. */
  function Calls(handlers: seq<Handler>, args: seq<string>): seq<Invocation>
    decreases |handlers|
  {
    if handlers == [] then []
    else Calls(handlers[..|handlers| - 1], args) + [Invocation(handlers[|handlers| - 1], args)]
  }

  /** What running one more matching handler `h` after the handlers `m`
      does to the handlers that run, their invocations and the speech language. */
  lemma RunOneMore(m: seq<Handler>, h: Handler, args: seq<string>, speechLanguage: string)
    ensures Farewell in m + [h] <==> Farewell in m || h == Farewell
    ensures Farewell in m ==> UpToQuit(m + [h]) == UpToQuit(m)
    ensures Farewell !in m ==>
      && Calls(UpToQuit(m + [h]), args) == Calls(UpToQuit(m), args) + [Invocation(h, args)]
      && LanguageAfter(UpToQuit(m + [h]), speechLanguage)
         == LanguageStep(h, LanguageAfter(UpToQuit(m), speechLanguage))
  {
    UpToQuitSnoc(m, h);
    if Farewell !in m {
      var run := m + [h];
      assert run[..|run| - 1] == m;
    }
  }

  /** What `get_translation` says for `term` when the translate call returns
      `translated`, starting in voice `voice` and language `speechLanguage`:
      the announcement in the current voice, then the translation in the voice
      of the language it was translated into; or the trouble phrase alone. */
  function TranslationSpeech(term: string, voice: nat, speechLanguage: string, sex: string,
                             person: OwnerPerson, translated: Option<string>): (speech: seq<Speech>)
    ensures |speech| == if translated.Some? then 2 else 1
    ensures speech[0].voice == voice && speech[0].language == speechLanguage
    ensures translated.None? ==> speech[0].parts == [Phrase(TROUBLE, [])]
    ensures translated.Some? ==>
      var into := TranslationDirection(speechLanguage, person).target;
      speech[1] == Speech(VoiceFor(into, sex), into, [Literal(translated.value)])
  {
    var into := TranslationDirection(speechLanguage, person).target;
    match translated
    case None => [Speech(voice, speechLanguage, [Phrase(TROUBLE, [])])]
    case Some(text) =>
      var announcement :=
        if speechLanguage != person.nativeLanguage
        then "The translation for " + term + " in Russian is"
        else "По-английски " + term + " будет как";
      [Speech(voice, speechLanguage, [Literal(announcement)]),
       Speech(VoiceFor(into, sex), into, [Literal(text)])]
  }

  /** On success the announcement names the term: in English while the
      assistant is not speaking the owner's native language, in Russian
      otherwise. */
  lemma TranslationAnnouncement(term: string, voice: nat, speechLanguage: string, sex: string,
                                person: OwnerPerson, text: string)
    ensures var s := TranslationSpeech(term, voice, speechLanguage, sex, person, Some(text));
      s[0].parts == [Literal(if speechLanguage != person.nativeLanguage
                             then "The translation for " + term + " in Russian is"
                             else "По-английски " + term + " будет как")]
  {
  }

  /** What a handler adds to the three logs of a session: what it says, the
      pages it opens and the requests it makes, each in order. */
  datatype Effect = Effect(speech: seq<Speech>, pages: seq<string>, requests: seq<Request>)
  {
    /** These logs followed by those of `e`. */
    function Then(e: Effect): Effect
    {
      Effect(speech + e.speech, pages + e.pages, requests + e.requests)
    }
  }

  const NOTHING := Effect([], [], [])

  // The effects of the handlers, for the voice `voice` and the speech
  // language `language` in force when the handler is called.

  function GreetingsEffect(second: bool, person: OwnerPerson, voice: nat, language: string): Effect
  {
    Effect([Speech(voice, language, [Phrase(GREETINGS[if second then 1 else 0], [person.name])])], [], [])
  }

  function FarewellEffect(second: bool, person: OwnerPerson, voice: nat, language: string): Effect
  {
    Effect([Speech(voice, language, [Phrase(FAREWELLS[if second then 1 else 0], [person.name])])], [], [])
  }

  function GoogleSearchEffect(args: seq<string>, outcome: SearchOutcome, voice: nat, language: string): Effect
  {
    if args == [] then NOTHING
    else
      var term := Join(args, " ");
      Effect([Speech(voice, language, [if outcome.failed then Phrase(TROUBLE, []) else Phrase(GOOGLE_FOUND, [term])])],
             [GOOGLE_SEARCH + term] + outcome.results,
             [GoogleQuery(term, language)])
  }

  function YoutubeSearchEffect(args: seq<string>, voice: nat, language: string): Effect
  {
    if args == [] then NOTHING
    else
      var term := Join(args, " ");
      Effect([Speech(voice, language, [Phrase(YOUTUBE_FOUND, [term])])], [YOUTUBE_SEARCH + term], [])
  }

  function WikipediaEffect(args: seq<string>, outcome: WikiOutcome, voice: nat, language: string): Effect
  {
    if args == [] then NOTHING
    else
      var term := Join(args, " ");
      match outcome
      case Page(url, summary) =>
        Effect([Speech(voice, language, [Phrase(WIKI_FOUND, [term])]),
                Speech(voice, language, [Listing(FirstSentences(summary))])],
               [url], [WikiQuery(term, language)])
      case NoPage =>
        Effect([Speech(voice, language, [Phrase(WIKI_MISSING, [term])])], [GOOGLE_SEARCH + term], [WikiQuery(term, language)])
      case WikiFailed =>
        Effect([Speech(voice, language, [Phrase(TROUBLE, [])])], [], [WikiQuery(term, language)])
  }

  function TranslationEffect(args: seq<string>, translated: Option<string>, voice: nat, language: string,
                             sex: string, person: OwnerPerson): Effect
  {
    if args == [] then NOTHING
    else
      var term := Join(args, " ");
      var d := TranslationDirection(language, person);
      Effect(TranslationSpeech(term, voice, language, sex, person, translated), [], [TranslateQuery(term, d.source, d.target)])
  }

  function WeatherEffect(args: seq<string>, outcome: WeatherOutcome, homeCity: string, voice: nat, language: string): Effect
  {
    var city := WeatherCity(args, homeCity);
    match outcome
    case WeatherFailed => Effect([Speech(voice, language, [Phrase(TROUBLE, [])])], [], [WeatherQuery(city)])
    case Observation(status, temperature, windSpeed, pressure) =>
      Effect([Speech(voice, language, [Phrase("It is {0} in {1}", [status, city])]),
              Speech(voice, language, [Phrase("The temperature is {} degrees Celsius", [temperature])]),
              Speech(voice, language, [Phrase("The wind speed is {} meters per second", [windSpeed])]),
              Speech(voice, language, [Phrase("The pressure is {} mm Hg", [pressure])])],
             [], [WeatherQuery(city)])
  }

  function SocialNetsEffect(args: seq<string>, voice: nat, language: string): Effect
  {
    if args == [] then NOTHING
    else
      var t := SocialSearchTerms(args);
      Effect([Speech(voice, language, [Phrase(SOCIAL_FOUND, [t.google])])],
             [GOOGLE_SEARCH + t.google + " site: vk.com", GOOGLE_SEARCH + t.google + " site: facebook.com",
              VK_PEOPLE + t.vk, FACEBOOK_PUBLIC + t.facebook],
             [])
  }

  function CoinTossEffect(flips: Flips, voice: nat, language: string): Effect
  {
    Effect([Speech(voice, language, [Phrase(Winner(flips), []), Literal(" "), Phrase("won", [])])], [], [])
  }

  /** What handler `h` adds to the logs when called with the argument words
      `args`. The handlers that need words add nothing without them; the
      language switch adds nothing; everything is said in the current
      language except a translation, which is read in the language it was
      translated into. */
  function HandlerEffect(h: Handler, args: seq<string>, env: Environment, person: OwnerPerson, sex: string,
                         voice: nat, language: string): (e: Effect)
    ensures NeedsArguments(h) && args == [] ==> e == NOTHING
    ensures h == LanguageSwitch ==> e == NOTHING
  {
    match h
    case Greetings => GreetingsEffect(env.secondGreeting, person, voice, language)
    case Farewell => FarewellEffect(env.secondFarewell, person, voice, language)
    case GoogleSearch => GoogleSearchEffect(args, env.search, voice, language)
    case YoutubeSearch => YoutubeSearchEffect(args, voice, language)
    case WikipediaDefinition => WikipediaEffect(args, env.wiki, voice, language)
    case Translation => TranslationEffect(args, env.translation, voice, language, sex, person)
    case LanguageSwitch => NOTHING
    case WeatherForecast => WeatherEffect(args, env.weather, person.homeCity, voice, language)
    case SocialNets => SocialNetsEffect(args, voice, language)
    case CoinToss => CoinTossEffect(env.flips, voice, language)
  }

  /** Everything a handler says is in the current language, except a
      translation, which is read in the language it was translated into. */
  lemma HandlerSpeechLanguages(h: Handler, args: seq<string>, env: Environment, person: OwnerPerson, sex: string,
                               voice: nat, language: string)
    ensures var e := HandlerEffect(h, args, env, person, sex, voice, language);
      forall k :: 0 <= k < |e.speech| ==>
        e.speech[k].language == language
        || (h == Translation && e.speech[k].language == TranslationDirection(language, person).target)
  {
  }

  /** With a phrase table that covers the current language and the owner's
      two languages, every phrase a handler says has a rendering: none of
      its `Translation.get` lookups fails. */
  lemma HandlerPhrasesRender(table: PhraseTable, h: Handler, args: seq<string>, env: Environment,
                             person: OwnerPerson, sex: string, voice: nat, language: string)
    requires Covers(table, {language, person.nativeLanguage, person.targetLanguage})
    ensures var e := HandlerEffect(h, args, env, person, sex, voice, language);
      forall k, j :: 0 <= k < |e.speech| && 0 <= j < |e.speech[k].parts| && e.speech[k].parts[j].Phrase? ==>
        Get(table, e.speech[k].parts[j].key, e.speech[k].language).Some?
  {
    var e := HandlerEffect(h, args, env, person, sex, voice, language);
    var languages := {language, person.nativeLanguage, person.targetLanguage};
    HandlerSpeechLanguages(h, args, env, person, sex, voice, language);
    forall k, j | 0 <= k < |e.speech| && 0 <= j < |e.speech[k].parts| && e.speech[k].parts[j].Phrase?
      ensures Get(table, e.speech[k].parts[j].key, e.speech[k].language).Some?
    {
      var d := TranslationDirection(language, person);
      assert d.target in {d.source, d.target};
      CoveredLookup(table, languages, e.speech[k].parts[j].key, e.speech[k].language);
    }
  }

  /** When the assistant speaks one of the owner's two distinct languages
      and the translate call succeeds, the announcement is in the current
      language and voice, and the translation is read in the owner's other
      language, in the voice that language calls for. */
  lemma TranslationReadInOtherLanguage(term: string, voice: nat, speechLanguage: string, sex: string,
                                       person: OwnerPerson, text: string)
    requires person.nativeLanguage != person.targetLanguage
    requires speechLanguage in {person.nativeLanguage, person.targetLanguage}
    ensures var s := TranslationSpeech(term, voice, speechLanguage, sex, person, Some(text));
      && |s| == 2
      && s[0].voice == voice && s[0].language == speechLanguage
      && s[1].language in {person.nativeLanguage, person.targetLanguage}
      && s[1].language != speechLanguage
      && s[1].voice == VoiceFor(s[1].language, sex)
      && s[1].parts == [Literal(text)]
  {
  }

  class Session {
    const person: OwnerPerson
    const name: string
    const sex: string
    var speechLanguage: string
    var recognitionLanguage: string
    /** The index of the speech engine's current voice. */
    var voice: nat
    var spoken: seq<Speech>
    var pagesOpened: seq<string>
    var requests: seq<Request>
    var invoked: seq<Invocation>
    /** False once the farewell handler has ended the program. */
    var running: bool

    /** The recognition locale and the engine voice are those the speech
        language (and the assistant's sex) call for. */
    predicate ProfileApplied()
      reads this
    {
      recognitionLanguage == RecognitionLanguageFor(speechLanguage)
      && voice == VoiceFor(speechLanguage, sex)
    }

    /** The three logs. */
    function Logs(): Effect
      reads this
    {
      Effect(spoken, pagesOpened, requests)
    }

    /** The start of the program: owner and assistant are configured, then
        the voice is set up. */
    constructor (person: OwnerPerson, name: string, sex: string, speechLanguage: string)
      ensures this.person == person && this.name == name && this.sex == sex
      ensures this.speechLanguage == speechLanguage && ProfileApplied()
      ensures spoken == [] && pagesOpened == [] && requests == [] && invoked == [] && running
    {
      this.person := person;
      this.name := name;
      this.sex := sex;
      this.speechLanguage := speechLanguage;
      recognitionLanguage := "";
      voice := 0;
      spoken, pagesOpened, requests, invoked := [], [], [], [];
      running := true;
      new;
      SetupAssistantVoice();
    }

    /** `setup_assistant_voice`: applies the speech language to the
        recognition locale and the engine voice. Applying it to a profile
        that is already applied changes nothing. */
    method SetupAssistantVoice()
      modifies this`recognitionLanguage, this`voice
      ensures ProfileApplied()
      ensures old(ProfileApplied()) ==> unchanged(this)
    {
      if speechLanguage == "en" {
        recognitionLanguage := "en-US";
        if sex == "female" {
          voice := 1;
        } else {
          voice := 2;
        }
      } else {
        recognitionLanguage := "ru-RU";
        voice := 0;
      }
    }

    method Say(parts: seq<Part>)
      modifies this`spoken
      ensures spoken == old(spoken) + [Speech(voice, speechLanguage, parts)]
    {
      spoken := spoken + [Speech(voice, speechLanguage, parts)];
    }

    /** `play_greetings`: one of the two greetings, addressed to the owner. */
    method PlayGreetings(second: bool)
      modifies this`spoken
      ensures Logs() == old(Logs()).Then(GreetingsEffect(second, person, voice, speechLanguage))
    {
      Say([Phrase(GREETINGS[if second then 1 else 0], [person.name])]);
    }

    /** `play_farewell_and_quit`: one of the two farewells, then the end of
        the program. */
    method PlayFarewellAndQuit(second: bool)
      modifies this`spoken, this`running
      ensures Logs() == old(Logs()).Then(FarewellEffect(second, person, voice, speechLanguage))
      ensures !running
    {
      Say([Phrase(FAREWELLS[if second then 1 else 0], [person.name])]);
      running := false;
    }

    /** `search_for_term_on_google`: opens the search page for the joined
        words, then every result link the search yields; says it found
        something, or the trouble phrase if the search failed. */
    method SearchForTermOnGoogle(args: seq<string>, outcome: SearchOutcome)
      modifies this`pagesOpened, this`requests, this`spoken
      ensures args == [] ==> unchanged(this)
      ensures Logs() == old(Logs()).Then(GoogleSearchEffect(args, outcome, voice, speechLanguage))
    {
      if args == [] {
        return;
      }
      var term := Join(args, " ");
      pagesOpened := pagesOpened + [GOOGLE_SEARCH + term];
      requests := requests + [GoogleQuery(term, speechLanguage)];
      var i := 0;
      while i < |outcome.results|
        invariant 0 <= i <= |outcome.results|
        invariant pagesOpened == old(pagesOpened) + [GOOGLE_SEARCH + term] + outcome.results[..i]
        invariant requests == old(requests) + [GoogleQuery(term, speechLanguage)]
        invariant spoken == old(spoken)
      {
        pagesOpened := pagesOpened + [outcome.results[i]];
        i := i + 1;
        assert outcome.results[..i] == outcome.results[..i - 1] + [outcome.results[i - 1]];
      }
      assert outcome.results[..i] == outcome.results;
      if outcome.failed {
        Say([Phrase(TROUBLE, [])]);
      } else {
        Say([Phrase(GOOGLE_FOUND, [term])]);
      }
    }

    /** `search_for_video_on_youtube`: opens the video search page for the
        joined words and says so. */
    method SearchForVideoOnYoutube(args: seq<string>)
      modifies this`pagesOpened, this`spoken
      ensures args == [] ==> unchanged(this)
      ensures Logs() == old(Logs()).Then(YoutubeSearchEffect(args, voice, speechLanguage))
    {
      if args == [] {
        return;
      }
      var term := Join(args, " ");
      pagesOpened := pagesOpened + [YOUTUBE_SEARCH + term];
      Say([Phrase(YOUTUBE_FOUND, [term])]);
    }

    /** `search_for_definition_on_wikipedia`: looks the joined words up in
        the Wikipedia of the speech language; reads the first two sentences
        of a page it finds, falls back to a web search for a missing page. */
    method SearchForDefinitionOnWikipedia(args: seq<string>, outcome: WikiOutcome)
      modifies this`pagesOpened, this`requests, this`spoken
      ensures args == [] ==> unchanged(this)
      ensures Logs() == old(Logs()).Then(WikipediaEffect(args, outcome, voice, speechLanguage))
    {
      if args == [] {
        return;
      }
      var term := Join(args, " ");
      requests := requests + [WikiQuery(term, speechLanguage)];
      match outcome
      case Page(url, summary) =>
        Say([Phrase(WIKI_FOUND, [term])]);
        pagesOpened := pagesOpened + [url];
        Say([Listing(FirstSentences(summary))]);
      case NoPage =>
        Say([Phrase(WIKI_MISSING, [term])]);
        pagesOpened := pagesOpened + [GOOGLE_SEARCH + term];
      case WikiFailed =>
        Say([Phrase(TROUBLE, [])]);
    }

    /** `get_translation`: translates the joined words between the owner's
        two languages, speaking the result in the language it was translated
        into. Whether the translate call succeeds or fails, the speech
        language on return is the one on entry and the voice profile is
        applied again. */
    method GetTranslation(args: seq<string>, translated: Option<string>)
      modifies this`speechLanguage, this`recognitionLanguage, this`voice, this`spoken, this`requests
      ensures args == [] ==> unchanged(this)
      ensures args != [] ==> speechLanguage == old(speechLanguage) && ProfileApplied()
      ensures Logs() == old(Logs()).Then(TranslationEffect(args, translated, old(voice), old(speechLanguage), sex, person))
    {
      if args == [] {
        return;
      }
      var term := Join(args, " ");
      var savedLanguage := speechLanguage;
      if speechLanguage != person.nativeLanguage {
        requests := requests + [TranslateQuery(term, person.targetLanguage, person.nativeLanguage)];
        if translated.Some? {
          Say([Literal("The translation for " + term + " in Russian is")]);
          speechLanguage := person.nativeLanguage;
          SetupAssistantVoice();
          Say([Literal(translated.value)]);
        } else {
          Say([Phrase(TROUBLE, [])]);
        }
      } else {
        requests := requests + [TranslateQuery(term, person.nativeLanguage, person.targetLanguage)];
        if translated.Some? {
          Say([Literal("По-английски " + term + " будет как")]);
          speechLanguage := person.targetLanguage;
          SetupAssistantVoice();
          Say([Literal(translated.value)]);
        } else {
          Say([Phrase(TROUBLE, [])]);
        }
      }
      // the `finally` block
      speechLanguage := savedLanguage;
      SetupAssistantVoice();
    }

    /** `get_weather_forecast`: asks for the weather in the first argument
        word, or in the owner's home city, and reads status, temperature,
        wind speed and pressure. */
    method GetWeatherForecast(args: seq<string>, outcome: WeatherOutcome)
      modifies this`requests, this`spoken
      ensures Logs() == old(Logs()).Then(WeatherEffect(args, outcome, person.homeCity, voice, speechLanguage))
    {
      var city := WeatherCity(args, person.homeCity);
      requests := requests + [WeatherQuery(city)];
      match outcome
      case WeatherFailed =>
        Say([Phrase(TROUBLE, [])]);
      case Observation(status, temperature, windSpeed, pressure) =>
        Say([Phrase("It is {0} in {1}", [status, city])]);
        Say([Phrase("The temperature is {} degrees Celsius", [temperature])]);
        Say([Phrase("The wind speed is {} meters per second", [windSpeed])]);
        Say([Phrase("The pressure is {} mm Hg", [pressure])]);
    }

    /** `change_language`: switches between English and Russian and applies
        the new language to the voice profile. */
    method ChangeLanguage()
      modifies this`speechLanguage, this`recognitionLanguage, this`voice
      ensures speechLanguage == Toggle(old(speechLanguage))
      ensures ProfileApplied()
    {
      speechLanguage := if speechLanguage == "en" then "ru" else "en";
      SetupAssistantVoice();
    }

    /** `run_person_through_social_nets_databases`: opens two site searches
        with the words joined by spaces and the two people-search pages with
        them joined by `_` and by `-`. */
    method RunPersonThroughSocialNetsDatabases(args: seq<string>)
      modifies this`pagesOpened, this`spoken
      ensures args == [] ==> unchanged(this)
      ensures Logs() == old(Logs()).Then(SocialNetsEffect(args, voice, speechLanguage))
    {
      if args == [] {
        return;
      }
      var googleTerm := Join(args, " ");
      var vkTerm := Join(args, "_");
      var facebookTerm := Join(args, "-");
      pagesOpened := pagesOpened + [GOOGLE_SEARCH + googleTerm + " site: vk.com"];
      pagesOpened := pagesOpened + [GOOGLE_SEARCH + googleTerm + " site: facebook.com"];
      pagesOpened := pagesOpened + [VK_PEOPLE + vkTerm];
      pagesOpened := pagesOpened + [FACEBOOK_PUBLIC + facebookTerm];
      Say([Phrase(SOCIAL_FOUND, [googleTerm])]);
    }

    /** `toss_coin`: announces the side that won three flips. */
    method TossCoin(flips: Flips)
      modifies this`spoken
      ensures Logs() == old(Logs()).Then(CoinTossEffect(flips, voice, speechLanguage))
    {
      var heads, tails, winner := FlipCoins(flips);
      Say([Phrase(winner, []), Literal(" "), Phrase("won", [])]);
    }

    /** Calls the handler function `h` with the argument words. */
    method RunHandler(h: Handler, args: seq<string>, env: Environment)
      modifies this`speechLanguage, this`recognitionLanguage, this`voice
      modifies this`spoken, this`pagesOpened, this`requests, this`running
      ensures speechLanguage == LanguageStep(h, old(speechLanguage))
      ensures Logs() == old(Logs()).Then(HandlerEffect(h, args, env, person, sex, old(voice), old(speechLanguage)))
      ensures old(ProfileApplied()) ==> ProfileApplied()
      ensures running == (old(running) && h != Farewell)
      ensures NeedsArguments(h) && args == [] ==> unchanged(this)
    {
      match h
      case Greetings => PlayGreetings(env.secondGreeting);
      case Farewell => PlayFarewellAndQuit(env.secondFarewell);
      case GoogleSearch => SearchForTermOnGoogle(args, env.search);
      case YoutubeSearch => SearchForVideoOnYoutube(args);
      case WikipediaDefinition => SearchForDefinitionOnWikipedia(args, env.wiki);
      case Translation => GetTranslation(args, env.translation);
      case LanguageSwitch => ChangeLanguage();
      case WeatherForecast => GetWeatherForecast(args, env.weather);
      case SocialNets => RunPersonThroughSocialNetsDatabases(args);
      case CoinToss => TossCoin(env.flips);
    }

    /** Runs the handler `h` of one more matching key, after the handlers
        `m` of the earlier matching keys: only while the program is running.
        A voice profile that was applied (`ProfileApplied`, written out here)
        stays applied. */
    method RunMatchedHandler(h: Handler, args: seq<string>, env: Environment,
                             ghost m: seq<Handler>, ghost before: seq<Invocation>, ghost language: string)
      requires invoked == before + Calls(UpToQuit(m), args)
      requires speechLanguage == LanguageAfter(UpToQuit(m), language)
      requires running == (Farewell !in m)
      modifies this
      ensures invoked == before + Calls(UpToQuit(m + [h]), args)
      ensures speechLanguage == LanguageAfter(UpToQuit(m + [h]), language)
      ensures running == (Farewell !in m + [h])
      ensures old(recognitionLanguage == RecognitionLanguageFor(speechLanguage) && voice == VoiceFor(speechLanguage, sex)) ==>
        recognitionLanguage == RecognitionLanguageFor(speechLanguage) && voice == VoiceFor(speechLanguage, sex)
      ensures Farewell !in m ==>
        Logs() == old(Logs()).Then(HandlerEffect(h, args, env, person, sex, old(voice), old(speechLanguage)))
      ensures Farewell in m ==> Logs() == old(Logs())
    {
      RunOneMore(m, h, args, language);
      if running {
        invoked := invoked + [Invocation(h, args)];
        RunHandler(h, args, env);
      }
    }

    /** `execute_command_with_name` over the command table `table`: walks
        the keys in order and runs the handler of every key that contains the
        command word, until a handler ends the program. An applied voice
        profile stays applied. */
    method ExecuteCommandWithName(table: seq<CommandKey>, name: string, args: seq<string>, env: Environment)
      requires running
      modifies this
      ensures invoked == old(invoked) + Calls(UpToQuit(Matching(table, name)), args)
      ensures speechLanguage == LanguageAfter(UpToQuit(Matching(table, name)), old(speechLanguage))
      ensures running == (Farewell !in Matching(table, name))
      ensures old(recognitionLanguage == RecognitionLanguageFor(speechLanguage) && voice == VoiceFor(speechLanguage, sex)) ==>
        recognitionLanguage == RecognitionLanguageFor(speechLanguage) && voice == VoiceFor(speechLanguage, sex)
      ensures Matching(table, name) == [] ==> unchanged(this)
    {
      var i := 0;
      ghost var m: seq<Handler> := [];
      while i < |table|
        invariant 0 <= i <= |table|
        invariant m == Matching(table[..i], name)
        invariant invoked == old(invoked) + Calls(UpToQuit(m), args)
        invariant speechLanguage == LanguageAfter(UpToQuit(m), old(speechLanguage))
        invariant running == (Farewell !in m)
        invariant old(recognitionLanguage == RecognitionLanguageFor(speechLanguage) && voice == VoiceFor(speechLanguage, sex)) ==>
          recognitionLanguage == RecognitionLanguageFor(speechLanguage) && voice == VoiceFor(speechLanguage, sex)
        invariant m == [] ==> unchanged(this)
      {
        var key := table[i];
        MatchingPrefix(table, i, name);
        if name in key.synonyms {
          RunMatchedHandler(key.handler, args, env, m, old(invoked), old(speechLanguage));
          m := m + [key.handler];
        }
        i := i + 1;
      }
      assert table[..i] == table;
    }

    /** One pass of the main loop on recognised text: tokenise, then
        dispatch. Only the language command changes the speech language, the
        program ends exactly on a farewell word, and a command word that is
        no synonym (the empty one of empty text among them) changes nothing. */
    method Step(recognized: string, env: Environment)
      requires running
      modifies this
      ensures var u := Tokenize(recognized);
        invoked == old(invoked) + Calls(UpToQuit(Matching(COMMANDS, u.command)), u.options)
      ensures speechLanguage == if Tokenize(recognized).command in LANGUAGE_WORDS
                                then Toggle(old(speechLanguage)) else old(speechLanguage)
      ensures running == (Farewell !in Matching(COMMANDS, Tokenize(recognized).command))
      ensures old(ProfileApplied()) ==> ProfileApplied()
      ensures Matching(COMMANDS, Tokenize(recognized).command) == [] ==> unchanged(this)
      ensures recognized == "" ==> unchanged(this)
    {
      var u := Tokenize(recognized);
      OnlyLanguageCommandSwitches(u.command, speechLanguage);
      NonSynonymsRunNothing();
      ExecuteCommandWithName(COMMANDS, u.command, u.options, env);
    }
  }
}
