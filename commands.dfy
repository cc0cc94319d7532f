/** The command table and the matching rule of `execute_command_with_name`:
    every key (a tuple of synonyms) that contains the command word as an
    element selects its handler, in the order the keys are declared. */
module Commands {
  import opened Voice

  /** The handler functions of the table, one constructor each. */
  datatype Handler =
    | Greetings            // play_greetings
    | Farewell             // play_farewell_and_quit
    | GoogleSearch         // search_for_term_on_google
    | YoutubeSearch        // search_for_video_on_youtube
    | WikipediaDefinition  // search_for_definition_on_wikipedia
    | Translation          // get_translation
    | LanguageSwitch       // change_language
    | WeatherForecast      // get_weather_forecast
    | SocialNets           // run_person_through_social_nets_databases
    | CoinToss             // toss_coin

  datatype CommandKey = CommandKey(synonyms: seq<string>, handler: Handler)

  /** The synonym tuples of the `commands` dictionary. */
  const GREETING_WORDS: seq<string> := ["hello", "hi", "morning", "привет"]
  const FAREWELL_WORDS: seq<string> := ["bye", "goodbye", "quit", "exit", "stop", "пока"]
  const SEARCH_WORDS: seq<string> := ["search", "google", "find", "найди"]
  const VIDEO_WORDS: seq<string> := ["video", "youtube", "watch", "видео"]
  const DEFINITION_WORDS: seq<string> := ["wikipedia", "definition", "about", "определение", "википедия"]
  const TRANSLATION_WORDS: seq<string> := ["translate", "interpretation", "translation", "перевод", "перевести", "переведи"]
  const LANGUAGE_WORDS: seq<string> := ["language", "язык"]
  const WEATHER_WORDS: seq<string> := ["weather", "forecast", "погода", "прогноз"]
  const SOCIAL_WORDS: seq<string> := ["facebook", "person", "run", "пробей", "контакт"]
  const COIN_WORDS: seq<string> := ["toss", "coin", "монета", "подбрось"]

  /** The `commands` dictionary, in declaration order. */
  const COMMANDS: seq<CommandKey> := [
    CommandKey(GREETING_WORDS, Greetings),
    CommandKey(FAREWELL_WORDS, Farewell),
    CommandKey(SEARCH_WORDS, GoogleSearch),
    CommandKey(VIDEO_WORDS, YoutubeSearch),
    CommandKey(DEFINITION_WORDS, WikipediaDefinition),
    CommandKey(TRANSLATION_WORDS, Translation),
    CommandKey(LANGUAGE_WORDS, LanguageSwitch),
    CommandKey(WEATHER_WORDS, WeatherForecast),
    CommandKey(SOCIAL_WORDS, SocialNets),
    CommandKey(COIN_WORDS, CoinToss)
  ]

  /** The program's table has ten keys, in this declaration order. */
  lemma CommandsOrder()
    ensures |COMMANDS| == 10
    ensures COMMANDS[0] == CommandKey(GREETING_WORDS, Greetings)
    ensures COMMANDS[1] == CommandKey(FAREWELL_WORDS, Farewell)
    ensures COMMANDS[2] == CommandKey(SEARCH_WORDS, GoogleSearch)
    ensures COMMANDS[3] == CommandKey(VIDEO_WORDS, YoutubeSearch)
    ensures COMMANDS[4] == CommandKey(DEFINITION_WORDS, WikipediaDefinition)
    ensures COMMANDS[5] == CommandKey(TRANSLATION_WORDS, Translation)
    ensures COMMANDS[6] == CommandKey(LANGUAGE_WORDS, LanguageSwitch)
    ensures COMMANDS[7] == CommandKey(WEATHER_WORDS, WeatherForecast)
    ensures COMMANDS[8] == CommandKey(SOCIAL_WORDS, SocialNets)
    ensures COMMANDS[9] == CommandKey(COIN_WORDS, CoinToss)
  {
  }

  /** The positions of the keys whose synonyms contain `name`: exactly those
      positions, each once, in increasing (declaration) order. */
  function MatchIndices(table: seq<CommandKey>, name: string): (idx: seq<nat>)
    ensures forall k :: 0 <= k < |idx| ==> idx[k] < |table| && name in table[idx[k]].synonyms
    ensures forall k, l :: 0 <= k < l < |idx| ==> idx[k] < idx[l]
    ensures forall i :: 0 <= i < |table| && name in table[i].synonyms ==> i in idx
    decreases |table|
  {
    if table == [] then []
    else
      var last := |table| - 1;
      MatchIndices(table[..last], name) + (if name in table[last].synonyms then [last] else [])
  }

  /** The handlers `execute_command_with_name(name, ...)` invokes, in order. */
  function Matching(table: seq<CommandKey>, name: string): seq<Handler>
    decreases |table|
  {
    if table == [] then []
    else
      var last := |table| - 1;
      Matching(table[..last], name) + (if name in table[last].synonyms then [table[last].handler] else [])
  }

  /** Matching one more key of the table appends its handler when it matches. */
  lemma MatchingPrefix(table: seq<CommandKey>, i: nat, name: string)
    requires i < |table|
    ensures Matching(table[..i + 1], name)
         == Matching(table[..i], name) + (if name in table[i].synonyms then [table[i].handler] else [])
  {
    assert table[..i + 1][..i] == table[..i];
  }

  /** The handlers selected by a prefix of the table come first, in the
      same order, among those selected by the whole table. */
  lemma {:induction false} MatchingOfPrefix(table: seq<CommandKey>, j: nat, name: string)
    requires j <= |table|
    ensures |Matching(table[..j], name)| <= |Matching(table, name)|
    ensures Matching(table[..j], name) == Matching(table, name)[..|Matching(table[..j], name)|]
    decreases |table|
  {
    if j == |table| {
      assert table[..j] == table;
    } else {
      var last := |table| - 1;
      MatchingOfPrefix(table[..last], j, name);
      assert table[..last][..j] == table[..j];
    }
  }

  /** The handlers invoked are those of the matching keys, in declaration
      order: the `k`-th handler is that of the `k`-th matching position. */
  lemma {:induction false} MatchingSelects(table: seq<CommandKey>, name: string)
    ensures |Matching(table, name)| == |MatchIndices(table, name)|
    ensures forall k :: 0 <= k < |MatchIndices(table, name)| ==>
      Matching(table, name)[k] == table[MatchIndices(table, name)[k]].handler
    decreases |table|
  {
    if table != [] {
      var last := |table| - 1;
      MatchingSelects(table[..last], name);
      var idx := MatchIndices(table[..last], name);
      forall k | 0 <= k < |idx| ensures table[..last][idx[k]] == table[idx[k]] {
      }
    }
  }

  /** No handler runs exactly when no key contains the command word. */
  lemma NothingMatches(table: seq<CommandKey>, name: string)
    ensures Matching(table, name) == [] <==> forall i :: 0 <= i < |table| ==> name !in table[i].synonyms
  {
    MatchingSelects(table, name);
    var idx := MatchIndices(table, name);
    if idx != [] {
      assert name in table[idx[0]].synonyms;
    }
  }

  /** No two keys share a synonym. */
  predicate Disjoint(table: seq<CommandKey>)
  {
    forall i, j, s :: 0 <= i < j < |table| && s in table[i].synonyms ==> s !in table[j].synonyms
  }

  /** With disjoint keys, a command word that is a synonym of key `i`
      selects the handler of that key and nothing else. */
  lemma DisjointMatch(table: seq<CommandKey>, name: string, i: nat)
    requires Disjoint(table)
    requires i < |table| && name in table[i].synonyms
    ensures Matching(table, name) == [table[i].handler]
  {
    MatchingSelects(table, name);
    var idx := MatchIndices(table, name);
    assert i in idx;
    assert forall k :: 0 <= k < |idx| ==> idx[k] == i;
    assert idx[0] == i == idx[|idx| - 1];
  }

  /** With disjoint keys at most one handler runs. */
  lemma DisjointAtMostOne(table: seq<CommandKey>, name: string)
    requires Disjoint(table)
    ensures |Matching(table, name)| <= 1
  {
    var idx := MatchIndices(table, name);
    if idx != [] {
      DisjointMatch(table, name, idx[0]);
    }
  }

  // Each synonym tuple shares no word with the tuples declared after it.
  lemma GreetingWordsDistinct()
    ensures forall w :: w in GREETING_WORDS ==> w !in FAREWELL_WORDS
    ensures forall w :: w in GREETING_WORDS ==> w !in SEARCH_WORDS
    ensures forall w :: w in GREETING_WORDS ==> w !in VIDEO_WORDS
    ensures forall w :: w in GREETING_WORDS ==> w !in DEFINITION_WORDS
    ensures forall w :: w in GREETING_WORDS ==> w !in TRANSLATION_WORDS
    ensures forall w :: w in GREETING_WORDS ==> w !in LANGUAGE_WORDS
    ensures forall w :: w in GREETING_WORDS ==> w !in WEATHER_WORDS
    ensures forall w :: w in GREETING_WORDS ==> w !in SOCIAL_WORDS
    ensures forall w :: w in GREETING_WORDS ==> w !in COIN_WORDS
  {
  }

  lemma FarewellWordsDistinct()
    ensures forall w :: w in FAREWELL_WORDS ==> w !in SEARCH_WORDS
    ensures forall w :: w in FAREWELL_WORDS ==> w !in VIDEO_WORDS
    ensures forall w :: w in FAREWELL_WORDS ==> w !in DEFINITION_WORDS
    ensures forall w :: w in FAREWELL_WORDS ==> w !in TRANSLATION_WORDS
    ensures forall w :: w in FAREWELL_WORDS ==> w !in LANGUAGE_WORDS
    ensures forall w :: w in FAREWELL_WORDS ==> w !in WEATHER_WORDS
    ensures forall w :: w in FAREWELL_WORDS ==> w !in SOCIAL_WORDS
    ensures forall w :: w in FAREWELL_WORDS ==> w !in COIN_WORDS
  {
  }

  lemma SearchWordsDistinct()
    ensures forall w :: w in SEARCH_WORDS ==> w !in VIDEO_WORDS
    ensures forall w :: w in SEARCH_WORDS ==> w !in DEFINITION_WORDS
    ensures forall w :: w in SEARCH_WORDS ==> w !in TRANSLATION_WORDS
    ensures forall w :: w in SEARCH_WORDS ==> w !in LANGUAGE_WORDS
    ensures forall w :: w in SEARCH_WORDS ==> w !in WEATHER_WORDS
    ensures forall w :: w in SEARCH_WORDS ==> w !in SOCIAL_WORDS
    ensures forall w :: w in SEARCH_WORDS ==> w !in COIN_WORDS
  {
  }

  lemma VideoWordsDistinct()
    ensures forall w :: w in VIDEO_WORDS ==> w !in DEFINITION_WORDS
    ensures forall w :: w in VIDEO_WORDS ==> w !in TRANSLATION_WORDS
    ensures forall w :: w in VIDEO_WORDS ==> w !in LANGUAGE_WORDS
    ensures forall w :: w in VIDEO_WORDS ==> w !in WEATHER_WORDS
    ensures forall w :: w in VIDEO_WORDS ==> w !in SOCIAL_WORDS
    ensures forall w :: w in VIDEO_WORDS ==> w !in COIN_WORDS
  {
  }

  lemma DefinitionWordsDistinct()
    ensures forall w :: w in DEFINITION_WORDS ==> w !in TRANSLATION_WORDS
    ensures forall w :: w in DEFINITION_WORDS ==> w !in LANGUAGE_WORDS
    ensures forall w :: w in DEFINITION_WORDS ==> w !in WEATHER_WORDS
    ensures forall w :: w in DEFINITION_WORDS ==> w !in SOCIAL_WORDS
    ensures forall w :: w in DEFINITION_WORDS ==> w !in COIN_WORDS
  {
  }

  lemma TranslationWordsDistinct()
    ensures forall w :: w in TRANSLATION_WORDS ==> w !in LANGUAGE_WORDS
    ensures forall w :: w in TRANSLATION_WORDS ==> w !in WEATHER_WORDS
    ensures forall w :: w in TRANSLATION_WORDS ==> w !in SOCIAL_WORDS
    ensures forall w :: w in TRANSLATION_WORDS ==> w !in COIN_WORDS
  {
  }

  lemma LanguageWordsDistinct()
    ensures forall w :: w in LANGUAGE_WORDS ==> w !in WEATHER_WORDS
    ensures forall w :: w in LANGUAGE_WORDS ==> w !in SOCIAL_WORDS
    ensures forall w :: w in LANGUAGE_WORDS ==> w !in COIN_WORDS
  {
  }

  lemma WeatherWordsDistinct()
    ensures forall w :: w in WEATHER_WORDS ==> w !in SOCIAL_WORDS
    ensures forall w :: w in WEATHER_WORDS ==> w !in COIN_WORDS
  {
  }

  lemma SocialWordsDistinct()
    ensures forall w :: w in SOCIAL_WORDS ==> w !in COIN_WORDS
  {
  }

  lemma CommandsDisjoint()
    ensures Disjoint(COMMANDS)
  {
    GreetingWordsDistinct(); FarewellWordsDistinct(); SearchWordsDistinct();
    VideoWordsDistinct(); DefinitionWordsDistinct(); TranslationWordsDistinct();
    LanguageWordsDistinct(); WeatherWordsDistinct(); SocialWordsDistinct();
    CommandsOrder();
  }

  /** In the program's table every synonym selects exactly its own handler. */
  lemma CommandSynonym(name: string, i: nat)
    requires i < |COMMANDS| && name in COMMANDS[i].synonyms
    ensures Matching(COMMANDS, name) == [COMMANDS[i].handler]
  {
    CommandsDisjoint();
    DisjointMatch(COMMANDS, name, i);
  }

  /** In the program's table at most one handler runs for any command word. */
  lemma CommandsAtMostOne(name: string)
    ensures |Matching(COMMANDS, name)| <= 1
  {
    CommandsDisjoint();
    DisjointAtMostOne(COMMANDS, name);
  }

  /** Words that are no synonym run nothing: the empty command word (empty
      recognised text), and a prefix of "hello", since matching is on whole
      synonyms and not on substrings of them. */
  lemma NonSynonymsRunNothing()
    ensures Matching(COMMANDS, "") == []
    ensures Matching(COMMANDS, "hell") == []
  {
    forall i | 0 <= i < |COMMANDS|
      ensures "" !in COMMANDS[i].synonyms && "hell" !in COMMANDS[i].synonyms
    {
    }
    NothingMatches(COMMANDS, "");
    NothingMatches(COMMANDS, "hell");
  }

  /** The handlers that actually run: `play_farewell_and_quit` ends the
      process, so nothing after it runs. */
  function UpToQuit(handlers: seq<Handler>): (run: seq<Handler>)
    ensures |run| <= |handlers| && run == handlers[..|run|]
    ensures Farewell !in handlers ==> run == handlers
    ensures Farewell in handlers ==> run != [] && run[|run| - 1] == Farewell && Farewell !in run[..|run| - 1]
    decreases |handlers|
  {
    if handlers == [] then []
    else if handlers[0] == Farewell then [Farewell]
    else [handlers[0]] + UpToQuit(handlers[1..])
  }

  lemma {:induction false} UpToQuitSnoc(handlers: seq<Handler>, h: Handler)
    ensures UpToQuit(handlers + [h]) == if Farewell in handlers then UpToQuit(handlers) else handlers + [h]
    decreases |handlers|
  {
    if handlers != [] {
      var rest := handlers[1..];
      assert handlers == [handlers[0]] + rest;
      assert (handlers + [h])[0] == handlers[0];
      assert (handlers + [h])[1..] == rest + [h];
      if handlers[0] != Farewell {
        UpToQuitSnoc(rest, h);
        assert UpToQuit(handlers + [h]) == [handlers[0]] + UpToQuit(rest + [h]);
        assert Farewell in handlers <==> Farewell in rest;
        if Farewell !in rest {
          assert [handlers[0]] + (rest + [h]) == handlers + [h];
        }
      }
    }
  }

  /** How a handler leaves the speech language: only `change_language`
      changes it; `get_translation` restores it before returning. */
  function LanguageStep(h: Handler, speechLanguage: string): string
  {
    if h == LanguageSwitch then Toggle(speechLanguage) else speechLanguage
  }

  /** The speech language after running `handlers` in order. */
  function LanguageAfter(handlers: seq<Handler>, speechLanguage: string): string
    decreases |handlers|
  {
    if handlers == [] then speechLanguage
    else LanguageStep(handlers[|handlers| - 1], LanguageAfter(handlers[..|handlers| - 1], speechLanguage))
  }

  /** Only the language key of the program's table has the language handler. */
  lemma LanguageKeyOnly(j: nat)
    requires j < |COMMANDS|
    ensures COMMANDS[j].handler == LanguageSwitch <==> j == 6
  {
  }

  /** One utterance changes the speech language exactly when its command
      word is a synonym of the language key, and then toggles it. */
  lemma {:induction false} OnlyLanguageCommandSwitches(name: string, speechLanguage: string)
    ensures LanguageAfter(UpToQuit(Matching(COMMANDS, name)), speechLanguage)
         == if name in LANGUAGE_WORDS then Toggle(speechLanguage) else speechLanguage
  {
    var idx := MatchIndices(COMMANDS, name);
    MatchingSelects(COMMANDS, name);
    assert COMMANDS[6].synonyms == LANGUAGE_WORDS;
    if idx != [] {
      var j := if name in LANGUAGE_WORDS then 6 else idx[0];
      CommandSynonym(name, j);
      LanguageKeyOnly(j);
      var run := [COMMANDS[j].handler];
      assert UpToQuit(run) == run;
      assert run[..0] == [];
    }
  }
}
