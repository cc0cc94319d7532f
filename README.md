# Voice assistant core, modelled in Dafny

`finalproject.py` is a voice assistant. It listens to the microphone, splits
the recognised text into a command word and argument words, and runs every
handler whose synonym tuple in the `commands` table contains the command
word. The handlers greet, say goodbye and quit, search Google, YouTube and
Wikipedia, translate between the owner's two languages, switch the
assistant's language, read the weather, search for a person on social
networks and toss a coin. The assistant's voice profile (speech language,
recognition locale, synthesis voice) is global state that the language
switch and the translator change.

This project models that core:

- `Tokens`: the main loop's `split(" ")` of the recognised text into a
  command word and options. It uses Python's semantics: empty pieces are
  kept, and `"".split(" ") == [""]`. Also `sep.join`, with both round trips.
- `Commands`: the ordered command table with its synonym tuples, exactly as
  declared. Also the matching rule of `execute_command_with_name`, and the
  rule that nothing runs after `play_farewell_and_quit` quits.
- `Voice`: the owner record, and the choices `setup_assistant_voice` makes.
  Also the language toggle of `change_language`, and the translation
  direction of `get_translation`.
- `Phrases`: `Translation.get`, a lookup with the phrase itself as fallback.
- `Rules`: the deterministic rules inside the handlers:
  - the three-flip coin tally;
  - the weather city default;
  - the three social-network search terms;
  - the first two sentences of a Wikipedia summary.
- `Assistant`: the global `assistant` and `person` objects as one `Session`
  object, with one method per handler, the dispatcher and one pass of the
  main loop.
  - What the assistant says, the pages it opens, the external requests it
    makes and the handlers it invokes are append-only logs.
  - A spoken phrase is recorded as its phrase key, its fill-ins and the
    speech language and voice in force. That makes it the input that
    `Translation.get` would render.
  - The random draws and the answers of Google, Wikipedia, the translator
    and the weather service are inputs. They form the `Environment` of a
    pass of the main loop.

Two facts about the dispatcher shape the model:

- Dispatch tests `command_name in key`, where `key` is a tuple of synonyms.
  That is exact element equality, not a substring test, so `"hell"` runs
  nothing (`Commands.NonSynonymsRunNothing`).
- The loop over the keys has no `break`. Every matching key runs, in
  declaration order, until a handler quits. The program's own table has
  pairwise disjoint tuples, so at most one handler runs there
  (`Commands.CommandsAtMostOne`).

## Model

| member | source | states |
|---|---|---|
| Tokens.Split | finalproject.py:484 | The split has at least one piece, and no piece contains the separator. |
| Tokens.Join | finalproject.py:190 | Joining no words gives the empty text, and joining one word gives that word. |
| Tokens.JoinLength | finalproject.py:382-384 | A join starts with the first word and is as long as the words plus one separator per gap. |
| Tokens.Tokenize | finalproject.py:484-486 | Command and options contain no space. Joining them with spaces gives back the recognised text. There are as many options as spaces. Empty text gives the empty command with no options. Text without a space is the command alone. |
| Tokens.JoinSplit | finalproject.py:484 | `sep.join(s.split(sep)) == s` for every text. |
| Tokens.SplitJoin | finalproject.py:484 | Splitting a join of at least one word, none containing the separator, gives back the words. |
| Tokens.SplitCount | finalproject.py:484 | A split has one piece more than the text has separators. |
| Tokens.TokenizeJoin | finalproject.py:484-486 | Tokenising the join of a space-free command and options gives back exactly that command and those options. |
| Phrases.Get | finalproject.py:25-36 | A phrase missing from the table comes back unchanged. A known phrase yields its rendering in the speech language, and fails (the KeyError) exactly when the table has no entry for that language. |
| Phrases.CoveredLookup | finalproject.py:31-36 | With a table covering the language, the lookup never fails. It translates exactly the known phrases. |
| Phrases.FallbackIgnoresLanguage | finalproject.py:33-36 | An unknown phrase reads the same in every language. |
| Voice.RecognitionLanguageFor | finalproject.py:65-74 | The locale is "en-US" exactly for English and "ru-RU" otherwise. |
| Voice.VoiceFor | finalproject.py:65-76 | Voice 0 exactly for a non-English language. For English: voice 1 exactly when the assistant is female, voice 2 otherwise. |
| Voice.Toggle | finalproject.py:370 | The result is "en" or "ru", and it is "ru" exactly when the language was "en". |
| Voice.ToggleTwice | finalproject.py:370 | Switching twice restores the language exactly when it is "en" or "ru". |
| Voice.TranslationDirection | finalproject.py:282-301 | Target is native when speaking a non-native language; source is native otherwise. The pair is always the owner's two languages. Speaking one of two distinct owner languages translates from it into the other. |
| Commands.Matching | finalproject.py:425-427 | Specified by `MatchIndices` and `MatchingSelects` below: the handlers of the keys containing the command word, in table order. |
| Commands.CommandsOrder | finalproject.py:433-444 | The `commands` table has ten keys. In declaration order, each pairs its synonym tuple with its handler: greeting, farewell, Google, YouTube, Wikipedia, translation, language, weather, social networks, coin toss. |
| Commands.MatchIndices | finalproject.py:425-429 | The positions of the keys containing the command word: all of them, only them, strictly increasing. |
| Commands.MatchingPrefix | finalproject.py:425-427 | Scanning one more key appends its handler exactly when the key contains the word. |
| Commands.MatchingOfPrefix | finalproject.py:425-427 | The handlers selected by the first keys of the table are the first ones selected by the whole table, in the same order. |
| Commands.MatchingSelects | finalproject.py:425-427 | The handlers run are those of the matching positions, in declaration order. |
| Commands.NothingMatches | finalproject.py:425-429 | Nothing runs exactly when no key contains the command word. |
| Commands.DisjointMatch | finalproject.py:425-427 | In a table of disjoint keys, a synonym of key i runs exactly that key's handler. |
| Commands.DisjointAtMostOne | finalproject.py:425-427 | In a table of disjoint keys, at most one handler runs. |
| Commands.CommandsDisjoint | finalproject.py:433-444 | No two keys of the program's table share a synonym. |
| Commands.LanguageKeyOnly | finalproject.py:433-444 | Only the seventh key of the table has `change_language` as its handler. |
| Commands.CommandSynonym | finalproject.py:425-444 | In the program's table, a synonym of key i runs that key's handler and nothing else. |
| Commands.CommandsAtMostOne | finalproject.py:425-444 | In the program's table, at most one handler runs for any command word. |
| Commands.NonSynonymsRunNothing | finalproject.py:426 | Matching is on whole synonyms. The empty command word of empty recognised text runs nothing, and neither does "hell", a prefix of "hello". |
| Commands.UpToQuit | finalproject.py:171-181 | The handlers that run are a prefix of the matching ones. That is all of them when none quits; otherwise up to and including the first farewell. |
| Commands.UpToQuitSnoc | finalproject.py:181 | One more matching handler runs exactly when no earlier one quit. |
| Commands.OnlyLanguageCommandSwitches | finalproject.py:366-371 | One utterance changes the speech language exactly when its command word is a synonym of the language key, and then toggles it. |
| Rules.Winner | finalproject.py:413-414 | The winner is "Heads" or "Tails", and a tie goes to "Heads". On an odd number of flips, "Heads" wins exactly when most flips came up heads. |
| Rules.FlipCoins | finalproject.py:403-414 | Heads is the number of zero draws, and heads plus tails is 3. There is never a tie, and the side with more flips wins. |
| Rules.WeatherCity | finalproject.py:325-328 | The city is the first argument word when there is one, else the owner's home city. |
| Rules.WeatherCityOfUtterance | finalproject.py:325-326 | For recognised text, the city is the second space-separated piece when there is a space, else the home city. |
| Rules.SocialSearchTerms | finalproject.py:382-384 | The three terms have the same length. No words give three empty terms; one word gives that word three times. |
| Rules.SocialTermsRecoverWords | finalproject.py:382-384 | Each of the three search terms splits back on its own separator into the argument words. |
| Rules.FirstSentences | finalproject.py:253 | Two sentences exactly when the summary contains a full stop, else one. They are a prefix of the split on ".", and none contains a full stop. |
| Assistant.TranslationSpeech | finalproject.py:283-309 | On success, two utterances. The first is the announcement of the direction, in the current voice and language (its text is stated by `Assistant.TranslationAnnouncement`). The second is the translation, in the target language and its voice. On failure, only the trouble phrase, in the current voice and language. |
| Assistant.HandlerEffect | finalproject.py:160-415 | Handlers that need words add nothing without them, and the language switch adds nothing. |
| Assistant.HandlerSpeechLanguages | finalproject.py:151-157 | Everything a handler says is in the current language, except the translation, which is read in the target language. |
| Assistant.HandlerPhrasesRender | finalproject.py:25-36 | If the phrase table covers the current language and the owner's two languages, no phrase any handler says fails to render. |
| Assistant.RunOneMore | finalproject.py:425-427 | After a quit, one more matching handler changes nothing. Before one, it adds its invocation and its language step. |
| Assistant.TranslationAnnouncement | finalproject.py:287-298 | On success, the announcement names the term in English ("The translation for … in Russian is") when the assistant is not speaking the native language, and in Russian ("По-английски … будет как") otherwise. |
| Assistant.TranslationReadInOtherLanguage | finalproject.py:280-305 | On success, the announcement is in the current language and voice. The translation is read in the owner's other language, in that language's voice. |
| Assistant.Session.constructor | finalproject.py:456-469 | A new session has the given owner, name, sex and language, the voice profile applied, empty logs and a running program. |
| Assistant.Session.SetupAssistantVoice | finalproject.py:59-76 | Afterwards the profile is applied. Applying it when already applied changes nothing. |
| Assistant.Session.Say | finalproject.py:151-157 | Appends one utterance, with the current voice and language. |
| Assistant.Session.PlayGreetings | finalproject.py:160-168 | Adds to the logs exactly `GreetingsEffect`: one of the two greetings with the owner's name, in the current voice and language. |
| Assistant.Session.PlayFarewellAndQuit | finalproject.py:171-181 | Adds exactly `FarewellEffect`, one of the two farewells with the owner's name, then the program stops running. |
| Assistant.Session.SearchForTermOnGoogle | finalproject.py:184-217 | No words: nothing changes. Otherwise it opens the search page for the joined words and every result link, asks Google in the speech language, and says "found" or, on failure, the trouble phrase. |
| Assistant.Session.SearchForVideoOnYoutube | finalproject.py:220-229 | No words: nothing changes. Otherwise it opens the video search of the joined words and says so. |
| Assistant.Session.SearchForDefinitionOnWikipedia | finalproject.py:232-265 | No words: nothing changes. Otherwise it queries the Wikipedia of the speech language. A page opens its URL and reads its first two sentences; a missing page opens a web search; a failure says the trouble phrase. |
| Assistant.Session.GetTranslation | finalproject.py:268-315 | No words: nothing changes. Otherwise it asks for the translation direction and speaks the announcement and translation, or the trouble phrase. Either way the speech language is the one on entry, with the profile applied. |
| Assistant.Session.GetWeatherForecast | finalproject.py:318-363 | Asks for the weather in the first word or the home city. Says status, temperature, wind and pressure, or the trouble phrase. |
| Assistant.Session.ChangeLanguage | finalproject.py:366-371 | The speech language is toggled and the profile applied. |
| Assistant.Session.RunPersonThroughSocialNetsDatabases | finalproject.py:375-400 | No words: nothing changes. Otherwise it opens the two site searches with space-joined words, the VK page with `_`-joined words and the Facebook page with `-`-joined words, and says so. |
| Assistant.Session.TossCoin | finalproject.py:403-415 | Announces the winner of the three flips. |
| Assistant.Session.RunHandler | finalproject.py:427 | The logs grow by exactly `HandlerEffect` of the handler, in the voice and language on entry. Only the language handler changes the speech language. Each handler keeps the profile applied, the program stops exactly after the farewell, and argument-needing handlers with no words change nothing. |
| Assistant.Session.RunMatchedHandler | finalproject.py:425-427 | Runs a matching handler only while the program runs. It extends the invocations and the language as `UpToQuit` says. While running (no farewell among the earlier matches), the logs grow by exactly that handler's `HandlerEffect`, in the voice and speech language on entry. After a quit the logs stay as they are. |
| Assistant.Session.ExecuteCommandWithName | finalproject.py:418-429 | The invocations are those of the matching keys in order, up to the first quit. The speech language follows them. The program runs on exactly when no farewell matched, and no match changes nothing. |
| Assistant.Session.Step | finalproject.py:477-487 | One pass of the main loop invokes the handlers of the tokenised command. The speech language toggles exactly for a language synonym. The program goes on running exactly when no farewell synonym was said. A command word that is no synonym, such as the empty word of empty text, changes nothing. |

## Left out

- Microphone recording and speech recognition (`record_and_recognize_audio`,
  `use_offline_recognition`, lines 79-148) are I/O. The recognised text is an
  input of `Assistant.Session.Step`, and the deletion of the recorded audio
  file is not modelled.
- On the recognition timeout path (lines 91-99), no audio file is written
  and the function returns `None`. The previous pass already deleted the file
  (line 480), so the main loop's `os.remove` normally fails with
  `FileNotFoundError` before anything else happens. This is not modelled:
  `Step` takes a string.
- Failed phrase lookups. `Translation.get` raises `KeyError` (line 32) when
  the table has no entry for the speech language. A failed lookup outside a
  `try` ends the program. That covers the greeting and farewell, the Google
  "found" phrase (line 217), YouTube, social networks, the coin toss, the
  weather readings and the `except` clauses. The exception passes through
  `execute_command_with_name` and ends the main loop. Inside the `try` of the
  Wikipedia handler (lines 248 and 256-257) the exception is caught, and the
  trouble phrase is said instead. After a failed lookup at line 248, the page
  is then not opened and its sentences are not read. Neither path is
  modelled, and neither is any other exception outside a handler's `try`.
  The logs are those of a table that covers the languages
  (`Assistant.HandlerPhrasesRender`).
- Assistant.Session.ExecuteCommandWithName: the logs are not stated. The loop
  invariant does not carry them. Each matching handler's contribution is
  stated by `Assistant.Session.RunMatchedHandler`.
- Assistant.Session.Step: the logs a pass adds are not stated either, since
  it calls `ExecuteCommandWithName`. Only the invocations, the speech
  language, the `running` flag and the no-match case are.
- Speech synthesis (`play_voice_assistant_speech`) is a log of what would be
  said. The engine's `stop()` is not modelled, and neither is its voice list
  being shorter than three, which would make `voices[1]` or `voices[2]` fail.
- `quit()` is modelled as the `running` flag turning false. Nothing after the
  farewell runs, and no exception is raised.
- Browsers, Google search, Wikipedia, googletrans and OpenWeatherMap are
  external services. Their answers are inputs, and the pages opened and
  requests made are logs.
- The random choice of greeting and farewell and the three `randint` draws
  are inputs.
- Console output (`print`, `colored`, `traceback.print_exc`) is not modelled.
- Loading `translations.json` and `.env` is not modelled. The phrase table is
  a parameter of `Phrases.Get`, and the rendering of a recorded phrase is left
  to that function.
- The weather readings are text inputs. The floating-point conversion of
  pressure to mm Hg (`int(press / 1.333)`) is not modelled.
- Assistant.Session.SearchForDefinitionOnWikipedia: the handler may say the
  "found" phrase (line 248) and then the trouble phrase of the `except` (lines
  262-263). That happens when opening the page (line 249) or reading its summary
  (line 253) raises inside the `try` of lines 246-265. `WikiOutcome` has no
  such outcome, so this path is not modelled.
- Assistant.Session.SearchForDefinitionOnWikipedia: the first sentences are
  recorded as a list part. The text the engine makes of a Python list is not
  modelled.
- Assistant.Session.GetTranslation: a failed lookup of the trouble phrase, and
  any failure other than the translate call, is not modelled separately. Both
  end in the same restore of the speech language.
- The `name` of the assistant is stored but no handler uses it, as in the
  program.
