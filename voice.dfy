/** The voice profile of the assistant and the owner's languages: how the
    speech language determines the recognition locale and the synthesis
    voice, the language switch, and the direction of a translation. */
module Voice {

  /** The owner: fixed at startup and never changed afterwards. */
  datatype OwnerPerson = OwnerPerson(
    name: string, homeCity: string, nativeLanguage: string, targetLanguage: string)

  /** The recognition locale `setup_assistant_voice` chooses. */
  function RecognitionLanguageFor(speechLanguage: string): (r: string)
    ensures r == "en-US" <==> speechLanguage == "en"
    ensures r == "en-US" || r == "ru-RU"
  {
    if speechLanguage == "en" then "en-US" else "ru-RU"
  }

  /** The index, in the speech engine's list of voices, of the voice
      `setup_assistant_voice` chooses: two English voices picked by the
      assistant's sex, one Russian voice for everything else. */
  function VoiceFor(speechLanguage: string, sex: string): (r: nat)
    ensures r <= 2
    ensures r == 0 <==> speechLanguage != "en"
    ensures r == 1 <==> speechLanguage == "en" && sex == "female"
    ensures r == 2 <==> speechLanguage == "en" && sex != "female"
  {
    if speechLanguage == "en" then (if sex == "female" then 1 else 2) else 0
  }

  /** The language `change_language` switches to. */
  function Toggle(speechLanguage: string): (r: string)
    ensures r == "en" || r == "ru"
    ensures r == "ru" <==> speechLanguage == "en"
  {
    if speechLanguage == "en" then "ru" else "en"
  }

  /** Switching twice comes back exactly for the two supported languages. */
  lemma ToggleTwice(speechLanguage: string)
    ensures Toggle(Toggle(speechLanguage)) == speechLanguage <==> speechLanguage in {"en", "ru"}
  {
  }

  datatype Direction = Direction(source: string, target: string)

  /** The language pair `get_translation` passes to the translator: from the
      studied language into the native one when the assistant speaks anything
      but the native language, the other way round otherwise. When the
      assistant speaks one of the owner's two (distinct) languages, it
      translates from that language into the other one. */
  function TranslationDirection(speechLanguage: string, person: OwnerPerson): (d: Direction)
    ensures speechLanguage != person.nativeLanguage ==> d.target == person.nativeLanguage
    ensures speechLanguage == person.nativeLanguage ==> d.source == person.nativeLanguage
    ensures {d.source, d.target} == {person.nativeLanguage, person.targetLanguage}
    ensures (person.nativeLanguage != person.targetLanguage &&
             speechLanguage in {person.nativeLanguage, person.targetLanguage}) ==>
              d.source == speechLanguage && d.target != speechLanguage
  {
    if speechLanguage != person.nativeLanguage
    then Direction(person.targetLanguage, person.nativeLanguage)
    else Direction(person.nativeLanguage, person.targetLanguage)
  }
}
