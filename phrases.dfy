/** The phrase table behind `Translation.get`: a map from the phrase as
    written in the program to its rendering per two-letter language code.
    The table is loaded from a file at startup; here it is a parameter. */
module Phrases {
  import opened Options

  type PhraseTable = map<string, map<string, string>>

  /** `Translation.get(text)` under the assistant's current speech language.
      A phrase missing from the table comes back unchanged; a phrase that is
      present but has no entry for the language raises a KeyError in the
      program, here `None`. */
  function Get(table: PhraseTable, text: string, language: string): (r: Option<string>)
    ensures text !in table ==> r == Some(text)
    ensures text in table ==> (r.Some? <==> language in table[text])
    ensures text in table && language in table[text] ==> r == Some(table[text][language])
  {
    if text in table then
      if language in table[text] then Some(table[text][language]) else None
    else Some(text)
  }

  /** Every phrase of the table has a rendering in each of `languages`. */
  predicate Covers(table: PhraseTable, languages: set<string>)
  {
    forall text :: text in table ==> languages <= table[text].Keys
  }

  /** With a table that covers the language, the lookup never fails, and it
      translates exactly the phrases the table knows. */
  lemma CoveredLookup(table: PhraseTable, languages: set<string>, text: string, language: string)
    requires Covers(table, languages) && language in languages
    ensures Get(table, text, language).Some?
    ensures Get(table, text, language).value == if text in table then table[text][language] else text
  {
  }

  /** The lookup depends on the speech language only for phrases the table
      knows: any other phrase reads the same in every language. */
  lemma FallbackIgnoresLanguage(table: PhraseTable, text: string, l1: string, l2: string)
    requires text !in table
    ensures Get(table, text, l1) == Get(table, text, l2) == Some(text)
  {
  }
}
