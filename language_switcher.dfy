/** The globe button that switches between English and Hindi. */
module LanguageSwitcher {

  /** The click: "en" becomes "hi", anything else becomes "en". */
  function Toggle(language: string): (next: string)
    ensures language == "en" ==> next == "hi"
    ensures language != "en" ==> next == "en"
  {
    if language == "en" then "hi" else "en"
  }

  /** The button's caption. */
  function Caption(language: string): (caption: string)
    ensures caption == "En" <==> language != "en"
  {
    if language == "en" then "\U{0939}\U{093F}" else "En"
  }

  /** The short name of a language as it appears on the button. */
  function ShortName(language: string): string
  {
    if language == "hi" then "\U{0939}\U{093F}" else "En"
  }

  /** The caption names the language a click switches to. */
  lemma CaptionNamesNext(language: string)
    ensures Caption(language) == ShortName(Toggle(language))
  {
  }

  /** On the two supported languages, clicking twice restores the language. */
  lemma ToggleTwice(language: string)
    requires language == "en" || language == "hi"
    ensures Toggle(Toggle(language)) == language
  {
  }

  /** Any other setting is reset to English by one click, and then alternates. */
  lemma UnsupportedResetsToEnglish(language: string)
    requires language != "en" && language != "hi"
    ensures Toggle(language) == "en" && Toggle(Toggle(language)) == "hi"
  {
  }

  /** The shared language setting the button writes. */
  class LanguageState {
    var language: string

    constructor (language: string)
      ensures this.language == language
    {
      this.language := language;
    }

    method Click()
      modifies this
      ensures language == Toggle(old(language))
    {
      language := Toggle(language);
    }
  }

  /** Two clicks from English come back to English, passing through Hindi. */
  method ClickTwice(start: string) returns (afterOne: string, afterTwo: string)
    requires start == "en" || start == "hi"
    ensures afterOne != start && afterTwo == start
    ensures {afterOne, afterTwo} == {"en", "hi"}
  {
    var state := new LanguageState(start);
    state.Click();
    afterOne := state.language;
    state.Click();
    afterTwo := state.language;
    ToggleTwice(start);
  }
}
