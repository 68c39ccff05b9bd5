/** The English/Hindi switch: the current language is a string (whatever the store
    held), and every localised choice in the script is "`en` gives the English
    text, anything else gives the Hindi one". */
module Language {
  import opened Js

  const En: string := "en"
  const Hi: string := "hi"

  /** The label on the language toggle button names the language a click switches to. */
  const HindiButton: string := "हि"
  const EnglishButton: string := "EN"

  /** `currentLanguage === 'en' ? en : hi`. */
  function Pick(lang: string, en: string, hi: string): (r: string)
    ensures lang == En ==> r == en
    ensures lang != En ==> r == hi
  {
    if lang == En then en else hi
  }

  /** The language at page load: `localStorage.getItem('mittiLanguage') || 'en'`. */
  function Initial(stored: Option<string>): (r: string)
    ensures r != ""
    ensures Truthy(stored) ==> r == stored.value
    ensures !Truthy(stored) ==> r == En
  {
    OrElse(stored, En)
  }

  /** `toggleLanguage`: English becomes Hindi, every other value becomes English. */
  function Toggle(lang: string): (r: string)
    ensures r == En || r == Hi
    ensures r == Hi <==> lang == En
  {
    if lang == En then Hi else En
  }

  /** On the two languages the toggle is an involution and always changes the language. */
  lemma ToggleInvolution(lang: string)
    requires lang == En || lang == Hi
    ensures Toggle(lang) != lang
    ensures Toggle(Toggle(lang)) == lang
  {
  }

  /** A stored value that is neither language is read as Hindi by every `Pick`, becomes
      English on the first toggle, and Hindi on the second. */
  lemma ToggleUnknown(lang: string)
    requires lang != En && lang != Hi
    ensures Pick(lang, En, Hi) == Hi
    ensures Toggle(lang) == En && Toggle(Toggle(lang)) == Hi
  {
  }

  /** The text an element with `data-en`/`data-hi` attributes shows after `updateLanguage`:
      the attribute for the current language when it is non-empty, otherwise the old text. */
  function ElementText(lang: string, dataEn: Option<string>, dataHi: Option<string>, current: string): (r: string)
    ensures lang == En && Truthy(dataEn) ==> r == dataEn.value
    ensures lang != En && Truthy(dataHi) ==> r == dataHi.value
    ensures !Truthy(if lang == En then dataEn else dataHi) ==> r == current
  {
    var chosen := if lang == En then dataEn else dataHi;
    if Truthy(chosen) then chosen.value else current
  }

  /** The name written on the toggle for a language the button leads to. */
  function ButtonName(target: string): string {
    if target == Hi then HindiButton else EnglishButton
  }

  /** The toggle button text set by `updateLanguage`. */
  function ToggleLabel(lang: string): (r: string)
    ensures r == ButtonName(Toggle(lang))
    ensures r != ButtonName(if lang == En then En else Hi)
  {
    Pick(lang, HindiButton, EnglishButton)
  }

  /** The speech recogniser's locale for the current language. */
  function SpeechLocale(lang: string): (r: string)
    ensures |r| == 5 && r[2..] == "-IN"
    ensures r[..2] == (if lang == En then En else Hi)
  {
    Pick(lang, "en-IN", "hi-IN")
  }

  /** Two toggles followed by `updateLanguage` restore both the language and every element's text. */
  lemma DoubleToggleRestoresText(lang: string, dataEn: Option<string>, dataHi: Option<string>, current: string)
    requires lang == En || lang == Hi
    ensures ElementText(Toggle(Toggle(lang)), dataEn, dataHi, current) == ElementText(lang, dataEn, dataHi, current)
    ensures ToggleLabel(Toggle(Toggle(lang))) == ToggleLabel(lang)
  {
    ToggleInvolution(lang);
  }
}
