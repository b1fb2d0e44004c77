/** Text available in several languages: a language-code-to-text map that
    can be extended and shrunk in place.  A language code must be at least
    two characters long. */
module Localized {
  import opened Wrappers
  import opened JsMap

  const KeyTooShortMessage: string := "Language code must be at least 2 characters long"

  /** Why a translation could not be added or removed, or content created. */
  datatype ContentError =
    | InvalidLanguageCodes(codes: seq<string>)
    | TranslationNotFound(message: string)

  /** A language code the schema accepts. */
  predicate ValidLanguage(language: string) {
    |language| >= 2
  }

  /** The codes of `entries` that the schema rejects, in order. */
  function InvalidCodes(entries: seq<(string, string)>): (bad: seq<string>)
    ensures forall c :: c in bad ==> !ValidLanguage(c)
    ensures bad == [] <==> forall i :: 0 <= i < |entries| ==> ValidLanguage(entries[i].0)
  {
    if entries == [] then []
    else
      var rest := InvalidCodes(entries[1..]);
      assert forall i :: 1 <= i < |entries| ==> entries[i] == entries[1..][i - 1];
      if ValidLanguage(entries[0].0) then rest else [entries[0].0] + rest
  }

  /** What translation `GetOrFallback` picks from `m`: the language's entry,
      else the fallback's entry, else "". */
  function Pick(m: OrderedMap<string>, language: string, fallback: string): (text: string)
    ensures language in m.entries ==> text == m.entries[language]
    ensures language !in m.entries && fallback in m.entries ==> text == m.entries[fallback]
    ensures language !in m.entries && fallback !in m.entries ==> text == ""
  {
    match m.Get(language)
    case Some(t) => t
    case None => m.Get(fallback).GetOr("")
  }

  class LocalizedContent {
    /** The translations, in insertion order. */
    var translations: OrderedMap<string>

    ghost predicate Valid()
      reads this
    {
      translations.Valid()
    }

    /** Every stored language code is one the schema accepts. */
    ghost predicate WellFormed()
      reads this
    {
      Valid() && forall k :: k in translations.entries ==> ValidLanguage(k)
    }

    /** `new LocalizedContent(props)`: the entries of `props`, in order. */
    constructor(props: seq<(string, string)>)
      ensures Valid()
      ensures translations == FromPairs(props)
    {
      translations := FromPairs(props);
    }

    /** `snapshot`: exactly the stored translations. */
    function Snapshot(): (s: map<string, string>)
      requires Valid()
      reads this
      ensures forall k :: k in s <==> HasTranslation(k)
      ensures forall k :: k in s ==> GetTranslation(k) == Some(s[k])
    {
      translations.entries
    }

    /** `getLanguages`: every stored language once, in the map's key order. */
    function GetLanguages(): (ls: seq<string>)
      requires Valid()
      reads this
      ensures ls == translations.keys
      ensures Distinct(ls)
      ensures forall k :: k in ls <==> HasTranslation(k)
    {
      translations.keys
    }

    /** `getTranslation`. */
    function GetTranslation(language: string): (t: Option<string>)
      reads this
      ensures t.Some? <==> HasTranslation(language)
      ensures t.Some? ==> t.value == translations.entries[language]
    {
      translations.Get(language)
    }

    /** `getOrFallback`. */
    function GetOrFallback(language: string, fallback: string): (text: string)
      reads this
      ensures HasTranslation(language) ==> Some(text) == GetTranslation(language)
      ensures !HasTranslation(language) && HasTranslation(fallback) ==> Some(text) == GetTranslation(fallback)
      ensures !HasTranslation(language) && !HasTranslation(fallback) ==> text == ""
    {
      Pick(translations, language, fallback)
    }

    /** `hasTranslation`: the language has a stored text, and so appears in
        the key order. */
    predicate HasTranslation(language: string): (has: bool)
      reads this
      ensures has <==> translations.Get(language).Some?
      ensures Valid() ==> (has <==> language in translations.keys)
    {
      translations.Has(language)
    }

    /** `addTranslation`: a too-short code is refused and nothing changes;
        otherwise that one language is set (or overwritten). */
    method AddTranslation(language: string, translation: string) returns (r: Result<Unit, ContentError>)
      requires Valid()
      modifies this
      ensures Valid()
      ensures r.Success? <==> ValidLanguage(language)
      ensures r.Failure? ==> r.error == InvalidLanguageCodes([language]) && translations == old(translations)
      ensures r.Success? ==> translations == old(translations).Set(language, translation)
      ensures r.Success? ==> GetTranslation(language) == Some(translation)
      ensures old(WellFormed()) ==> WellFormed()
    {
      if !ValidLanguage(language) {
        r := Failure(InvalidLanguageCodes([language]));
        return;
      }
      translations := translations.Set(language, translation);
      r := Success(Unit);
    }

    /** `removeTranslation`: an absent language is reported and nothing
        changes; otherwise that one language is deleted. */
    method RemoveTranslation(language: string) returns (r: Result<Unit, ContentError>)
      requires Valid()
      modifies this
      ensures Valid()
      ensures r.Success? <==> old(HasTranslation(language))
      ensures r.Failure? ==> r.error == TranslationNotFound("Translation not found for language: " + language)
      ensures r.Failure? ==> translations == old(translations)
      ensures r.Success? ==> translations == old(translations).Delete(language) && !HasTranslation(language)
      ensures old(WellFormed()) ==> WellFormed()
    {
      if !HasTranslation(language) {
        r := Failure(TranslationNotFound("Translation not found for language: " + language));
        return;
      }
      translations := translations.Delete(language);
      r := Success(Unit);
    }
  }

  /** `LocalizedContent.create`: accepted exactly when every code is long
      enough; the rejected codes are reported otherwise. */
  method Create(props: seq<(string, string)>) returns (r: Result<LocalizedContent, ContentError>)
    ensures r.Success? <==> forall i :: 0 <= i < |props| ==> ValidLanguage(props[i].0)
    ensures r.Failure? ==> r.error == InvalidLanguageCodes(InvalidCodes(props))
    ensures r.Success? ==> fresh(r.value) && r.value.WellFormed() && r.value.translations == FromPairs(props)
  {
    var bad := InvalidCodes(props);
    if bad != [] {
      r := Failure(InvalidLanguageCodes(bad));
      return;
    }
    var content := new LocalizedContent(props);
    forall k | k in content.translations.entries ensures ValidLanguage(k) {
      FromPairsLastWins(props, k);
    }
    r := Success(content);
  }

  /** Looking up with a fallback never invents text: the result is one of
      the two entries, or "" when neither exists. */
  lemma PickIsStoredOrEmpty(m: OrderedMap<string>, language: string, fallback: string)
    ensures Pick(m, language, fallback) == "" || Pick(m, language, fallback) in m.entries.Values
  {
  }

  /** Adding a translation and reading it back gives that translation, and
      leaves every other language's entry as it was. */
  lemma SetThenGet(m: OrderedMap<string>, language: string, text: string, other: string)
    requires m.Valid()
    ensures Pick(m.Set(language, text), language, other) == text
    ensures other != language ==> m.Set(language, text).Get(other) == m.Get(other)
  {
  }
}
