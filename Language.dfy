/**
 * The site-wide language switcher (js/script.js): the current language, the
 * flag button that offers the other one, and the two translation tables of
 * the home page.
 *
 * The tables are modelled by the keys they define; the texts themselves are
 * not reproduced. Elements that are missing from a page are not modelled:
 * every translatable element is taken to be present.
 */
module Language {

  const PtBR: string := "pt-BR"
  const EnGB: string := "en-GB"

  predicate IsLanguage(lang: string) {
    lang == PtBR || lang == EnGB
  }

  /** `(currentLang === 'pt-BR') ? 'en-GB' : 'pt-BR'`; the flag button offers the same language. */
  function Other(lang: string): string {
    if lang == PtBR then EnGB else PtBR
  }

  /** Switching twice gives back the language, and switching always changes it. */
  lemma OtherFlips(lang: string)
    requires IsLanguage(lang)
    ensures IsLanguage(Other(lang)) && Other(lang) != lang && Other(Other(lang)) == lang
  {
  }

  /** The translation keys, one per translatable text of the home page. */
  datatype TextKey =
    | PageTitle | ProductsLink | EventsLink | SongSearchLink | ContactLink
    | HeroTitle | HeroDescription | LearnMoreButton | AboutHeading
    | AboutMusicTitle | AboutMusicDesc | AboutCommunityTitle | AboutCommunityDesc
    | AboutEventsTitle | AboutEventsDesc

  /** The keys `updateContent` reads, in the order it reads them. */
  function ContentKeys(): seq<TextKey> {
    [PageTitle, ProductsLink, EventsLink, SongSearchLink, ContactLink,
     HeroTitle, HeroDescription, LearnMoreButton, AboutHeading,
     AboutMusicTitle, AboutMusicDesc, AboutCommunityTitle, AboutCommunityDesc,
     AboutEventsTitle, AboutEventsDesc]
  }

  /** The keys of the `'pt-BR'` table, in the order the object literal lists them. */
  function PortugueseKeys(): seq<TextKey> {
    [PageTitle, ProductsLink, EventsLink, SongSearchLink, ContactLink,
     HeroTitle, HeroDescription, LearnMoreButton, AboutHeading,
     AboutMusicTitle, AboutMusicDesc, AboutCommunityTitle, AboutCommunityDesc,
     AboutEventsTitle, AboutEventsDesc]
  }

  /** The keys of the `'en-GB'` table, in the order the object literal lists them. */
  function EnglishKeys(): seq<TextKey> {
    [PageTitle, ProductsLink, EventsLink, SongSearchLink, ContactLink,
     HeroTitle, HeroDescription, LearnMoreButton, AboutHeading,
     AboutMusicTitle, AboutMusicDesc, AboutCommunityTitle, AboutCommunityDesc,
     AboutEventsTitle, AboutEventsDesc]
  }

  /** `translations`, by language: the keys each table defines. */
  function Translations(): map<string, set<TextKey>> {
    map[PtBR := (set k | k in PortugueseKeys()), EnGB := (set k | k in EnglishKeys())]
  }

  /**
   * Exactly the two languages have a table, both tables define the same
   * keys, and every key `updateContent` reads is defined: each lookup
   * succeeds in either language.
   */
  lemma TablesAgree()
    ensures Translations().Keys == {PtBR, EnGB}
    ensures Translations()[PtBR] == Translations()[EnGB]
    ensures forall lang, k :: lang in Translations() && k in ContentKeys() ==> k in Translations()[lang]
  {
    assert forall k :: k in ContentKeys() ==> k in PortugueseKeys() && k in EnglishKeys();
  }

  /** The page state the switcher controls. */
  class LanguageSwitcher {
    /** `currentLang` */
    var currentLang: string
    /** `languageFlagButton.dataset.lang`: the language a click switches to. */
    var flagLang: string
    /** `htmlElement.lang` */
    var documentLang: string
    /** The language whose table the title and the translatable elements show. */
    var shownTable: string

    /** The page shows the current language and the flag offers the other one. */
    ghost predicate Valid()
      reads this
    {
      && IsLanguage(currentLang)
      && flagLang == Other(currentLang)
      && documentLang == currentLang
      && shownTable == currentLang
    }

    /** The first load: Portuguese, then `updateContent` and `updateFlagButton`. */
    constructor ()
      ensures Valid() && currentLang == PtBR && flagLang == EnGB
    {
      currentLang := PtBR;
      flagLang := "";
      documentLang := "";
      shownTable := "";
      new;
      UpdateContent(currentLang);
      UpdateFlagButton(currentLang);
    }

    /** `window.getCurrentLang`: it reads the variable, so it always reports the language on screen. */
    function GetCurrentLang(): (lang: string)
      requires Valid()
      reads this
      ensures IsLanguage(lang) && lang == documentLang
    {
      currentLang
    }

    /**
     * `updateContent(lang)`: the page's language becomes `lang` and its title
     * and texts are looked up in the table of `lang`, every key of which is
     * defined.
     */
    method UpdateContent(lang: string)
      requires lang in Translations()
      modifies this
      ensures documentLang == lang && shownTable == lang
      ensures currentLang == old(currentLang) && flagLang == old(flagLang)
    {
      TablesAgree();
      documentLang := lang;
      assert forall k :: k in ContentKeys() ==> k in Translations()[lang];
      shownTable := lang;
    }

    /** `updateFlagButton(lang)`: the flag offers the language other than `lang`. */
    method UpdateFlagButton(lang: string)
      modifies this
      ensures flagLang == Other(lang)
      ensures currentLang == old(currentLang) && documentLang == old(documentLang)
      ensures shownTable == old(shownTable)
    {
      if lang == PtBR {
        flagLang := EnGB;
      } else {
        flagLang := PtBR;
      }
    }

    /** A click on the flag: the language flips and the page follows it, so two clicks restore it. */
    method Click()
      requires Valid()
      modifies this
      ensures Valid()
      ensures currentLang == Other(old(currentLang)) && currentLang == old(flagLang)
    {
      currentLang := if currentLang == PtBR then EnGB else PtBR;
      UpdateContent(currentLang);
      UpdateFlagButton(currentLang);
    }
  }
}
