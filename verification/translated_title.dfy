/** `getTranslatedTitle` (`src/components/hooks/useTranslatedTitle.ts`):
    a tournament title that begins with the Russian word for "championship"
    has that word replaced by its translation. The translation lookup
    `t("championship")` is a parameter. */
module TranslatedTitle {
  import opened Js
  import opened Text

  const ChampionshipWord: string := "Чемпионшип"

  function GetTranslatedTitle(title: string, translation: string): (r: string)
    ensures !StartsWith(title, ChampionshipWord) ==> r == title
  {
    if StartsWith(title, ChampionshipWord) then ReplaceFirst(title, ChampionshipWord, translation)
    else title
  }

  /** A title that begins with the word gets the translation in its place;
      the rest of the title, later occurrences of the word included, is kept
      verbatim. */
  lemma PrefixReplaced(title: string, translation: string)
    requires StartsWith(title, ChampionshipWord)
    requires '$' !in translation
    ensures GetTranslatedTitle(title, translation)
            == translation + title[|ChampionshipWord|..]
    ensures |GetTranslatedTitle(title, translation)|
            == |title| - |ChampionshipWord| + |translation|
  {
    var rest := title[|ChampionshipWord|..];
    ReplaceAtStart(title, ChampionshipWord, translation);
    SubstitutionLiteral(translation, ChampionshipWord, [], rest);
  }

  /** Every occurrence of the word after the replaced one is still present,
      shifted by the difference in length. */
  lemma LaterOccurrencesKept(title: string, translation: string, j: nat)
    requires StartsWith(title, ChampionshipWord)
    requires '$' !in translation
    requires |ChampionshipWord| <= j && OccursAt(title, ChampionshipWord, j)
    ensures OccursAt(GetTranslatedTitle(title, translation), ChampionshipWord,
                     j - |ChampionshipWord| + |translation|)
  {
    PrefixReplaced(title, translation);
    var w := ChampionshipWord;
    var r := GetTranslatedTitle(title, translation);
    var k := j - |w| + |translation|;
    assert r[k..k + |w|] == title[j..j + |w|];
  }

  /** The translation is a `replace` replacement text, so `$&` in it
      re-inserts the matched word. */
  lemma DollarPatternExpands()
    ensures GetTranslatedTitle("Чемпионшип мира", "$& 2") == "Чемпионшип 2 мира"
  {
    var t := "Чемпионшип мира";
    var after := t[|ChampionshipWord|..];
    assert StartsWith(t, ChampionshipWord);
    ReplaceAtStart(t, ChampionshipWord, "$& 2");
    assert after == " мира";
    assert Substitution("$& 2", ChampionshipWord, [], after) == ChampionshipWord + " 2" by {
      assert Substitution("2", ChampionshipWord, [], after) == "2";
      assert Substitution(" 2", ChampionshipWord, [], after) == " 2";
    }
  }
}
