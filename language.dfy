/**
 * The three ways the AI layer decides that it is dealing with Korean: a
 * Hangul-syllable test on the text to refine, a language test when choosing a
 * prompt, and a narrower language test in the quality validator.
 */
module Language {
  import opened JsRuntime

  /** A code unit of the Hangul Syllables block, U+AC00 to U+D7AF (`/[가-힯]/`). */
  predicate IsHangul(c: char) {
    0xAC00 <= c as int <= 0xD7AF
  }

  /** `/[가-힯]/.test(text)` */
  predicate HasHangul(text: string) {
    exists k | 0 <= k < |text| :: IsHangul(text[k])
  }

  /** The prompt builders' test: the lower-cased language names "korean" or is written "한국어". */
  predicate PromptIsKorean(language: string) {
    Contains(Lower(language), "korean") || Contains(Lower(language), "한국어")
  }

  /** The quality validator's test: the lower-cased language names "korean". */
  predicate ValidationIsKorean(language: string) {
    Contains(Lower(language), "korean")
  }

  /** Whatever the validator treats as Korean, the prompt builders do too. */
  lemma ValidationKoreanImpliesPromptKorean(language: string)
    ensures ValidationIsKorean(language) ==> PromptIsKorean(language)
  {
  }

  /** The converse fails: a language written in Hangul gets Korean prompts but English limits. */
  lemma HangulLanguageNameDisagrees()
    ensures PromptIsKorean("한국어") && !ValidationIsKorean("한국어")
  {
    var l := Lower("한국어");
    assert l == "한국어";
    assert OccursAt(l, "한국어", 0);
    forall k: nat | k <= |l|
      ensures !OccursAt(l, "korean", k)
    {
    }
  }

  /** Both language tests ignore ASCII case. */
  lemma LanguageTestsIgnoreCase(language: string)
    ensures PromptIsKorean(language) == PromptIsKorean(Lower(language))
    ensures ValidationIsKorean(language) == ValidationIsKorean(Lower(language))
  {
    assert Lower(Lower(language)) == Lower(language);
  }

  lemma HangulTextDetected()
    ensures HasHangul("안녕하세요") && !HasHangul("Hello")
  {
    assert IsHangul("안녕하세요"[0]);
  }
}
