/** `suggest_name_keywords` (main.py lines 355-374): the keyword catalogue grouped by
    category, its size, and how its keywords relate to `keyword_meanings`. */
module Suggestions {
  import opened Catalog
  import opened Synthesis

  /** The dictionary `suggest_name_keywords` returns (lines 370-374). */
  datatype Suggestions = Suggestions(keywordCategories: seq<(string, seq<string>)>,
                                     totalKeywords: nat, message: string)

  /** Category 자연, nature (line 362). */
  const NatureKeywords: seq<string> :=
    ["봄", "여름", "가을", "겨울", "해", "달", "별", "꽃", "나무", "물", "바다", "산", "강", "바람", "구름", "비", "눈"]

  /** Category 성격, personality (line 363). */
  const TraitKeywords: seq<string> :=
    ["귀여운", "멋진", "예쁜", "강한", "똑똑한", "착한", "용감한", "친절한", "밝은", "따뜻한"]

  /** Category 색깔, colour (line 364). */
  const ColourKeywords: seq<string> :=
    ["빨간", "파란", "노란", "초록", "보라", "하얀", "검은", "금색", "은색"]

  /** Category 감정, feeling (line 365). */
  const FeelingKeywords: seq<string> :=
    ["기쁜", "행복한", "사랑스러운", "평화로운", "희망적인", "즐거운"]

  /** Category 직업, occupation (line 366). */
  const OccupationKeywords: seq<string> :=
    ["의사", "선생님", "화가", "음악가", "작가", "과학자", "운동선수"]

  /** Category 동물, animal (line 367). */
  const AnimalKeywords: seq<string> :=
    ["호랑이", "사자", "독수리", "돌고래", "나비", "토끼", "강아지", "고양이"]

  /** The `keywords` dictionary of lines 361-368, in declaration order. */
  const KeywordCategories: seq<(string, seq<string>)> := [
    ("자연", NatureKeywords), ("성격", TraitKeywords), ("색깔", ColourKeywords),
    ("감정", FeelingKeywords), ("직업", OccupationKeywords), ("동물", AnimalKeywords)
  ]

  /** The message of line 373. */
  const SuggestionMessage: string := "이름 생성에 사용할 수 있는 키워드들을 카테고리별로 정리했습니다."

  /** `sum(len(words) for words in keywords.values())` (line 372): the number of
      keywords listed, category by category. */
  function TotalKeywords(categories: seq<(string, seq<string>)>): (n: nat)
    ensures n == |AllKeywords(categories)|
  {
    if |categories| == 0 then 0 else |categories[0].1| + TotalKeywords(categories[1..])
  }

  /** Every keyword of every category, category by category. */
  function AllKeywords(categories: seq<(string, seq<string>)>): seq<string>
  {
    if |categories| == 0 then [] else categories[0].1 + AllKeywords(categories[1..])
  }

  /** A keyword is listed exactly when some category lists it. */
  lemma {:induction false} AllKeywordsMembership(categories: seq<(string, seq<string>)>, k: string)
    ensures k in AllKeywords(categories) <==> exists c :: 0 <= c < |categories| && k in categories[c].1
  {
    if |categories| > 0 {
      AllKeywordsMembership(categories[1..], k);
      if k in AllKeywords(categories[1..]) {
        var c :| 0 <= c < |categories[1..]| && k in categories[1..][c].1;
        assert k in categories[c + 1].1;
      }
      if exists c :: 0 <= c < |categories| && k in categories[c].1 {
        var c :| 0 <= c < |categories| && k in categories[c].1;
        if c > 0 {
          assert k in categories[1..][c - 1].1;
        }
      }
    }
  }

  /** `suggest_name_keywords()` (lines 355-374). */
  function SuggestNameKeywords(): (r: Suggestions)
    ensures r.keywordCategories == KeywordCategories
    ensures r.totalKeywords == |AllKeywords(r.keywordCategories)|
    ensures r.message == SuggestionMessage
  {
    Suggestions(KeywordCategories, TotalKeywords(KeywordCategories), SuggestionMessage)
  }

  /** Six categories with distinct names and 57 keywords in all. */
  lemma FiftySevenKeywords()
    ensures |SuggestNameKeywords().keywordCategories| == 6
    ensures forall i, j :: 0 <= i < j < 6 ==> KeywordCategories[i].0 != KeywordCategories[j].0
    ensures SuggestNameKeywords().totalKeywords == 57
  {
    assert TotalKeywords(KeywordCategories[5..]) == 8;
    assert TotalKeywords(KeywordCategories[4..]) == 15;
    assert TotalKeywords(KeywordCategories[3..]) == 21;
    assert TotalKeywords(KeywordCategories[2..]) == 30;
    assert TotalKeywords(KeywordCategories[1..]) == 40;
  }

  /** Every nature keyword is a key of `keyword_meanings`. */
  lemma NatureKeywordsAreRecognised()
    ensures forall k :: k in NatureKeywords ==> k in KeywordMeanings
  {
  }

  /** The first six personality keywords are keys of `keyword_meanings`; the last four
      are not. */
  lemma TraitKeywordsSplit()
    ensures forall i :: 0 <= i < |TraitKeywords| ==> (TraitKeywords[i] in KeywordMeanings <==> i < 6)
  {
  }

  /** No colour keyword is a key of `keyword_meanings`. */
  lemma ColourKeywordsAreUnrecognised()
    ensures forall k :: k in ColourKeywords ==> k !in KeywordMeanings
  {
  }

  /** No feeling keyword is a key of `keyword_meanings`. */
  lemma FeelingKeywordsAreUnrecognised()
    ensures forall k :: k in FeelingKeywords ==> k !in KeywordMeanings
  {
  }

  /** No occupation keyword is a key of `keyword_meanings`. */
  lemma OccupationKeywordsAreUnrecognised()
    ensures forall k :: k in OccupationKeywords ==> k !in KeywordMeanings
  {
  }

  /** No animal keyword is a key of `keyword_meanings`. */
  lemma AnimalKeywordsAreUnrecognised()
    ensures forall k :: k in AnimalKeywords ==> k !in KeywordMeanings
  {
  }

  /** Keywords taken only from the colour, feeling, occupation and animal categories,
      or from the last four personality keywords, never narrow the head: it is drawn
      from the whole pool of the style. */
  lemma UnrecognisedSuggestionsUsePool(st: Style, keywords: seq<string>)
    requires forall k :: k in keywords ==>
      k in TraitKeywords[6..] + ColourKeywords + FeelingKeywords + OccupationKeywords + AnimalKeywords
    ensures HeadPool(TablesFor(st), keywords) == Pool(st)
  {
    TraitKeywordsSplit();
    ColourKeywordsAreUnrecognised();
    FeelingKeywordsAreUnrecognised();
    OccupationKeywordsAreUnrecognised();
    AnimalKeywordsAreUnrecognised();
    forall k | k in keywords
      ensures k !in KeywordMeanings
    {
      if k in TraitKeywords[6..] {
        var i :| 0 <= i < |TraitKeywords[6..]| && TraitKeywords[6..][i] == k;
        assert TraitKeywords[i + 6] == k;
      }
    }
    UnrecognisedKeywordsUsePool(TablesFor(st), keywords);
  }
}
