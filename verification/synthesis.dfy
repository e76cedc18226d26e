/** Name synthesis: the `generate_korean_name` handler (main.py lines 13-137).
    Each `random.choice` is an explicit draw supplied by the caller, so the
    model states which names can come out, not how likely they are. */
module Synthesis {
  import opened Results
  import opened Text
  import opened Catalog

  /** `max(1, min(count, 10))` (main.py line 79): how many names a call produces. */
  function ClampCount(count: int): (n: nat)
    ensures 1 <= n <= 10
    ensures 1 <= count <= 10 ==> n == count
    ensures count < 1 ==> n == 1
    ensures count > 10 ==> n == 10
  {
    var capped := if count < 10 then count else 10;
    if 1 < capped then capped else 1
  }

  // ---------------------------------------------------------------------------
  // Keyword matching (main.py lines 88-108)
  // ---------------------------------------------------------------------------

  /** What one call reads from the constant tables: the surname list, the style's
      pool `male + female`, and `keyword_meanings`. */
  datatype Tables = Tables(surnames: seq<string>, pool: seq<string>, meanings: map<string, string>)

  /** The tables a call with style `st` reads. */
  function TablesFor(st: Style): (t: Tables)
    ensures |t.surnames| == 20 && |t.pool| == 20
  {
    Tables(Surnames, Pool(st), KeywordMeanings)
  }

  /** Both lists random draws are made from are non-empty. */
  predicate Drawable(t: Tables)
  {
    |t.surnames| > 0 && |t.pool| > 0
  }

  /** The test at main.py line 96: `element` is itself a key of `keyword_meanings`
      and `keyword` occurs inside its meaning text. */
  predicate Qualifies(t: Tables, element: string, keyword: string)
  {
    element in t.meanings && Contains(t.meanings[element], keyword)
  }

  /** The elements of `es`, in order, that qualify for `keyword` (lines 95-97): a
      sub-list of `es` made only of qualifying elements. */
  function QualifyingElements(t: Tables, es: seq<string>, keyword: string): (r: seq<string>)
    ensures |r| <= |es|
    ensures forall e :: e in r ==> e in es && Qualifies(t, e, keyword)
  {
    if |es| == 0 then []
    else (if Qualifies(t, es[0], keyword) then [es[0]] else []) + QualifyingElements(t, es[1..], keyword)
  }

  /** `matching_elements` after the loop of lines 91-97: for each keyword that is a
      key of `keyword_meanings`, the style's male then female elements that qualify.
      Walking the male list and then the female list is walking the pool. Every
      matched element is an element of the pool and a key of `keyword_meanings`. */
  function MatchingElements(t: Tables, keywords: seq<string>): (r: seq<string>)
    ensures forall e :: e in r ==> e in t.pool && e in t.meanings
  {
    if |keywords| == 0 then []
    else
      (if keywords[0] in t.meanings then QualifyingElements(t, t.pool, keywords[0]) else [])
      + MatchingElements(t, keywords[1..])
  }

  /** Element `e` of the pool is matched by the keywords: `e` is a key of
      `keyword_meanings` and one of the supplied keywords, also a key, is a substring
      of `e`'s meaning. */
  ghost predicate Matched(t: Tables, keywords: seq<string>, e: string)
  {
    && e in t.pool
    && e in t.meanings
    && exists k :: k in keywords && k in t.meanings && IsSubstring(k, t.meanings[e])
  }

  /** Some element of the pool is matched by the keywords. */
  ghost predicate AnyMatch(t: Tables, keywords: seq<string>)
  {
    exists e :: Matched(t, keywords, e)
  }

  /** The heads the source allows: a matched element when there is one, otherwise
      any element of the pool. */
  ghost predicate HeadAllowed(t: Tables, keywords: seq<string>, h: string)
  {
    if AnyMatch(t, keywords) then Matched(t, keywords, h) else h in t.pool
  }

  /** An element survives the filter of lines 95-97 exactly when it is in the list
      and qualifies. */
  lemma {:induction false} QualifyingElementsExact(t: Tables, es: seq<string>, keyword: string, e: string)
    ensures e in QualifyingElements(t, es, keyword) <==> e in es && Qualifies(t, e, keyword)
  {
    if |es| > 0 {
      QualifyingElementsExact(t, es[1..], keyword, e);
      assert es == [es[0]] + es[1..];
    }
  }

  /** An element is in `matching_elements` exactly when the keywords match it. */
  lemma {:induction false} MatchingElementsExact(t: Tables, keywords: seq<string>, e: string)
    ensures e in MatchingElements(t, keywords) <==> Matched(t, keywords, e)
  {
    if |keywords| > 0 {
      var k := keywords[0];
      var rest := keywords[1..];
      MatchingElementsExact(t, rest, e);
      QualifyingElementsExact(t, t.pool, k, e);
      if e in MatchingElements(t, keywords) {
        if e in MatchingElements(t, rest) {
          var k' :| k' in rest && k' in t.meanings && IsSubstring(k', t.meanings[e]);
          assert k' in keywords;
        } else {
          assert k in keywords;
        }
      }
      if Matched(t, keywords, e) {
        var k' :| k' in keywords && k' in t.meanings && IsSubstring(k', t.meanings[e]);
        if k' == k {
          assert e in QualifyingElements(t, t.pool, k);
        } else {
          assert k' in rest;
        }
      }
    }
  }

  /** The list the head is drawn from (lines 88-108): the matching elements when
      there are any, otherwise the whole pool. */
  function HeadPool(t: Tables, keywords: seq<string>): (r: seq<string>)
    requires Drawable(t)
    ensures |r| > 0
  {
    if |keywords| > 0 then
      var matching := MatchingElements(t, keywords);
      if |matching| > 0 then matching else t.pool
    else t.pool
  }

  /** The head rule, both ways: an element can be drawn as the head exactly when
      it is allowed. */
  lemma HeadPoolRule(t: Tables, keywords: seq<string>, h: string)
    requires Drawable(t)
    ensures h in HeadPool(t, keywords) <==> HeadAllowed(t, keywords, h)
  {
    var matching := MatchingElements(t, keywords);
    MatchingElementsExact(t, keywords, h);
    if |matching| > 0 {
      MatchingElementsExact(t, keywords, matching[0]);
      assert |keywords| > 0;
    } else if AnyMatch(t, keywords) {
      var e :| Matched(t, keywords, e);
      MatchingElementsExact(t, keywords, e);
    }
  }

  /** When none of the keywords is a key of `keyword_meanings` (the empty list
      included), the head is drawn from the whole pool. */
  lemma UnrecognisedKeywordsUsePool(t: Tables, keywords: seq<string>)
    requires Drawable(t)
    requires forall k :: k in keywords ==> k !in t.meanings
    ensures HeadPool(t, keywords) == t.pool
  {
    if |MatchingElements(t, keywords)| > 0 {
      var e := MatchingElements(t, keywords)[0];
      MatchingElementsExact(t, keywords, e);
    }
  }

  /** Keyword "비" selects element "달" of the cute style, because "비" occurs in
      "달"'s meaning "아름다움, 신비, 평온". */
  lemma KeywordMatchesInsideMeaning()
    ensures "달" in MatchingElements(TablesFor(Cute), ["비"])
  {
    var t := TablesFor(Cute);
    var meaning := KeywordMeanings["달"];
    assert meaning == "아름다움, 신비, 평온";
    assert "비" in KeywordMeanings;
    assert OccursAt(meaning, "비", 7) by { assert meaning[7..8] == "비"; }
    assert "달" in t.pool by { assert CuteElements.male[2] == "달"; }
    assert Matched(t, ["비"], "달");
    MatchingElementsExact(t, ["비"], "달");
  }

  /** A keyword that only occurs inside a meaning selects nothing: "아름다움" starts
      the meaning of "달" (line 58) but is not itself a key, so line 92 skips it
      and the cute head comes from the whole pool. */
  lemma UnkeyedKeywordSelectsNothing()
    ensures "달" in KeywordMeanings && OccursAt(KeywordMeanings["달"], "아름다움", 0)
    ensures HeadPool(TablesFor(Cute), ["아름다움"]) == Pool(Cute)
  {
    BeautyIsNoKeyword();
    UnrecognisedKeywordsUsePool(TablesFor(Cute), ["아름다움"]);
  }

  /** "아름다움" opens the meaning of "달" but is not itself a key. */
  lemma BeautyIsNoKeyword()
    ensures "달" in KeywordMeanings && OccursAt(KeywordMeanings["달"], "아름다움", 0)
    ensures "아름다움" !in KeywordMeanings
  {
  }

  /** When no recognised keyword occurs in the meaning of any pool element, the head
      is drawn from the whole pool, even though the keywords are recognised. */
  lemma NoMatchUsesPool(t: Tables, keywords: seq<string>)
    requires Drawable(t)
    requires forall e, k :: e in t.pool && e in t.meanings && k in keywords && k in t.meanings ==>
      !IsSubstring(k, t.meanings[e])
    ensures HeadPool(t, keywords) == t.pool
  {
    if |MatchingElements(t, keywords)| > 0 {
      var e := MatchingElements(t, keywords)[0];
      MatchingElementsExact(t, keywords, e);
    }
  }

  /** The meanings of the first five cute male elements contain neither "봄" nor the
      first character of "귀여운". */
  lemma CuteMaleMeaningsAvoidSpringA()
    ensures "봄" in KeywordMeanings && '봄' !in KeywordMeanings["봄"] && '귀' !in KeywordMeanings["봄"]
    ensures "별" in KeywordMeanings && '봄' !in KeywordMeanings["별"] && '귀' !in KeywordMeanings["별"]
    ensures "달" in KeywordMeanings && '봄' !in KeywordMeanings["달"] && '귀' !in KeywordMeanings["달"]
    ensures "꽃" in KeywordMeanings && '봄' !in KeywordMeanings["꽃"] && '귀' !in KeywordMeanings["꽃"]
    ensures "나무" in KeywordMeanings && '봄' !in KeywordMeanings["나무"] && '귀' !in KeywordMeanings["나무"]
  {
  }

  /** The same for the last five cute male elements. */
  lemma CuteMaleMeaningsAvoidSpringB()
    ensures "물" in KeywordMeanings && '봄' !in KeywordMeanings["물"] && '귀' !in KeywordMeanings["물"]
    ensures "바람" in KeywordMeanings && '봄' !in KeywordMeanings["바람"] && '귀' !in KeywordMeanings["바람"]
    ensures "구름" in KeywordMeanings && '봄' !in KeywordMeanings["구름"] && '귀' !in KeywordMeanings["구름"]
    ensures "비" in KeywordMeanings && '봄' !in KeywordMeanings["비"] && '귀' !in KeywordMeanings["비"]
    ensures "눈" in KeywordMeanings && '봄' !in KeywordMeanings["눈"] && '귀' !in KeywordMeanings["눈"]
  {
  }

  /** The first five cute female elements are not keys of `keyword_meanings`. */
  lemma CuteFemaleElementsUnkeyedA()
    ensures "희" !in KeywordMeanings
    ensures "미" !in KeywordMeanings
    ensures "예" !in KeywordMeanings
    ensures "연" !in KeywordMeanings
    ensures "주" !in KeywordMeanings
  {
  }

  /** The last five cute female elements are not keys of `keyword_meanings`. */
  lemma CuteFemaleElementsUnkeyedB()
    ensures "은" !in KeywordMeanings
    ensures "금" !in KeywordMeanings
    ensures "옥" !in KeywordMeanings
    ensures "진" !in KeywordMeanings
    ensures "란" !in KeywordMeanings
  {
  }

  /** No meaning of a cute element contains "봄" or the first character of "귀여운". */
  lemma CuteMeaningsAvoidSpring()
    ensures forall e :: e in Pool(Cute) && e in KeywordMeanings ==>
      '봄' !in KeywordMeanings[e] && '귀' !in KeywordMeanings[e]
  {
    CuteMaleMeaningsAvoidSpringA();
    CuteMaleMeaningsAvoidSpringB();
    CuteFemaleElementsUnkeyedA();
    CuteFemaleElementsUnkeyedB();
    assert Pool(Cute) == CuteElements.male + CuteElements.female;
  }

  /** When the first character of every recognised keyword is missing from the
      meaning of every element, the head is drawn from the whole pool. */
  lemma LeadCharactersAbsentUsesPool(t: Tables, keywords: seq<string>)
    requires Drawable(t)
    requires forall e, k :: e in t.pool && e in t.meanings && k in keywords && k in t.meanings ==>
      |k| > 0 && k[0] !in t.meanings[e]
    ensures HeadPool(t, keywords) == t.pool
  {
    forall e, k | e in t.pool && e in t.meanings && k in keywords && k in t.meanings
      ensures !IsSubstring(k, t.meanings[e])
    {
      NoLeadCharNoOccurrence(t.meanings[e], k);
    }
    NoMatchUsesPool(t, keywords);
  }

  /** The first call of the repository's test script, keywords ["봄", "귀여운"] in the
      cute style: both keywords are recognised, yet neither occurs in any element's
      meaning, so the keyword "봄" does not select the element "봄" and the head is
      drawn from the whole pool. */
  lemma SpringKeywordSelectsWholePool()
    ensures HeadPool(TablesFor(Cute), ["봄", "귀여운"]) == Pool(Cute)
  {
    CuteMeaningsAvoidSpring();
    LeadCharactersAbsentUsesPool(TablesFor(Cute), ["봄", "귀여운"]);
  }

  // ---------------------------------------------------------------------------
  // Drawing and assembling names (main.py lines 85, 100-118)
  // ---------------------------------------------------------------------------

  /** The random outcomes one iteration consumes: the surname draw, the head draw,
      the coin (`True` keeps a one-element given name) and the second-element draw. */
  datatype Draw = Draw(surname: nat, head: nat, oneElement: bool, second: nat)

  /** `random.choice(xs)` with the random outcome `k` supplied by the caller. */
  function Pick(xs: seq<string>, k: nat): (x: string)
    requires |xs| > 0
    ensures x in xs
  {
    xs[k % |xs|]
  }

  /** Every element of the list is some outcome of the draw. */
  lemma PickReachesEvery(xs: seq<string>, x: string)
    requires x in xs
    ensures exists k: nat :: Pick(xs, k) == x
  {
    var i :| 0 <= i < |xs| && xs[i] == x;
    assert Pick(xs, i) == x;
  }

  /** `full_name` of one iteration (lines 85, 110-118): a surname, an allowed head
      and, unless the coin says one element, a second element from the whole pool. */
  function FullName(t: Tables, keywords: seq<string>, d: Draw): (r: string)
    requires Drawable(t)
    ensures WellFormedName(t, keywords, r)
  {
    var surname := Pick(t.surnames, d.surname);
    var head := Pick(HeadPool(t, keywords), d.head);
    HeadPoolRule(t, keywords, head);
    if d.oneElement then surname + head
    else surname + head + Pick(t.pool, d.second)
  }

  /** A name the source can produce: a surname, an allowed head, and optionally a
      second element from the whole pool, whatever the keywords. */
  ghost predicate WellFormedName(t: Tables, keywords: seq<string>, full: string)
  {
    exists s, h :: s in t.surnames && HeadAllowed(t, keywords, h)
      && (full == s + h || exists e :: e in t.pool && full == s + h + e)
  }

  /** Conversely, every name of the allowed shape comes out of some draw. */
  lemma WellFormedNameIsDrawn(t: Tables, keywords: seq<string>, full: string)
    requires Drawable(t)
    requires WellFormedName(t, keywords, full)
    ensures exists d :: FullName(t, keywords, d) == full
  {
    var s, h :| s in t.surnames && HeadAllowed(t, keywords, h)
      && (full == s + h || exists e :: e in t.pool && full == s + h + e);
    HeadPoolRule(t, keywords, h);
    PickReachesEvery(t.surnames, s);
    PickReachesEvery(HeadPool(t, keywords), h);
    var ks: nat :| Pick(t.surnames, ks) == s;
    var kh: nat :| Pick(HeadPool(t, keywords), kh) == h;
    if full == s + h {
      assert FullName(t, keywords, Draw(ks, kh, true, 0)) == full;
    } else {
      var e :| e in t.pool && full == s + h + e;
      PickReachesEvery(t.pool, e);
      var ke: nat :| Pick(t.pool, ke) == e;
      assert FullName(t, keywords, Draw(ks, kh, false, ke)) == full;
    }
  }

  /** With one-character surnames and elements of one or two characters, a name has
      between two and five characters. */
  lemma FullNameLength(t: Tables, keywords: seq<string>, d: Draw)
    requires Drawable(t)
    requires forall s :: s in t.surnames ==> |s| == 1
    requires forall e :: e in t.pool ==> 1 <= |e| <= 2
    ensures 2 <= |FullName(t, keywords, d)| <= 5
  {
  }

  /** For the source's tables: every name has two to five characters. */
  lemma GeneratedNameLength(st: Style, keywords: seq<string>, d: Draw)
    ensures 2 <= |FullName(TablesFor(st), keywords, d)| <= 5
  {
    SurnamesAreOneCharacter();
    PoolElementsAreShort(st);
    FullNameLength(TablesFor(st), keywords, d);
  }

  /** Five characters do occur: surname "김" with the two-syllable elements
      "나무" and "바람". */
  lemma FiveCharacterNameOccurs()
    ensures exists d :: FullName(TablesFor(Cute), [], d) == "김나무바람"
  {
    var t := TablesFor(Cute);
    assert t.pool == CuteElements.male + CuteElements.female;
    assert t.pool[4] == "나무" && t.pool[6] == "바람";
    assert Surnames[0] == "김";
    assert !AnyMatch(t, []);
    assert "김나무바람" == "김" + "나무" + "바람";
    assert "김" in t.surnames && HeadAllowed(t, [], "나무") && "바람" in t.pool;
    assert WellFormedName(t, [], "김나무바람");
    WellFormedNameIsDrawn(t, [], "김나무바람");
  }

  // ---------------------------------------------------------------------------
  // Results (main.py lines 120-137)
  // ---------------------------------------------------------------------------

  /** One entry of `generated_names`. */
  datatype GeneratedName = GeneratedName(name: string, description: string, style: string, keywords: seq<string>)

  /** The dictionary `generate_korean_name` returns. */
  datatype Batch = Batch(generatedNames: seq<GeneratedName>, totalCount: nat, style: string,
                         keywords: seq<string>, message: string)

  /** `keyword_desc` (line 121): the keywords joined by ", ", or "일반적인" when the
      list is empty. When no keyword holds a comma the phrase splits back into the
      keywords. */
  function KeywordPhrase(keywords: seq<string>): (r: string)
    ensures |keywords| == 0 ==> r == "일반적인"
    ensures |keywords| > 0 && (forall i :: 0 <= i < |keywords| ==> ',' !in keywords[i]) ==>
      Split(r, ", ") == keywords
  {
    if |keywords| == 0 then "일반적인"
    else
      assert (forall i :: 0 <= i < |keywords| ==> ',' !in keywords[i]) ==>
        Split(Join(keywords, ", "), ", ") == keywords by {
        if forall i :: 0 <= i < |keywords| ==> ',' !in keywords[i] {
          SplitJoin(keywords, ", ");
        }
      }
      Join(keywords, ", ")
  }

  /** `name_desc` (line 122): it quotes the keyword phrase and names the style. */
  function Description(keywords: seq<string>, style: string): (r: string)
    ensures IsSubstring(KeywordPhrase(keywords), r)
    ensures IsSubstring(style, r)
  {
    var phrase := KeywordPhrase(keywords);
    var r := "'" + phrase + "' 키워드와 '" + style + "' 스타일로 생성된 이름";
    assert OccursAt(r, phrase, 1);
    assert OccursAt(r, style, 1 + |phrase| + |"' 키워드와 '"|);
    r
  }

  /** The summary message (line 136): it names the style and writes the number of
      names in decimal. */
  function Message(style: string, n: nat): (r: string)
    ensures IsSubstring(style, r)
    ensures IsSubstring(Decimal(n), r)
  {
    var r := "'" + style + "' 스타일로 " + Decimal(n) + "개의 이름을 생성했습니다.";
    assert OccursAt(r, style, 1);
    assert OccursAt(r, Decimal(n), 1 + |style| + |"' 스타일로 "|);
    r
  }

  /** One iteration's dictionary (lines 124-129). */
  function Entry(t: Tables, style: string, keywords: seq<string>, d: Draw): GeneratedName
    requires Drawable(t)
  {
    GeneratedName(FullName(t, keywords, d), Description(keywords, style), style, keywords)
  }

  /** The loop of lines 81-129 and the result of lines 131-137 for tables `t`:
      `n` entries, the `i`-th assembled from `draws(i)`. */
  method GenerateBatch(t: Tables, keywords: seq<string>, style: string, n: nat, draws: nat -> Draw)
    returns (b: Batch)
    requires Drawable(t)
    ensures |b.generatedNames| == n && b.totalCount == n
    ensures b.style == style && b.keywords == keywords && b.message == Message(style, n)
    ensures forall i :: 0 <= i < n ==> b.generatedNames[i] == Entry(t, style, keywords, draws(i))
  {
    var names: seq<GeneratedName> := [];
    var i := 0;
    while i < n
      invariant i <= n && |names| == i
      invariant forall j :: 0 <= j < i ==> names[j] == Entry(t, style, keywords, draws(j))
    {
      names := names + [Entry(t, style, keywords, draws(i))];
      i := i + 1;
    }
    b := Batch(names, |names|, style, keywords, Message(style, |names|));
  }

  /** `generate_korean_name(keywords, style="cute", count=5)` with the `i`-th
      iteration's random outcomes given by `draws(i)`. `draws` comes before the
      parameters with defaults, so `GenerateKoreanName(keywords, draws)` is the
      source's call with only `keywords`. A style that is not a key of
      `name_elements` raises `KeyError` on every path (lines 94, 103, 107). */
  method GenerateKoreanName(keywords: seq<string>, draws: nat -> Draw, style: string := "cute", count: int := 5)
    returns (r: Result<Batch>)
    ensures r.Err? <==> ParseStyle(style).None?
    ensures r.Err? ==> r.error == KeyError(style)
    ensures r.Ok? ==> |r.value.generatedNames| == ClampCount(count)
    ensures r.Ok? ==> r.value.totalCount == |r.value.generatedNames|
    ensures r.Ok? ==> r.value.style == style && r.value.keywords == keywords
    ensures r.Ok? ==> r.value.message == Message(style, ClampCount(count))
    ensures r.Ok? ==> forall i :: 0 <= i < |r.value.generatedNames| ==>
      var g := r.value.generatedNames[i];
      && g.name == FullName(TablesFor(ParseStyle(style).value), keywords, draws(i))
      && g.description == Description(keywords, style)
      && g.style == style
      && g.keywords == keywords
  {
    var parsed := ParseStyle(style);
    if parsed.None? {
      return Err(KeyError(style));
    }
    var b := GenerateBatch(TablesFor(parsed.value), keywords, style, ClampCount(count), draws);
    r := Ok(b);
  }

  /** Every name of a successful call has the allowed shape. */
  lemma GeneratedNamesWellFormed(keywords: seq<string>, style: string, draws: nat -> Draw, i: nat)
    requires ParseStyle(style).Some?
    ensures WellFormedName(TablesFor(ParseStyle(style).value), keywords,
                           FullName(TablesFor(ParseStyle(style).value), keywords, draws(i)))
  {
  }

  /** The source's call with `keywords` alone: five names in the cute style. */
  method GenerateWithDefaults(keywords: seq<string>, draws: nat -> Draw) returns (r: Result<Batch>)
    ensures r.Ok? && |r.value.generatedNames| == 5 && r.value.style == "cute"
    ensures forall i :: 0 <= i < 5 ==> r.value.generatedNames[i].name == FullName(TablesFor(Cute), keywords, draws(i))
  {
    r := GenerateKoreanName(keywords, draws);
  }
}
