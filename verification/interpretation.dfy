/** `get_name_meaning` (main.py lines 139-352): splitting a name into family and
    given name, glossing each character of the given name, and the narrative built
    from the glosses. The glossary is a parameter `g`; `Interpret` applies the
    source's glossary. */
module Interpretation {
  import opened Results
  import opened Text
  import opened Catalog
  import opened Synthesis

  /** Gloss of a character that is not a key of the glossary (line 333). */
  const UnknownGloss: string := "고유한 의미를 담은 특별한 글자"

  /** Gloss of a whole name shorter than two characters (line 337). */
  const ShortNameGloss: string := "독특하고 특별한 이름"

  /** The separator between a label and its gloss in a meaning entry. */
  const LabelSeparator: string := ": "

  /** The dictionary `get_name_meaning` returns (lines 346-352). */
  datatype Interpretation = Interpretation(name: string, familyName: string, givenName: string,
                                           meanings: seq<string>, interpretation: string)

  /** The gloss of one character: the glossary looks up the one-character string. */
  function CharGloss(g: map<string, string>, c: char): string
  {
    if [c] in g then g[[c]] else UnknownGloss
  }

  /** A meaning entry `f"{label}: {gloss}"`. */
  function MeaningEntry(lead: string, gloss: string): string
  {
    lead + LabelSeparator + gloss
  }

  /** The loop of lines 327-333: one entry per character of the given name. */
  function CharMeanings(g: map<string, string>, given: string): (r: seq<string>)
    ensures |r| == |given|
    ensures forall i :: 0 <= i < |given| ==> r[i] == MeaningEntry([given[i]], CharGloss(g, given[i]))
  {
    if |given| == 0 then []
    else [MeaningEntry([given[0]], CharGloss(g, given[0]))] + CharMeanings(g, given[1..])
  }

  /** `given_meanings` on both branches of line 322: the i-th entry labels the i-th
      gloss of the name with its character, or with the whole name when it is
      shorter than two characters. */
  function GivenMeanings(g: map<string, string>, name: string): (r: seq<string>)
    ensures |r| == |Glosses(g, name)|
    ensures forall i :: 0 <= i < |r| ==> r[i] == MeaningEntry(Leads(name)[i], Glosses(g, name)[i])
  {
    if |name| >= 2 then CharMeanings(g, name[1..]) else [MeaningEntry(name, ShortNameGloss)]
  }

  /** `[meaning.split(': ')[1] for meaning in given_meanings]` (line 341); `None`
      where an entry has no second piece and Python raises `IndexError`. It fails
      exactly when some entry lacks the separator, and otherwise the i-th part is
      the second piece of the i-th entry. */
  function MeaningParts(entries: seq<string>): (r: Option<seq<string>>)
    ensures r.Some? <==> forall i :: 0 <= i < |entries| ==> IsSubstring(LabelSeparator, entries[i])
    ensures r.Some? ==> |r.value| == |entries|
    ensures r.Some? ==> forall i :: 0 <= i < |entries| ==> Field(entries[i], LabelSeparator, 1) == Some(r.value[i])
  {
    if |entries| == 0 then Some([])
    else
      match Field(entries[0], LabelSeparator, 1)
      case None => None
      case Some(part) =>
        match MeaningParts(entries[1..])
        case None => None
        case Some(rest) => Some([part] + rest)
  }

  /** The narrative of line 342: it quotes the name and the parts joined by ", ". */
  function Narrative(name: string, parts: seq<string>): (r: string)
    ensures OccursAt(r, name, 1)
    ensures IsSubstring(Join(parts, ", "), r)
  {
    var r := "'" + name + "'은(는) " + Join(parts, ", ") + "을(를) 의미하는 아름다운 이름입니다.";
    assert OccursAt(r, Join(parts, ", "), 1 + |name| + |"'은(는) "|);
    r
  }

  /** The narrative of line 344, for an empty list of meanings: it quotes the name. */
  function PlainNarrative(name: string): (r: string)
    ensures OccursAt(r, name, 1)
  {
    "'" + name + "'은(는) 특별한 의미를 담은 아름다운 이름입니다."
  }

  /** The two templates never produce the same text: the one of line 344 ends in
      "...담은 아름다운 이름입니다.", the one of line 342 in "...의미하는 아름다운
      이름입니다.". */
  lemma PlainNarrativeDiffers(name: string, parts: seq<string>)
    ensures PlainNarrative(name) != Narrative(name, parts)
  {
    var plainEnd := "'은(는) 특별한 의미를 담은 아름다운 이름입니다.";
    var glossEnd := "을(를) 의미하는 아름다운 이름입니다.";
    var p := PlainNarrative(name);
    var n := Narrative(name, parts);
    assert p == "'" + name + plainEnd;
    assert n == "'" + name + "'은(는) " + Join(parts, ", ") + glossEnd;
    assert p[|p| - 13] == plainEnd[|plainEnd| - 13] == '은';
    assert n[|n| - 13] == glossEnd[|glossEnd| - 13] == '는';
  }

  /** `get_name_meaning(name)` with glossary `g` (lines 321-352). */
  function InterpretWith(g: map<string, string>, name: string): (r: Result<Interpretation>)
    ensures r.Err? ==> r.error == IndexError
    ensures r.Ok? ==> r.value.name == name && r.value.familyName + r.value.givenName == name
    ensures r.Ok? ==> |r.value.familyName| == (if |name| >= 2 then 1 else 0)
    ensures r.Ok? ==> |r.value.meanings| == (if |name| >= 2 then |name| - 1 else 1)
  {
    var family := if |name| >= 2 then name[..1] else "";
    var given := if |name| >= 2 then name[1..] else name;
    var meanings := GivenMeanings(g, name);
    if |meanings| > 0 then
      match MeaningParts(meanings)
      case None => Err(IndexError)
      case Some(parts) => Ok(Interpretation(name, family, given, meanings, Narrative(name, parts)))
    else
      Ok(Interpretation(name, family, given, meanings, PlainNarrative(name)))
  }

  /** `get_name_meaning` with the source's glossary. */
  function Interpret(name: string): Result<Interpretation>
  {
    InterpretWith(Glossary, name)
  }

  /** The glosses a name's meanings carry: one per character of the given name, or
      the short-name gloss. */
  function Glosses(g: map<string, string>, name: string): (r: seq<string>)
    ensures |r| == (if |name| >= 2 then |name| - 1 else 1)
  {
    if |name| >= 2 then seq(|name| - 1, i requires 0 <= i < |name| - 1 => CharGloss(g, name[i + 1]))
    else [ShortNameGloss]
  }

  /** The glossary's values hold no colon. */
  predicate ColonFreeValues(g: map<string, string>)
  {
    forall k :: k in g ==> ':' !in g[k]
  }

  /** Every entry of `given_meanings` has the label, the separator and a gloss; the
      label is one character, or the whole name when it is shorter than two. */
  lemma MeaningsAreLabelled(g: map<string, string>, name: string, i: nat)
    requires i < |GivenMeanings(g, name)|
    ensures var lead := if |name| >= 2 then [name[i + 1]] else name;
      |lead| <= 1 && GivenMeanings(g, name)[i] == MeaningEntry(lead, Glosses(g, name)[i])
  {
  }

  /** Each entry with a one-character label splits into its label and gloss. */
  lemma {:induction false} MeaningPartsAreGlosses(entries: seq<string>, leads: seq<string>, glosses: seq<string>)
    requires |entries| == |leads| == |glosses|
    requires forall i :: 0 <= i < |entries| ==> |leads[i]| <= 1 && ':' !in glosses[i]
    requires forall i :: 0 <= i < |entries| ==> entries[i] == MeaningEntry(leads[i], glosses[i])
    ensures MeaningParts(entries) == Some(glosses)
  {
    if |entries| > 0 {
      SplitLabelled(leads[0], LabelSeparator, glosses[0]);
      MeaningPartsAreGlosses(entries[1..], leads[1..], glosses[1..]);
      assert glosses == [glosses[0]] + glosses[1..];
    }
  }

  /** The entries of `given_meanings` always have a second piece, whatever the glossary
      holds: the call never raises `IndexError`. */
  lemma {:induction false} MeaningPartsNeverFail(entries: seq<string>, leads: seq<string>, glosses: seq<string>)
    requires |entries| == |leads| == |glosses|
    requires forall i :: 0 <= i < |entries| ==> entries[i] == MeaningEntry(leads[i], glosses[i])
    ensures MeaningParts(entries).Some?
  {
    if |entries| > 0 {
      var e := entries[0];
      assert e[|leads[0]|..|leads[0]| + 2] == LabelSeparator;
      assert OccursAt(e, LabelSeparator, |leads[0]|);
      MeaningPartsNeverFail(entries[1..], leads[1..], glosses[1..]);
    }
  }

  /** The labels of a name's meaning entries. */
  function Leads(name: string): (r: seq<string>)
    ensures |r| == (if |name| >= 2 then |name| - 1 else 1)
  {
    if |name| >= 2 then seq(|name| - 1, i requires 0 <= i < |name| - 1 => [name[i + 1]])
    else [name]
  }

  /** `get_name_meaning` succeeds for every name and every glossary, and reports the
      per-character meaning entries. */
  lemma InterpretNeverFails(g: map<string, string>, name: string)
    ensures InterpretWith(g, name).Ok?
    ensures InterpretWith(g, name).value.meanings == GivenMeanings(g, name)
  {
    var meanings := GivenMeanings(g, name);
    forall i | 0 <= i < |meanings|
      ensures meanings[i] == MeaningEntry(Leads(name)[i], Glosses(g, name)[i])
    {
      MeaningsAreLabelled(g, name, i);
    }
    MeaningPartsNeverFail(meanings, Leads(name), Glosses(g, name));
  }

  /** A one-character prefix followed by a non-empty rest is read as family name and
      given name. */
  lemma FamilyAndGiven(g: map<string, string>, family: string, given: string)
    requires |family| == 1 && |given| >= 1
    ensures InterpretWith(g, family + given).Ok?
    ensures InterpretWith(g, family + given).value.familyName == family
    ensures InterpretWith(g, family + given).value.givenName == given
  {
    var name := family + given;
    InterpretNeverFails(g, name);
    assert name[..1] == family && name[1..] == given;
  }

  /** With a glossary whose glosses hold no colon, the narrative quotes exactly the
      glosses of the name's characters (or the short-name gloss), joined by ", ", in
      the template of line 342; the template of line 344 is never used. */
  lemma InterpretationQuotesGlosses(g: map<string, string>, name: string)
    requires ColonFreeValues(g)
    ensures InterpretWith(g, name).Ok?
    ensures InterpretWith(g, name).value.interpretation == Narrative(name, Glosses(g, name))
  {
    var meanings := GivenMeanings(g, name);
    var glosses := Glosses(g, name);
    forall i | 0 <= i < |meanings|
      ensures |Leads(name)[i]| <= 1 && ':' !in glosses[i]
      ensures meanings[i] == MeaningEntry(Leads(name)[i], glosses[i])
    {
      MeaningsAreLabelled(g, name, i);
      assert ':' !in UnknownGloss && ':' !in ShortNameGloss;
    }
    MeaningPartsAreGlosses(meanings, Leads(name), glosses);
  }

  /** Each character of the given name is glossed by its one-character key when the
      glossary has it, and by the fallback otherwise (lines 328-333). */
  lemma MeaningOfEachCharacter(g: map<string, string>, name: string, i: nat)
    requires 1 <= i < |name|
    ensures InterpretWith(g, name).Ok?
    ensures [name[i]] in g ==>
      InterpretWith(g, name).value.meanings[i - 1] == MeaningEntry([name[i]], g[[name[i]]])
    ensures [name[i]] !in g ==>
      InterpretWith(g, name).value.meanings[i - 1] == MeaningEntry([name[i]], UnknownGloss)
  {
    InterpretNeverFails(g, name);
    var given := name[1..];
    assert given[i - 1] == name[i];
    assert GivenMeanings(g, name)[i - 1] == MeaningEntry([name[i]], CharGloss(g, name[i]));
  }

  /** A name shorter than two characters has no family name and is glossed as a whole
      (lines 334-337). */
  lemma ShortNameMeaning(g: map<string, string>, name: string)
    requires |name| < 2
    ensures InterpretWith(g, name).Ok?
    ensures InterpretWith(g, name).value.familyName == ""
    ensures InterpretWith(g, name).value.givenName == name
    ensures InterpretWith(g, name).value.meanings == [MeaningEntry(name, ShortNameGloss)]
  {
    InterpretNeverFails(g, name);
    assert GivenMeanings(g, name) == [MeaningEntry(name, ShortNameGloss)];
  }

  /** The glossary restricted to one-character keys. */
  function SingleCharacterKeys(g: map<string, string>): (r: map<string, string>)
    ensures forall k :: k in r <==> k in g && |k| == 1
  {
    map k | k in g && |k| == 1 :: g[k]
  }

  /** Lookups are per character, so multi-character keys ("여름", "나무", ...) never
      affect the result: dropping them changes nothing. */
  lemma MultiCharacterKeysIgnored(g: map<string, string>, name: string)
    ensures InterpretWith(g, name) == InterpretWith(SingleCharacterKeys(g), name)
  {
    var h := SingleCharacterKeys(g);
    forall c: char
      ensures CharGloss(g, c) == CharGloss(h, c)
    {
      if [c] in g {
        assert [c] in h;
      }
    }
    assert GivenMeanings(g, name) == GivenMeanings(h, name);
  }

  /** Interpreting a generated name recovers the drawn surname as the family name and
      the drawn elements as the given name, since surnames are one character and
      elements are not empty. */
  lemma GeneratedNameInterpretation(g: map<string, string>, t: Tables, keywords: seq<string>, d: Draw)
    requires Drawable(t)
    requires forall s :: s in t.surnames ==> |s| == 1
    requires forall e :: e in t.pool ==> |e| >= 1
    ensures InterpretWith(g, FullName(t, keywords, d)).Ok?
    ensures InterpretWith(g, FullName(t, keywords, d)).value.familyName == Pick(t.surnames, d.surname)
    ensures InterpretWith(g, FullName(t, keywords, d)).value.givenName ==
      var head := Pick(HeadPool(t, keywords), d.head);
      if d.oneElement then head else head + Pick(t.pool, d.second)
  {
    var s := Pick(t.surnames, d.surname);
    var head := Pick(HeadPool(t, keywords), d.head);
    HeadPoolRule(t, keywords, head);
    var given := if d.oneElement then head else head + Pick(t.pool, d.second);
    assert FullName(t, keywords, d) == s + given;
    FamilyAndGiven(g, s, given);
  }

  /** For the source's tables, whatever the glossary: the family name of a generated
      name is one of the surnames. */
  lemma GeneratedNamesKeepSurname(g: map<string, string>, st: Style, keywords: seq<string>, d: Draw)
    ensures InterpretWith(g, FullName(TablesFor(st), keywords, d)).Ok?
    ensures InterpretWith(g, FullName(TablesFor(st), keywords, d)).value.familyName in Surnames
  {
    SurnamesAreOneCharacter();
    PoolElementsAreShort(st);
    GeneratedNameInterpretation(g, TablesFor(st), keywords, d);
  }

  /** With the source's glossary the narrative quotes the glosses. */
  lemma InterpretQuotesGlossary(name: string)
    ensures Interpret(name).Ok?
    ensures Interpret(name).value.interpretation == Narrative(name, Glosses(Glossary, name))
  {
    GlossaryColonFree();
    InterpretationQuotesGlosses(Glossary, name);
  }

  /** The glosses of "김봄이": "봄" by its last declaration (line 277), and "이",
      which has no key, by the fallback. */
  lemma TestNameGlosses()
    ensures Leads("김봄이") == ["봄", "이"]
    ensures Glosses(Glossary, "김봄이") == ["봄, 생명력", UnknownGloss]
  {
    BomKeepsLastGloss();
    GlossaryLacksI();
    assert "김봄이"[1] == '봄' && ['봄'] == "봄";
    assert "김봄이"[2] == '이' && ['이'] == "이";
  }

  /** The test script's name "김봄이": family name "김"; "봄" is glossed by its last
      declaration (line 277) and "이", which has no key, by the fallback gloss. */
  lemma TestNameExample()
    ensures Interpret("김봄이").Ok?
    ensures Interpret("김봄이").value.familyName == "김"
    ensures Interpret("김봄이").value.givenName == "봄이"
    ensures Interpret("김봄이").value.meanings == [MeaningEntry("봄", "봄, 생명력"), MeaningEntry("이", UnknownGloss)]
    ensures Interpret("김봄이").value.interpretation == Narrative("김봄이", ["봄, 생명력", UnknownGloss])
  {
    TestNameGlosses();
    InterpretNeverFails(Glossary, "김봄이");
    InterpretQuotesGlossary("김봄이");
    assert "김봄이"[..1] == "김" && "김봄이"[1..] == "봄이";
  }
}
