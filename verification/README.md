# Korean name generator — a Dafny model

This project models the three tools of the keyword-based Korean name generator
(`main.py`):

- `generate_korean_name(keywords, style, count)` draws a surname and a "head"
  element. The head comes from the style's elements that are keys of
  `keyword_meanings` and whose meaning contains a keyword that is itself a key
  (main.py:92, 96), or from the whole style pool when nothing matches. A coin then
  decides whether a second element from the whole pool follows. The call returns
  `count` such names (clamped to 1..10) with a description and a summary message.
- `get_name_meaning(name)` splits a name into family name (first character) and
  given name. It glosses every character of the given name through a character
  glossary, or glosses the whole name when it is shorter than two characters. It
  builds a narrative from the glosses, which it recovers with
  `meaning.split(': ')[1]`.
- `suggest_name_keywords()` returns six keyword categories, the number of keywords
  (57) and a fixed message.

The modules follow the program's structure:

| file | module | contents |
|---|---|---|
| `results.dfy` | `Results` | `Option` and `Result`; `KeyError`/`IndexError` stand for the Python exceptions |
| `text.dfy` | `Text` | Python string operations the code uses: `in` on strings, `str.split`, `str.join`, the decimal rendering of an `int` |
| `catalog.dfy` | `Catalog` | the constant tables: styles, `name_elements`, surnames, `keyword_meanings`, and the 153-entry glossary literal with its repeated keys |
| `synthesis.dfy` | `Synthesis` | `generate_korean_name` |
| `interpretation.dfy` | `Interpretation` | `get_name_meaning` |
| `suggestions.dfy` | `Suggestions` | `suggest_name_keywords` |

How the model handles the source's runtime behaviour:

- **Randomness.** Each `random.choice(xs)` becomes `Pick(xs, k)`, which is
  `xs[k % |xs|]` for an outcome `k` the caller supplies. The outcomes of loop
  iteration `i` are the caller's `draws(i)`: surname, head, coin, second element.
- **Tables.** The synthesis logic is written over a `Tables` value (surnames, pool,
  keyword meanings). The source's tables are `TablesFor(style)`. The interpreter
  takes its glossary as a parameter `g`, and `Interpret` supplies the source's
  glossary.
- **Duplicate keys.** A Python dict literal keeps the last value of a repeated
  key. `FromPairs` models this on the ordered list of entries.
- **Invalid style.** A style other than the five keys of `name_elements` makes the
  first table access raise `KeyError`, on every path through the loop.
  `GenerateKoreanName` returns `Err(KeyError(style))` in that case.

Facts about `main.py` that shape the model:

- `style` defaults to "cute" and `count` to 5 (main.py:13). `GenerateKoreanName`
  takes the same defaults. Its `draws` parameter comes before them, so
  `GenerateKoreanName(keywords, draws)` is the call with `keywords` alone. The
  function has no gender parameter.
- Names have two to five characters. Surnames have one character, and elements
  such as "나무" have two, so "김나무바람" is possible.
- Only keywords that are keys of `keyword_meanings` are used (main.py:92). Such a
  keyword selects the style's elements that are keys too and whose meaning
  contains it as a substring (main.py:96). A keyword that only occurs inside a
  meaning, such as "아름다움" in the meaning of "달", selects nothing.
- `suggest_name_keywords` returns `keyword_categories`, `total_keywords` and
  `message` (main.py:370-374).

## Model

| member | source | states |
|---|---|---|
| Synthesis.ClampCount | main.py:79 | the number of names is between 1 and 10: `count` itself inside that range, 1 below it, 10 above it |
| Catalog.ParseStyle | main.py:25-46 | a style string is accepted exactly when it is one of the five keys of `name_elements`, and then names that style |
| Catalog.ParseStyleName | main.py:25-46 | every style's key parses back to that style |
| Catalog.Pool | main.py:103 | a style's pool `male + female` has 20 elements |
| Catalog.PoolElementsAreShort | main.py:26-45 | every element of every style is one or two characters long |
| Catalog.SurnamesAreOneCharacter | main.py:49 | there are 20 surnames, each one character |
| Text.Contains | main.py:96 | Python's `keyword in text` holds exactly when `keyword` occurs at some position of `text` |
| Synthesis.QualifyingElementsExact | main.py:95-97 | an element survives the inner filter exactly when it is a key of `keyword_meanings` whose meaning contains the keyword |
| Synthesis.QualifyingElements | main.py:95-97 | the inner filter keeps a sub-list of the elements, each a key of `keyword_meanings` whose meaning contains the keyword |
| Synthesis.MatchingElementsExact | main.py:91-97 | an element is in `matching_elements` exactly when it is in the pool, is a key, and some recognised keyword occurs in its meaning |
| Synthesis.MatchingElements | main.py:91-97 | every element of `matching_elements` is an element of the style and a key of `keyword_meanings` |
| Synthesis.HeadPool | main.py:88-108 | the list the head is drawn from is never empty |
| Synthesis.HeadPoolRule | main.py:88-108 | an element can be the head exactly when it is matched, or, when nothing is matched, exactly when it is in the pool |
| Synthesis.UnrecognisedKeywordsUsePool | main.py:88-108 | with no keyword that is a key of `keyword_meanings`, the empty list included, the head is drawn from the whole pool |
| Synthesis.NoMatchUsesPool | main.py:99-103 | recognised keywords that occur in no element's meaning also leave the head drawn from the whole pool |
| Synthesis.LeadCharactersAbsentUsesPool | main.py:96-103 | the same, when each recognised keyword's first character is absent from every meaning |
| Synthesis.KeywordMatchesInsideMeaning | main.py:58 | keyword "비" selects the cute element "달", because "비" occurs inside "달"'s meaning "아름다움, 신비, 평온" |
| Synthesis.UnkeyedKeywordSelectsNothing | main.py:92-96 | keyword "아름다움" occurs in the meaning of "달" but is not a key of `keyword_meanings`, so the cute head is drawn from the whole pool |
| Synthesis.CuteMaleMeaningsAvoidSpringA | main.py:53-69 | the meanings of "봄", "별", "달", "꽃" and "나무" contain neither "봄" nor "귀" |
| Synthesis.CuteMaleMeaningsAvoidSpringB | main.py:53-69 | the meanings of "물", "바람", "구름", "비" and "눈" contain neither "봄" nor "귀" |
| Synthesis.CuteFemaleElementsUnkeyedA | main.py:52-76 | "희", "미", "예", "연" and "주" are not keys of `keyword_meanings` |
| Synthesis.CuteFemaleElementsUnkeyedB | main.py:52-76 | "은", "금", "옥", "진" and "란" are not keys of `keyword_meanings` |
| Synthesis.CuteMeaningsAvoidSpring | main.py:27-28 | no meaning of a cute element contains "봄" or "귀" |
| Synthesis.SpringKeywordSelectsWholePool | test_server.py:95-102 | the test script's call with keywords ["봄", "귀여운"] and style cute draws the head from the whole pool: the keyword "봄" does not select the element "봄" |
| Synthesis.Pick | main.py:85 | a draw always yields an element of the list |
| Synthesis.PickReachesEvery | main.py:85 | every element of the list is the result of some draw |
| Synthesis.FullName | main.py:85-118 | every assembled name is a surname and an allowed head, followed or not by one pool element |
| Synthesis.WellFormedNameIsDrawn | main.py:110-118 | every name of that shape is produced by some draw |
| Synthesis.FullNameLength | main.py:110-118 | with one-character surnames and one- or two-character elements, a name has two to five characters |
| Synthesis.GeneratedNameLength | main.py:110-118 | with the source's tables, every name has two to five characters |
| Synthesis.FiveCharacterNameOccurs | main.py:117-118 | the five-character name "김나무바람" can be produced |
| Synthesis.KeywordPhrase | main.py:121 | with no keywords the phrase is "일반적인"; when no keyword contains a comma, splitting the phrase at ", " gives back the keywords |
| Synthesis.Description | main.py:122 | the description quotes the keyword phrase and names the style |
| Synthesis.Message | main.py:136 | the message names the style and writes the number of names in decimal |
| Text.DecimalRoundTrip | main.py:136 | the number written in the message reads back as the number of names |
| Text.Decimal | main.py:136 | `str(n)` is a non-empty string of decimal digits with no leading zero |
| Synthesis.GenerateBatch | main.py:81-137 | the loop yields exactly `n` entries, the i-th built from the i-th draws, with the description, style and keywords echoed, and the totals and message of the result |
| Synthesis.GenerateKoreanName | main.py:13-137 | fails with `KeyError(style)` exactly for an unknown style; otherwise returns `ClampCount(count)` names built from the draws, with `total_count`, style, keywords and message |
| Synthesis.GenerateWithDefaults | main.py:13 | the call with only `keywords` succeeds with five names in the cute style, the i-th built from the i-th draws |
| Synthesis.GeneratedNamesWellFormed | main.py:83-129 | every name of a successful call has the allowed shape |
| Catalog.FromPairs | main.py:150-319 | every key of the literal is a key of the dictionary |
| Catalog.FromPairsLastWins | main.py:150-319 | a key's value is the value of its last entry |
| Catalog.FromPairsValueFromEntry | main.py:150-319 | every value comes from an entry with that key |
| Catalog.FromPairsAppend | main.py:150-319 | entries of a later part of the literal override earlier ones |
| Catalog.FromPairsLastInChunk | main.py:150-319 | a key whose last entry lies in the final part maps to that entry's value |
| Catalog.FromPairsSkipChunk | main.py:150-319 | a later part without the key leaves its value unchanged |
| Catalog.JinKeepsLastGloss | main.py:204-261 | "진", declared three times, keeps its last gloss "진실, 진주" |
| Catalog.BomKeepsLastGloss | main.py:152-277 | "봄", declared twice, keeps its later gloss "봄, 생명력" |
| Catalog.DongKeepsLastGloss | main.py:217-314 | "동", declared three times, keeps the directions' gloss "동쪽" |
| Catalog.LacksNotIn | main.py:150-319 | a key no entry has is not a key of the dictionary |
| Catalog.GlossaryLacksI | main.py:150-319 | "이" is not a key of the glossary |
| Catalog.GlossaryColonFree | main.py:150-319 | no gloss in the glossary contains a colon |
| Text.SplitJoin | main.py:341-342 | joining parts free of the separator's first character and splitting again gives the parts back |
| Text.JoinSplit | main.py:341-342 | joining the pieces of a split gives the string back |
| Text.SplitLabelled | main.py:341 | a one-character label, ": " and a colon-free gloss split into exactly the label and the gloss |
| Text.Split | main.py:341 | a split has at least one piece and at most one more than the string has characters; its first piece is the start of the string |
| Text.SplitPieces | main.py:341 | a string splits into several pieces exactly when it contains the separator, into itself alone otherwise, and no piece contains the separator |
| Text.Join | main.py:342 | a join starts with the first part, followed by the separator when there are more parts |
| Text.Field | main.py:341 | `s.split(sep)[k]` exists exactly when the split has more than `k` pieces; it never contains the separator; piece 0 always exists and is the start of `s`, all of `s` when the separator does not occur; piece 1 exists exactly when the separator occurs |
| Interpretation.CharMeanings | main.py:327-333 | one entry per character of the given name, the i-th labelled with the i-th character and carrying its gloss |
| Interpretation.GivenMeanings | main.py:322-337 | one entry per gloss of the name, the i-th labelled with the i-th given-name character (or the whole short name) and carrying the i-th gloss |
| Interpretation.MeaningParts | main.py:341 | the list comprehension fails exactly when some entry lacks ": ", and otherwise yields the second piece of each entry, in order |
| Interpretation.Narrative | main.py:342 | the narrative quotes the name and the glosses joined by ", " |
| Interpretation.PlainNarrative | main.py:344 | the fallback narrative quotes the name |
| Interpretation.PlainNarrativeDiffers | main.py:342-344 | the fallback narrative differs from every narrative of line 342 for the same name |
| Interpretation.InterpretWith | main.py:321-352 | the only failure is `IndexError`; the family and given names put together give the name back; the family name has one character for names of two or more characters and none otherwise; there is one meaning per given-name character, or a single one |
| Interpretation.InterpretNeverFails | main.py:340-341 | the call never raises, whatever the name and the glossary |
| Interpretation.MeaningPartsNeverFail | main.py:341 | every meaning entry has a second piece after ": " |
| Interpretation.MeaningPartsAreGlosses | main.py:341 | with colon-free glosses, the second piece of each entry is exactly its gloss |
| Interpretation.FamilyAndGiven | main.py:322-324 | a one-character prefix followed by a non-empty rest is read as family name and given name |
| Interpretation.InterpretationQuotesGlosses | main.py:340-344 | with colon-free glosses, the narrative is the template of line 342 quoting exactly the characters' glosses; the template of line 344 is never used |
| Interpretation.InterpretQuotesGlossary | main.py:340-342 | with the source's glossary, the narrative quotes the glosses |
| Interpretation.MeaningOfEachCharacter | main.py:328-333 | a given-name character with a one-character key gets that gloss; any other character gets "고유한 의미를 담은 특별한 글자" |
| Interpretation.ShortNameMeaning | main.py:334-337 | a name shorter than two characters has no family name and one entry "name: 독특하고 특별한 이름" |
| Interpretation.MultiCharacterKeysIgnored | main.py:328-330 | dropping every multi-character key ("여름", "나무", ...) from the glossary changes no result |
| Interpretation.GeneratedNameInterpretation | main.py:322-324 | a generated name is read back with the drawn surname as family name and the drawn elements as given name |
| Interpretation.GeneratedNamesKeepSurname | main.py:49 | with the source's tables, the family name read from any generated name is one of the surnames |
| Interpretation.TestNameGlosses | test_server.py:103-108 | the characters of "김봄이" after the family name are "봄" and "이", glossed "봄, 생명력" (the later declaration, main.py:277) and by the fallback |
| Interpretation.TestNameExample | test_server.py:103-108 | the test script's name "김봄이" has family name "김", given name "봄이", meanings "봄: 봄, 생명력" (the later declaration of "봄") and "이: 고유한 의미를 담은 특별한 글자" ("이" has no key), and the narrative quotes both glosses |
| Suggestions.SuggestNameKeywords | main.py:355-374 | returns the six categories, a total equal to the number of listed keywords, and the fixed message |
| Suggestions.TotalKeywords | main.py:372 | the summed category lengths equal the number of keywords listed |
| Suggestions.AllKeywordsMembership | main.py:361-368 | a keyword is listed exactly when some category lists it |
| Suggestions.FiftySevenKeywords | main.py:361-372 | six categories with distinct names and 57 keywords in all |
| Suggestions.NatureKeywordsAreRecognised | main.py:362 | every nature keyword is a key of `keyword_meanings` |
| Suggestions.TraitKeywordsSplit | main.py:363 | of the personality keywords, exactly the first six are keys of `keyword_meanings` |
| Suggestions.ColourKeywordsAreUnrecognised | main.py:364 | no colour keyword is a key of `keyword_meanings` |
| Suggestions.FeelingKeywordsAreUnrecognised | main.py:365 | no feeling keyword is a key of `keyword_meanings` |
| Suggestions.OccupationKeywordsAreUnrecognised | main.py:366 | no occupation keyword is a key of `keyword_meanings` |
| Suggestions.AnimalKeywordsAreUnrecognised | main.py:367 | no animal keyword is a key of `keyword_meanings` |
| Suggestions.UnrecognisedSuggestionsUsePool | main.py:92-103 | keywords taken only from the unrecognised suggestions never narrow the head: it is drawn from the whole pool |

## Left out

- FastMCP wiring: the `@mcp.tool` registration, `mcp.run()` and the JSON-RPC transport. These are process plumbing with no logic of their own.
- Probabilities: `random.choice` is modelled by caller-supplied outcomes. The model keeps each list with its repetitions, such as "원" and "영" appearing twice in the cool pool and an element matched by two keywords. It does not state the distributions.
- test_server.py: it starts the server as a subprocess. Its three calls are modelled: `Synthesis.SpringKeywordSelectsWholePool` (test_server.py:95-102), `Interpretation.TestNameExample` (test_server.py:103-108), and `Suggestions.SuggestNameKeywords` with `Suggestions.FiftySevenKeywords` (test_server.py:109-112). The subprocess and its output handling are not.
- config.py: its environment reads and server constants are not used by `main.py`. Its `AVAILABLE_STYLES` agrees with the `Style` datatype. Its gender options have no counterpart in `main.py`.
- Unicode: a Python `str` is modelled as a sequence of code points (`string`). No normalisation is involved.
- Synthesis.GenerateKoreanName: does not model that `random.choice(surnames)` is still called before the `KeyError` of an unknown style. That draw has no visible effect.
- Interpretation.InterpretationQuotesGlosses: stated for glossaries whose glosses hold no colon. The source's glossary is one (`Catalog.GlossaryColonFree`). For other glossaries the model computes the same split, but no lemma describes the result.
