/** The constant tables of the name generator: the five name styles with their
    element pools, the surname list, the keyword meanings that drive keyword
    matching, and the character glossary the interpreter reads. */
module Catalog {
  import opened Results

  /** The styles `name_elements` has entries for (main.py lines 25-46); the same five
      names are config.py's `AVAILABLE_STYLES`. */
  datatype Style = Cute | Cool | Elegant | Funny | Traditional

  /** The key under which a style's elements are stored. */
  function StyleName(st: Style): string
  {
    match st
    case Cute => "cute"
    case Cool => "cool"
    case Elegant => "elegant"
    case Funny => "funny"
    case Traditional => "traditional"
  }

  /** Looks a style name up among the keys of `name_elements`; `None` where
      `name_elements[style]` raises `KeyError`. */
  function ParseStyle(s: string): (r: Option<Style>)
    ensures r.Some? ==> StyleName(r.value) == s
    ensures r.None? <==> forall st: Style :: StyleName(st) != s
  {
    if s == "cute" then Some(Cute)
    else if s == "cool" then Some(Cool)
    else if s == "elegant" then Some(Elegant)
    else if s == "funny" then Some(Funny)
    else if s == "traditional" then Some(Traditional)
    else None
  }

  /** Every style's name parses back to that style. */
  lemma ParseStyleName(st: Style)
    ensures ParseStyle(StyleName(st)) == Some(st)
  {
  }

  /** One style's entry of `name_elements`: its "male" and "female" lists. */
  datatype Elements = Elements(male: seq<string>, female: seq<string>)

  /** The entries of `name_elements` (main.py lines 26-45). */
  const CuteElements: Elements := Elements(
    ["봄", "별", "달", "꽃", "나무", "물", "바람", "구름", "비", "눈"],
    ["희", "미", "예", "연", "주", "은", "금", "옥", "진", "란"])
  const CoolElements: Elements := Elements(
    ["대", "태", "준", "호", "석", "철", "영", "수", "원", "진"],
    ["현", "지", "유", "경", "민", "정", "화", "원", "영", "혜"])
  const ElegantElements: Elements := Elements(
    ["지", "혜", "선", "정", "의", "용", "성", "민", "현", "인"],
    ["숙", "자", "라", "리", "나", "다", "사", "아", "야", "윤"])
  const FunnyElements: Elements := Elements(
    ["동", "우", "찬", "빈", "범", "택", "근", "배", "식", "규"],
    ["솔", "별", "달", "슬", "늘", "온", "참", "샘", "림", "애"])
  const TraditionalElements: Elements := Elements(
    ["왕", "신", "사", "공", "후", "군", "상", "장", "조", "석"],
    ["백", "청", "홍", "금", "은", "황", "흑", "적", "록", "자"])

  /** `name_elements[style]`. */
  function NameElements(st: Style): Elements
  {
    match st
    case Cute => CuteElements
    case Cool => CoolElements
    case Elegant => ElegantElements
    case Funny => FunnyElements
    case Traditional => TraditionalElements
  }

  /** A style's whole pool, `name_elements[style]["male"] + name_elements[style]["female"]`. */
  function Pool(st: Style): (r: seq<string>)
    ensures |r| == 20
  {
    NameElements(st).male + NameElements(st).female
  }

  /** Each string of the list is one or two characters long. */
  predicate Short(es: seq<string>)
  {
    forall i :: 0 <= i < |es| ==> 1 <= |es[i]| <= 2
  }

  /** Both lists of an entry hold only one- and two-character elements. */
  predicate ShortElements(els: Elements)
  {
    Short(els.male) && Short(els.female)
  }

  lemma CuteElementsAreShort()
    ensures ShortElements(CuteElements)
  {
  }

  lemma CoolElementsAreShort()
    ensures ShortElements(CoolElements)
  {
  }

  lemma ElegantElementsAreShort()
    ensures ShortElements(ElegantElements)
  {
  }

  lemma FunnyElementsAreShort()
    ensures ShortElements(FunnyElements)
  {
  }

  lemma TraditionalElementsAreShort()
    ensures ShortElements(TraditionalElements)
  {
  }

  /** An entry of short lists yields a pool of short elements. */
  lemma ShortElementsPool(els: Elements)
    requires ShortElements(els)
    ensures forall e :: e in els.male + els.female ==> 1 <= |e| <= 2
  {
    forall e | e in els.male + els.female
      ensures 1 <= |e| <= 2
    {
      if e in els.male {
        var i :| 0 <= i < |els.male| && els.male[i] == e;
      } else {
        var i :| 0 <= i < |els.female| && els.female[i] == e;
      }
    }
  }

  /** Every element of every pool is one or two characters long. */
  lemma PoolElementsAreShort(st: Style)
    ensures forall e :: e in Pool(st) ==> 1 <= |e| <= 2
  {
    match st {
      case Cute => CuteElementsAreShort();
      case Cool => CoolElementsAreShort();
      case Elegant => ElegantElementsAreShort();
      case Funny => FunnyElementsAreShort();
      case Traditional => TraditionalElementsAreShort();
    }
    ShortElementsPool(NameElements(st));
  }

  /** The twenty single-syllable surnames (main.py line 49). */
  const Surnames: seq<string> :=
    ["김", "이", "박", "최", "정", "강", "조", "윤", "장", "임",
     "한", "오", "서", "신", "권", "황", "안", "송", "전", "고"]

  /** Every surname is one character long. */
  lemma SurnamesAreOneCharacter()
    ensures |Surnames| == 20
    ensures forall s :: s in Surnames ==> |s| == 1
  {
  }

  /** `keyword_meanings` (main.py lines 52-76): the keywords the generator
      recognises, each with its meaning text. */
  const KeywordMeanings: map<string, string> := map[
    "봄" := "생명력, 희망, 새로운 시작",
    "여름" := "열정, 활력, 따뜻함",
    "가을" := "결실, 성숙, 풍요",
    "겨울" := "순수, 깨끗함, 인내",
    "해" := "밝음, 희망, 빛",
    "달" := "아름다움, 신비, 평온",
    "별" := "소원, 꿈, 빛남",
    "꽃" := "아름다움, 사랑, 순수",
    "나무" := "성장, 견고함, 생명력",
    "물" := "순수함, 유연함, 생명",
    "바다" := "넓은 마음, 포용력, 깊이",
    "산" := "의지, 굳건함, 높은 뜻",
    "강" := "흐름, 지속성, 역동성",
    "바람" := "자유로움, 시원함, 변화",
    "구름" := "자유로움, 몽환적, 순수",
    "비" := "은혜, 축복, 새로움",
    "눈" := "순결, 깨끗함, 아름다움",
    "귀여운" := "사랑스러움, 순수함",
    "멋진" := "훌륭함, 뛰어남",
    "예쁜" := "아름다움, 우아함",
    "강한" := "힘, 의지력",
    "똑똑한" := "지혜, 총명함",
    "착한" := "선함, 올바름"
  ]

  /** Nature words, part 1 of 3 (main.py lines 152-157). */
  const GlossNature1: seq<(string, string)> := [
      ("봄", "생명력, 희망, 새로운 시작"),
      ("여름", "열정, 활력, 따뜻함"),
      ("가을", "결실, 성숙, 풍요"),
      ("겨울", "순수, 깨끗함, 인내"),
      ("해", "밝음, 희망, 빛"),
      ("달", "아름다움, 신비, 평온")
  ]

  /** Nature words, part 2 of 3 (main.py lines 158-163). */
  const GlossNature2: seq<(string, string)> := [
      ("별", "소원, 꿈, 빛남"),
      ("꽃", "아름다움, 사랑, 순수"),
      ("나무", "성장, 견고함, 생명력"),
      ("물", "순수함, 유연함, 생명"),
      ("바다", "넓은 마음, 포용력, 깊이"),
      ("산", "의지, 굳건함, 높은 뜻")
  ]

  /** Nature words, part 3 of 3 (main.py lines 164-168). */
  const GlossNature3: seq<(string, string)> := [
      ("강", "흐름, 지속성, 역동성"),
      ("바람", "자유로움, 시원함, 변화"),
      ("구름", "자유로움, 몽환적, 순수"),
      ("비", "은혜, 축복, 새로움"),
      ("눈", "순결, 깨끗함, 아름다움")
  ]

  /** Virtues, part 1 of 3 (main.py lines 171-178). */
  const GlossVirtues1: seq<(string, string)> := [
      ("지", "지혜, 총명함, 슬기로움"),
      ("혜", "은혜, 자비로움, 지혜"),
      ("선", "선함, 착함, 올바름"),
      ("정", "정직, 바름, 올곧음"),
      ("의", "의로움, 정의, 올바름"),
      ("용", "용기, 용맹함, 드래곤"),
      ("성", "성실함, 진실함, 별"),
      ("민", "민첩함, 영민함, 백성")
  ]

  /** Virtues, part 2 of 3 (main.py lines 179-186). */
  const GlossVirtues2: seq<(string, string)> := [
      ("현", "현명함, 지혜로움, 어질다"),
      ("인", "어질다, 사람다움, 인자함"),
      ("효", "효도, 부모님 사랑"),
      ("충", "충성심, 진실함"),
      ("예", "예의, 공손함, 아름다움"),
      ("신", "믿음, 신뢰, 신실함"),
      ("겸", "겸손함, 겸양"),
      ("관", "관찰력, 넓은 시야")
  ]

  /** Virtues, part 3 of 3 (main.py lines 187-192). */
  const GlossVirtues3: seq<(string, string)> := [
      ("경", "공경, 존경, 조심"),
      ("순", "순수함, 순진함, 따름"),
      ("온", "온화함, 따뜻함"),
      ("화", "화목, 평화, 꽃"),
      ("평", "평화, 평온함"),
      ("안", "평안함, 안전함")
  ]

  /** Common elements of male names, part 1 of 4 (main.py lines 195-201). */
  const GlossMale1: seq<(string, string)> := [
      ("대", "큰, 위대한, 크다"),
      ("태", "큰, 태양, 위대한"),
      ("준", "높은, 준수한, 기준"),
      ("호", "큰, 넓은, 호수"),
      ("석", "바위, 견고함, 돌"),
      ("철", "쇠, 의지, 견고함"),
      ("영", "영원함, 빛남, 영광")
  ]

  /** Common elements of male names, part 2 of 4 (main.py lines 202-208). */
  const GlossMale2: seq<(string, string)> := [
      ("수", "물, 맑음, 오래삶, 뛰어남"),
      ("원", "원만함, 둥글음, 근원"),
      ("진", "진실, 참된, 나아감"),
      ("건", "건강, 튼튼함, 세움"),
      ("강", "강함, 굳셈, 강물"),
      ("혁", "변화, 개혁, 가죽"),
      ("훈", "가르침, 훈련, 공훈")
  ]

  /** Common elements of male names, part 3 of 4 (main.py lines 209-215). */
  const GlossMale3: seq<(string, string)> := [
      ("환", "환한, 밝은, 즐거운"),
      ("완", "완전함, 마무리"),
      ("창", "창조, 창문, 창"),
      ("섭", "잡다, 대신하다, 섭정"),
      ("규", "규칙, 법도, 둥근"),
      ("식", "먹다, 심다, 알다"),
      ("근", "뿌리, 근본, 근면")
  ]

  /** Common elements of male names, part 4 of 4 (main.py lines 216-222). */
  const GlossMale4: seq<(string, string)> := [
      ("배", "배우다, 베풀다, 배"),
      ("동", "움직임, 동쪽, 어린이"),
      ("우", "비, 오른쪽, 도움"),
      ("찬", "칭찬, 찬양, 차가운"),
      ("빈", "빈틈없는, 손님"),
      ("범", "범위, 호랑이, 법"),
      ("택", "선택, 택하다")
  ]

  /** Common elements of female names, part 1 of 7 (main.py lines 225-232). */
  const GlossFemale1: seq<(string, string)> := [
      ("희", "희망, 기쁨, 밝음"),
      ("미", "아름다움, 미소"),
      ("예", "예쁨, 우아함, 예술"),
      ("연", "연꽃, 이어짐, 부드러움"),
      ("주", "구슬, 붉은색, 주인"),
      ("은", "은색, 고귀함, 은혜"),
      ("금", "금, 귀함, 소중함"),
      ("옥", "옥, 보석, 아름다움")
  ]

  /** Common elements of female names, part 2 of 7 (main.py lines 233-240). */
  const GlossFemale2: seq<(string, string)> := [
      ("진", "진주, 진실, 귀함"),
      ("란", "난초, 우아함"),
      ("매", "매화, 아름다움"),
      ("국", "나라, 국화"),
      ("영", "꽃잎, 영원, 영특함"),
      ("숙", "숙녀, 어른스러움"),
      ("자", "자녀, 사랑, 자다"),
      ("라", "나팔, 소라")
  ]

  /** Common elements of female names, part 3 of 7 (main.py lines 241-248). */
  const GlossFemale3: seq<(string, string)> := [
      ("리", "리듬, 이치"),
      ("나", "나, 자신"),
      ("다", "많다, 다양함"),
      ("사", "넷, 사랑"),
      ("아", "아름다움, 아기"),
      ("야", "밤, 들"),
      ("윤", "윤기, 윤택함"),
      ("서", "서쪽, 시원함, 책")
  ]

  /** Common elements of female names, part 4 of 7 (main.py lines 249-256). */
  const GlossFemale4: seq<(string, string)> := [
      ("하", "하늘, 아래, 큰"),
      ("혜", "지혜, 은혜"),
      ("지", "지혜, 의지"),
      ("유", "흐름, 있음, 놀다"),
      ("경", "경치, 경험, 공경"),
      ("민", "민첩, 백성"),
      ("정", "정성, 바름"),
      ("화", "꽃, 화목")
  ]

  /** Common elements of female names, part 5 of 7 (main.py lines 257-264). */
  const GlossFemale5: seq<(string, string)> := [
      ("원", "원만, 소원"),
      ("현", "현명함, 현실"),
      ("영", "영원, 영광"),
      ("혜", "은혜, 지혜"),
      ("진", "진실, 진주"),
      ("선", "선함, 착함"),
      ("미", "아름다움, 미소"),
      ("수", "물, 뛰어남")
  ]

  /** Common elements of female names, part 6 of 7 (main.py lines 265-272). */
  const GlossFemale6: seq<(string, string)> := [
      ("은", "은혜, 은색"),
      ("애", "사랑, 애정"),
      ("림", "숲, 나무들"),
      ("빈", "빈틈없는, 완전한"),
      ("솔", "소나무, 솔직함"),
      ("별", "별, 특별함"),
      ("달", "달, 다다름"),
      ("슬", "슬기, 지혜")
  ]

  /** Common elements of female names, part 7 of 7, re-declaring the seasons (main.py lines 273-280). */
  const GlossFemale7: seq<(string, string)> := [
      ("늘", "항상, 늘"),
      ("온", "온전함, 따뜻함"),
      ("참", "참, 진실"),
      ("샘", "샘물, 근원"),
      ("봄", "봄, 생명력"),
      ("가을", "가을, 결실"),
      ("겨울", "겨울, 순수"),
      ("여름", "여름, 열정")
  ]

  /** Colours, part 1 of 2 (main.py lines 283-287). */
  const GlossColours1: seq<(string, string)> := [
      ("백", "하얀색, 순수함"),
      ("청", "파란색, 맑음"),
      ("홍", "빨간색, 열정"),
      ("금", "황금색, 귀함"),
      ("은", "은색, 고귀함")
  ]

  /** Colours, part 2 of 2 (main.py lines 288-292). */
  const GlossColours2: seq<(string, string)> := [
      ("황", "황금, 노란색"),
      ("흑", "검은색, 깊이"),
      ("적", "빨간색, 열정"),
      ("록", "녹색, 자연"),
      ("자", "자주색, 고귀함")
  ]

  /** Occupations and rank (main.py lines 295-302). */
  const GlossRanks: seq<(string, string)> := [
      ("왕", "임금, 왕"),
      ("신", "신하, 믿음"),
      ("사", "선비, 사람"),
      ("공", "공적, 공평함"),
      ("후", "뒤, 후손"),
      ("군", "군자, 임금"),
      ("상", "위, 높음"),
      ("장", "기다림, 어른")
  ]

  /** Times of day and seasons (main.py lines 305-311). */
  const GlossTimes: seq<(string, string)> := [
      ("조", "아침, 이른"),
      ("석", "저녁, 바위"),
      ("야", "밤, 들판"),
      ("춘", "봄"),
      ("하", "여름"),
      ("추", "가을"),
      ("동", "겨울")
  ]

  /** Compass directions (main.py lines 314-318). */
  const GlossDirections: seq<(string, string)> := [
      ("동", "동쪽"),
      ("서", "서쪽"),
      ("남", "남쪽"),
      ("북", "북쪽"),
      ("중", "가운데")
  ]

  /** The glossary literal of `get_name_meaning` (main.py lines 150-319) as the ordered
      list of its 153 entries, repeated keys included. */
  const GlossaryEntries: seq<(string, string)> :=
    GlossNature1 + GlossNature2 + GlossNature3 + GlossVirtues1 + GlossVirtues2 + GlossVirtues3
    + GlossMale1 + GlossMale2 + GlossMale3 + GlossMale4 + GlossFemale1 + GlossFemale2
    + GlossFemale3 + GlossFemale4 + GlossFemale5 + GlossFemale6 + GlossFemale7 + GlossColours1
    + GlossColours2 + GlossRanks + GlossTimes + GlossDirections

  /** The dictionary a Python literal with these entries builds: entries are applied
      in order and a repeated key keeps the value of its last entry. */
  function FromPairs(ps: seq<(string, string)>): (m: map<string, string>)
    ensures forall i :: 0 <= i < |ps| ==> ps[i].0 in m
  {
    if |ps| == 0 then map[]
    else FromPairs(ps[..|ps| - 1])[ps[|ps| - 1].0 := ps[|ps| - 1].1]
  }

  /** The effective glossary: one gloss per key, the last declared one. */
  const Glossary: map<string, string> := FromPairs(GlossaryEntries)

  /** The value stored under a key is the one its last entry gives. */
  lemma {:induction false} FromPairsLastWins(ps: seq<(string, string)>, i: nat)
    requires i < |ps|
    requires forall j :: i < j < |ps| ==> ps[j].0 != ps[i].0
    ensures ps[i].0 in FromPairs(ps) && FromPairs(ps)[ps[i].0] == ps[i].1
  {
    if i < |ps| - 1 {
      FromPairsLastWins(ps[..|ps| - 1], i);
    }
  }

  /** Every value in the dictionary comes from an entry with that key. */
  lemma {:induction false} FromPairsValueFromEntry(ps: seq<(string, string)>, k: string)
    requires k in FromPairs(ps)
    ensures exists i :: 0 <= i < |ps| && ps[i] == (k, FromPairs(ps)[k])
  {
    var last := ps[|ps| - 1];
    if last.0 != k {
      var init := ps[..|ps| - 1];
      FromPairsValueFromEntry(init, k);
      var i :| 0 <= i < |init| && init[i] == (k, FromPairs(init)[k]);
      assert ps[i] == init[i];
    } else {
      assert ps[|ps| - 1] == (k, FromPairs(ps)[k]);
    }
  }

  /** Building from two lists in turn: entries of the second override the first. */
  lemma {:induction false} FromPairsAppend(a: seq<(string, string)>, b: seq<(string, string)>)
    ensures FromPairs(a + b) == FromPairs(a) + FromPairs(b)
    decreases |b|
  {
    if |b| > 0 {
      var init := b[..|b| - 1];
      assert (a + b)[..|a + b| - 1] == a + init;
      FromPairsAppend(a, init);
    } else {
      assert a + b == a;
    }
  }

  /** No entry of the list has key `k`. */
  predicate Lacks(ps: seq<(string, string)>, k: string)
  {
    forall i :: 0 <= i < |ps| ==> ps[i].0 != k
  }

  /** A key whose last entry lies in the appended chunk `c` maps to that entry's
      value, whatever came before. */
  lemma FromPairsLastInChunk(x: seq<(string, string)>, c: seq<(string, string)>, i: nat)
    requires i < |c|
    requires forall j :: i < j < |c| ==> c[j].0 != c[i].0
    ensures c[i].0 in FromPairs(x + c) && FromPairs(x + c)[c[i].0] == c[i].1
  {
    FromPairsAppend(x, c);
    FromPairsLastWins(c, i);
  }

  /** Appending a chunk without key `k` leaves the value under `k` as it was. */
  lemma FromPairsSkipChunk(x: seq<(string, string)>, c: seq<(string, string)>, k: string)
    requires Lacks(c, k)
    ensures k in FromPairs(x + c) <==> k in FromPairs(x)
    ensures k in FromPairs(x) ==> FromPairs(x + c)[k] == FromPairs(x)[k]
  {
    FromPairsAppend(x, c);
    if k in FromPairs(c) {
      FromPairsValueFromEntry(c, k);
    }
  }

  /** No entry after line 261 has key "진". */
  lemma LaterChunksLackJin()
    ensures Lacks(GlossFemale6, "진")
    ensures Lacks(GlossFemale7, "진")
    ensures Lacks(GlossColours1, "진")
    ensures Lacks(GlossColours2, "진")
    ensures Lacks(GlossRanks, "진")
    ensures Lacks(GlossTimes, "진")
    ensures Lacks(GlossDirections, "진")
  {
  }

  /** No entry after line 277 has key "봄". */
  lemma LaterChunksLackBom()
    ensures Lacks(GlossColours1, "봄")
    ensures Lacks(GlossColours2, "봄")
    ensures Lacks(GlossRanks, "봄")
    ensures Lacks(GlossTimes, "봄")
    ensures Lacks(GlossDirections, "봄")
  {
  }

  /** "진" is declared three times (main.py lines 204, 233 and 261); the last gloss,
      "진실, 진주", is the one `get_name_meaning` uses. */
  lemma JinKeepsLastGloss()
    ensures "진" in Glossary && Glossary["진"] == "진실, 진주"
  {
    LaterChunksLackJin();
    var p := GlossNature1 + GlossNature2 + GlossNature3 + GlossVirtues1 + GlossVirtues2
      + GlossVirtues3 + GlossMale1 + GlossMale2 + GlossMale3 + GlossMale4
      + GlossFemale1 + GlossFemale2 + GlossFemale3 + GlossFemale4;
    FromPairsLastInChunk(p, GlossFemale5, 4);
    p := p + GlossFemale5;
    FromPairsSkipChunk(p, GlossFemale6, "진");
    p := p + GlossFemale6;
    FromPairsSkipChunk(p, GlossFemale7, "진");
    p := p + GlossFemale7;
    FromPairsSkipChunk(p, GlossColours1, "진");
    p := p + GlossColours1;
    FromPairsSkipChunk(p, GlossColours2, "진");
    p := p + GlossColours2;
    FromPairsSkipChunk(p, GlossRanks, "진");
    p := p + GlossRanks;
    FromPairsSkipChunk(p, GlossTimes, "진");
    p := p + GlossTimes;
    FromPairsSkipChunk(p, GlossDirections, "진");
  }

  /** "봄" is declared among the nature words (line 152) and again among the female
      elements (line 277); the later gloss "봄, 생명력" wins. */
  lemma BomKeepsLastGloss()
    ensures "봄" in Glossary && Glossary["봄"] == "봄, 생명력"
  {
    LaterChunksLackBom();
    var p := GlossNature1 + GlossNature2 + GlossNature3 + GlossVirtues1 + GlossVirtues2
      + GlossVirtues3 + GlossMale1 + GlossMale2 + GlossMale3 + GlossMale4
      + GlossFemale1 + GlossFemale2 + GlossFemale3 + GlossFemale4 + GlossFemale5
      + GlossFemale6;
    FromPairsLastInChunk(p, GlossFemale7, 4);
    p := p + GlossFemale7;
    FromPairsSkipChunk(p, GlossColours1, "봄");
    p := p + GlossColours1;
    FromPairsSkipChunk(p, GlossColours2, "봄");
    p := p + GlossColours2;
    FromPairsSkipChunk(p, GlossRanks, "봄");
    p := p + GlossRanks;
    FromPairsSkipChunk(p, GlossTimes, "봄");
    p := p + GlossTimes;
    FromPairsSkipChunk(p, GlossDirections, "봄");
  }

  /** "동" is declared among the male elements (line 217), among the times and
      seasons (line 311) and among the directions (line 314); the directions'
      "동쪽" wins. */
  lemma DongKeepsLastGloss()
    ensures "동" in Glossary && Glossary["동"] == "동쪽"
  {
    var p := GlossNature1 + GlossNature2 + GlossNature3 + GlossVirtues1 + GlossVirtues2
      + GlossVirtues3 + GlossMale1 + GlossMale2 + GlossMale3 + GlossMale4
      + GlossFemale1 + GlossFemale2 + GlossFemale3 + GlossFemale4 + GlossFemale5
      + GlossFemale6 + GlossFemale7 + GlossColours1 + GlossColours2 + GlossRanks
      + GlossTimes;
    FromPairsLastInChunk(p, GlossDirections, 0);
  }

  /** Two lists without key `k` make a list without it. */
  lemma LacksAppend(a: seq<(string, string)>, b: seq<(string, string)>, k: string)
    requires Lacks(a, k) && Lacks(b, k)
    ensures Lacks(a + b, k)
  {
    forall i | 0 <= i < |a + b|
      ensures (a + b)[i].0 != k
    {
      if i >= |a| {
        assert (a + b)[i] == b[i - |a|];
      }
    }
  }

  /** A key no entry has is not a key of the dictionary. */
  lemma LacksNotIn(ps: seq<(string, string)>, k: string)
    requires Lacks(ps, k)
    ensures k !in FromPairs(ps)
  {
    if k in FromPairs(ps) {
      FromPairsValueFromEntry(ps, k);
    }
  }

  /** No entry of GlossNature1 to GlossVirtues3 has key "이". */
  lemma ChunksLackI1()
    ensures Lacks(GlossNature1, "이")
    ensures Lacks(GlossNature2, "이")
    ensures Lacks(GlossNature3, "이")
    ensures Lacks(GlossVirtues1, "이")
    ensures Lacks(GlossVirtues2, "이")
    ensures Lacks(GlossVirtues3, "이")
  {
  }

  /** No entry of GlossMale1 to GlossFemale2 has key "이". */
  lemma ChunksLackI2()
    ensures Lacks(GlossMale1, "이")
    ensures Lacks(GlossMale2, "이")
    ensures Lacks(GlossMale3, "이")
    ensures Lacks(GlossMale4, "이")
    ensures Lacks(GlossFemale1, "이")
    ensures Lacks(GlossFemale2, "이")
  {
  }

  /** No entry of GlossFemale3 to GlossFemale7 has key "이". */
  lemma ChunksLackI3()
    ensures Lacks(GlossFemale3, "이")
    ensures Lacks(GlossFemale4, "이")
    ensures Lacks(GlossFemale5, "이")
    ensures Lacks(GlossFemale6, "이")
    ensures Lacks(GlossFemale7, "이")
  {
  }

  /** No entry of GlossColours1 to GlossDirections has key "이". */
  lemma ChunksLackI4()
    ensures Lacks(GlossColours1, "이")
    ensures Lacks(GlossColours2, "이")
    ensures Lacks(GlossRanks, "이")
    ensures Lacks(GlossTimes, "이")
    ensures Lacks(GlossDirections, "이")
  {
  }

  /** "이", the second-commonest surname, has no gloss: no entry of the glossary has
      that key. */
  lemma GlossaryLacksI()
    ensures "이" !in Glossary
  {
    ChunksLackI1();
    ChunksLackI2();
    ChunksLackI3();
    ChunksLackI4();
    var p := GlossNature1;
    LacksAppend(p, GlossNature2, "이");
    p := p + GlossNature2;
    LacksAppend(p, GlossNature3, "이");
    p := p + GlossNature3;
    LacksAppend(p, GlossVirtues1, "이");
    p := p + GlossVirtues1;
    LacksAppend(p, GlossVirtues2, "이");
    p := p + GlossVirtues2;
    LacksAppend(p, GlossVirtues3, "이");
    p := p + GlossVirtues3;
    LacksAppend(p, GlossMale1, "이");
    p := p + GlossMale1;
    LacksAppend(p, GlossMale2, "이");
    p := p + GlossMale2;
    LacksAppend(p, GlossMale3, "이");
    p := p + GlossMale3;
    LacksAppend(p, GlossMale4, "이");
    p := p + GlossMale4;
    LacksAppend(p, GlossFemale1, "이");
    p := p + GlossFemale1;
    LacksAppend(p, GlossFemale2, "이");
    p := p + GlossFemale2;
    LacksAppend(p, GlossFemale3, "이");
    p := p + GlossFemale3;
    LacksAppend(p, GlossFemale4, "이");
    p := p + GlossFemale4;
    LacksAppend(p, GlossFemale5, "이");
    p := p + GlossFemale5;
    LacksAppend(p, GlossFemale6, "이");
    p := p + GlossFemale6;
    LacksAppend(p, GlossFemale7, "이");
    p := p + GlossFemale7;
    LacksAppend(p, GlossColours1, "이");
    p := p + GlossColours1;
    LacksAppend(p, GlossColours2, "이");
    p := p + GlossColours2;
    LacksAppend(p, GlossRanks, "이");
    p := p + GlossRanks;
    LacksAppend(p, GlossTimes, "이");
    p := p + GlossTimes;
    LacksAppend(p, GlossDirections, "이");
    p := p + GlossDirections;
    LacksNotIn(p, "이");
  }

  /** No gloss of an entry list contains a colon. */
  predicate ColonFree(ps: seq<(string, string)>)
  {
    forall i :: 0 <= i < |ps| ==> ':' !in ps[i].1
  }

  // One lemma per chunk: each proof is a separate, small solver query.

  lemma GlossNature1ColonFree()
    ensures ColonFree(GlossNature1)
  {
  }

  lemma GlossNature2ColonFree()
    ensures ColonFree(GlossNature2)
  {
  }

  lemma GlossNature3ColonFree()
    ensures ColonFree(GlossNature3)
  {
  }

  lemma GlossVirtues1ColonFree()
    ensures ColonFree(GlossVirtues1)
  {
  }

  lemma GlossVirtues2ColonFree()
    ensures ColonFree(GlossVirtues2)
  {
  }

  lemma GlossVirtues3ColonFree()
    ensures ColonFree(GlossVirtues3)
  {
  }

  lemma GlossMale1ColonFree()
    ensures ColonFree(GlossMale1)
  {
  }

  lemma GlossMale2ColonFree()
    ensures ColonFree(GlossMale2)
  {
  }

  lemma GlossMale3ColonFree()
    ensures ColonFree(GlossMale3)
  {
  }

  lemma GlossMale4ColonFree()
    ensures ColonFree(GlossMale4)
  {
  }

  lemma GlossFemale1ColonFree()
    ensures ColonFree(GlossFemale1)
  {
  }

  lemma GlossFemale2ColonFree()
    ensures ColonFree(GlossFemale2)
  {
  }

  lemma GlossFemale3ColonFree()
    ensures ColonFree(GlossFemale3)
  {
  }

  lemma GlossFemale4ColonFree()
    ensures ColonFree(GlossFemale4)
  {
  }

  lemma GlossFemale5ColonFree()
    ensures ColonFree(GlossFemale5)
  {
  }

  lemma GlossFemale6ColonFree()
    ensures ColonFree(GlossFemale6)
  {
  }

  lemma GlossFemale7ColonFree()
    ensures ColonFree(GlossFemale7)
  {
  }

  lemma GlossColours1ColonFree()
    ensures ColonFree(GlossColours1)
  {
  }

  lemma GlossColours2ColonFree()
    ensures ColonFree(GlossColours2)
  {
  }

  lemma GlossRanksColonFree()
    ensures ColonFree(GlossRanks)
  {
  }

  lemma GlossTimesColonFree()
    ensures ColonFree(GlossTimes)
  {
  }

  lemma GlossDirectionsColonFree()
    ensures ColonFree(GlossDirections)
  {
  }

  /** Two colon-free entry lists make a colon-free list. */
  lemma ColonFreeAppend(a: seq<(string, string)>, b: seq<(string, string)>)
    requires ColonFree(a) && ColonFree(b)
    ensures ColonFree(a + b)
  {
    forall i | 0 <= i < |a + b|
      ensures ':' !in (a + b)[i].1
    {
      if i >= |a| {
        assert (a + b)[i] == b[i - |a|];
      }
    }
  }

  /** No value of the effective glossary contains a colon, so none contains the
      `": "` that `get_name_meaning` splits its entries on. */
  lemma GlossaryColonFree()
    ensures forall k :: k in Glossary ==> ':' !in Glossary[k]
  {
    GlossNature1ColonFree();
    GlossNature2ColonFree();
    GlossNature3ColonFree();
    GlossVirtues1ColonFree();
    GlossVirtues2ColonFree();
    GlossVirtues3ColonFree();
    GlossMale1ColonFree();
    GlossMale2ColonFree();
    GlossMale3ColonFree();
    GlossMale4ColonFree();
    GlossFemale1ColonFree();
    GlossFemale2ColonFree();
    GlossFemale3ColonFree();
    GlossFemale4ColonFree();
    GlossFemale5ColonFree();
    GlossFemale6ColonFree();
    GlossFemale7ColonFree();
    GlossColours1ColonFree();
    GlossColours2ColonFree();
    GlossRanksColonFree();
    GlossTimesColonFree();
    GlossDirectionsColonFree();
    var p := GlossNature1;
    ColonFreeAppend(p, GlossNature2);
    p := p + GlossNature2;
    ColonFreeAppend(p, GlossNature3);
    p := p + GlossNature3;
    ColonFreeAppend(p, GlossVirtues1);
    p := p + GlossVirtues1;
    ColonFreeAppend(p, GlossVirtues2);
    p := p + GlossVirtues2;
    ColonFreeAppend(p, GlossVirtues3);
    p := p + GlossVirtues3;
    ColonFreeAppend(p, GlossMale1);
    p := p + GlossMale1;
    ColonFreeAppend(p, GlossMale2);
    p := p + GlossMale2;
    ColonFreeAppend(p, GlossMale3);
    p := p + GlossMale3;
    ColonFreeAppend(p, GlossMale4);
    p := p + GlossMale4;
    ColonFreeAppend(p, GlossFemale1);
    p := p + GlossFemale1;
    ColonFreeAppend(p, GlossFemale2);
    p := p + GlossFemale2;
    ColonFreeAppend(p, GlossFemale3);
    p := p + GlossFemale3;
    ColonFreeAppend(p, GlossFemale4);
    p := p + GlossFemale4;
    ColonFreeAppend(p, GlossFemale5);
    p := p + GlossFemale5;
    ColonFreeAppend(p, GlossFemale6);
    p := p + GlossFemale6;
    ColonFreeAppend(p, GlossFemale7);
    p := p + GlossFemale7;
    ColonFreeAppend(p, GlossColours1);
    p := p + GlossColours1;
    ColonFreeAppend(p, GlossColours2);
    p := p + GlossColours2;
    ColonFreeAppend(p, GlossRanks);
    p := p + GlossRanks;
    ColonFreeAppend(p, GlossTimes);
    p := p + GlossTimes;
    ColonFreeAppend(p, GlossDirections);
    p := p + GlossDirections;
    forall k | k in Glossary
      ensures ':' !in Glossary[k]
    {
      FromPairsValueFromEntry(p, k);
    }
  }
}
