/** The suggestion lookup: three canned improvement tips per main category,
    with a generic list for any key the table does not hold. */
module Solutions {
  import opened Categories

  /** The tips for each known category key. */
  const SolutionTable: map<string, seq<string>> := map[
    "electricity" := ["태양광 패널 설치하기", "에너지 효율 높은 가전제품 사용하기", "사용하지 않는 전기 제품 플러그 뽑기"],
    "car" := ["대중교통 이용하기", "전기차로 전환하기", "자동차 여럿이 같이 타기"],
    "water" := ["물 절약 샤워기 설치하기", "빨래할 때 물 재활용하기", "세탁량 30% 줄이기"],
    "food" := ["채소 위주 식단 가지기", "집에서 직접 음식 만들기", "음식 쓰레기 줄이기"]
  ]

  /** The tips shown for a key that is not in the table. */
  const GenericSolutions: seq<string> := ["에너지 절약하기", "재활용 실천하기", "친환경 제품 사용하기"]

  /** The lookup behind the solutions block: always three tips, the generic ones
      exactly when the key names none of the four categories. */
  function SolutionsFor(mainCategory: string): (r: seq<string>)
    ensures |r| == 3
    ensures r == GenericSolutions <==> forall c: Category :: mainCategory != c.Name()
  {
    if mainCategory in SolutionTable then
      assert SolutionTable.Keys == {Water.Name(), Electricity.Name(), Food.Name(), Car.Name()};
      assert SolutionTable[mainCategory][0][0] != GenericSolutions[0][0];
      SolutionTable[mainCategory]
    else
      assert forall c: Category :: c.Name() in SolutionTable;
      GenericSolutions
  }

  /** Each of the four categories has its own list: different categories never
      share their tips. */
  lemma SolutionsDistinct(c: Category, d: Category)
    ensures SolutionsFor(c.Name()) == SolutionsFor(d.Name()) <==> c == d
  {
    NameInjective(c, d);
  }
}
