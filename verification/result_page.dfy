/** The pure display helpers of the result screen: three helpers over one
    three-way score band, a seven-way status, the progress clamp and the
    icon and description tables. Scores are modelled as integers. */
module ResultPage {
  import Normalizer

  /** The three bands shared by colour, background and status text. */
  datatype Band = Good | Fair | Poor

  function BandOf(score: int): Band {
    if score >= 80 then Good else if score >= 60 then Fair else Poor
  }

  function ScoreColor(score: int): string {
    if score >= 80 then "text-green-600"
    else if score >= 60 then "text-orange-600"
    else "text-red-600"
  }

  function BgColor(score: int): string {
    if score >= 80 then "bg-green-100"
    else if score >= 60 then "bg-orange-100"
    else "bg-red-100"
  }

  function StatusText(score: int): string {
    if score >= 80 then "우수한 상태"
    else if score >= 60 then "주의 필요"
    else "관리 필요"
  }

  /** Colour, background and status text each tell exactly the band of a
      score apart: two scores get the same value from one helper iff they
      lie in the same band, so the three helpers always agree. */
  lemma {:induction false} ThreeHelpersShareBands(a: int, b: int)
    ensures ScoreColor(a) == ScoreColor(b) <==> BandOf(a) == BandOf(b)
    ensures BgColor(a) == BgColor(b) <==> BandOf(a) == BandOf(b)
    ensures StatusText(a) == StatusText(b) <==> BandOf(a) == BandOf(b)
  {
    assert "text-green-600" != "text-orange-600" && "text-orange-600" != "text-red-600" && "text-green-600" != "text-red-600" by {
      assert "text-green-600"[5] != "text-orange-600"[5] && "text-orange-600"[5] != "text-red-600"[5];
      assert "text-green-600"[5] != "text-red-600"[5];
    }
    assert "bg-green-100" != "bg-orange-100" && "bg-orange-100" != "bg-red-100" && "bg-green-100" != "bg-red-100" by {
      assert "bg-green-100"[3] != "bg-orange-100"[3] && "bg-orange-100"[3] != "bg-red-100"[3];
      assert "bg-green-100"[3] != "bg-red-100"[3];
    }
    assert "우수한 상태" != "주의 필요" && "주의 필요" != "관리 필요" && "우수한 상태" != "관리 필요" by {
      assert "우수한 상태"[0] != "주의 필요"[0] && "주의 필요"[0] != "관리 필요"[0];
      assert "우수한 상태"[0] != "관리 필요"[0];
    }
  }

  /** The seven-way status, thresholds 90/80/70/60/50/40. */
  function DetailedStatus(score: int): string {
    if score >= 90 then "매우 우수"
    else if score >= 80 then "우수"
    else if score >= 70 then "양호"
    else if score >= 60 then "보통"
    else if score >= 50 then "주의"
    else if score >= 40 then "관리 필요"
    else "즉시 관리 필요"
  }

  /** The statuses from best (6) to worst (0); -1 for any other text. */
  function StatusRank(status: string): int {
    match status
    case "매우 우수" => 6
    case "우수" => 5
    case "양호" => 4
    case "보통" => 3
    case "주의" => 2
    case "관리 필요" => 1
    case "즉시 관리 필요" => 0
    case _ => -1
  }

  /** A higher score never gets a worse status. */
  lemma {:induction false} DetailedStatusMonotone(a: int, b: int)
    requires a <= b
    ensures 0 <= StatusRank(DetailedStatus(a)) <= StatusRank(DetailedStatus(b)) <= 6
  {
  }

  /** The seven bands refine the three: a good score is "매우 우수" or
      "우수", a fair one "양호" or "보통", a poor one one of the three
      lowest statuses. */
  lemma {:induction false} DetailedStatusRefinesBands(score: int)
    ensures BandOf(score) == Good <==> DetailedStatus(score) in {"매우 우수", "우수"}
    ensures BandOf(score) == Fair <==> DetailedStatus(score) in {"양호", "보통"}
    ensures BandOf(score) == Poor <==> DetailedStatus(score) in {"주의", "관리 필요", "즉시 관리 필요"}
  {
    var s := DetailedStatus(score);
    assert StatusRank(s) >= 0;
    assert s in {"매우 우수", "우수"} <==> StatusRank(s) >= 5;
    assert s in {"양호", "보통"} <==> 3 <= StatusRank(s) <= 4;
    assert s in {"주의", "관리 필요", "즉시 관리 필요"} <==> 0 <= StatusRank(s) <= 2;
  }

  /** `Math.min(Math.max(score, 0), 100)`: always a percentage, and the
      identity on percentages. */
  function ScoreProgress(score: int): (r: int)
    ensures 0 <= r <= 100
    ensures 0 <= score <= 100 ==> r == score
    ensures score < 0 ==> r == 0
    ensures score > 100 ==> r == 100
  {
    var atLeastZero := if score > 0 then score else 0;
    if atLeastZero < 100 then atLeastZero else 100
  }

  /** The progress is idempotent and monotone. */
  lemma ScoreProgressIdempotentMonotone(a: int, b: int)
    ensures ScoreProgress(ScoreProgress(a)) == ScoreProgress(a)
    ensures a <= b ==> ScoreProgress(a) <= ScoreProgress(b)
  {
  }

  function RecommendationIcon(category: string): string {
    match category
    case "생활 습관" => "🌙"
    case "영양 관리" => "🥗"
    case "스킨케어" => "🧴"
    case "운동" => "💪"
    case "수분 섭취" => "💧"
    case "스트레스 관리" => "\U{1F9D8}\U{200D}\U{2642}\U{FE0F}"
    case "휴식" => "😴"
    case _ => "💡"
  }

  const IconRecommendationCategories: set<string> :=
    {"생활 습관", "영양 관리", "스킨케어", "운동", "수분 섭취", "스트레스 관리", "휴식"}

  /** The bulb is the fallback icon and no listed category uses it. */
  lemma RecommendationIconFallback(category: string)
    ensures RecommendationIcon(category) == "💡" <==> category !in IconRecommendationCategories
  {
  }

  /** Two of the service's canned advice categories are not in the icon
      table and show the bulb; the three default recommendations have their
      own icons. */
  lemma {:induction false} CannedCategoriesIcons()
    ensures RecommendationIcon("수분 관리") == "💡"
    ensures RecommendationIcon("운동 및 마사지") == "💡"
    ensures forall k :: 0 <= k < |Normalizer.FallbackRecommendations| ==>
      RecommendationIcon(Normalizer.FallbackRecommendations[k].category) != "💡"
  {
    forall k | 0 <= k < |Normalizer.FallbackRecommendations|
      ensures RecommendationIcon(Normalizer.FallbackRecommendations[k].category) != "💡"
    {
      RecommendationIconFallback(Normalizer.FallbackRecommendations[k].category);
    }
  }

  /** The seven detail categories the result screen knows. */
  const DetailCategories: set<string> :=
    {"피부 상태", "피로도", "혈색", "부기", "눈가 주름", "수분 상태", "스트레스 지표"}

  function CategoryIcon(category: string): string {
    match category
    case "피부 상태" => "✨"
    case "피로도" => "😴"
    case "혈색" => "🌹"
    case "부기" => "💧"
    case "눈가 주름" => "\U{1F441}\U{FE0F}"
    case "수분 상태" => "💦"
    case "스트레스 지표" => "😬"
    case _ => "📊"
  }

  function CategoryDescription(category: string): string {
    match category
    case "피부 상태" => "피부 탄력, 주름, 모공, 전반적 피부 건강도"
    case "피로도" => "눈가 다크서클, 표정 피로감, 전반적 활력도"
    case "혈색" => "얼굴 혈색, 순환 상태, 자연스러운 안색"
    case "부기" => "얼굴 및 눈 주변 부종, 수분 정체 상태"
    case "눈가 주름" => "미세 주름, 표정 주름, 눈가 탄력도"
    case "수분 상태" => "피부 수분도, 건조함, 유분 밸런스"
    case "스트레스 지표" => "표정 긴장도, 이마 주름, 전반적 스트레스 징후"
    case _ => "건강 상태 분석 항목"
  }

  /** Known categories get their own icon and description; every other
      category gets the chart icon and the generic description. */
  lemma CategoryTablesFallback(category: string)
    ensures CategoryIcon(category) == "📊" <==> category !in DetailCategories
    ensures CategoryDescription(category) == "건강 상태 분석 항목" <==> category !in DetailCategories
  {
  }

  /** Every default detail the service fills in has a specific icon and
      description. */
  lemma {:induction false} FallbackDetailsAreKnown(k: int)
    requires 0 <= k < |Normalizer.FallbackCategories|
    ensures Normalizer.FallbackCategories[k] in DetailCategories
    ensures CategoryIcon(Normalizer.FallbackCategories[k]) != "📊"
    ensures CategoryDescription(Normalizer.FallbackCategories[k]) != "건강 상태 분석 항목"
  {
    CategoryTablesFallback(Normalizer.FallbackCategories[k]);
  }
}
