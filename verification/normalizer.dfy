/** The repair and normalisation of the parsed model output (lines 237-301
    of the service): the face gate, the diversification of uniform scores,
    the backfill of short tips and the default fill of missing fields.

    The parsed object is mutated in place in the source; `ParsedAnalysis`
    is that object, and the functions before it specify each step on
    values. Every `Math.random()` is an integer draw `floor(random * w)`,
    so a draw for width `w` lies in `[0, w)` (`Draws`). */
module Normalizer {
  import opened Wrappers
  import opened Types
  import opened ServiceErrors

  /** `isFaceDetected` as read by `typeof`: a boolean or anything else
      (absent, null, a string, ...). */
  datatype FaceFlag = Flag(detected: bool) | NotBoolean

  /** An object produced by `JSON.parse`, reduced to the fields the code
      reads. `None` is an absent field or, for the two lists, a value that
      is not an array. A JSON array parses to an object with every field
      absent. A score of 0 is the one falsy score. */
  datatype RawPayload = RawPayload(
    isFaceDetected: FaceFlag,
    overallScore: Option<int>,
    summaryText: Option<string>,
    details: Option<seq<HealthDetail>>,
    recommendations: Option<seq<HealthRecommendation>>)

  /** What `JSON.parse` can return: `null`, a primitive, or an object. */
  datatype JsonValue = JsonNull | JsonPrimitive | JsonObject(payload: RawPayload)

  /** The random draws of one normalisation: `variation(i)` for the i-th
      detail in diversification, `overall` for a missing overall score and
      `fallback[k]` for the k-th default detail. */
  datatype Draws = Draws(variation: nat -> int, overall: int, fallback: seq<int>)

  const VariationWidth: int := 25
  const OverallWidth: int := 25
  const FallbackCategories: seq<string> :=
    ["피부 상태", "피로도", "혈색", "부기", "눈가 주름", "수분 상태", "스트레스 지표"]
  const FallbackBase: seq<int> := [75, 60, 70, 78, 65, 55, 50]
  const FallbackWidth: seq<int> := [20, 25, 20, 15, 25, 30, 25]

  /** What `Math.floor(Math.random() * w)` guarantees for every draw. */
  ghost predicate ValidDraws(d: Draws) {
    (forall i: nat :: 0 <= d.variation(i) < VariationWidth) &&
    0 <= d.overall < OverallWidth &&
    |d.fallback| == 7 &&
    (forall k :: 0 <= k < 7 ==> 0 <= d.fallback[k] < FallbackWidth[k])
  }

  // ---------------------------------------------------------------------
  // Face gate (lines 237-246)

  /** A non-boolean flag becomes `true`; an explicit `false` stops with
      `NO_FACE_DETECTED`; nothing else in the payload changes. */
  function FaceGate(p: RawPayload): (r: Result<RawPayload, ErrorKind>)
    ensures r.Err? <==> p.isFaceDetected == Flag(false)
    ensures r.Err? ==> r.error == NoFaceDetected
    ensures r.Ok? ==> r.value.isFaceDetected == Flag(true) &&
                      r.value.(isFaceDetected := p.isFaceDetected) == p
  {
    var flag := if p.isFaceDetected.NotBoolean? then Flag(true) else p.isFaceDetected;
    if flag == Flag(false) then Err(NoFaceDetected) else Ok(p.(isFaceDetected := flag))
  }

  // ---------------------------------------------------------------------
  // Score diversification (lines 248-260)

  /** `new Set(details.map(d => d.score))`. */
  function Scores(ds: seq<HealthDetail>): set<int> {
    set k | 0 <= k < |ds| :: ds[k].score
  }

  /** The trigger: more than one detail and at most two distinct scores. */
  predicate ShouldDiversify(ds: seq<HealthDetail>) {
    |ds| > 1 && |Scores(ds)| <= 2
  }

  /** `Math.max(30, Math.min(95, x))`. */
  function Clamp(x: int): (r: int)
    ensures 30 <= r <= 95
    ensures 30 <= x <= 95 ==> r == x
    ensures x < 30 ==> r == 30
    ensures x > 95 ==> r == 95
  {
    if x < 30 then 30 else if x > 95 then 95 else x
  }

  /** The new score of the detail at `index` for the draw `draw`:
      `(score || 70) + (draw - 12) + 2 * index`, clamped. */
  function Perturbed(d: HealthDetail, index: nat, draw: int): HealthDetail {
    var base := if d.score == 0 then 70 else d.score;
    d.(score := Clamp(base + (draw - 12) + index * 2))
  }

  function Diversified(ds: seq<HealthDetail>, variation: nat -> int): seq<HealthDetail> {
    seq(|ds|, k requires 0 <= k < |ds| => Perturbed(ds[k], k, variation(k)))
  }

  function DiversifyIfUniform(ds: seq<HealthDetail>, variation: nat -> int): seq<HealthDetail> {
    if ShouldDiversify(ds) then Diversified(ds, variation) else ds
  }

  /** Diversification keeps the list's length and categories; when it
      fires every score lies in [30, 95], otherwise nothing changes. */
  lemma DiversifyIfUniformSpec(ds: seq<HealthDetail>, variation: nat -> int)
    ensures var r := DiversifyIfUniform(ds, variation);
      |r| == |ds| &&
      (forall k :: 0 <= k < |ds| ==> r[k].category == ds[k].category) &&
      (ShouldDiversify(ds) ==> forall k :: 0 <= k < |ds| ==> 30 <= r[k].score <= 95) &&
      (!ShouldDiversify(ds) ==> r == ds)
  {
    if ShouldDiversify(ds) {
      var r := Diversified(ds, variation);
      assert forall k :: 0 <= k < |ds| ==> r[k] == Perturbed(ds[k], k, variation(k));
    }
  }

  /** Two or more details that all share one score always trigger. */
  lemma {:induction false} UniformScoresTrigger(ds: seq<HealthDetail>)
    requires |ds| >= 2
    requires forall k :: 0 <= k < |ds| ==> ds[k].score == ds[0].score
    ensures ShouldDiversify(ds)
  {
    assert Scores(ds) == {ds[0].score};
  }

  /** Three pairwise different scores never trigger. */
  lemma {:induction false} ThreeDistinctScoresDoNotTrigger(ds: seq<HealthDetail>, a: nat, b: nat, c: nat)
    requires a < |ds| && b < |ds| && c < |ds|
    requires ds[a].score != ds[b].score && ds[b].score != ds[c].score && ds[a].score != ds[c].score
    ensures !ShouldDiversify(ds)
  {
    var three := {ds[a].score, ds[b].score, ds[c].score};
    assert three <= Scores(ds);
    assert |three| == 3;
    SubsetCardinality(three, Scores(ds));
  }

  lemma SubsetCardinality(small: set<int>, big: set<int>)
    requires small <= big
    ensures |small| <= |big|
  {
    assert big == small + (big - small);
  }

  /** Diversification promises only the bound: clamping can merge all
      scores into one, so the result need not have more than two distinct
      scores. Three details at 100 with the largest draw all end at 95. */
  lemma DiversificationMayCollapse()
    ensures var ds := [HealthDetail("피부 상태", 100), HealthDetail("피로도", 100), HealthDetail("혈색", 100)];
      ShouldDiversify(ds) && Scores(Diversified(ds, (i: nat) => 24)) == {95}
  {
    var ds := [HealthDetail("피부 상태", 100), HealthDetail("피로도", 100), HealthDetail("혈색", 100)];
    UniformScoresTrigger(ds);
    var r := Diversified(ds, (i: nat) => 24);
    assert r[0] == Perturbed(ds[0], 0, 24) && r[1] == Perturbed(ds[1], 1, 24) && r[2] == Perturbed(ds[2], 2, 24);
    assert Scores(r) == {95} by {
      assert forall k :: 0 <= k < |r| ==> r[k].score == 95;
      assert r[0].score in Scores(r);
    }
  }

  // ---------------------------------------------------------------------
  // Tip backfill (lines 262-277)

  const LifestyleTip: string := "규칙적인 수면 패턴을 유지하고, 스트레스 관리를 위한 명상이나 요가를 실천하세요. 전자기기 사용 시간을 줄이고 자연 속에서의 활동을 늘려보세요."
  const NutritionTip: string := "항산화 성분이 풍부한 베리류, 녹색 채소를 섭취하고, 오메가-3 지방산이 포함된 견과류와 생선을 주 3회 이상 드세요. 가공식품과 당분 섭취를 줄이는 것도 중요합니다."
  const SkincareTip: string := "피부 타입에 맞는 순한 성분의 제품을 선택하고, 아침저녁 꾸준한 보습 관리를 하세요. 자외선 차단제를 매일 사용하고, 주 1-2회 각질 제거로 피부 턴오버를 도와주세요."
  const HydrationTip: string := "하루 1.5-2L의 물을 나누어 마시고, 실내 습도를 적정하게 유지하세요. 수분이 풍부한 과일과 채소 섭취도 피부 수분 보충에 도움이 됩니다."
  const ExerciseTip: string := "얼굴 마사지로 혈액순환을 개선하고, 정기적인 유산소 운동으로 전신 건강을 향상시키세요. 목과 어깨 스트레칭도 안면 긴장 완화에 효과적입니다."

  /** The table `enhancedTips`: the canned long-form tip per advice category. */
  const CannedTips: map<string, string> := map[
    "생활 습관" := LifestyleTip,
    "영양 관리" := NutritionTip,
    "스킨케어" := SkincareTip,
    "수분 관리" := HydrationTip,
    "운동 및 마사지" := ExerciseTip]

  /** `enhancedTips[category]`, when the key exists. */
  function CannedTip(category: string): Option<string> {
    if category in CannedTips then Some(CannedTips[category]) else None
  }

  const CannedCategories: set<string> := {"생활 습관", "영양 관리", "스킨케어", "수분 관리", "운동 및 마사지"}

  /** `rec.tip && rec.tip.length < 40`. */
  predicate IsShortTip(tip: string) {
    tip != "" && |tip| < 40
  }

  function EnhanceTip(rec: HealthRecommendation): HealthRecommendation {
    if IsShortTip(rec.tip) && CannedTip(rec.category).Some? then rec.(tip := CannedTip(rec.category).value)
    else rec
  }

  function EnhanceTips(recs: seq<HealthRecommendation>): seq<HealthRecommendation> {
    seq(|recs|, k requires 0 <= k < |recs| => EnhanceTip(recs[k]))
  }

  /** The canned table holds exactly the five keys, each with a tip of at
      least 40 characters. */
  lemma CannedTipsAreLong(category: string)
    ensures CannedTip(category).Some? <==> category in CannedCategories
    ensures CannedTip(category).Some? ==> |CannedTip(category).value| >= 40
  {
    assert CannedTips.Keys == CannedCategories;
    assert |LifestyleTip| >= 40 && |NutritionTip| >= 40 && |SkincareTip| >= 40;
    assert |HydrationTip| >= 40 && |ExerciseTip| >= 40;
  }

  /** A recommendation changes exactly when its tip is non-empty, shorter
      than 40 characters and its category is a canned key; the list keeps
      its length, order and categories. */
  lemma {:induction false} EnhanceTipsSpec(recs: seq<HealthRecommendation>)
    ensures |EnhanceTips(recs)| == |recs|
    ensures forall k :: 0 <= k < |recs| ==> EnhanceTips(recs)[k].category == recs[k].category
    ensures forall k :: 0 <= k < |recs| ==>
      (EnhanceTips(recs)[k] != recs[k] <==> IsShortTip(recs[k].tip) && recs[k].category in CannedCategories)
    ensures forall k :: 0 <= k < |recs| && EnhanceTips(recs)[k] != recs[k] ==>
      EnhanceTips(recs)[k].tip == CannedTip(recs[k].category).value
  {
    forall k | 0 <= k < |recs|
      ensures EnhanceTips(recs)[k] != recs[k] <==> IsShortTip(recs[k].tip) && recs[k].category in CannedCategories
    {
      CannedTipsAreLong(recs[k].category);
    }
  }

  // ---------------------------------------------------------------------
  // Default fill (lines 279-301)

  const DefaultSummary: string := "AI가 얼굴을 분석하여 건강 상태를 평가했습니다"

  const FallbackRecommendations: seq<HealthRecommendation> := [
    HealthRecommendation("생활 습관", "관찰된 피로 징후를 바탕으로 매일 밤 11시 이전에 잠자리에 들어 7-8시간의 양질의 수면을 취하세요."),
    HealthRecommendation("스킨케어", "현재 피부 수분도를 고려하여 아침에는 가벼운 수분 크림을, 저녁에는 영양 크림을 사용하세요."),
    HealthRecommendation("영양 관리", "피부 탄력 개선을 위해 비타민 C가 풍부한 키위, 오렌지를 하루 2회 섭취하고, 견과류를 간식으로 드세요.")
  ]

  /** The seven default details, the k-th scored `base[k] + draw[k]`. */
  function FallbackDetails(draws: seq<int>): seq<HealthDetail>
    requires |draws| == 7
  {
    seq(7, k requires 0 <= k < 7 => HealthDetail(FallbackCategories[k], FallbackBase[k] + draws[k]))
  }

  predicate NonEmptyList<T>(xs: Option<seq<T>>) {
    xs.Some? && |xs.value| > 0
  }

  /** The object literal `validatedResult`: every falsy or missing field
      takes its default. */
  function Finalize(p: RawPayload, d: Draws): AnalysisResult
    requires |d.fallback| == 7
  {
    AnalysisResult(
      if p.overallScore.Some? && p.overallScore.value != 0 then p.overallScore.value else 70 + d.overall,
      if p.summaryText.Some? && p.summaryText.value != "" then p.summaryText.value else DefaultSummary,
      if NonEmptyList(p.details) then p.details.value else FallbackDetails(d.fallback),
      if NonEmptyList(p.recommendations) then p.recommendations.value else FallbackRecommendations)
  }

  /** The default fill never leaves a field empty or falsy, keeps every
      field that was present and truthy, and draws its defaults from the
      stated ranges: 70..94 for the overall score and base..base+width-1
      for each of the seven default details. */
  lemma {:induction false} FinalizeSpec(p: RawPayload, d: Draws)
    requires ValidDraws(d)
    ensures var r := Finalize(p, d);
      |r.details| > 0 && |r.recommendations| > 0 && r.summaryText != "" && r.overallScore != 0 &&
      (p.overallScore.Some? && p.overallScore.value != 0 ==> r.overallScore == p.overallScore.value) &&
      (!(p.overallScore.Some? && p.overallScore.value != 0) ==> 70 <= r.overallScore <= 94) &&
      (p.summaryText.Some? && p.summaryText.value != "" ==> r.summaryText == p.summaryText.value) &&
      (NonEmptyList(p.details) ==> r.details == p.details.value) &&
      (!NonEmptyList(p.details) ==>
        |r.details| == 7 &&
        forall k :: 0 <= k < 7 ==>
          r.details[k].category == FallbackCategories[k] &&
          FallbackBase[k] <= r.details[k].score < FallbackBase[k] + FallbackWidth[k] &&
          50 <= r.details[k].score <= 94) &&
      (NonEmptyList(p.recommendations) ==> r.recommendations == p.recommendations.value) &&
      (!NonEmptyList(p.recommendations) ==> r.recommendations == FallbackRecommendations)
  {
    var r := Finalize(p, d);
    if !NonEmptyList(p.details) {
      forall k | 0 <= k < 7
        ensures FallbackBase[k] <= r.details[k].score < FallbackBase[k] + FallbackWidth[k]
        ensures 50 <= r.details[k].score <= 94
      {
        assert r.details[k].score == FallbackBase[k] + d.fallback[k];
      }
    }
  }

  // ---------------------------------------------------------------------
  // The whole normaliser on values

  /** Lines 237-301 on the parsed value: null and primitives fail on the
      first property access or assignment (the module code is strict), an
      object passes the face gate, then diversification, tip backfill and
      default fill. */
  function NormalizeSpec(v: JsonValue, d: Draws): Result<AnalysisResult, ErrorKind>
    requires |d.fallback| == 7
  {
    match v
    case JsonNull => Err(Unexpected(NotAnObject))
    case JsonPrimitive => Err(Unexpected(NotAnObject))
    case JsonObject(p) =>
      match FaceGate(p)
      case Err(e) => Err(e)
      case Ok(q) =>
        var diversified := if q.details.Some? then Some(DiversifyIfUniform(q.details.value, d.variation)) else None;
        var enhanced := if q.recommendations.Some? then Some(EnhanceTips(q.recommendations.value)) else None;
        Ok(Finalize(q.(details := diversified, recommendations := enhanced), d))
  }

  /** `isFaceDetected: false` stops the normaliser however complete the rest
      of the payload is. */
  lemma FaceGatePrecedence(p: RawPayload, d: Draws)
    requires |d.fallback| == 7
    requires p.isFaceDetected == Flag(false)
    ensures NormalizeSpec(JsonObject(p), d) == Err(NoFaceDetected)
  {
  }

  /** A successful normalisation yields non-empty details and
      recommendations, a non-empty summary and a non-zero overall score;
      the details are the model's (diversified when uniform, then every
      score in [30, 95]) or the seven defaults (every score in [50, 94]);
      the recommendations are the model's with short tips backfilled, or
      the three defaults. */
  lemma {:induction false} NormalizeSpecResult(v: JsonValue, d: Draws)
    requires ValidDraws(d)
    ensures var r := NormalizeSpec(v, d);
      (r.Ok? <==> v.JsonObject? && v.payload.isFaceDetected != Flag(false)) &&
      (r.Ok? ==>
        |r.value.details| > 0 && |r.value.recommendations| > 0 &&
        r.value.summaryText != "" && r.value.overallScore != 0 &&
        var p := v.payload;
        (NonEmptyList(p.details) && ShouldDiversify(p.details.value) ==>
          |r.value.details| == |p.details.value| &&
          forall k :: 0 <= k < |r.value.details| ==>
            r.value.details[k].category == p.details.value[k].category &&
            30 <= r.value.details[k].score <= 95) &&
        (NonEmptyList(p.details) && !ShouldDiversify(p.details.value) ==>
          r.value.details == p.details.value) &&
        (!NonEmptyList(p.details) ==>
          forall k :: 0 <= k < |r.value.details| ==> 50 <= r.value.details[k].score <= 94) &&
        (NonEmptyList(p.recommendations) ==> r.value.recommendations == EnhanceTips(p.recommendations.value)) &&
        (!NonEmptyList(p.recommendations) ==> r.value.recommendations == FallbackRecommendations))
  {
    if v.JsonObject? && v.payload.isFaceDetected != Flag(false) {
      var p := v.payload;
      var q := FaceGate(p).value;
      var diversified := if q.details.Some? then Some(DiversifyIfUniform(q.details.value, d.variation)) else None;
      var enhanced := if q.recommendations.Some? then Some(EnhanceTips(q.recommendations.value)) else None;
      var q' := q.(details := diversified, recommendations := enhanced);
      FinalizeSpec(q', d);
      if p.details.Some? {
        DiversifyIfUniformSpec(p.details.value, d.variation);
      }
    }
  }

  /** The tip backfill of the source's example: a short lifestyle tip takes
      the canned tip; a short tip of an unknown category stays. */
  lemma TipBackfillExample()
    ensures EnhanceTip(HealthRecommendation("생활 습관", "짧은 팁")) ==
      HealthRecommendation("생활 습관", CannedTip("생활 습관").value)
    ensures EnhanceTip(HealthRecommendation("기타", "짧은 팁")) == HealthRecommendation("기타", "짧은 팁")
  {
  }

  // ---------------------------------------------------------------------
  // The parsed object, mutated in place

  /** The object `JSON.parse` returned, with the fields the code reads and
      writes. `details` is the parsed array when `detailsIsArray`, and an
      empty placeholder otherwise. */
  class ParsedAnalysis {
    var isFaceDetected: FaceFlag
    var overallScore: Option<int>
    var summaryText: Option<string>
    var detailsIsArray: bool
    var details: array<HealthDetail>
    var recommendations: Option<seq<HealthRecommendation>>

    /** The object's current contents as a value. */
    function Payload(): RawPayload
      reads this, details
    {
      RawPayload(isFaceDetected, overallScore, summaryText,
                 if detailsIsArray then Some(details[..]) else None,
                 recommendations)
    }

    constructor (p: RawPayload)
      ensures Payload() == p
      ensures fresh(details)
    {
      isFaceDetected := p.isFaceDetected;
      overallScore := p.overallScore;
      summaryText := p.summaryText;
      recommendations := p.recommendations;
      match p.details
      case Some(ds) =>
        detailsIsArray := true;
        var a := new HealthDetail[|ds|](k requires 0 <= k < |ds| => ds[k]);
        assert a[..] == ds;
        details := a;
      case None =>
        detailsIsArray := false;
        details := new HealthDetail[0];
    }

    /** Lines 238-246: a non-boolean flag is overwritten with `true`; the
        result says whether the analysis may go on. */
    method ApplyFaceGate() returns (detected: bool)
      modifies this`isFaceDetected
      ensures isFaceDetected == if old(isFaceDetected).NotBoolean? then Flag(true) else old(isFaceDetected)
      ensures detected <==> old(isFaceDetected) != Flag(false)
      ensures detected <==> FaceGate(old(Payload())).Ok?
      ensures detected ==> Payload() == FaceGate(old(Payload())).value
    {
      if isFaceDetected.NotBoolean? {
        isFaceDetected := Flag(true);
      }
      detected := isFaceDetected != Flag(false);
    }

    /** Lines 249-260: when the details are an array of at least two
        entries with at most two distinct scores, each score is replaced in
        place, in index order. */
    method DiversifyScores(variation: nat -> int)
      modifies details
      ensures detailsIsArray ==> details[..] == DiversifyIfUniform(old(details[..]), variation)
      ensures !detailsIsArray ==> details[..] == old(details[..])
    {
      if detailsIsArray && ShouldDiversify(details[..]) {
        var i := 0;
        while i < details.Length
          invariant 0 <= i <= details.Length
          invariant forall k :: 0 <= k < i ==> details[k] == Perturbed(old(details[k]), k, variation(k))
          invariant forall k :: i <= k < details.Length ==> details[k] == old(details[k])
        {
          details[i] := Perturbed(details[i], i, variation(i));
          i := i + 1;
        }
        assert details[..] == Diversified(old(details[..]), variation);
      }
    }

    /** Lines 263-277: an array of recommendations is replaced by its
        mapping through the tip backfill. */
    method EnhanceRecommendations()
      modifies this`recommendations
      ensures recommendations ==
        if old(recommendations).Some? then Some(EnhanceTips(old(recommendations).value)) else old(recommendations)
    {
      if recommendations.Some? {
        recommendations := Some(EnhanceTips(recommendations.value));
      }
    }

    /** Lines 237-301 on this object. A missing face stops before any score
        or tip is touched. */
    method Normalize(d: Draws) returns (r: Result<AnalysisResult, ErrorKind>)
      requires |d.fallback| == 7
      modifies this`isFaceDetected, this`recommendations, details
      ensures r == NormalizeSpec(JsonObject(old(Payload())), d)
      ensures r == Err(NoFaceDetected) ==>
        details[..] == old(details[..]) && recommendations == old(recommendations)
    {
      var detected := ApplyFaceGate();
      if !detected {
        return Err(NoFaceDetected);
      }
      DiversifyScores(d.variation);
      EnhanceRecommendations();
      r := Ok(Finalize(Payload(), d));
    }
  }
}
