/** The records shared by the pages and the analysis service (types.ts). */
module Types {
  /** The screens of the single-page application. */
  datatype Page = Home | Analyzing | Result | SharingCenter | SharingSettings

  /** One analysed health dimension and its score. */
  datatype HealthDetail = HealthDetail(category: string, score: int)

  /** One piece of advice, keyed by its advice domain. */
  datatype HealthRecommendation = HealthRecommendation(category: string, tip: string)

  /** What the analysis service hands to the result screen. */
  datatype AnalysisResult = AnalysisResult(
    overallScore: int,
    summaryText: string,
    details: seq<HealthDetail>,
    recommendations: seq<HealthRecommendation>)

  /** The browser's `File`, reduced to the two attributes the code reads:
      its declared MIME type and its length in bytes. */
  datatype ImageFile = ImageFile(mimeType: string, size: int)
}
