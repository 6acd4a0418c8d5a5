/** The records exchanged between the form, the analysis client, the
    endpoint and the dashboard (types.ts). */
module Types {
  import opened Wrappers

  /** The `Platform` enum; each constructor stands for its string value. */
  datatype Platform = Meta | TikTok | YouTube | Display | Search | Other

  /** The string value of each enum member. */
  function PlatformLabel(p: Platform): string {
    match p
    case Meta => "Meta"
    case TikTok => "TikTok"
    case YouTube => "YouTube"
    case Display => "Display"
    case Search => "Search"
    case Other => "Other"
  }

  /** The members in declaration order, as `Object.values` lists them. */
  const AllPlatforms: seq<Platform> := [Meta, TikTok, YouTube, Display, Search, Other]

  /** The enum has exactly six members, listed once each, and their string
      values are pairwise distinct and non-empty. */
  lemma PlatformEnumeration()
    ensures |AllPlatforms| == 6
    ensures forall p: Platform :: p in AllPlatforms
    ensures forall i, j :: 0 <= i < j < |AllPlatforms| ==> AllPlatforms[i] != AllPlatforms[j]
    ensures forall p, q: Platform :: PlatformLabel(p) == PlatformLabel(q) ==> p == q
    ensures forall p: Platform :: PlatformLabel(p) != ""
  {
    forall p: Platform
      ensures p in AllPlatforms
    {
      match p
      case Meta => assert AllPlatforms[0] == p;
      case TikTok => assert AllPlatforms[1] == p;
      case YouTube => assert AllPlatforms[2] == p;
      case Display => assert AllPlatforms[3] == p;
      case Search => assert AllPlatforms[4] == p;
      case Other => assert AllPlatforms[5] == p;
    }
  }

  /** The three-valued scale of `recallStrength`, `messageAssociation` and
      `genericRisk`. */
  datatype Level = Low | Moderate | High

  /** The string form of a level, as the model writes it. */
  function LevelLabel(l: Level): string {
    match l
    case Low => "Low"
    case Moderate => "Moderate"
    case High => "High"
  }

  /** The three values of `performanceType`. */
  datatype PerformanceType = ShortTermPerformance | Balanced | BrandBuilding

  /** The string form of a performance type, as the model writes it. */
  function PerformanceTypeLabel(t: PerformanceType): string {
    match t
    case ShortTermPerformance => "Short-term performance"
    case Balanced => "Balanced"
    case BrandBuilding => "Brand-building"
  }

  /** The string forms of the graded values are pairwise distinct, so the
      text shown determines the value. */
  lemma LabelsInjective()
    ensures forall l: Level, m: Level :: LevelLabel(l) == LevelLabel(m) ==> l == m
    ensures forall t: PerformanceType, u: PerformanceType :: PerformanceTypeLabel(t) == PerformanceTypeLabel(u) ==> t == u
  {
  }

  /** One scored metric. The score is whatever number the model produced:
      nothing in the code bounds it to 1..10. */
  datatype MetricScore = MetricScore(score: int, explanation: string)

  datatype BrandLiftEstimation = BrandLiftEstimation(
    recallStrength: Level,
    messageAssociation: Level,
    genericRisk: Level,
    performanceType: PerformanceType,
    reasoning: string)

  datatype Recommendations = Recommendations(
    structural: string,
    emotional: string,
    branding: string,
    platformSpecific: string,
    revisedHook: string)

  /** Every field is required: a result is never partial. */
  datatype DiagnosticResult = DiagnosticResult(
    focus: MetricScore,
    memorability: MetricScore,
    branding: MetricScore,
    emotion: MetricScore,
    pacing: MetricScore,
    overlays: MetricScore,
    brandLift: BrandLiftEstimation,
    recommendations: Recommendations)

  /** The six metrics of a result, in declaration order. */
  function Metrics(r: DiagnosticResult): (ms: seq<MetricScore>)
    ensures |ms| == 6
    ensures ms[0] == r.focus && ms[1] == r.memorability && ms[2] == r.branding
    ensures ms[3] == r.emotion && ms[4] == r.pacing && ms[5] == r.overlays
  {
    [r.focus, r.memorability, r.branding, r.emotion, r.pacing, r.overlays]
  }

  /** An inline video: the base64 payload (uninterpreted) and its media type. */
  datatype VideoData = VideoData(data: string, mimeType: string)

  /** A submission. `platform` is a plain string, not the enum; only
      `performanceData` and `videoData` may be absent. */
  datatype AdInput = AdInput(
    platform: string,
    targetAudience: string,
    objective: string,
    adCopy: string,
    performanceData: Option<string>,
    videoData: Option<VideoData>)
}
