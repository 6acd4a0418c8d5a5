/** What the results dashboard derives from a result
    (components/AnalysisDashboard.tsx): the score colour band, the radar
    series, the brand-lift highlights and the original-source panel. */
module Dashboard {
  import opened Wrappers
  import opened Types

  /** The three colour bands of a score badge. */
  datatype Band = Emerald | Amber | Rose

  /** Bands ranked from worst (0) to best (2). */
  function Rank(b: Band): nat {
    match b
    case Rose => 0
    case Amber => 1
    case Emerald => 2
  }

  /** `getScoreColor`: 8 and above is emerald, 6 and 7 amber, below 6 rose.
      Out-of-range scores follow the same tests: 0 and negative scores are
      rose, scores above 10 are emerald. */
  function ScoreBand(s: int): (b: Band)
    ensures b == Emerald <==> s >= 8
    ensures b == Amber <==> 6 <= s < 8
    ensures b == Rose <==> s < 6
  {
    if s >= 8 then Emerald else if s >= 6 then Amber else Rose
  }

  /** A higher score never gets a worse band. */
  lemma ScoreBandMonotone(s: int, t: int)
    requires s <= t
    ensures Rank(ScoreBand(s)) <= Rank(ScoreBand(t))
  {
  }

  /** The band changes exactly at 6 and at 8. */
  lemma ScoreBandThresholds(s: int)
    ensures ScoreBand(s) != ScoreBand(s + 1) <==> s + 1 == 6 || s + 1 == 8
  {
  }

  /** One axis of the radar chart. */
  datatype RadarPoint = RadarPoint(subject: string, a: int, fullMark: int)

  /** The axis names in chart order. */
  const RadarSubjects: seq<string> := ["Focus", "Memorability", "Branding", "Emotion", "Pacing", "Overlays"]

  /** `radarData`: one point per metric, each at the metric's score out of
      10, with the axis named after that metric. */
  function RadarData(r: DiagnosticResult): (pts: seq<RadarPoint>)
    ensures |pts| == 6
    ensures pts[0] == RadarPoint("Focus", r.focus.score, 10)
    ensures pts[1] == RadarPoint("Memorability", r.memorability.score, 10)
    ensures pts[2] == RadarPoint("Branding", r.branding.score, 10)
    ensures pts[3] == RadarPoint("Emotion", r.emotion.score, 10)
    ensures pts[4] == RadarPoint("Pacing", r.pacing.score, 10)
    ensures pts[5] == RadarPoint("Overlays", r.overlays.score, 10)
  {
    seq(6, i requires 0 <= i < 6 => RadarPoint(RadarSubjects[i], Metrics(r)[i].score, 10))
  }

  /** The highlight of the recall and association tiles: emerald for High,
      amber otherwise. */
  function StrengthBand(l: Level): (b: Band)
    ensures b == Emerald <==> l == High
    ensures b != Rose
  {
    if l == High then Emerald else Amber
  }

  /** The highlight of the generic-risk tile: emerald for Low, rose
      otherwise. */
  function RiskBand(l: Level): (b: Band)
    ensures b == Emerald <==> l == Low
    ensures b != Amber
  {
    if l == Low then Emerald else Rose
  }

  /** Strength and risk are read in opposite directions: no level is
      emerald on both kinds of tile. */
  lemma HighlightsOpposed(l: Level)
    ensures !(StrengthBand(l) == Emerald && RiskBand(l) == Emerald)
    ensures l == Moderate ==> StrengthBand(l) == Amber && RiskBand(l) == Rose
  {
  }

  /** One brand-lift tile: its caption, the text it shows and its
      highlight (none for the neutral performance tile). */
  datatype Tile = Tile(title: string, text: string, band: Option<Band>)

  /** The four brand-lift tiles: recall, association, generic risk and
      performance type, each showing the value's string form. */
  function LiftTiles(b: BrandLiftEstimation): (tiles: seq<Tile>)
    ensures |tiles| == 4
    ensures tiles[0] == Tile("Recall", LevelLabel(b.recallStrength), Some(StrengthBand(b.recallStrength)))
    ensures tiles[1] == Tile("Association", LevelLabel(b.messageAssociation), Some(StrengthBand(b.messageAssociation)))
    ensures tiles[2] == Tile("Generic Risk", LevelLabel(b.genericRisk), Some(RiskBand(b.genericRisk)))
    ensures tiles[3] == Tile("Performance", PerformanceTypeLabel(b.performanceType), None)
  {
    [Tile("Recall", LevelLabel(b.recallStrength), Some(StrengthBand(b.recallStrength))),
     Tile("Association", LevelLabel(b.messageAssociation), Some(StrengthBand(b.messageAssociation))),
     Tile("Generic Risk", LevelLabel(b.genericRisk), Some(RiskBand(b.genericRisk))),
     Tile("Performance", PerformanceTypeLabel(b.performanceType), None)]
  }

  /** The highlight rules as the reader sees them: every tile shows some
      text; recall and association are emerald exactly when High and amber
      otherwise; generic risk is emerald exactly when Low and rose otherwise;
      the performance tile is neutral. */
  lemma TileHighlights(b: BrandLiftEstimation)
    ensures forall i :: 0 <= i < 4 ==> LiftTiles(b)[i].text != ""
    ensures LiftTiles(b)[0].band == Some(if b.recallStrength == High then Emerald else Amber)
    ensures LiftTiles(b)[1].band == Some(if b.messageAssociation == High then Emerald else Amber)
    ensures LiftTiles(b)[2].band == Some(if b.genericRisk == Low then Emerald else Rose)
    ensures LiftTiles(b)[3].band.None?
  {
  }

  /** The tiles lose nothing: two estimates show the same four texts exactly
      when they agree on all four graded values. */
  lemma TilesShowBrandLift(b: BrandLiftEstimation, c: BrandLiftEstimation)
    ensures (forall i :: 0 <= i < 4 ==> LiftTiles(b)[i].text == LiftTiles(c)[i].text)
            <==> (b.recallStrength == c.recallStrength && b.messageAssociation == c.messageAssociation
                  && b.genericRisk == c.genericRisk && b.performanceType == c.performanceType)
  {
    LabelsInjective();
    if forall i :: 0 <= i < 4 ==> LiftTiles(b)[i].text == LiftTiles(c)[i].text {
      assert LiftTiles(b)[0].text == LiftTiles(c)[0].text;
      assert LiftTiles(b)[1].text == LiftTiles(c)[1].text;
      assert LiftTiles(b)[2].text == LiftTiles(c)[2].text;
      assert LiftTiles(b)[3].text == LiftTiles(c)[3].text;
    }
  }

  const NoCopyText := "No text copy provided."

  /** The original-source panel: the copy as given, or the stand-in when
      the copy is empty. */
  function OriginalCopyText(copy: string): (r: string)
    ensures r != ""
    ensures copy != "" ==> r == copy
    ensures copy == "" ==> r == NoCopyText
  {
    if copy != "" then copy else NoCopyText
  }

  /** The video player is rendered when a non-empty payload is passed. */
  function ShowsVideo(videoData: Option<string>): (b: bool)
    ensures b <==> videoData.Some? && videoData.value != ""
  {
    match videoData
    case Some(d) => d != ""
    case None => false
  }
}
