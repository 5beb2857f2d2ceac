/** Rating arithmetic: the seven ranks of 300 rating points each, their
    colours, the rank of a rating and the distance to the next rank. */
module Ranks {
  import opened Text

  const RatingPerRank: int := 300
  const RankNames: seq<string> := ["BRONZE", "SILVER", "GOLD", "DIAMOND", "MASTER", "CHAMPION", "LEGEND"]
  const RankColors: seq<string> := ["#CD7F32", "#C0C0C0", "#FFD700", "#00FFFF", "#8A2BE2", "#4169E1", "#80FFA1"]
  const LegendColor: string := "#80FFA1"
  const UnknownRankColor: string := "#6B7280"
  const MaxRankLabel: string := "MAX"

  /** `rankColors`: each rank name to its colour. */
  const RankColorMap: map<string, string> := map[
    "BRONZE" := "#CD7F32", "SILVER" := "#C0C0C0", "GOLD" := "#FFD700", "DIAMOND" := "#00FFFF",
    "MASTER" := "#8A2BE2", "CHAMPION" := "#4169E1", "LEGEND" := "#80FFA1"]

  lemma RankColorMapPairsConfig()
    ensures |RankNames| == |RankColors| == 7
    ensures forall i :: 0 <= i < 7 ==> RankNames[i] in RankColorMap && RankColorMap[RankNames[i]] == RankColors[i]
    ensures forall k :: k in RankColorMap ==> k in RankNames
  {
  }

  /** The table index of a rating: floor(rating / 300) clamped into 0..6. */
  function RankIndex(rating: int): (i: nat)
    ensures i < 7
    ensures rating < RatingPerRank ==> i == 0
    ensures rating >= 6 * RatingPerRank ==> i == 6
    ensures 0 <= rating < 6 * RatingPerRank ==> i * RatingPerRank <= rating < (i + 1) * RatingPerRank
  {
    var index := rating / RatingPerRank;
    if index >= 7 then 6 else if index < 0 then 0 else index
  }

  /** `getRankName(rating)`. */
  function GetRankName(rating: int): (name: string)
    ensures name in RankNames
    ensures name == RankNames[RankIndex(rating)]
    ensures rating < RatingPerRank ==> name == "BRONZE"
    ensures rating >= 6 * RatingPerRank ==> name == "LEGEND"
  {
    var index := rating / RatingPerRank;
    var clamped := if index >= |RankNames| then |RankNames| - 1 else index;
    RankNames[if clamped < 0 then 0 else clamped]
  }

  /** `getRankColor(rating)`: the index is computed from max(0, rating). */
  function GetRankColor(rating: int): (color: string)
    ensures color == RankColors[RankIndex(rating)]
  {
    var index := (if rating > 0 then rating else 0) / RatingPerRank;
    RankColors[if index < |RankColors| - 1 then index else |RankColors| - 1]
  }

  /** The two rating lookups agree: a rating's colour is the one its rank
      name is paired with. */
  lemma ColorMatchesName(rating: int)
    ensures GetRankColor(rating) == RankColorMap[GetRankName(rating)]
  {
    RankColorMapPairsConfig();
  }

  /** A higher rating never gives an earlier rank. */
  lemma RankMonotone(r1: int, r2: int)
    requires r1 <= r2
    ensures RankIndex(r1) <= RankIndex(r2)
  {
    assert r1 / RatingPerRank <= r2 / RatingPerRank;
  }

  datatype NextRankInfo = NextRankInfo(
    nextRate: int,
    /** The next rank's name, "MAX" at the top, `None` where the rank table
        is indexed below its start. */
    nextRank: Option<string>,
    nextRankColor: Option<string>,
    isMaxRank: bool)

  /** `calculateNextRate(currentRate)`. */
  function CalculateNextRate(currentRate: int): (info: NextRankInfo)
    ensures info.isMaxRank <==> currentRate >= 6 * RatingPerRank
    ensures info.isMaxRank ==>
      info.nextRate == 0 && info.nextRank == Some(MaxRankLabel) && info.nextRankColor == Some(LegendColor)
    ensures !info.isMaxRank && currentRate >= 0 ==>
      1 <= info.nextRate <= RatingPerRank
      && info.nextRank == Some(RankNames[RankIndex(currentRate) + 1])
      && info.nextRankColor == Some(RankColors[RankIndex(currentRate) + 1])
  {
    var currentRankIndex := currentRate / RatingPerRank;
    if currentRankIndex >= |RankNames| - 1 then
      NextRankInfo(0, Some(MaxRankLabel), Some(RankColorMap["LEGEND"]), true)
    else
      var nextRankIndex := currentRankIndex + 1;
      var remaining := nextRankIndex * RatingPerRank - currentRate;
      var nextRank := if 0 <= nextRankIndex then Some(RankNames[nextRankIndex]) else None;
      var color := if nextRank.Some? && nextRank.value in RankColorMap then Some(RankColorMap[nextRank.value]) else None;
      NextRankInfo(remaining, nextRank, color, false)
  }

  /** Below the top rank, the rating plus the remaining points is the
      smallest multiple of 300 above the rating. */
  lemma NextThresholdIsSmallestAbove(rate: int, m: int)
    requires rate < 6 * RatingPerRank
    ensures var t := rate + CalculateNextRate(rate).nextRate;
      t % RatingPerRank == 0 && t > rate
      && (m % RatingPerRank == 0 && m > rate ==> m >= t)
  {
    var q := rate / RatingPerRank;
    assert rate + CalculateNextRate(rate).nextRate == (q + 1) * RatingPerRank;
    if m % RatingPerRank == 0 && m > rate {
      var k := m / RatingPerRank;
      assert m == k * RatingPerRank;
      assert k > q;
    }
  }

  /** `getCurrentRank(rate)`: clamped only from above, so a negative rate
      indexes before the table (`None`). */
  function GetCurrentRank(rate: int): (rank: Option<string>)
    ensures rate >= 0 ==> rank == Some(GetRankName(rate))
    ensures rate < 0 ==> rank == None
  {
    var index := rate / RatingPerRank;
    var clamped := if index >= |RankNames| then |RankNames| - 1 else index;
    if clamped < 0 then None else Some(RankNames[clamped])
  }

  /** `getRankColor(rank)` on a rank name: LEGEND's colour for "MAX", the
      table colour for a known name, the grey fallback otherwise. */
  function RankColorOf(rank: string): (color: string)
    ensures rank == MaxRankLabel ==> color == LegendColor
    ensures rank != MaxRankLabel && rank in RankColorMap ==> color == RankColorMap[rank]
    ensures rank != MaxRankLabel && rank !in RankColorMap ==> color == UnknownRankColor
  {
    if rank == MaxRankLabel then RankColorMap["LEGEND"]
    else if rank in RankColorMap && RankColorMap[rank] != "" then RankColorMap[rank]
    else UnknownRankColor
  }

  /** The colour shown for the next rank matches the rank-name lookup. */
  lemma NextRankColorAgrees(rate: int)
    requires rate >= 0
    ensures var info := CalculateNextRate(rate);
      info.nextRank.Some? && info.nextRankColor.Some?
      && RankColorOf(info.nextRank.value) == info.nextRankColor.value
  {
    RankColorMapPairsConfig();
  }
}
