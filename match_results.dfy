/** The end-of-match overlay: the outcome derived from the final rank and
    the rating change display. */
module MatchResults {
  import opened Text
  import Ranks
  import MatchUtils

  /** The fields of a match result the overlay reads. */
  datatype MatchResultDto = MatchResultDto(rank: int, rated: bool, newRating: int, rateChange: int)

  datatype ResultState = Win | Draw | Lose

  datatype ResultConfig = ResultConfig(title: string, msg: string, color: string)

  /** rank 1 is a win, rank 0 a draw, any other rank a loss. */
  function ResultStateOf(rank: int): (s: ResultState)
    ensures s == Win <==> rank == 1
    ensures s == Draw <==> rank == 0
    ensures s == Lose <==> rank != 1 && rank != 0
  {
    if rank == 1 then Win else if rank == 0 then Draw else Lose
  }

  function ConfigOf(s: ResultState): ResultConfig {
    match s
    case Win => ResultConfig("VICTORY", "You dominated the arena!", "text-winGreen")
    case Draw => ResultConfig("DRAW", "An evenly matched battle.", "text-orange")
    case Lose => ResultConfig("DEFEAT", "Better luck next time.", "text-loseRed")
  }

  /** The overlay and the match-history row classify a rank the same way and
      use the same colour. */
  lemma {:induction false} OverlayAgreesWithHistory(rank: int)
    ensures ResultStateOf(rank) == Win <==> MatchUtils.GetStatusConfig(rank).text == "WON"
    ensures ResultStateOf(rank) == Draw <==> MatchUtils.GetStatusConfig(rank).text == "DRAW"
    ensures ResultStateOf(rank) == Lose <==> MatchUtils.GetStatusConfig(rank).text == "LOST"
    ensures ConfigOf(ResultStateOf(rank)).color == MatchUtils.GetStatusConfig(rank).color
  {
    var s := ResultStateOf(rank);
    var c := MatchUtils.GetStatusConfig(rank);
    if rank == 1 {
      assert s == Win && c.color == "text-winGreen";
    } else if rank == 0 {
      assert s == Draw && c.color == "text-orange";
    } else {
      assert s == Lose && c.color == "text-loseRed";
    }
  }

  datatype RatingDisplay =
    | FriendlyBadge
    | RatingUpdate(oldRating: int, oldColor: string, newRating: int, newColor: string, sign: string, value: nat, color: string)

  /** `renderRatingChange`: an unrated result shows only the badge; a rated
      one shows the old rating, a sign and magnitude, and the new rating. */
  function RenderRatingChange(r: MatchResultDto): (d: RatingDisplay)
    ensures d.FriendlyBadge? <==> !r.rated
    ensures d.RatingUpdate? ==> d.oldRating + r.rateChange == r.newRating && d.newRating == r.newRating
    ensures d.RatingUpdate? ==> d.oldColor == Ranks.GetRankColor(d.oldRating) && d.newColor == Ranks.GetRankColor(r.newRating)
    ensures d.RatingUpdate? ==> (d.sign == "+" <==> r.rateChange >= 0) && (d.sign == "+" || d.sign == "-")
    ensures d.RatingUpdate? ==> (d.color == "text-winGreen" <==> r.rateChange >= 0)
  {
    if !r.rated then FriendlyBadge
    else
      var oldRating := r.newRating - r.rateChange;
      RatingUpdate(oldRating, Ranks.GetRankColor(oldRating), r.newRating, Ranks.GetRankColor(r.newRating),
        if r.rateChange >= 0 then "+" else "-",
        if r.rateChange >= 0 then r.rateChange else -r.rateChange,
        if r.rateChange >= 0 then "text-winGreen" else if r.rateChange < 0 then "text-loseRed" else "text-text/60")
  }

  /** The displayed sign and magnitude give back the rating change. */
  lemma SignAndValueReconstruct(r: MatchResultDto)
    requires r.rated
    ensures var d := RenderRatingChange(r);
      (if d.sign == "+" then d.value as int else -(d.value as int)) == r.rateChange
  {
  }

  /** Confetti only for a win. */
  function ShowsConfetti(r: MatchResultDto): (b: bool)
    ensures b <==> r.rank == 1
  {
    ResultStateOf(r.rank) == Win
  }
}
