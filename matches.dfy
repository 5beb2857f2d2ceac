/** The match-history table: the rank title of a row and its rate-change
    cell. */
module Matches {
  import opened Text
  import Ranks

  /** The fields of a history entry the row reads; `None` is a null field. */
  datatype MatchHistoryDto = MatchHistoryDto(rated: bool, newRating: Option<int>, rateChange: Option<int>, rank: int)

  datatype RankLabel = RankLabel(name: string, color: string)

  datatype TitleData = Friendly | Same(rank: RankLabel) | Change(before: RankLabel, after: RankLabel)

  /** The rating before the match: the new rating less the change, a missing
      change counting as 0. */
  function OldRating(m: MatchHistoryDto): int
    requires m.newRating.Some?
  {
    m.newRating.value - m.rateChange.GetOr(0)
  }

  /** `getTitleData`. */
  function GetTitleData(m: MatchHistoryDto): (t: TitleData)
    ensures t.Friendly? <==> !m.rated || m.newRating.None?
    ensures t.Same? ==> (Ranks.GetRankName(OldRating(m)) == Ranks.GetRankName(m.newRating.value)
                         && t.rank == RankLabel(Ranks.GetRankName(m.newRating.value), Ranks.GetRankColor(m.newRating.value)))
    ensures t.Change? ==> (Ranks.GetRankName(OldRating(m)) != Ranks.GetRankName(m.newRating.value)
                           && t.before == RankLabel(Ranks.GetRankName(OldRating(m)), Ranks.GetRankColor(OldRating(m)))
                           && t.after == RankLabel(Ranks.GetRankName(m.newRating.value), Ranks.GetRankColor(m.newRating.value)))
  {
    if !m.rated || m.newRating.None? then Friendly
    else
      var oldRating := OldRating(m);
      var oldName := Ranks.GetRankName(oldRating);
      var newName := Ranks.GetRankName(m.newRating.value);
      var newColor := Ranks.GetRankColor(m.newRating.value);
      if oldName == newName then Same(RankLabel(newName, newColor))
      else Change(RankLabel(oldName, Ranks.GetRankColor(oldRating)), RankLabel(newName, newColor))
  }

  /** A rank change after a gain is a promotion, after a loss a demotion. */
  lemma {:induction false} ChangeFollowsSign(m: MatchHistoryDto)
    requires GetTitleData(m).Change?
    ensures m.rateChange.GetOr(0) >= 0 ==> Ranks.RankIndex(OldRating(m)) < Ranks.RankIndex(m.newRating.value)
    ensures m.rateChange.GetOr(0) <= 0 ==> Ranks.RankIndex(OldRating(m)) > Ranks.RankIndex(m.newRating.value)
  {
    var o := OldRating(m);
    var n := m.newRating.value;
    assert Ranks.RankIndex(o) != Ranks.RankIndex(n);
    if o <= n {
      Ranks.RankMonotone(o, n);
    }
    if n <= o {
      Ranks.RankMonotone(n, o);
    }
  }

  datatype RateCell = Dash | Signed(text: string, color: string)

  /** The "Change" cell: a dash unless the match is rated and the change is
      present; '+' only for a positive change, green for a non-negative one. */
  function RateChangeCell(m: MatchHistoryDto): (c: RateCell)
    ensures c.Dash? <==> !m.rated || m.rateChange.None?
    ensures c.Signed? ==> (c.color == "text-winGreen" <==> m.rateChange.value >= 0)
    ensures c.Signed? ==> (c.color == "text-loseRed" <==> m.rateChange.value < 0)
    ensures c.Signed? ==> |c.text| > 0 && (c.text[0] == '+' <==> m.rateChange.value > 0)
  {
    if !m.rated || m.rateChange.None? then Dash
    else
      var rc := m.rateChange.value;
      Signed((if rc > 0 then "+" else "") + IntToString(rc), if rc >= 0 then "text-winGreen" else "text-loseRed")
  }

  /** Reading the cell's text back as an integer gives the rating change. */
  lemma {:induction false} RateChangeCellReadsBack(m: MatchHistoryDto)
    requires m.rated && m.rateChange.Some?
    ensures ParseIntOrZero(RateChangeCell(m).text) == m.rateChange.value
  {
    var rc := m.rateChange.value;
    if rc > 0 {
      assert RateChangeCell(m).text == ['+'] + NatToString(rc);
      SignedParse('+', rc);
    } else if rc < 0 {
      assert RateChangeCell(m).text == ['-'] + NatToString(-rc);
      SignedParse('-', -rc);
    } else {
      ParseIntOfNatToString(0, []);
    }
  }
}
