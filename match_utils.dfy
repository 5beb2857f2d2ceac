/** The match-history helpers: the result label for a final rank, and the
    placeholder shown for a missing time. */
module MatchUtils {
  import opened Text

  datatype StatusConfig = StatusConfig(text: string, color: string)

  /** `getStatusConfig(rank)`: rank 1 won, rank 0 drew, anything else lost. */
  function GetStatusConfig(rank: int): (c: StatusConfig)
    ensures c.text == "WON" <==> rank == 1
    ensures c.text == "DRAW" <==> rank == 0
    ensures c.text == "LOST" <==> rank != 1 && rank != 0
    ensures c.text == "WON" ==> c.color == "text-winGreen"
    ensures c.text == "DRAW" ==> c.color == "text-orange"
    ensures c.text == "LOST" ==> c.color == "text-loseRed"
  {
    if rank == 1 then StatusConfig("WON", "text-winGreen")
    else if rank == 0 then StatusConfig("DRAW", "text-orange")
    else StatusConfig("LOST", "text-loseRed")
  }

  /** The branch of `formatTime(isoString)` that does not format a date: a
      missing or empty string gives the placeholder; `None` stands for the
      locale-formatted time of any other string. */
  function FormatTimePlaceholder(isoString: Option<string>): (r: Option<string>)
    ensures r.Some? <==> isoString.None? || isoString.value == ""
    ensures r.Some? ==> r.value == "--:--"
  {
    if isoString.None? || isoString.value == "" then Some("--:--") else None
  }
}
