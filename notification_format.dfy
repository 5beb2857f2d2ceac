/** Display helpers for notification types and times. */
module NotificationFormat {
  import opened Text

  const TypeColors: map<string, string> := map[
    "MATCH_INVITE" := "text-blue-400", "MATCH_STARTED" := "text-green-400",
    "MATCH_ENDED" := "text-purple-400", "SUBMISSION_RECEIVED" := "text-yellow-400",
    "SUBMISSION_RESULT" := "text-cyan-400", "OPPONENT_RESIGNED" := "text-red-400",
    "FRIEND_REQUEST" := "text-pink-400", "FRIEND_ACCEPTED" := "text-emerald-400"]

  const DetailColors: map<string, string> := map[
    "MATCH_INVITE" := "text-blue-400 border-blue-400/30 bg-blue-400/10",
    "MATCH_STARTED" := "text-green-400 border-green-400/30 bg-green-400/10",
    "MATCH_ENDED" := "text-purple-400 border-purple-400/30 bg-purple-400/10",
    "SUBMISSION_RECEIVED" := "text-yellow-400 border-yellow-400/30 bg-yellow-400/10",
    "SUBMISSION_RESULT" := "text-cyan-400 border-cyan-400/30 bg-cyan-400/10",
    "OPPONENT_RESIGNED" := "text-red-400 border-red-400/30 bg-red-400/10",
    "FRIEND_REQUEST" := "text-pink-400 border-pink-400/30 bg-pink-400/10",
    "FRIEND_ACCEPTED" := "text-emerald-400 border-emerald-400/30 bg-emerald-400/10"]

  const MatchBadgeTypes: set<string> :=
    {"MATCH_INVITE", "MATCH_STARTED", "MATCH_ENDED", "SUBMISSION_RECEIVED", "SUBMISSION_RESULT", "OPPONENT_RESIGNED"}

  const FriendBadgeTypes: set<string> := {"FRIEND_REQUEST", "FRIEND_ACCEPTED"}

  /** `table[type] || fallback` over a table whose entries are non-empty. */
  function LookupOr(table: map<string, string>, key: string, fallback: string): (r: string)
    ensures key in table && table[key] != "" ==> r == table[key]
    ensures key !in table ==> r == fallback
  {
    if key in table && table[key] != "" then table[key] else fallback
  }

  /** `getTypeColor`. */
  function GetTypeColor(t: string): (c: string)
    ensures t in TypeColors ==> c == TypeColors[t]
    ensures t !in TypeColors ==> c == "text-text/70"
  {
    LookupOr(TypeColors, t, "text-text/70")
  }

  /** `getTypeColorForDetail`: the detail class starts with the list colour
      for every known type. */
  function GetTypeColorForDetail(t: string): (c: string)
    ensures t in DetailColors ==> c == DetailColors[t]
    ensures t !in DetailColors ==> c == "text-text/70 border-white/10 bg-white/5"
  {
    LookupOr(DetailColors, t, "text-text/70 border-white/10 bg-white/5")
  }

  /** The list and detail tables cover the same types, so a type has a
      detail colour exactly when it has a list colour. */
  lemma SameTypesInBothTables(t: string)
    ensures DetailColors.Keys == TypeColors.Keys
    ensures GetTypeColor(t) == "text-text/70" <==> GetTypeColorForDetail(t) == "text-text/70 border-white/10 bg-white/5"
  {
  }

  /** `getTypeBadge`. */
  function GetTypeBadge(t: string): (b: string)
    ensures b == "Match" <==> t in MatchBadgeTypes
    ensures b == "Friend" <==> t in FriendBadgeTypes
    ensures b == "Other" <==> t !in MatchBadgeTypes && t !in FriendBadgeTypes
  {
    if t in MatchBadgeTypes then "Match" else if t in FriendBadgeTypes then "Friend" else "Other"
  }

  /** Every coloured type has a Match or Friend badge, and every badged type
      has a colour. */
  lemma BadgesCoverColouredTypes(t: string)
    ensures t in TypeColors <==> GetTypeBadge(t) != "Other"
  {
  }

  /** `word.charAt(0) + word.slice(1).toLowerCase()`. */
  function Capitalize(word: string): (r: string)
    ensures |r| == |word|
    ensures |word| > 0 ==> r[0] == word[0]
    ensures forall i :: 1 <= i < |word| ==> r[i] == LowerChar(word[i])
  {
    if word == [] then [] else [word[0]] + ToLower(word[1..])
  }

  function CapitalizeAll(words: seq<string>): (r: seq<string>)
    ensures |r| == |words|
    ensures forall k :: 0 <= k < |words| ==> r[k] == Capitalize(words[k])
  {
    if words == [] then [] else [Capitalize(words[0])] + CapitalizeAll(words[1..])
  }

  /** `formatTypeLabel`: split on '_', capitalise each word's first
      character and lower-case the rest, join with spaces. */
  function FormatTypeLabel(t: string): string {
    Join(CapitalizeAll(Split(t, '_')), " ")
  }

  /** What the label holds at position `i`: a space for each underscore, the
      original character at the start of a word, its lower-case form
      elsewhere. */
  function LabelChar(t: string, i: nat): char
    requires i < |t|
  {
    if t[i] == '_' then ' '
    else if i == 0 || t[i - 1] == '_' then t[i]
    else LowerChar(t[i])
  }

  /** The label, character by character: same length as the type and each
      position as `LabelChar` says. */
  lemma {:induction false} FormatTypeLabelPointwise(t: string)
    ensures |FormatTypeLabel(t)| == |t|
    ensures forall i :: 0 <= i < |t| ==> FormatTypeLabel(t)[i] == LabelChar(t, i)
    decreases |t|
  {
    if '_' !in t {
      SplitWithoutSeparator(t, '_');
      assert CapitalizeAll([t]) == [Capitalize(t)];
      assert FormatTypeLabel(t) == Capitalize(t);
    } else {
      var k := FirstIndex(t, '_');
      var a, b := t[..k], t[k + 1..];
      LabelAtFirstUnderscore(t, k);
      FormatTypeLabelPointwise(b);
      LabelCharsCombine(t, k, FormatTypeLabel(b));
    }
  }

  /** The label of a type with an underscore at `k` (its first): the first
      word capitalised, a space, and the label of the rest. */
  lemma LabelAtFirstUnderscore(t: string, k: nat)
    requires '_' in t && k == FirstIndex(t, '_')
    ensures FormatTypeLabel(t) == Capitalize(t[..k]) + " " + FormatTypeLabel(t[k + 1..])
  {
    var a, b := t[..k], t[k + 1..];
    assert t == a + ['_'] + b;
    SplitAtFirst(a, '_', b);
    var rest := CapitalizeAll(Split(b, '_'));
    assert CapitalizeAll(Split(t, '_')) == [Capitalize(a)] + rest;
    assert |rest| >= 1;
  }

  /** The pointwise description carries over from the rest of the type to
      the whole when the first word is capitalised and joined by a space. */
  lemma LabelCharsCombine(t: string, k: nat, restLabel: string)
    requires '_' in t && k == FirstIndex(t, '_')
    requires |restLabel| == |t| - k - 1
    requires forall i :: 0 <= i < |t| - k - 1 ==> restLabel[i] == LabelChar(t[k + 1..], i)
    ensures var joined := Capitalize(t[..k]) + " " + restLabel;
      |joined| == |t| && forall i :: 0 <= i < |t| ==> joined[i] == LabelChar(t, i)
  {
    var a, b := t[..k], t[k + 1..];
    var joined := Capitalize(a) + " " + restLabel;
    forall i | 0 <= i < |t|
      ensures joined[i] == LabelChar(t, i)
    {
      if i < k {
        assert joined[i] == Capitalize(a)[i] && t[i] == a[i];
        assert i > 0 ==> t[i - 1] == a[i - 1];
      } else if i == k {
        assert joined[i] == ' ';
      } else {
        assert joined[i] == restLabel[i - k - 1];
        assert t[i] == b[i - k - 1];
        assert i - k - 1 == 0 ==> t[i - 1] == '_';
        assert i - k - 1 > 0 ==> t[i - 1] == b[i - k - 2];
      }
    }
  }

  /** The label has one word per '_'-separated part of the type. */
  lemma LabelWordCount(t: string)
    ensures |CapitalizeAll(Split(t, '_'))| == CountChar(t, '_') + 1
  {
    SplitCount(t, '_');
  }

  /** `formatTimeAgo` for timestamps in milliseconds. The last branch, a
      locale-formatted date, is `None`. */
  function FormatTimeAgo(nowMs: int, timeMs: int): (r: Option<string>)
    ensures var d := (nowMs - timeMs) / 1000;
      (d < 60 ==> r == Some("Just now"))
      && (60 <= d < 3600 ==> r == Some(NatToString(d / 60) + "m ago"))
      && (3600 <= d < 86400 ==> r == Some(NatToString(d / 3600) + "h ago"))
      && (86400 <= d < 604800 ==> r == Some(NatToString(d / 86400) + "d ago"))
      && (r.None? <==> d >= 604800)
  {
    var diff := (nowMs - timeMs) / 1000;
    if diff < 60 then Some("Just now")
    else if diff < 3600 then Some(NatToString(diff / 60) + "m ago")
    else if diff < 86400 then Some(NatToString(diff / 3600) + "h ago")
    else if diff < 604800 then Some(NatToString(diff / 86400) + "d ago")
    else None
  }

  /** The number shown is the elapsed whole units, and always below the next
      unit: 1..59 minutes, 1..23 hours, 1..6 days. */
  lemma TimeAgoUnitBounds(nowMs: int, timeMs: int)
    ensures var d := (nowMs - timeMs) / 1000;
      (60 <= d < 3600 ==> 1 <= d / 60 <= 59 && (d / 60) * 60 <= d < (d / 60 + 1) * 60)
      && (3600 <= d < 86400 ==> 1 <= d / 3600 <= 23 && (d / 3600) * 3600 <= d < (d / 3600 + 1) * 3600)
      && (86400 <= d < 604800 ==> 1 <= d / 86400 <= 6 && (d / 86400) * 86400 <= d < (d / 86400 + 1) * 86400)
  {
  }

  /** Reading the leading number of a "m ago" label gives the minutes. */
  lemma MinutesReadBack(nowMs: int, timeMs: int)
    requires 60 <= (nowMs - timeMs) / 1000 < 3600
    ensures ParseIntOrZero(FormatTimeAgo(nowMs, timeMs).value) == (nowMs - timeMs) / 1000 / 60
  {
    ParseIntOfNatToString((nowMs - timeMs) / 1000 / 60, "m ago");
  }
}
