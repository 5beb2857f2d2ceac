/** The notification-list service: the query parameters of a page request,
    the pass-through of the paged response, and the row mapping with its two
    regular-expression extractions from the message text. */
module NotificationService {
  import opened Text

  datatype Category = All | MatchCategory | FriendCategory

  function CategoryName(c: Category): string {
    match c
    case All => "all"
    case MatchCategory => "match"
    case FriendCategory => "friend"
  }

  /** The query parameters: page and size always, the category only when it
      is not "all". */
  function FetchParams(category: Category, page: int, size: int): (params: map<string, string>)
    ensures "page" in params && params["page"] == IntToString(page)
    ensures "size" in params && params["size"] == IntToString(size)
    ensures "category" in params <==> category != All
    ensures "category" in params ==> params["category"] == CategoryName(category)
    ensures params.Keys <= {"page", "size", "category"}
  {
    var base := map["page" := IntToString(page), "size" := IntToString(size)];
    if category != All then base["category" := CategoryName(category)] else base
  }

  datatype Page<T> = Page(content: seq<T>, totalElements: int, totalPages: int, size: int, number: int, first: bool, last: bool)

  datatype NotificationResponse = NotificationResponse(
    id: int, notificationType: string, senderId: int, senderUsername: string, recipientId: int,
    title: string, message: string, createdAt: string, read: bool, matchId: Option<int>)

  datatype NotificationRow = NotificationRow(
    id: int, notificationType: string, senderId: int, senderUsername: string, recipientId: int,
    title: string, message: string, createdAt: string, read: bool, matchId: Option<int>,
    submissionStatus: Option<string>, passedCases: Option<nat>, totalCases: Option<nat>)

  // ---------------------------------------------------------------------------
  // the two regular expressions, as leftmost-match scans

  datatype CharClass = Space | Word | Digit | ColonOrSpace

  predicate InClass(c: char, cl: CharClass) {
    match cl
    case Space => IsSpace(c)
    case Word => IsWordChar(c)
    case Digit => IsDigit(c)
    case ColonOrSpace => c == ':' || IsSpace(c)
  }

  /** The length of the longest run of `cl` characters starting at `p`: what
      a greedy `+` or `*` consumes. */
  function Run(s: string, p: nat, cl: CharClass): (n: nat)
    requires p <= |s|
    ensures p + n <= |s|
    ensures forall k :: p <= k < p + n ==> InClass(s[k], cl)
    ensures p + n == |s| || !InClass(s[p + n], cl)
    decreases |s| - p
  {
    if p < |s| && InClass(s[p], cl) then 1 + Run(s, p + 1, cl) else 0
  }

  /** `word` occurs at `p`, ignoring ASCII case (`word` is lower case). */
  predicate MatchesIgnoringCase(s: string, p: nat, word: string) {
    p + |word| <= |s| && forall k :: 0 <= k < |word| ==> LowerChar(s[p + k]) == word[k]
  }

  /** `keyword sep+ (\w+)` at `p`: the captured word. The separator and word
      classes are disjoint, so greedy matching needs no backtracking. */
  function KeywordThenWord(s: string, p: nat, keyword: string, sep: CharClass): (r: Option<string>)
    requires p <= |s|
    requires sep == Space || sep == ColonOrSpace
    ensures r.Some? ==> |r.value| > 0 && AllWordChars(r.value)
  {
    if !MatchesIgnoringCase(s, p, keyword) then None
    else
      var q := p + |keyword|;
      var gap := Run(s, q, sep);
      if gap == 0 then None
      else
        var w := Run(s, q + gap, Word);
        if w == 0 then None else Some(s[q + gap..q + gap + w])
  }

  /** `/got\s+(\w+)|status[:\s]+(\w+)/i` tried at `p`, first alternative
      first; `[1] || [2]` is the word of the alternative that matched. */
  function StatusAt(s: string, p: nat): Option<string>
    requires p <= |s|
  {
    var got := KeywordThenWord(s, p, "got", Space);
    if got.Some? then got else KeywordThenWord(s, p, "status", ColonOrSpace)
  }

  /** The leftmost position in `p..last` that `hit` accepts: how a regular
      expression search tries each start position in turn. */
  function FirstWhere(hit: nat -> bool, p: nat, last: nat): (r: Option<nat>)
    requires p <= last
    ensures r.Some? ==> p <= r.value <= last && hit(r.value) && forall q :: p <= q < r.value ==> !hit(q)
    ensures r.None? ==> forall q :: p <= q <= last ==> !hit(q)
    decreases last - p
  {
    if hit(p) then Some(p)
    else if p == last then None
    else FirstWhere(hit, p + 1, last)
  }

  function StatusHit(s: string): nat -> bool {
    (q: nat) => q <= |s| && StatusAt(s, q).Some?
  }

  /** The leftmost position at or after `p` where the status pattern
      matches. */
  function FirstStatusMatch(s: string, p: nat): (r: Option<nat>)
    requires p <= |s|
    ensures r.Some? ==> (p <= r.value <= |s| && StatusAt(s, r.value).Some?
                         && forall q :: p <= q < r.value ==> StatusAt(s, q).None?)
    ensures r.None? ==> forall q :: p <= q <= |s| ==> StatusAt(s, q).None?
  {
    var r := FirstWhere(StatusHit(s), p, |s|);
    assert forall q: nat :: q <= |s| ==> (StatusHit(s)(q) <==> StatusAt(s, q).Some?);
    r
  }

  /** The extracted `submissionStatus`. */
  function ExtractStatus(message: string): (r: Option<string>)
    ensures r.Some? <==> exists q :: 0 <= q <= |message| && StatusAt(message, q).Some?
    ensures r.Some? ==> |r.value| > 0 && AllWordChars(r.value)
    ensures r.Some? ==> var q := FirstStatusMatch(message, 0).value; r == StatusAt(message, q)
  {
    var first := FirstStatusMatch(message, 0);
    if first.Some? then StatusAt(message, first.value) else None
  }

  /** The run of word characters of `w + rest` is `w` when `rest` does not
      continue it. */
  lemma {:induction false} WordRunOf(w: string, rest: string, p: nat)
    requires p <= |w| && AllWordChars(w)
    requires rest == [] || !IsWordChar(rest[0])
    ensures Run(w + rest, p, Word) == |w| - p
    decreases |w| - p
  {
    var s := w + rest;
    if p < |w| {
      assert s[p] == w[p];
      WordRunOf(w, rest, p + 1);
    } else if rest != [] {
      assert s[p] == rest[0];
    }
  }

  /** A message that starts "got <status>" yields that status. */
  lemma {:induction false} StatusOfGotMessage(w: string, rest: string)
    requires |w| > 0 && AllWordChars(w)
    requires rest == [] || !IsWordChar(rest[0])
    ensures ExtractStatus("got " + w + rest) == Some(w)
  {
    var s := "got " + w + rest;
    var v := " " + w;
    assert s == "got" + (v + rest);
    assert s[3] == ' ' && s[4] == w[0] && !IsSpace(w[0]);
    assert MatchesIgnoringCase(s, 0, "got");
    assert Run(s, 4, Space) == 0;
    assert Run(s, 3, Space) == 1;
    WordRunOfShifted(w, rest, "got ");
    assert s[4..4 + |w|] == w;
    assert StatusAt(s, 0) == Some(w);
    var first := FirstStatusMatch(s, 0);
    assert first.Some? && first.value == 0;
  }

  lemma {:induction false} WordRunOfShifted(w: string, rest: string, prefix: string)
    requires AllWordChars(w)
    requires rest == [] || !IsWordChar(rest[0])
    ensures Run(prefix + w + rest, |prefix|, Word) == |w|
  {
    var s := prefix + w + rest;
    RunShift(prefix, w + rest, 0);
    assert s == prefix + (w + rest);
    WordRunOf(w, rest, 0);
  }

  /** A run does not look at what precedes its start. */
  lemma {:induction false} RunShift(prefix: string, t: string, p: nat)
    requires p <= |t|
    ensures Run(prefix + t, |prefix| + p, Word) == Run(t, p, Word)
    decreases |t| - p
  {
    var s := prefix + t;
    if p < |t| {
      assert s[|prefix| + p] == t[p];
      RunShift(prefix, t, p + 1);
    }
  }

  /** `\((\d+)\/(\d+)\)` at `p`: the two captured numbers. */
  function ParenthesisedAt(s: string, p: nat): Option<(nat, nat)>
    requires p <= |s|
  {
    if p < |s| && s[p] == '(' then
      match SlashPairAt(s, p + 1)
      case None => None
      case Some(m) =>
        if m.2 < |s| && s[m.2] == ')' then Some((m.0, m.1)) else None
    else None
  }

  /** `(\d+)\/(\d+)` at `p`: the two numbers and the position after them. */
  function SlashPairAt(s: string, p: nat): (r: Option<(nat, nat, nat)>)
    requires p <= |s|
    ensures r.Some? ==> r.value.2 <= |s|
  {
    var a := Run(s, p, Digit);
    if a == 0 || p + a >= |s| || s[p + a] != '/' then None
    else
      var b := Run(s, p + a + 1, Digit);
      if b == 0 then None
      else Some((DigitsValue(s[p..p + a]), DigitsValue(s[p + a + 1..p + a + 1 + b]), p + a + 1 + b))
  }

  /** The whole pattern `\((\d+)\/(\d+)\)|(\d+)\/(\d+)` tried at `p`;
      `[1] || [3]` and `[2] || [4]` pick the alternative that matched. */
  function CasesAt(s: string, p: nat): Option<(nat, nat)>
    requires p <= |s|
  {
    var paren := ParenthesisedAt(s, p);
    if paren.Some? then paren
    else match SlashPairAt(s, p)
      case None => None
      case Some(m) => Some((m.0, m.1))
  }

  /** The leftmost match of the test-case pattern at or after `p`. */
  function FirstCasesMatch(s: string, p: nat): (r: Option<nat>)
    requires p <= |s|
    ensures r.Some? ==> (p <= r.value <= |s| && CasesAt(s, r.value).Some?
                         && forall q :: p <= q < r.value ==> CasesAt(s, q).None?)
    ensures r.None? ==> forall q :: p <= q <= |s| ==> CasesAt(s, q).None?
  {
    var r := FirstWhere(CasesHit(s), p, |s|);
    assert forall q: nat :: q <= |s| ==> (CasesHit(s)(q) <==> CasesAt(s, q).Some?);
    r
  }

  function CasesHit(s: string): nat -> bool {
    (q: nat) => q <= |s| && CasesAt(s, q).Some?
  }

  /** The extracted `(passedCases, totalCases)`. */
  function ExtractCases(message: string): (r: Option<(nat, nat)>)
    ensures r.Some? <==> exists q :: 0 <= q <= |message| && CasesAt(message, q).Some?
    ensures r.Some? ==> r == CasesAt(message, FirstCasesMatch(message, 0).value)
  {
    var first := FirstCasesMatch(message, 0);
    if first.Some? then CasesAt(message, first.value) else None
  }

  /** The scan for the bare `a/b` alternative alone. */
  function FirstSlashPair(s: string, p: nat): Option<(nat, nat)>
    requires p <= |s|
    decreases |s| - p
  {
    match SlashPairAt(s, p)
    case Some(m) => Some((m.0, m.1))
    case None => if p == |s| then None else FirstSlashPair(s, p + 1)
  }

  function CasesFrom(s: string, p: nat): Option<(nat, nat)>
    requires p <= |s|
    decreases |s| - p
  {
    if CasesAt(s, p).Some? then CasesAt(s, p)
    else if p == |s| then None
    else CasesFrom(s, p + 1)
  }

  /** The parenthesised alternative never changes the result: wherever it
      matches, the bare alternative matches one position later with the same
      numbers, and nothing matches in between. */
  lemma {:induction false} ParenthesesAreRedundant(s: string, p: nat)
    requires p <= |s|
    ensures CasesFrom(s, p) == FirstSlashPair(s, p)
    decreases |s| - p
  {
    if ParenthesisedAt(s, p).Some? {
      assert SlashPairAt(s, p).None? by {
        assert !IsDigit(s[p]);
        assert Run(s, p, Digit) == 0;
      }
      assert p < |s|;
      var m := SlashPairAt(s, p + 1).value;
      assert FirstSlashPair(s, p + 1) == Some((m.0, m.1));
    } else if SlashPairAt(s, p).None? && p < |s| {
      ParenthesesAreRedundant(s, p + 1);
    }
  }

  lemma {:induction false} ExtractCasesIsFirstSlashPair(message: string)
    ensures ExtractCases(message) == FirstSlashPair(message, 0)
  {
    CasesFromIsFirstMatch(message, 0);
    ParenthesesAreRedundant(message, 0);
  }

  lemma {:induction false} CasesFromIsFirstMatch(s: string, p: nat)
    requires p <= |s|
    ensures CasesFrom(s, p) == (if FirstCasesMatch(s, p).Some? then CasesAt(s, FirstCasesMatch(s, p).value) else None)
    decreases |s| - p
  {
    if CasesAt(s, p).None? && p < |s| {
      CasesFromIsFirstMatch(s, p + 1);
    }
  }

  /** `mapNotificationToRow`: every response field is copied and the three
      extracted fields are added when their pattern matches. */
  function MapNotificationToRow(n: NotificationResponse): (row: NotificationRow)
    ensures row.id == n.id && row.notificationType == n.notificationType && row.senderId == n.senderId
    ensures row.senderUsername == n.senderUsername && row.recipientId == n.recipientId
    ensures row.title == n.title && row.message == n.message && row.createdAt == n.createdAt
    ensures row.read == n.read && row.matchId == n.matchId
    ensures row.submissionStatus == ExtractStatus(n.message)
    ensures row.passedCases.Some? <==> ExtractCases(n.message).Some?
    ensures row.totalCases.Some? <==> ExtractCases(n.message).Some?
    ensures row.passedCases.Some? ==> (row.passedCases.value, row.totalCases.value) == ExtractCases(n.message).value
  {
    var cases := ExtractCases(n.message);
    NotificationRow(n.id, n.notificationType, n.senderId, n.senderUsername, n.recipientId,
      n.title, n.message, n.createdAt, n.read, n.matchId,
      ExtractStatus(n.message),
      if cases.Some? then Some(cases.value.0) else None,
      if cases.Some? then Some(cases.value.1) else None)
  }

  function MapRows(content: seq<NotificationResponse>): (rows: seq<NotificationRow>)
    ensures |rows| == |content|
    ensures forall k :: 0 <= k < |rows| ==> rows[k] == MapNotificationToRow(content[k])
  {
    if content == [] then [] else [MapNotificationToRow(content[0])] + MapRows(content[1..])
  }

  /** The result of `fetchNotifications`: the content mapped row by row and
      the paging fields passed through. */
  function FetchNotificationsResult(data: Page<NotificationResponse>): (r: Page<NotificationRow>)
    ensures |r.content| == |data.content|
    ensures forall k :: 0 <= k < |r.content| ==> r.content[k] == MapNotificationToRow(data.content[k])
    ensures r.totalElements == data.totalElements && r.totalPages == data.totalPages && r.size == data.size
    ensures r.number == data.number && r.first == data.first && r.last == data.last
  {
    Page(MapRows(data.content), data.totalElements, data.totalPages, data.size, data.number, data.first, data.last)
  }
}
