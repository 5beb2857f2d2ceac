/** The matchmaking page: the initial ongoing-match check, the reaction to a
    MATCH_STARTED notification, and the matchmaking handlers. Every REST
    call's outcome is a parameter; `Failed` stands for a rejected promise. */
module PlayGameHome {
  import opened Text
  import opened Notifications
  import Ranks
  import SessionStore

  datatype Outcome<T> = Ok(value: T) | Failed

  /** One entry of a match's submission log. */
  datatype LogEntry = LogEntry(username: string, avatarUrl: string, rank: string)

  datatype Player = Player(username: string, avatarUrl: string, rank: string)

  datatype MatchData = MatchData(matchId: Option<int>, problemId: Option<int>, player1: Player, player2: Player)

  datatype MatchType = Opponent | Friend

  datatype UserStats = UserStats(currentRate: int, currentRank: string, nextRankInfo: Ranks.NextRankInfo)

  /** The outbound requests the page makes. */
  datatype Request =
    | OngoingMatch | SubmissionLog(matchId: Option<int>) | MatchDetails(id: int) | MyProfile
    | SearchOpponent | CancelOpponentSearch

  datatype Profile = Profile(currentRate: int, rank: string)

  const DefaultAvatar: string := "/default-avatar.png"

  /** The first log entry whose username differs from the user's. */
  function FindOpponent(log: seq<LogEntry>, user: string): (r: Option<nat>)
    ensures r.Some? ==> (r.value < |log| && log[r.value].username != user
                         && forall i :: 0 <= i < r.value ==> log[i].username == user)
    ensures r.None? ==> forall i :: 0 <= i < |log| ==> log[i].username == user
  {
    if log == [] then None
    else if log[0].username != user then Some(0)
    else match FindOpponent(log[1..], user)
      case None => None
      case Some(k) => Some(k + 1)
  }

  /** The first log entry carrying the user's own name. */
  function FindSelf(log: seq<LogEntry>, user: string): (r: Option<nat>)
    ensures r.Some? ==> (r.value < |log| && log[r.value].username == user
                         && forall i :: 0 <= i < r.value ==> log[i].username != user)
    ensures r.None? ==> forall i :: 0 <= i < |log| ==> log[i].username != user
  {
    if log == [] then None
    else if log[0].username == user then Some(0)
    else match FindSelf(log[1..], user)
      case None => None
      case Some(k) => Some(k + 1)
  }

  /** The match card: the user first with their own avatar (or none) and
      rank (or BRONZE), the opponent second with the default avatar as
      fallback. */
  function BuildMatchData(matchId: Option<int>, problemId: Option<int>, user: string, log: seq<LogEntry>, opponent: LogEntry): (d: MatchData)
    ensures d.matchId == matchId && d.problemId == problemId
    ensures d.player1.username == user && d.player2.username == opponent.username
    ensures d.player2.rank == opponent.rank
    ensures d.player2.avatarUrl == (if opponent.avatarUrl != "" then opponent.avatarUrl else DefaultAvatar)
    ensures FindSelf(log, user).None? ==> d.player1.avatarUrl == "" && d.player1.rank == "BRONZE"
    ensures FindSelf(log, user).Some? && log[FindSelf(log, user).value].rank != "" ==>
      d.player1.rank == log[FindSelf(log, user).value].rank
  {
    var me := FindSelf(log, user);
    var avatar := if me.Some? then log[me.value].avatarUrl else "";
    var rank := if me.Some? && log[me.value].rank != "" then log[me.value].rank else "BRONZE";
    MatchData(matchId, problemId,
      Player(user, avatar, rank),
      Player(opponent.username, if opponent.avatarUrl != "" then opponent.avatarUrl else DefaultAvatar, opponent.rank))
  }

  predicate IsUnreadMatchStarted(n: Notification) {
    n.metadata.notificationType == Some("MATCH_STARTED") && !n.read
  }

  /** The first unread MATCH_STARTED notification. */
  function FindMatchStarted(list: seq<Notification>): (r: Option<nat>)
    ensures r.Some? ==> (r.value < |list| && IsUnreadMatchStarted(list[r.value])
                         && forall i :: 0 <= i < r.value ==> !IsUnreadMatchStarted(list[i]))
    ensures r.None? ==> forall i :: 0 <= i < |list| ==> !IsUnreadMatchStarted(list[i])
  {
    if list == [] then None
    else if IsUnreadMatchStarted(list[0]) then Some(0)
    else match FindMatchStarted(list[1..])
      case None => None
      case Some(k) => Some(k + 1)
  }

  /** `getUsername()` is truthy. */
  predicate KnownUser(currentUser: Option<string>) { currentUser.Some? && currentUser.value != "" }

  /** The ongoing-match id is truthy: present and not 0. */
  predicate IsOngoing(matchId: Option<int>) { matchId.Some? && matchId.value != 0 }

  class PlayGameHomePage {
    const session: SessionStore.SessionStorage
    var isFriendMatchingOpen: bool
    var isMatchmaking: bool
    var matchType: MatchType
    var invitedUser: string
    var showIntroAnimation: bool
    var matchData: Option<MatchData>
    var pendingNotificationId: Option<int>
    var userStats: UserStats
    var isLoading: bool
    var requests: seq<Request>
    var navigations: seq<string>

    constructor(session: SessionStore.SessionStorage)
      ensures this.session == session
      ensures !isFriendMatchingOpen && !isMatchmaking && matchType == Opponent && invitedUser == ""
      ensures !showIntroAnimation && matchData == None && pendingNotificationId == None && isLoading
      ensures userStats == UserStats(0, "BRONZE", Ranks.NextRankInfo(0, Some("BRONZE"), Some(Ranks.UnknownRankColor), false))
      ensures requests == [] && navigations == []
    {
      this.session := session;
      isFriendMatchingOpen := false;
      isMatchmaking := false;
      matchType := Opponent;
      invitedUser := "";
      showIntroAnimation := false;
      matchData := None;
      pendingNotificationId := None;
      userStats := UserStats(0, "BRONZE", Ranks.NextRankInfo(0, Some("BRONZE"), Some(Ranks.UnknownRankColor), false));
      isLoading := true;
      requests := [];
      navigations := [];
    }

    /** `initializeData`: with an ongoing match the card is built and the
        profile is not fetched; otherwise the profile fills the stats. Loading
        ends in every case. */
    method InitializeData(currentUser: Option<string>, ongoing: Outcome<Option<int>>,
                          log: Outcome<seq<LogEntry>>, detailsProblemId: Outcome<Option<int>>,
                          profile: Outcome<Profile>)
      modifies this`isLoading, this`requests, this`matchData, this`showIntroAnimation, this`userStats
      ensures !isLoading
      ensures !KnownUser(currentUser) ==>
        requests == old(requests) && matchData == old(matchData)
        && showIntroAnimation == old(showIntroAnimation) && userStats == old(userStats)
      ensures KnownUser(currentUser) && ongoing.Failed? ==>
        requests == old(requests) + [OngoingMatch] && matchData == old(matchData)
        && showIntroAnimation == old(showIntroAnimation) && userStats == old(userStats)
      ensures KnownUser(currentUser) && ongoing.Ok? && IsOngoing(ongoing.value) ==>
        requests == old(requests) + [OngoingMatch, SubmissionLog(ongoing.value), MatchDetails(ongoing.value.value)]
        && userStats == old(userStats)
        && if log.Ok? && detailsProblemId.Ok? && FindOpponent(log.value, currentUser.value).Some? then
             showIntroAnimation
             && matchData == Some(BuildMatchData(ongoing.value, detailsProblemId.value, currentUser.value, log.value,
                                                 log.value[FindOpponent(log.value, currentUser.value).value]))
           else
             showIntroAnimation == old(showIntroAnimation) && matchData == old(matchData)
      ensures KnownUser(currentUser) && ongoing.Ok? && !IsOngoing(ongoing.value) ==>
        requests == old(requests) + [OngoingMatch, MyProfile]
        && matchData == old(matchData) && showIntroAnimation == old(showIntroAnimation)
        && userStats == if profile.Ok? then
             UserStats(profile.value.currentRate, profile.value.rank, Ranks.CalculateNextRate(profile.value.currentRate))
           else old(userStats)
    {
      if currentUser.None? || currentUser.value == "" {
        isLoading := false;
        return;
      }
      requests := requests + [OngoingMatch];
      if ongoing.Failed? {
        isLoading := false;
        return;
      }
      var matchId := ongoing.value;
      if matchId.Some? && matchId.value != 0 {
        requests := requests + [SubmissionLog(matchId), MatchDetails(matchId.value)];
        if log.Failed? || detailsProblemId.Failed? {
          isLoading := false;
          return;
        }
        var opponent := FindOpponent(log.value, currentUser.value);
        if opponent.None? {
          isLoading := false;
          return;
        }
        matchData := Some(BuildMatchData(matchId, detailsProblemId.value, currentUser.value, log.value, log.value[opponent.value]));
        showIntroAnimation := true;
        isLoading := false;
        return;
      }
      requests := requests + [MyProfile];
      if profile.Ok? {
        userStats := UserStats(profile.value.currentRate, profile.value.rank, Ranks.CalculateNextRate(profile.value.currentRate));
      }
      isLoading := false;
    }

    /** The reaction to the list: the first unread MATCH_STARTED entry
        fetches its match's log; with a user and an opponent in it, the card
        is built, matchmaking ends and the intro is shown. */
    method OnNotifications(list: seq<Notification>, currentUser: Option<string>, log: Outcome<seq<LogEntry>>)
      modifies this`requests, this`matchData, this`isMatchmaking, this`showIntroAnimation
      ensures FindMatchStarted(list).None? ==> unchanged(this)
      ensures FindMatchStarted(list).Some? ==>
        requests == old(requests) + [SubmissionLog(list[FindMatchStarted(list).value].metadata.matchId)]
      ensures (FindMatchStarted(list).None? || log.Failed? || currentUser.None? || currentUser.value == ""
               || FindOpponent(log.value, currentUser.value).None?) ==>
        matchData == old(matchData) && isMatchmaking == old(isMatchmaking) && showIntroAnimation == old(showIntroAnimation)
      ensures FindMatchStarted(list).Some? && log.Ok? && currentUser.Some? && currentUser.value != ""
              && FindOpponent(log.value, currentUser.value).Some? ==>
        var payload := list[FindMatchStarted(list).value].metadata;
        matchData == Some(BuildMatchData(payload.matchId, payload.problemId, currentUser.value, log.value,
                                         log.value[FindOpponent(log.value, currentUser.value).value]))
        && !isMatchmaking && showIntroAnimation
    {
      var found := FindMatchStarted(list);
      if found.None? {
        return;
      }
      var payload := list[found.value].metadata;
      requests := requests + [SubmissionLog(payload.matchId)];
      if log.Failed? || currentUser.None? || currentUser.value == "" {
        return;
      }
      var opponent := FindOpponent(log.value, currentUser.value);
      if opponent.None? {
        return;
      }
      matchData := Some(BuildMatchData(payload.matchId, payload.problemId, currentUser.value, log.value, log.value[opponent.value]));
      isMatchmaking := false;
      showIntroAnimation := true;
    }

    /** The unmount cleanup: the search is cancelled only while matchmaking. */
    method Unmount()
      modifies this`requests
      ensures requests == old(requests) + (if old(isMatchmaking) then [CancelOpponentSearch] else [])
    {
      if isMatchmaking {
        requests := requests + [CancelOpponentSearch];
      }
    }

    /** `handleAnimationComplete`: records the active match and opens its
        page; without a card, or with a card lacking an id, nothing
        happens. */
    method HandleAnimationComplete()
      modifies this`navigations, session
      ensures matchData.Some? && matchData.value.matchId.Some? ==>
        session.entries == old(session.entries)[SessionStore.ActiveMatchKey := IntToString(matchData.value.matchId.value)]
        && navigations == old(navigations) + ["/play-game/" + IntToString(matchData.value.matchId.value)]
      ensures !(matchData.Some? && matchData.value.matchId.Some?) ==>
        session.entries == old(session.entries) && navigations == old(navigations)
    {
      if matchData.Some? && matchData.value.matchId.Some? {
        var id := IntToString(matchData.value.matchId.value);
        session.SetActiveMatch(id);
        navigations := navigations + ["/play-game/" + id];
      }
    }

    /** `handleOpponentMatching`, with the search request's outcome. */
    method HandleOpponentMatching(searchSucceeds: bool)
      modifies this`matchType, this`invitedUser, this`pendingNotificationId, this`isMatchmaking, this`requests
      ensures matchType == Opponent && invitedUser == "" && pendingNotificationId == None
      ensures isMatchmaking == searchSucceeds
      ensures requests == old(requests) + [SearchOpponent]
    {
      matchType := Opponent;
      invitedUser := "";
      pendingNotificationId := None;
      isMatchmaking := true;
      requests := requests + [SearchOpponent];
      if !searchSucceeds {
        isMatchmaking := false;
      }
    }

    /** `handleCancelMatchmaking`: the local state is reset before the
        cancel request, whatever that request's outcome. */
    method HandleCancelMatchmaking()
      modifies this`isMatchmaking, this`invitedUser, this`pendingNotificationId, this`requests
      ensures !isMatchmaking && invitedUser == "" && pendingNotificationId == None
      ensures requests == old(requests) + [CancelOpponentSearch]
    {
      isMatchmaking := false;
      invitedUser := "";
      pendingNotificationId := None;
      requests := requests + [CancelOpponentSearch];
    }

    /** `handleFriendInvite(notificationId, username)`. */
    method HandleFriendInvite(notificationId: int, username: string)
      modifies this`matchType, this`invitedUser, this`pendingNotificationId, this`isMatchmaking, this`isFriendMatchingOpen
      ensures matchType == Friend && invitedUser == username && pendingNotificationId == Some(notificationId)
      ensures isMatchmaking && !isFriendMatchingOpen
    {
      matchType := Friend;
      invitedUser := username;
      pendingNotificationId := Some(notificationId);
      isMatchmaking := true;
      isFriendMatchingOpen := false;
    }
  }
}
