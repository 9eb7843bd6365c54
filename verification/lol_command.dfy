/** The "played" slash command: parse the command's options, look the player's
    recent games up through the gameplay-statistics client, and summarise them as
    one sentence (total time played, wins, losses). */
module LolCommand {
  import opened Wrappers
  import opened DiscordBotTypes
  import opened LolModels
  import opened Iter
  import opened Fmt

  /** The gameplay-statistics client as the handler sees it: what each of its three
      calls returns for given arguments. */
  datatype LolApi = LolApi(
    // (platform region, player name, API key) -> puuid
    getPuuid: (string, string, string) -> BotResult<string>,
    // (API key, routing region, puuid, days) -> game ids
    getGameIds: (string, string, string, int) -> BotResult<seq<string>>,
    // (API key, routing region, puuid, game ids) -> one summary per game
    fetchGameSummaries: (string, string, string, seq<string>) -> BotResult<seq<UserGameSummary>>)

  const PlatformRegion := "euw1"
  const RoutingRegion := "europe"

  /** Returned when either required option is missing (the same body for both). */
  const PlayerNameNotFound := BotError(500, "Could not find player name")

  /** Returned when the API key is not configured. */
  const MissingApiKey := BotError(500, "Missing LOL API key")

  // ---------------------------------------------------------------------------
  // Command-option parsing
  // ---------------------------------------------------------------------------

  /** A string option named "user". */
  predicate IsUserOption(o: CommandOption) {
    o.StringCommandOption? && o.stringOption.name == "user"
  }

  /** A number option named "days". */
  predicate IsDaysOption(o: CommandOption) {
    o.NumberCommandOption? && o.numberOption.name == "days"
  }

  /** Both options the played command needs are present. */
  predicate HasRequiredOptions(options: seq<CommandOption>) {
    && (exists i :: 0 <= i < |options| && IsUserOption(options[i]))
    && (exists j :: 0 <= j < |options| && IsDaysOption(options[j]))
  }

  /** The closure given to the first `find_map`: the value of a "user" string option. */
  function UserValue(o: CommandOption): Option<string> {
    match o
    case NumberCommandOption(_) => None
    case StringCommandOption(option) => if option.name == "user" then Some(option.value) else None
  }

  /** The closure given to the second `find_map`: the value of a "days" number option. */
  function DaysValue(o: CommandOption): Option<int> {
    match o
    case NumberCommandOption(option) => if option.name == "days" then Some(option.value) else None
    case StringCommandOption(_) => None
  }

  /** Extracts the player name and the day window from the command's options. */
  function BuildPlayedCommand(options: seq<CommandOption>): (r: BotResult<PlayedCommand>)
    ensures r.Ok? <==> HasRequiredOptions(options)
    ensures r.Err? ==> r.error == PlayerNameNotFound
    ensures r.Ok? ==>
      exists i :: 0 <= i < |options|
        && options[i] == StringCommandOption(StringOption("user", r.value.playerName))
        && forall k :: 0 <= k < i ==> !IsUserOption(options[k])
    ensures r.Ok? ==>
      exists j :: 0 <= j < |options|
        && options[j] == NumberCommandOption(NumberOption("days", r.value.days))
        && forall k :: 0 <= k < j ==> !IsDaysOption(options[k])
  {
    var playerName :- FindMap(options, UserValue).OkOr(PlayerNameNotFound);
    var daysRequested :- FindMap(options, DaysValue).OkOr(PlayerNameNotFound);
    Ok(PlayedCommand(playerName, daysRequested))
  }

  /** An option that is neither a "user" string nor a "days" number, wherever it is
      inserted, changes nothing. */
  lemma IgnoresOtherOptions(front: seq<CommandOption>, o: CommandOption, back: seq<CommandOption>)
    requires !IsUserOption(o) && !IsDaysOption(o)
    ensures BuildPlayedCommand(front + [o] + back) == BuildPlayedCommand(front + back)
  {
    FindMapAppend(front + [o], back, UserValue);
    FindMapAppend(front, [o], UserValue);
    FindMapAppend(front, back, UserValue);
    FindMapAppend(front + [o], back, DaysValue);
    FindMapAppend(front, [o], DaysValue);
    FindMapAppend(front, back, DaysValue);
  }

  /** Once the options hold both required values, options arriving after them change
      nothing: the first occurrence of each is the one used. */
  lemma FirstOccurrenceWins(options: seq<CommandOption>, later: seq<CommandOption>)
    requires HasRequiredOptions(options)
    ensures BuildPlayedCommand(options + later) == BuildPlayedCommand(options)
  {
    FindMapAppend(options, later, UserValue);
    FindMapAppend(options, later, DaysValue);
  }

  // ---------------------------------------------------------------------------
  // Match-summary aggregation
  // ---------------------------------------------------------------------------

  function GameDuration(g: UserGameSummary): nat {
    g.gameDurationMillis
  }

  function WinValue(g: UserGameSummary): nat {
    if g.participant.win == true then 1 else 0
  }

  function LossValue(g: UserGameSummary): nat {
    if g.participant.win == true then 0 else 1
  }

  /** Total time played over all the games, in milliseconds. */
  function CalculateTimePlayed(summaries: seq<UserGameSummary>): (r: nat)
    ensures summaries == [] ==> r == 0
  {
    MapSum(summaries, GameDuration)
  }

  /** Number of games the player won. */
  function CalculateWins(summaries: seq<UserGameSummary>): (r: nat)
    ensures summaries == [] ==> r == 0
  {
    MapSum(summaries, WinValue)
  }

  /** Number of games the player did not win. */
  function CalculateLoses(summaries: seq<UserGameSummary>): (r: nat)
    ensures summaries == [] ==> r == 0
  {
    MapSum(summaries, LossValue)
  }

  /** The total is the sum of the games' durations: a single game contributes its
      duration, and the total of two lists joined is the sum of their totals. */
  lemma TimePlayedIsSumOfDurations(a: seq<UserGameSummary>, b: seq<UserGameSummary>, g: UserGameSummary)
    ensures CalculateTimePlayed([g]) == g.gameDurationMillis
    ensures CalculateTimePlayed(a + b) == CalculateTimePlayed(a) + CalculateTimePlayed(b)
  {
    MapSumAppend(a, b, GameDuration);
  }

  /** The win count is the number of games whose participant won. */
  lemma WinsCountWonGames(summaries: seq<UserGameSummary>)
    ensures CalculateWins(summaries) == |set i | 0 <= i < |summaries| && summaries[i].participant.win|
  {
    var f: UserGameSummary -> nat := WinValue;
    MapSumCounts(summaries, f);
    assert OnesOf(summaries, f) == (set i | 0 <= i < |summaries| && summaries[i].participant.win);
  }

  /** The loss count is the number of games whose participant did not win. */
  lemma LosesCountLostGames(summaries: seq<UserGameSummary>)
    ensures CalculateLoses(summaries) == |set i | 0 <= i < |summaries| && !summaries[i].participant.win|
  {
    var f: UserGameSummary -> nat := LossValue;
    MapSumCounts(summaries, f);
    assert OnesOf(summaries, f) == (set i | 0 <= i < |summaries| && !summaries[i].participant.win);
  }

  /** Every game is either a win or a loss: the two counts add up to the number of
      games, so neither exceeds it. */
  lemma {:induction false} WinsPlusLoses(summaries: seq<UserGameSummary>)
    ensures CalculateWins(summaries) + CalculateLoses(summaries) == |summaries|
    ensures CalculateWins(summaries) <= |summaries| && CalculateLoses(summaries) <= |summaries|
  {
    if summaries != [] {
      WinsPlusLoses(summaries[1..]);
    }
  }

  /** None of the three figures depends on the order in which the games arrive. */
  lemma StatsIgnoreOrder(a: seq<UserGameSummary>, b: seq<UserGameSummary>)
    requires multiset(a) == multiset(b)
    ensures CalculateTimePlayed(a) == CalculateTimePlayed(b)
    ensures CalculateWins(a) == CalculateWins(b)
    ensures CalculateLoses(a) == CalculateLoses(b)
  {
    MapSumPermutation(a, b, GameDuration);
    MapSumPermutation(a, b, WinValue);
    MapSumPermutation(a, b, LossValue);
  }

  // ---------------------------------------------------------------------------
  // Formatting
  // ---------------------------------------------------------------------------

  /** Whole hours and the leftover whole minutes of a duration in milliseconds: the
      hours are the duration divided by 3,600,000 and the minutes are what is left of
      the last hour, divided by 60,000. */
  function CreateTimePlayedString(millis: nat): (s: string)
    ensures s == NatToString(millis / 3600000)
               + (" hours and " + (NatToString(millis % 3600000 / 60000) + " minutes"))
  {
    var seconds := millis / 1000;
    var minutes := seconds / 60;
    var hours := minutes / 60;
    var leftoverMinutes := minutes % 60;
    assert hours == millis / 3600000 && leftoverMinutes == millis % 3600000 / 60000;
    NatToString(hours) + " hours and " + NatToString(leftoverMinutes) + " minutes"
  }

  /** The string reports `hours` and `minutes` (< 60) exactly when the duration lies in
      the minute that starts `hours` hours and `minutes` minutes in: whole hours, then
      leftover whole minutes, and any part of a minute is dropped. */
  lemma TimePlayedStringReports(millis: nat, hours: nat, minutes: nat)
    requires minutes < 60
    ensures CreateTimePlayedString(millis) ==
              NatToString(hours) + (" hours and " + (NatToString(minutes) + " minutes"))
        <==> hours * 3600000 + minutes * 60000 <= millis < hours * 3600000 + minutes * 60000 + 60000
  {
    var start := hours * 3600000 + minutes * 60000;
    StartOfMinute(hours, minutes);
    TimePlayedStringSameMinutes(millis, start);
    WholeMinutes(millis, hours * 60 + minutes);
  }

  /** The minute that starts `hours` hours and `minutes` minutes in. */
  lemma StartOfMinute(hours: nat, minutes: nat)
    requires minutes < 60
    ensures (hours * 3600000 + minutes * 60000) / 3600000 == hours
    ensures (hours * 3600000 + minutes * 60000) % 3600000 / 60000 == minutes
    ensures (hours * 3600000 + minutes * 60000) / 60000 == hours * 60 + minutes
  {
    var start := hours * 3600000 + minutes * 60000;
    assert start == (hours * 60 + minutes) * 60000;
  }

  /** A duration has `q` whole minutes exactly when it lies in the `q`-th minute. */
  lemma WholeMinutes(millis: nat, q: nat)
    ensures millis / 60000 == q <==> q * 60000 <= millis < q * 60000 + 60000
  {
  }

  /** Whole minutes split into the whole hours and the minutes left of the last hour. */
  lemma MinutesSplit(millis: nat)
    ensures millis % 3600000 / 60000 < 60
    ensures millis / 60000 == millis / 3600000 * 60 + millis % 3600000 / 60000
  {
    var h, rest := millis / 3600000, millis % 3600000;
    var m, sub := rest / 60000, rest % 60000;
    assert millis == (h * 60 + m) * 60000 + sub && sub < 60000;
  }

  /** Two durations print the same exactly when they have the same number of whole minutes. */
  lemma TimePlayedStringSameMinutes(a: nat, b: nat)
    ensures CreateTimePlayedString(a) == CreateTimePlayedString(b) <==> a / 60000 == b / 60000
  {
    SameMinutesSplit(a, b);
    if CreateTimePlayedString(a) == CreateTimePlayedString(b) {
      var ha, hb := a / 3600000, b / 3600000;
      var ma, mb := a % 3600000 / 60000, b % 3600000 / 60000;
      var restA := NatToString(ma) + " minutes";
      var restB := NatToString(mb) + " minutes";
      PrintedNatDetermined(ha, " hours and " + restA, hb, " hours and " + restB);
      CancelPrefix(" hours and ", restA, restB);
      PrintedNatDetermined(ma, " minutes", mb, " minutes");
    }
  }

  /** Two durations have the same whole minutes exactly when they have the same whole
      hours and the same leftover minutes. */
  lemma SameMinutesSplit(a: nat, b: nat)
    ensures a / 60000 == b / 60000
        <==> a / 3600000 == b / 3600000 && a % 3600000 / 60000 == b % 3600000 / 60000
  {
    MinutesSplit(a);
    MinutesSplit(b);
    var qa, qb := a / 60000, b / 60000;
    assert qa / 60 == a / 3600000 && qa % 60 == a % 3600000 / 60000;
    assert qb / 60 == b / 3600000 && qb % 60 == b % 3600000 / 60000;
  }

  /** 90 minutes print as one hour and thirty minutes. */
  lemma NinetyMinutesExample()
    ensures CreateTimePlayedString(5400000) == "1 hours and 30 minutes"
  {
    ThirtyPrinted();
  }

  lemma ThirtyPrinted()
    ensures NatToString(30) == "30"
  {
    assert NatToString(30) == NatToString(3) + [DigitChar(0)];
  }

  /** One hour prints with zero leftover minutes. */
  lemma WholeHourExample()
    ensures CreateTimePlayedString(3600000) == "1 hours and 0 minutes"
  {
  }

  /** No time at all prints as zero hours and zero minutes. */
  lemma ZeroExample()
    ensures CreateTimePlayedString(0) == "0 hours and 0 minutes"
  {
  }

  /** The reply sent back for a successful lookup. */
  function PlayedResponse(playerName: string, timePlayed: string, days: int, wins: nat, loses: nat): (r: string)
    ensures |r| > |playerName| + 16 + |timePlayed|
    ensures r[..|playerName| + 16 + |timePlayed|] == playerName + " has played for " + timePlayed
    ensures r[|r| - 5..] == "\n    "
  {
    playerName + " has played for " + timePlayed + " over " + IntToString(days)
      + " days\n\n    They won " + NatToString(wins) + " games and lost " + NatToString(loses) + "\n    "
  }

  /** The reply can be read back: for one player name, two replies are equal exactly
      when they report the same whole minutes played, the same day window and the same
      win and loss counts. */
  lemma PlayedResponseDetermined(name: string, a: nat, d1: int, w1: nat, l1: nat,
                                 b: nat, d2: int, w2: nat, l2: nat)
    ensures PlayedResponse(name, CreateTimePlayedString(a), d1, w1, l1)
         == PlayedResponse(name, CreateTimePlayedString(b), d2, w2, l2)
        <==> a / 60000 == b / 60000 && d1 == d2 && w1 == w2 && l1 == l2
  {
    TimePlayedStringSameMinutes(a, b);
    var t1, t2 := CreateTimePlayedString(a), CreateTimePlayedString(b);
    if PlayedResponse(name, t1, d1, w1, l1) == PlayedResponse(name, t2, d2, w2, l2) {
      var x1 := ResponseAfterTime(d1, w1, l1);
      var x2 := ResponseAfterTime(d2, w2, l2);
      ResponseShape(name, t1, d1, w1, l1);
      ResponseShape(name, t2, d2, w2, l2);
      CancelPrefix(name + " has played for ", t1 + x1, t2 + x2);
      TimeStringFollowedBy(a, x1, b, x2);
      ResponseAfterTimeDetermined(d1, w1, l1, d2, w2, l2);
    }
  }

  /** The part of the reply after the rendered duration. */
  function ResponseAfterTime(days: int, wins: nat, loses: nat): (s: string)
    ensures |s| > 0 && s[0] == ' '
  {
    " over " + (IntToString(days) + (" days\n\n    They won " + (NatToString(wins)
      + (" games and lost " + (NatToString(loses) + "\n    ")))))
  }

  /** The reply is the name, a fixed text, the duration, then the rest. */
  lemma ResponseShape(name: string, timePlayed: string, days: int, wins: nat, loses: nat)
    ensures PlayedResponse(name, timePlayed, days, wins, loses)
         == (name + " has played for ") + (timePlayed + ResponseAfterTime(days, wins, loses))
  {
    ReassociateNine(name + " has played for ", timePlayed, " over ", IntToString(days),
      " days\n\n    They won ", NatToString(wins), " games and lost ", NatToString(loses), "\n    ");
  }

  lemma ReassociateNine(s1: string, s2: string, s3: string, s4: string, s5: string,
                        s6: string, s7: string, s8: string, s9: string)
    ensures s1 + s2 + s3 + s4 + s5 + s6 + s7 + s8 + s9
         == s1 + (s2 + (s3 + (s4 + (s5 + (s6 + (s7 + (s8 + s9)))))))
  {
  }

  /** The rest of the reply determines the day window and the two counts. */
  lemma ResponseAfterTimeDetermined(d1: int, w1: nat, l1: nat, d2: int, w2: nat, l2: nat)
    requires ResponseAfterTime(d1, w1, l1) == ResponseAfterTime(d2, w2, l2)
    ensures d1 == d2 && w1 == w2 && l1 == l2
  {
    var losses1, losses2 := NatToString(l1) + "\n    ", NatToString(l2) + "\n    ";
    var wins1, wins2 := NatToString(w1) + (" games and lost " + losses1), NatToString(w2) + (" games and lost " + losses2);
    var days1, days2 := IntToString(d1) + (" days\n\n    They won " + wins1), IntToString(d2) + (" days\n\n    They won " + wins2);
    CancelPrefix(" over ", days1, days2);
    PrintedIntDetermined(d1, " days\n\n    They won " + wins1, d2, " days\n\n    They won " + wins2);
    CancelPrefix(" days\n\n    They won ", wins1, wins2);
    PrintedNatDetermined(w1, " games and lost " + losses1, w2, " games and lost " + losses2);
    CancelPrefix(" games and lost ", losses1, losses2);
    PrintedNatDetermined(l1, "\n    ", l2, "\n    ");
  }

  /** A rendered duration followed by text that starts with a space can be read back:
      the whole minutes and the text after it are both determined. */
  lemma TimeStringFollowedBy(a: nat, x: string, b: nat, y: string)
    requires |x| > 0 && x[0] == ' ' && |y| > 0 && y[0] == ' '
    requires CreateTimePlayedString(a) + x == CreateTimePlayedString(b) + y
    ensures a / 60000 == b / 60000 && x == y
  {
    var ha, hb := a / 3600000, b / 3600000;
    var ma, mb := a % 3600000 / 60000, b % 3600000 / 60000;
    MinutesSplit(a);
    MinutesSplit(b);
    var restA := NatToString(ma) + (" minutes" + x);
    var restB := NatToString(mb) + (" minutes" + y);
    ReassociateFour(NatToString(ha), " hours and ", NatToString(ma), " minutes", x);
    ReassociateFour(NatToString(hb), " hours and ", NatToString(mb), " minutes", y);
    PrintedNatDetermined(ha, " hours and " + restA, hb, " hours and " + restB);
    CancelPrefix(" hours and ", restA, restB);
    PrintedNatDetermined(ma, " minutes" + x, mb, " minutes" + y);
    CancelPrefix(" minutes", x, y);
  }

  lemma ReassociateFour(s1: string, s2: string, s3: string, s4: string, s5: string)
    ensures (s1 + (s2 + (s3 + s4))) + s5 == s1 + (s2 + (s3 + (s4 + s5)))
  {
  }

  // ---------------------------------------------------------------------------
  // The command handler
  // ---------------------------------------------------------------------------

  /** Runs the played command: parse the options, read the API key, resolve the
      player, list their games in the day window, fetch the games' summaries and
      summarise them. The first step that fails ends the run with its error. */
  function ExecutePlayedCommand(api: LolApi, playedCommand: Command, apiKey: Option<string>): (r: BotResult<string>)
    ensures !HasRequiredOptions(playedCommand.options) ==> r == Err(PlayerNameNotFound)
    ensures HasRequiredOptions(playedCommand.options) && apiKey.None? ==> r == Err(MissingApiKey)
  {
    var command :- BuildPlayedCommand(playedCommand.options);
    var key :- apiKey.OkOr(MissingApiKey);
    var puuid :- api.getPuuid(PlatformRegion, command.playerName, key);
    var gameIds :- api.getGameIds(key, RoutingRegion, puuid, command.days);
    var models :- api.fetchGameSummaries(key, RoutingRegion, puuid, gameIds);
    var playedFor := CalculateTimePlayed(models);
    var timePlayedString := CreateTimePlayedString(playedFor);
    var wins := CalculateWins(models);
    var loses := CalculateLoses(models);
    Ok(PlayedResponse(command.playerName, timePlayedString, command.days, wins, loses))
  }

  /** A failing player lookup ends the run with the lookup's own error. */
  lemma PuuidErrorReturned(api: LolApi, c: Command, key: string, command: PlayedCommand, e: BotError)
    requires BuildPlayedCommand(c.options) == Ok(command)
    requires api.getPuuid(PlatformRegion, command.playerName, key) == Err(e)
    ensures ExecutePlayedCommand(api, c, Some(key)) == Err(e)
  {
  }

  /** A failing game listing ends the run with the listing's own error. */
  lemma GameIdsErrorReturned(api: LolApi, c: Command, key: string, command: PlayedCommand,
                             puuid: string, e: BotError)
    requires BuildPlayedCommand(c.options) == Ok(command)
    requires api.getPuuid(PlatformRegion, command.playerName, key) == Ok(puuid)
    requires api.getGameIds(key, RoutingRegion, puuid, command.days) == Err(e)
    ensures ExecutePlayedCommand(api, c, Some(key)) == Err(e)
  {
  }

  /** A failing summary fetch ends the run with the fetch's own error. */
  lemma SummariesErrorReturned(api: LolApi, c: Command, key: string, command: PlayedCommand,
                               puuid: string, gameIds: seq<string>, e: BotError)
    requires BuildPlayedCommand(c.options) == Ok(command)
    requires api.getPuuid(PlatformRegion, command.playerName, key) == Ok(puuid)
    requires api.getGameIds(key, RoutingRegion, puuid, command.days) == Ok(gameIds)
    requires api.fetchGameSummaries(key, RoutingRegion, puuid, gameIds) == Err(e)
    ensures ExecutePlayedCommand(api, c, Some(key)) == Err(e)
  {
  }

  /** When every step succeeds the reply names the player and the day window of the
      command, and reports the games' total time, wins and losses; the win and loss
      counts together account for every game fetched. */
  lemma SuccessfulRun(api: LolApi, c: Command, key: string, command: PlayedCommand,
                      puuid: string, gameIds: seq<string>, models: seq<UserGameSummary>)
    requires BuildPlayedCommand(c.options) == Ok(command)
    requires api.getPuuid(PlatformRegion, command.playerName, key) == Ok(puuid)
    requires api.getGameIds(key, RoutingRegion, puuid, command.days) == Ok(gameIds)
    requires api.fetchGameSummaries(key, RoutingRegion, puuid, gameIds) == Ok(models)
    ensures ExecutePlayedCommand(api, c, Some(key)) == Ok(PlayedResponse(command.playerName,
      CreateTimePlayedString(CalculateTimePlayed(models)), command.days,
      CalculateWins(models), CalculateLoses(models)))
    ensures CalculateWins(models) + CalculateLoses(models) == |models|
  {
    WinsPlusLoses(models);
  }

  /** A player with no games in the window gets a reply of zero time, zero wins and
      zero losses, not an error. */
  lemma NoGamesRun(api: LolApi, c: Command, key: string, command: PlayedCommand,
                   puuid: string, gameIds: seq<string>)
    requires BuildPlayedCommand(c.options) == Ok(command)
    requires api.getPuuid(PlatformRegion, command.playerName, key) == Ok(puuid)
    requires api.getGameIds(key, RoutingRegion, puuid, command.days) == Ok(gameIds)
    requires api.fetchGameSummaries(key, RoutingRegion, puuid, gameIds) == Ok([])
    ensures ExecutePlayedCommand(api, c, Some(key))
         == Ok(PlayedResponse(command.playerName, "0 hours and 0 minutes", command.days, 0, 0))
  {
    ZeroExample();
  }

  /** An upstream that resolves any player, lists three games, and returns games of
      30, 15 and 45 minutes, won, lost and won. */
  function ThreeGamesApi(): LolApi {
    LolApi(
      (region, name, key) => Ok("puuid-1"),
      (key, routing, puuid, days) => Ok(["EUW1_1", "EUW1_2", "EUW1_3"]),
      (key, routing, puuid, ids) => Ok([
        UserGameSummary(1800000, Participant(true)),
        UserGameSummary(900000, Participant(false)),
        UserGameSummary(2700000, Participant(true))]))
  }

  /** End to end: "user: Faker, days: 7" against three games totalling 90 minutes, two
      of them won, replies with one hour thirty minutes, two wins and one loss. */
  lemma ThreeGamesScenario()
    ensures ExecutePlayedCommand(ThreeGamesApi(),
        Command([StringCommandOption(StringOption("user", "Faker")),
                 NumberCommandOption(NumberOption("days", 7))]),
        Some("key"))
      == Ok(PlayedResponse("Faker", "1 hours and 30 minutes", 7, 2, 1))
  {
    var options := [StringCommandOption(StringOption("user", "Faker")),
                    NumberCommandOption(NumberOption("days", 7))];
    var games := [UserGameSummary(1800000, Participant(true)),
                  UserGameSummary(900000, Participant(false)),
                  UserGameSummary(2700000, Participant(true))];
    assert FindMap(options, UserValue) == Some("Faker");
    assert FindMap(options, DaysValue) == Some(7) by {
      assert options[1..] == [NumberCommandOption(NumberOption("days", 7))];
    }
    assert games[1..][1..] == [games[2]];
    assert CalculateTimePlayed(games) == 5400000;
    assert CalculateWins(games) == 2;
    assert CalculateLoses(games) == 1;
    SuccessfulRun(ThreeGamesApi(), Command(options), "key", PlayedCommand("Faker", 7),
      "puuid-1", ["EUW1_1", "EUW1_2", "EUW1_3"], games);
    NinetyMinutesExample();
  }

  /** The reply of the scenario above, with every number rendered: the pieces of the
      template around "1 hours and 30 minutes", "7", "2" and "1". */
  lemma ThreeGamesReplyText()
    ensures PlayedResponse("Faker", "1 hours and 30 minutes", 7, 2, 1)
         == "Faker" + " has played for " + "1 hours and 30 minutes" + " over " + "7"
            + " days\n\n    They won " + "2" + " games and lost " + "1" + "\n    "
  {
    assert IntToString(7) == "7" && NatToString(2) == "2" && NatToString(1) == "1";
  }
}
