# The "played" slash command, modelled in Dafny

This project models the "played" command of a Discord bot. The command receives a
slash command with the options `user` (a string) and `days` (a number). It asks the
League of Legends statistics client for that player's games in the last `days` days
and replies with one sentence:

    <name> has played for <H> hours and <M> minutes over <days> days

        They won <wins> games and lost <loses>

The model covers everything in `src/lol_command.rs`:

- **Option parsing** (`build_played_command`). `LolCommand.BuildPlayedCommand` takes
  the first string option named `user` and the first number option named `days`. Both
  searches use `Iter.FindMap`, a model of Rust's `find_map`. If either option is
  missing the result is `BotError{500, "Could not find player name"}`.
- **Aggregation** (`calculate_time_played`, `calculate_wins`, `calculate_loses`).
  These are `Iter.MapSum`, a model of `iter().map(f).sum()`, applied to the closures
  of the source.
- **Formatting**. `create_time_played_string` becomes
  `LolCommand.CreateTimePlayedString`. The reply template becomes
  `LolCommand.PlayedResponse`. Rust's `{}` rendering of integers is `Fmt.NatToString`
  and `Fmt.IntToString`.
- **The handler** (`execute_played_command`). `LolCommand.ExecutePlayedCommand`
  chains the stages with `:-`, the counterpart of Rust's `?`.
  - The three client calls are the function fields of a `LolApi` value.
  - The `LOL_API_KEY` environment variable is an `Option<string>` parameter.
  - The region constants `"euw1"` and `"europe"` are passed exactly as the source
    passes them.

Behaviour of the code that the model keeps:

- A missing option is reported with status 500.
- A missing `days` option gets the same body as a missing `user` option: "Could not
  find player name".
- The player name is not checked for being non-empty, and `days` is not checked for
  being at least 1. Any value is copied into the command unchanged.

Files:
- `wrappers.dfy`: `Option` and `Result`, with `ok_or`.
- `types.dfy`: the command, option, error and game-summary types.
- `iter.dfy`: `find_map` and `map().sum()`, with their lemmas.
- `fmt.dfy`: decimal rendering of integers, and the lemmas that read it back.
- `lol_command.dfy`: the command itself.

## Model

| member | source | states |
|---|---|---|
| `Iter.FindMap` | src/lol_command.rs:52-56 | The result is `None` exactly when the closure gives `None` for every option. Otherwise it is the closure's value at the first position where that value is `Some`. |
| `Iter.FindMapAppend` | src/lol_command.rs:62-64 | Searching `a + b` finds the match in `a` if there is one, and otherwise searches `b`. |
| `Iter.MapSum` | src/lol_command.rs:31 | The sum over no elements is 0. Its other properties are `Iter.MapSumAppend`, `Iter.MapSumPermutation` and `Iter.MapSumCounts`. |
| `Iter.MapSumAppend` | src/lol_command.rs:31 | The sum over a concatenation is the sum of the two parts' sums. |
| `Iter.MapSumRemove` | src/lol_command.rs:31 | Removing one element subtracts that element's value from the sum. The multiset loses exactly that element. |
| `Iter.MapSumPermutation` | src/lol_command.rs:31 | Two sequences with the same multiset of elements have the same sum. |
| `Iter.MapSumCounts` | src/lol_command.rs:35 | When each value is 0 or 1, the sum equals the number of positions whose value is 1. |
| `LolCommand.BuildPlayedCommand` | src/lol_command.rs:51-73 | Succeeds exactly when there is a string option named "user" and a number option named "days". On success the name and days are the values of the first such option of each kind, unchanged. On failure the error is `BotError{500, "Could not find player name"}`. |
| `LolCommand.IgnoresOtherOptions` | src/lol_command.rs:52-68 | Inserting an option anywhere does not change the result, if it is neither a "user" string option nor a "days" number option. This covers other names and the right name with the wrong kind. |
| `LolCommand.FirstOccurrenceWins` | src/lol_command.rs:52-68 | When both required options are present, appending more options does not change the result. |
| `LolCommand.CalculateTimePlayed` | src/lol_command.rs:30-32 | The total time of no games is 0. |
| `LolCommand.CalculateWins` | src/lol_command.rs:34-36 | The win count of no games is 0. |
| `LolCommand.CalculateLoses` | src/lol_command.rs:38-40 | The loss count of no games is 0. |
| `LolCommand.TimePlayedIsSumOfDurations` | src/lol_command.rs:30-32 | One game contributes its `game_duration_millis`. The total for two lists joined is the sum of their totals. |
| `LolCommand.WinsCountWonGames` | src/lol_command.rs:34-36 | The win count is the number of games with `participant.win` true. |
| `LolCommand.LosesCountLostGames` | src/lol_command.rs:38-40 | The loss count is the number of games with `participant.win` false. |
| `LolCommand.WinsPlusLoses` | src/lol_command.rs:34-40 | Wins plus losses is the number of games, so neither count exceeds it. |
| `LolCommand.StatsIgnoreOrder` | src/lol_command.rs:30-40 | Reordering the games leaves the total time, the wins and the losses unchanged. |
| `LolCommand.CreateTimePlayedString` | src/lol_command.rs:42-49 | The hours printed are `millis / 3,600,000`. The minutes printed are `millis % 3,600,000 / 60,000`, the whole minutes left of the last hour. How the rendering reads back is in `LolCommand.TimePlayedStringReports` and `LolCommand.TimePlayedStringSameMinutes`. |
| `LolCommand.StartOfMinute` | src/lol_command.rs:43-48 | A duration of H hours and M minutes (M < 60) has H whole hours, M leftover minutes and 60·H + M whole minutes. |
| `LolCommand.MinutesSplit` | src/lol_command.rs:43-48 | The leftover minutes are below 60, and the whole minutes are 60 times the whole hours plus the leftover minutes. |
| `LolCommand.SameMinutesSplit` | src/lol_command.rs:43-48 | Two durations have the same whole minutes exactly when they have the same whole hours and the same leftover minutes. |
| `LolCommand.TimePlayedStringReports` | src/lol_command.rs:42-49 | The string reports `H hours and M minutes` (with M < 60) exactly for durations from H·3,600,000 + M·60,000 ms up to one minute more. Whole hours come first, then leftover whole minutes, and the part of a minute is dropped. |
| `LolCommand.TimePlayedStringSameMinutes` | src/lol_command.rs:42-49 | Two durations render the same exactly when they have the same number of whole minutes. |
| `LolCommand.NinetyMinutesExample` | src/lol_command.rs:42-49 | 5,400,000 ms renders as "1 hours and 30 minutes". |
| `LolCommand.WholeHourExample` | src/lol_command.rs:42-49 | 3,600,000 ms renders as "1 hours and 0 minutes". |
| `LolCommand.ZeroExample` | src/lol_command.rs:42-49 | 0 ms renders as "0 hours and 0 minutes". |
| `LolCommand.TimeStringFollowedBy` | src/lol_command.rs:42-48 | A rendered duration followed by text that starts with a space determines both the whole minutes and that text. |
| `LolCommand.PlayedResponse` | src/lol_command.rs:25-27 | The reply starts with the player name, " has played for " and the duration, and ends with a newline and four spaces. How it reads back is in `LolCommand.PlayedResponseDetermined`. |
| `LolCommand.ResponseAfterTimeDetermined` | src/lol_command.rs:25-27 | The part of the reply after the duration determines the days, the wins and the losses. |
| `LolCommand.PlayedResponseDetermined` | src/lol_command.rs:25-27 | For one player name, two replies are equal exactly when they have the same whole minutes, days, wins and losses. |
| `LolCommand.ExecutePlayedCommand` | src/lol_command.rs:5-28 | If a required option is missing, the handler returns the parse error, whatever the API key. If the options parse and the key is absent, it returns `BotError{500, "Missing LOL API key"}`. |
| `LolCommand.PuuidErrorReturned` | src/lol_command.rs:15 | A failing player lookup ends the run with the lookup's own error, unchanged. |
| `LolCommand.GameIdsErrorReturned` | src/lol_command.rs:16 | A failing game listing ends the run with the listing's own error, unchanged. |
| `LolCommand.SummariesErrorReturned` | src/lol_command.rs:17 | A failing summary fetch ends the run with the fetch's own error, unchanged. |
| `LolCommand.SuccessfulRun` | src/lol_command.rs:15-27 | When every stage succeeds, the reply is the template filled with the command's name and days and the games' total time, wins and losses. Wins plus losses equals the number of games fetched. |
| `LolCommand.NoGamesRun` | src/lol_command.rs:17-27 | An empty game list gives a reply of "0 hours and 0 minutes", 0 wins and 0 losses, not an error. |
| `LolCommand.ThreeGamesScenario` | src/lol_command.rs:5-27 | For "user: Faker, days: 7" and games of 30, 15 and 45 minutes (won, lost, won), the reply reports 1 hour 30 minutes, 2 wins and 1 loss. |
| `LolCommand.ThreeGamesReplyText` | src/lol_command.rs:25-27 | That reply is the template with "1 hours and 30 minutes", "7", "2" and "1" in its four places. |
| `Fmt.NatToString` | src/lol_command.rs:48 | Rust's `{}` rendering of an unsigned number: non-empty, digits only, and no leading zero. It is one character long exactly when the number is below 10. |
| `Fmt.NatToStringRoundTrip` | src/lol_command.rs:48 | Reading the rendered digits back gives the number. |
| `Fmt.DigitsRoundTrip` | src/lol_command.rs:48 | Every non-empty digit string without a leading zero is the rendering of the number it denotes. |
| `Fmt.IntToString` | src/lol_command.rs:25-27 | The rendering of a signed number starts with '-' exactly when the number is negative. Otherwise it is digits only. Its digits denote the number or its negation (`Fmt.IntToStringRoundTrip`). |
| `Fmt.IntToStringRoundTrip` | src/lol_command.rs:25-27 | Reading the rendering of a signed number back gives the number: a non-negative number's digits denote it, and a negative number's digits after the '-' denote its negation. |
| `Fmt.PrintedNatDetermined` | src/lol_command.rs:25-27 | A rendered number followed by text that starts with a non-digit determines both the number and that text. |
| `Fmt.PrintedIntDetermined` | src/lol_command.rs:25-27 | The same for a rendered signed number. |

## Left out

- `src/main.rs` is not part of this model. It holds the Lambda/Tokio entry point and the JSON envelopes built with `serde_json`. It also calls request-signature verification, whose code is not part of this model. `process_request` there only panics; `create_response` returns a deserialisation error or panics.
- The statistics client (`mod lol;`: `get_puuid`, `get_game_ids`, `fetch_game_summaries` and its bounded-concurrency fetcher) does HTTP I/O and is not modelled. Each call is a total function from its arguments to a `Result`, so concurrency, rate limiting and first-failure abort inside the fetcher are not modelled.
- Reading `LOL_API_KEY` from the environment is an `Option<string>` parameter. An unset variable and a value that is not valid Unicode both become `None`.
- The `println!` logging is left out.
- `CalculateTimePlayed`: durations and their total are unbounded naturals. The source's `u64` sum can overflow: it panics in a debug build and wraps in a release build. That is not modelled.
- `CalculateWins`, `CalculateLoses`: their counts are unbounded naturals, not `u64`. A `u64` cannot overflow here, because neither count exceeds the number of games.
- `DiscordBotTypes.NumberOption`: the model takes the number option's value to be an `int`, with no width bound. If the Rust type is a floating-point number, fractional days (which `{}` prints as, say, "2.5") are not modelled.
- `Command` holds only its options. Its other fields are not read by this code.
- Strings are sequences of characters. UTF-8 encoding is not modelled.
