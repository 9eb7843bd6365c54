/** The slash-command and error types the command handler consumes and produces. */
module DiscordBotTypes {
  import opened Wrappers

  /** The uniform failure envelope: an HTTP-style status code and a message body. */
  datatype BotError = BotError(statusCode: nat, body: string)

  /** A string-valued option of a slash command, e.g. `user: "Faker"`. */
  datatype StringOption = StringOption(name: string, value: string)

  /** A number-valued option of a slash command, e.g. `days: 7`. */
  datatype NumberOption = NumberOption(name: string, value: int)

  /** One option of a slash command, tagged with the kind of its value. */
  datatype CommandOption =
    | StringCommandOption(stringOption: StringOption)
    | NumberCommandOption(numberOption: NumberOption)

  /** A received slash command: its options, in the order they arrived. */
  datatype Command = Command(options: seq<CommandOption>)

  /** The validated arguments of the "played" command. */
  datatype PlayedCommand = PlayedCommand(playerName: string, days: int)

  /** The outcome of every fallible step of the handler. */
  type BotResult<T> = Result<T, BotError>
}

/** The per-game records returned by the gameplay-statistics client. */
module LolModels {

  /** The queried player's participation in one game. */
  datatype Participant = Participant(win: bool)

  /** One finished game as seen by the queried player. */
  datatype UserGameSummary = UserGameSummary(gameDurationMillis: nat, participant: Participant)
}
