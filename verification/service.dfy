/**
  What a contact handler sees of the world around it and what it leaves
  behind: the configuration read at start-up, the abstract outcome of the
  database insert and of the Telegram post, the HTTP response, and the trace
  of external effects it attempted.
*/
module Service {
  import opened Text
  import opened Contact

  /** Environment variable names read at start-up. */
  const DatabaseUrlVar := "DATABASE_URL"
  const BotTokenVar := "TELEGRAM_BOT_TOKEN"
  const ChatIdVar := "TELEGRAM_CHAT_ID"

  datatype Config = Config(databaseUrl: string, botToken: string, chatId: string)

  /**
    `os.getenv(name, "").strip()` for each of the three settings. A
    setting that is unset or all whitespace loads as the empty string, which
    the handlers treat as "not configured".
  */
  function LoadConfig(isSpace: char -> bool, env: map<string, string>): (cfg: Config)
    ensures cfg.databaseUrl == [] <==> AllSpace(isSpace, Lookup(env, DatabaseUrlVar))
    ensures cfg.botToken == [] <==> AllSpace(isSpace, Lookup(env, BotTokenVar))
    ensures cfg.chatId == [] <==> AllSpace(isSpace, Lookup(env, ChatIdVar))
    // Each setting is its raw value with the surrounding whitespace cut off.
    ensures exists i, j ::
      StripBounds(isSpace, Lookup(env, DatabaseUrlVar), i, j) && cfg.databaseUrl == Lookup(env, DatabaseUrlVar)[i..j]
    ensures exists i, j ::
      StripBounds(isSpace, Lookup(env, BotTokenVar), i, j) && cfg.botToken == Lookup(env, BotTokenVar)[i..j]
    ensures exists i, j ::
      StripBounds(isSpace, Lookup(env, ChatIdVar), i, j) && cfg.chatId == Lookup(env, ChatIdVar)[i..j]
    ensures cfg.databaseUrl != [] ==>
      !isSpace(cfg.databaseUrl[0]) && !isSpace(cfg.databaseUrl[|cfg.databaseUrl| - 1])
  {
    Config(
      Strip(isSpace, Lookup(env, DatabaseUrlVar)),
      Strip(isSpace, Lookup(env, BotTokenVar)),
      Strip(isSpace, Lookup(env, ChatIdVar)))
  }

  /**
    What connecting, inserting, fetching the new id and committing came to:
    the generated id, or the text of the exception raised on the way.
  */
  datatype StoreOutcome = Stored(id: int) | StoreFailed(reason: string)

  /** What `requests.post` to the Telegram API came to; the handlers ignore it. */
  datatype PostOutcome = Delivered | PostRaised(reason: string)

  /** The JSON body: `{"ok": true, "id": ...}` or `{"ok": false, "error": ...}`. */
  datatype Body = Created(id: int) | Failed(error: string)

  datatype Response = Response(status: int, body: Body) {
    /** The body's `ok` flag. */
    predicate Ok() {
      body.Created?
    }
  }

  /** An external effect a handler attempted, in the order attempted. */
  datatype Effect =
    | StoreAttempted(row: Submission)
    | NotifyAttempted(botToken: string, chatId: string, text: string)

  datatype Outcome = Outcome(response: Response, effects: seq<Effect>)

  const RequiredError := "Name and Phone are required."
  const DatabaseUnsetError := "DATABASE_URL is not set on server."
}
