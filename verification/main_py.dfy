/**
  The `/api/contact` handler of main.py, as a function from the request body,
  the configuration and the outcomes of the database insert and the Telegram
  post to the HTTP response and the trace of effects attempted.

  This entry point checks `DATABASE_URL` before touching the database and
  skips the Telegram post when the bot token or chat id is unset.
*/
module MainPy {
  import opened Text
  import opened Contact
  import opened Service
  import opened Notification

  /**
    `send_telegram`: nothing is posted unless both the bot token and the chat
    id are set; whatever the post comes to is swallowed.
  */
  function SendTelegram(cfg: Config, text: string, post: PostOutcome): (effects: seq<Effect>)
    ensures effects == [] <==> cfg.botToken == [] || cfg.chatId == []
    ensures forall e :: e in effects ==> e == NotifyAttempted(cfg.botToken, cfg.chatId, text)
    ensures |effects| <= 1
  {
    if cfg.botToken == [] || cfg.chatId == [] then [] else [NotifyAttempted(cfg.botToken, cfg.chatId, text)]
  }

  /**
    The handler past normalisation: validate, check the configuration,
    insert, notify, respond. `store` is what the insert of `sub` comes to.
  */
  function Respond(sub: Submission, cfg: Config, store: StoreOutcome, post: PostOutcome): (out: Outcome)
    // Validation comes first, whatever the configuration.
    ensures out.response.status == 400 <==> !Valid(sub)
    ensures !Valid(sub) ==> out.response.body == Failed(RequiredError) && out.effects == []
    // An unset DATABASE_URL is reported before the database is touched.
    ensures Valid(sub) && cfg.databaseUrl == [] ==>
      out.response == Response(500, Failed(DatabaseUnsetError)) && out.effects == []
    // The insert is attempted exactly for valid input on a configured server, and first.
    ensures out.effects != [] <==> Valid(sub) && cfg.databaseUrl != []
    ensures out.effects != [] ==> out.effects[0] == StoreAttempted(sub)
    ensures forall e :: e in out.effects && e.StoreAttempted? ==> e.row == sub
    // A failed insert surfaces its text as a 500 and nothing is posted.
    ensures out.effects != [] && store.StoreFailed? ==>
      out.response == Response(500, Failed(store.reason)) && |out.effects| == 1
    // Success means the insert succeeded, and reports its id.
    ensures out.response.Ok() <==> out.effects != [] && store.Stored?
    ensures out.response.Ok() ==> out.response == Response(200, Created(store.id))
    ensures out.response.status in {200, 400, 500}
    // The post is attempted last, only after a successful insert on a configured bot.
    ensures |out.effects| <= 2
    ensures |out.effects| == 2 <==> out.response.Ok() && cfg.botToken != [] && cfg.chatId != []
    ensures |out.effects| == 2 ==>
      out.effects[1] == NotifyAttempted(cfg.botToken, cfg.chatId, NotificationText(store.id, sub))
  {
    if !Valid(sub) then
      Outcome(Response(400, Failed(RequiredError)), [])
    else if cfg.databaseUrl == [] then
      Outcome(Response(500, Failed(DatabaseUnsetError)), [])
    else
      match store
      case StoreFailed(reason) =>
        Outcome(Response(500, Failed(reason)), [StoreAttempted(sub)])
      case Stored(id) =>
        var notified := SendTelegram(cfg, NotificationText(id, sub), post);
        Outcome(Response(200, Created(id)), [StoreAttempted(sub)] + notified)
  }

  /**
    `api_contact`: normalise the body, then respond. The request is rejected
    exactly when the raw name or phone holds nothing but whitespace, and a
    row handed to the database fits its columns and keeps, of each field, a
    prefix of the stripped raw value.
  */
  function ApiContact(isSpace: char -> bool, data: map<string, string>, cfg: Config,
                      store: StoreOutcome, post: PostOutcome): (out: Outcome)
    ensures out.response.status == 400 <==>
      AllSpace(isSpace, Lookup(data, NameKey)) || AllSpace(isSpace, Lookup(data, PhoneKey))
    ensures forall e :: e in out.effects && e.StoreAttempted? ==>
      && WithinLimit(e.row)
      && e.row.name != [] && e.row.contactNumber != []
      && e.row.name <= Strip(isSpace, Lookup(data, NameKey))
      && e.row.contactNumber <= Strip(isSpace, Lookup(data, PhoneKey))
      && e.row.emailid <= Strip(isSpace, Lookup(data, EmailKey))
      && e.row.message <= Strip(isSpace, Lookup(data, MessageKey))
  {
    Respond(Normalise(isSpace, data), cfg, store, post)
  }

  /** What the Telegram post comes to never changes the response or the trace. */
  lemma PostOutcomeIgnored(sub: Submission, cfg: Config, store: StoreOutcome, p: PostOutcome, q: PostOutcome)
    ensures Respond(sub, cfg, store, p) == Respond(sub, cfg, store, q)
  {
  }
}
