/**
  The `/api/contact` handler of app.py, as a function from the request body,
  the configuration and the outcomes of the database insert and the Telegram
  post to the HTTP response and the trace of effects attempted.

  Unlike main.py, this entry point has no `DATABASE_URL` pre-check (an unset
  connection string reaches the driver, whose outcome is `store`) and posts
  to Telegram whether or not the bot token and chat id are set.
*/
module AppPy {
  import opened Text
  import opened Contact
  import opened Service
  import opened Notification

  /**
    `send_telegram`: the post is always attempted, with whatever token and
    chat id were loaded, possibly empty; whatever it comes to is swallowed.
  */
  function SendTelegram(cfg: Config, text: string, post: PostOutcome): (effects: seq<Effect>)
    ensures |effects| == 1
    ensures effects[0].NotifyAttempted? && effects[0].text == text
    ensures effects[0].botToken == cfg.botToken && effects[0].chatId == cfg.chatId
  {
    [NotifyAttempted(cfg.botToken, cfg.chatId, text)]
  }

  /**
    The handler past normalisation: validate, insert, notify, respond.
    `store` is what the insert of `sub` comes to.
  */
  function Respond(sub: Submission, cfg: Config, store: StoreOutcome, post: PostOutcome): (out: Outcome)
    ensures out.response.status == 400 <==> !Valid(sub)
    ensures !Valid(sub) ==> out.response.body == Failed(RequiredError) && out.effects == []
    // No configuration pre-check: valid input always reaches the database, first.
    ensures out.effects != [] <==> Valid(sub)
    ensures out.effects != [] ==> out.effects[0] == StoreAttempted(sub)
    ensures forall e :: e in out.effects && e.StoreAttempted? ==> e.row == sub
    // A failed insert surfaces its text as a 500 and nothing is posted.
    ensures Valid(sub) && store.StoreFailed? ==>
      out.response == Response(500, Failed(store.reason)) && |out.effects| == 1
    ensures out.response.Ok() <==> Valid(sub) && store.Stored?
    ensures out.response.Ok() ==> out.response == Response(200, Created(store.id))
    ensures out.response.status in {200, 400, 500}
    // Every successful insert is followed by a post attempt, configured or not.
    ensures |out.effects| <= 2
    ensures |out.effects| == 2 <==> out.response.Ok()
    ensures |out.effects| == 2 ==>
      out.effects[1] == NotifyAttempted(cfg.botToken, cfg.chatId, NotificationText(store.id, sub))
  {
    if !Valid(sub) then
      Outcome(Response(400, Failed(RequiredError)), [])
    else
      match store
      case StoreFailed(reason) =>
        Outcome(Response(500, Failed(reason)), [StoreAttempted(sub)])
      case Stored(id) =>
        var notified := SendTelegram(cfg, NotificationText(id, sub), post);
        Outcome(Response(200, Created(id)), [StoreAttempted(sub)] + notified)
  }

  /**
    `api_contact`: normalise the body, then respond. The request is rejected
    exactly when the raw name or phone holds nothing but whitespace, and a
    row handed to the database fits its columns and keeps, of each field, a
    prefix of the stripped raw value.
  */
  function ApiContact(isSpace: char -> bool, data: map<string, string>, cfg: Config,
                      store: StoreOutcome, post: PostOutcome): (out: Outcome)
    ensures out.response.status == 400 <==>
      AllSpace(isSpace, Lookup(data, NameKey)) || AllSpace(isSpace, Lookup(data, PhoneKey))
    ensures forall e :: e in out.effects && e.StoreAttempted? ==>
      && WithinLimit(e.row)
      && e.row.name != [] && e.row.contactNumber != []
      && e.row.name <= Strip(isSpace, Lookup(data, NameKey))
      && e.row.contactNumber <= Strip(isSpace, Lookup(data, PhoneKey))
      && e.row.emailid <= Strip(isSpace, Lookup(data, EmailKey))
      && e.row.message <= Strip(isSpace, Lookup(data, MessageKey))
  {
    Respond(Normalise(isSpace, data), cfg, store, post)
  }

  /** What the Telegram post comes to never changes the response or the trace. */
  lemma PostOutcomeIgnored(sub: Submission, cfg: Config, store: StoreOutcome, p: PostOutcome, q: PostOutcome)
    ensures Respond(sub, cfg, store, p) == Respond(sub, cfg, store, q)
  {
  }
}
