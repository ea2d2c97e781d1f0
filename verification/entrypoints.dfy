/**
  How the two entry points relate: they validate alike, agree whenever every
  setting is present, and differ in exactly the two places where main.py
  checks its configuration and app.py does not. Also two worked requests.
*/
module Entrypoints {
  import Text
  import opened Contact
  import opened Service
  import opened Notification
  import MainPy
  import AppPy

  /** Both reject the same requests, with the same response and no effect. */
  lemma SameValidation(sub: Submission, cfg: Config, store: StoreOutcome, post: PostOutcome)
    ensures MainPy.Respond(sub, cfg, store, post).response.status == 400
        <==> AppPy.Respond(sub, cfg, store, post).response.status == 400
    ensures !Valid(sub) ==> MainPy.Respond(sub, cfg, store, post) == AppPy.Respond(sub, cfg, store, post)
  {
  }

  /** With the database URL, bot token and chat id all set, the two handlers coincide. */
  lemma AgreeWhenConfigured(sub: Submission, cfg: Config, store: StoreOutcome, post: PostOutcome)
    requires cfg.databaseUrl != [] && cfg.botToken != [] && cfg.chatId != []
    ensures MainPy.Respond(sub, cfg, store, post) == AppPy.Respond(sub, cfg, store, post)
  {
  }

  /**
    Valid input on a server without DATABASE_URL: main.py answers 500
    without touching the database, app.py hands the row to the driver.
  */
  lemma DivergeOnUnsetDatabase(sub: Submission, cfg: Config, store: StoreOutcome, post: PostOutcome)
    requires Valid(sub) && cfg.databaseUrl == []
    ensures MainPy.Respond(sub, cfg, store, post) == Outcome(Response(500, Failed(DatabaseUnsetError)), [])
    ensures AppPy.Respond(sub, cfg, store, post).effects[0] == StoreAttempted(sub)
  {
  }

  /**
    A DATABASE_URL that is unset or only whitespace loads as empty, so
    main.py answers valid input with 500 and leaves the database alone.
  */
  lemma BlankDatabaseUrlIsUnset(isSpace: char -> bool, env: map<string, string>, sub: Submission,
                                store: StoreOutcome, post: PostOutcome)
    requires Valid(sub) && Text.AllSpace(isSpace, Lookup(env, DatabaseUrlVar))
    ensures MainPy.Respond(sub, LoadConfig(isSpace, env), store, post)
         == Outcome(Response(500, Failed(DatabaseUnsetError)), [])
  {
  }

  /**
    A successful insert on a server missing the bot token or chat id: both
    answer the same success, but only app.py attempts the post.
  */
  lemma DivergeOnUnsetTelegram(sub: Submission, cfg: Config, id: int, post: PostOutcome)
    requires Valid(sub) && cfg.databaseUrl != []
    requires cfg.botToken == [] || cfg.chatId == []
    ensures MainPy.Respond(sub, cfg, Stored(id), post).response
         == AppPy.Respond(sub, cfg, Stored(id), post).response
    ensures MainPy.Respond(sub, cfg, Stored(id), post).effects == [StoreAttempted(sub)]
    ensures AppPy.Respond(sub, cfg, Stored(id), post).effects
         == [StoreAttempted(sub), NotifyAttempted(cfg.botToken, cfg.chatId, NotificationText(id, sub))]
  {
  }

  /**
    `{"name": "Jane", "contact_number": "555-0100"}` with the first row id:
    200 with that id, and the row holds the two values and two empty fields.
  */
  lemma JaneIsStored(isSpace: char -> bool, cfg: Config, post: PostOutcome)
    requires NoSpace(isSpace, "Jane") && NoSpace(isSpace, "555-0100")
    requires cfg.databaseUrl != []
    ensures var data := map[NameKey := "Jane", PhoneKey := "555-0100"];
      var main := MainPy.ApiContact(isSpace, data, cfg, Stored(1), post);
      var app := AppPy.ApiContact(isSpace, data, cfg, Stored(1), post);
      && main.response == app.response == Response(200, Created(1))
      && main.effects[0] == app.effects[0] == StoreAttempted(Submission("Jane", "555-0100", "", ""))
  {
    var data := map[NameKey := "Jane", PhoneKey := "555-0100"];
    NormaliseKeepsCleanValue(isSpace, data, NameKey);
    NormaliseKeepsCleanValue(isSpace, data, PhoneKey);
    assert Normalise(isSpace, data) == Submission("Jane", "555-0100", "", "");
  }

  /** `{"name": "", "contact_number": "555-0100"}`: 400, name and phone required. */
  lemma EmptyNameIsRejected(isSpace: char -> bool, cfg: Config, store: StoreOutcome, post: PostOutcome)
    ensures var data := map[NameKey := "", PhoneKey := "555-0100"];
      && MainPy.ApiContact(isSpace, data, cfg, store, post) == Outcome(Response(400, Failed(RequiredError)), [])
      && AppPy.ApiContact(isSpace, data, cfg, store, post) == Outcome(Response(400, Failed(RequiredError)), [])
  {
  }
}
