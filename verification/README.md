# Kraftcut contact handler, modelled in Dafny

The repository is a small Flask backend for a contact form. Its one piece of
logic is the `POST /api/contact` handler, which exists twice, in `main.py`
and in `app.py`. Each copy does the same steps:

1. It reads `name`, `contact_number`, `emailid` and `message` from the JSON
   body. A missing key reads as `""`.
2. It strips each value of surrounding whitespace and cuts it to its first
   100 characters.
3. It rejects the request with 400 when the name or phone is empty.
4. It inserts the row into Postgres. Any failure is answered with 500 and
   the exception's text.
5. It posts a fixed-template message to Telegram, best effort.
6. It answers `{"ok": true, "id": <new id>}`.

The model makes each handler a pure function. Its inputs are the body (a
string-to-string map), the configuration, what the insert comes to
(`Stored(id)` or `StoreFailed(text)`) and what the Telegram post comes to.
Its output is the HTTP response plus a trace of the effects it attempted:
`StoreAttempted(row)` and `NotifyAttempted(token, chat id, text)`. The trace
makes short-circuiting and ordering precise. It also shows that the post's
outcome never changes the response.

The two entry points differ in two observable ways, and each handler has its
own contract:

- `main.py` answers 500 `"DATABASE_URL is not set on server."` before it
  touches the database. `app.py` hands an unset connection string to the
  driver.
- `main.py` posts to Telegram only when the bot token and the chat id are
  both set. `app.py` always posts.

Modules:

- `Text`: Python's `str.strip()` and `s[:n]`. Whitespace is a parameter
  `isSpace`.
- `Decimal`: `str(int)` and a parser for it.
- `Contact`: the submission, field normalisation and validation.
- `Service`: the configuration, store and post outcomes, the response and
  the effect trace.
- `Notification`: the Telegram template and a reader for it.
- `MainPy` and `AppPy`: the two handlers.
- `Entrypoints`: how the two handlers compare, plus two worked requests.

Three details of the code shape the model:

- `app.py` posts to Telegram even with an empty token or chat id
  (app.py:15-19).
- In `app.py` an unset `DATABASE_URL` reaches psycopg, so what happens is
  left to the abstract store outcome.
- The handlers test name and phone after truncation.
  `Contact.ValidIffVisible` shows this equals testing the stripped values.

## Model

| member | source | states |
|---|---|---|
| Text.Take | main.py:45-48 | `s[:n]` is the prefix of `s` whose length is the smaller of n and the length of `s` |
| Text.LeadingSpaces | main.py:45-48 | the leading run `strip` drops is all whitespace and is followed by a non-whitespace character or the end |
| Text.TrailingStart | main.py:45-48 | the trailing run `strip` drops is all whitespace and is preceded by a non-whitespace character or the start |
| Text.Strip | main.py:45-48 | `strip()` returns a slice of its input with only whitespace outside it; it is empty exactly when the input is all whitespace; otherwise it starts and ends with a non-whitespace character |
| Text.StripIdempotent | main.py:45-48 | stripping an already stripped value changes nothing |
| Text.StripIsSlice | main.py:45-48 | reference definition: for any bounds around the non-whitespace part of `s`, `strip` returns exactly that slice |
| Decimal.IntToString | main.py:72 | `str(new_id)` is non-empty and made of digits, with a leading `-` exactly for negative ids; it has no leading zeros: only 0 is written starting with `0`, and a negative id has a non-zero first digit |
| Decimal.IntRoundTrip | main.py:72 | parsing the id's decimal text gives back the id |
| Contact.NormaliseField | main.py:45-48 | a normalised field has at most 100 characters; it is a prefix of the stripped raw value, and the whole of it when that is short enough; a missing key gives `""`; it is empty exactly when the raw value is all whitespace; a non-empty field starts with a non-whitespace character |
| Contact.Normalise | app.py:31-34 | each of the four fields comes from its own key: a prefix of that key's stripped value, all of it unless longer than 100 characters, and `""` for a missing key; every field fits its column; name and phone are empty exactly when their raw values are all whitespace |
| Contact.Valid | main.py:50 | `not name or not contact_number` is false, i.e. both required fields are non-empty (also app.py:36); `Contact.ValidIffVisible` relates it to the raw input |
| Contact.ValidIffVisible | main.py:50-51 | the emptiness test after truncation is the same as testing the stripped values, and the same as the raw name and phone each holding a non-whitespace character |
| Contact.NormaliseKeepsCleanValue | main.py:45-48 | a present value within 100 characters with no surrounding whitespace is stored unchanged |
| Contact.TruncationCanExposeTrailingSpace | main.py:48 | because truncation follows stripping, a stored value can end in whitespace, and normalising it again changes it: normalisation is not idempotent |
| Service.LoadConfig | main.py:12-14 | each setting is its environment value (`""` when unset) with surrounding whitespace cut off, as `Text.StripBounds` delimits it; an unset or all-whitespace setting loads as empty |
| Notification.NotificationText | main.py:70-77 | the template (also app.py:50-57) opens with the header and ID lines and ends with the message line; `Notification.NotificationCarriesId` and `Notification.NotificationRoundTrip` state what reads back from it |
| Notification.OrDash | main.py:75-76 | `value or '-'` is never empty; it shows `-` exactly for an empty value or a literal `-`, and a non-empty value as it is |
| Notification.NotificationCarriesId | main.py:70-77 | whatever the fields hold, the message starts with the header and an ID line that reads back as the inserted id |
| Notification.NotificationRoundTrip | main.py:70-77 | when name, phone and email are single lines, the message reads back as id, name, phone, email-or-`-` and message-or-`-` |
| MainPy.SendTelegram | main.py:17-27 | nothing is posted when the token or chat id is empty; otherwise exactly one post of the text with the loaded credentials |
| MainPy.Respond | main.py:50-82 | 400 `Name and Phone are required.` with no effect exactly for invalid input, whatever the configuration. Valid input with an empty DATABASE_URL gets 500 `DATABASE_URL is not set on server.` with no insert. Otherwise the insert of exactly this submission is attempted first, and no other row is ever inserted. A failed insert gives 500 with its text and no post. A successful insert gives 200 with that id. A post with the template text follows exactly when the token and chat id are set |
| MainPy.ApiContact | main.py:41-82 | the request is rejected with 400 exactly when the raw name or phone is all whitespace; a row handed to the database fits its columns, has non-empty name and phone, and each field is a prefix of the stripped raw value |
| MainPy.PostOutcomeIgnored | main.py:70-79 | the Telegram post's outcome, exception or not, changes neither the response nor the trace |
| AppPy.SendTelegram | app.py:15-21 | the post is always attempted, once, with whatever token and chat id were loaded, even empty ones |
| AppPy.Respond | app.py:36-62 | 400 with no effect exactly for invalid input. Valid input always reaches the database first, with no configuration check, and only this submission is inserted. A failed insert gives 500 with its text and no post. A successful insert gives 200 with that id, followed by a post of the template text |
| AppPy.ApiContact | app.py:27-62 | the request is rejected with 400 exactly when the raw name or phone is all whitespace; a row handed to the database fits its columns, has non-empty name and phone, and each field is a prefix of the stripped raw value |
| AppPy.PostOutcomeIgnored | app.py:50-59 | the Telegram post's outcome changes neither the response nor the trace |
| Entrypoints.SameValidation | app.py:36-37 | both entry points reject the same requests with the same response |
| Entrypoints.AgreeWhenConfigured | main.py:53-54 | with every setting present, the two entry points behave identically |
| Entrypoints.DivergeOnUnsetDatabase | main.py:53-54 | with DATABASE_URL empty, main.py answers 500 with no insert while app.py attempts the insert |
| Entrypoints.BlankDatabaseUrlIsUnset | main.py:12 | a DATABASE_URL that is unset or only whitespace loads as empty, and main.py then answers valid input with 500 `DATABASE_URL is not set on server.` and no insert |
| Entrypoints.DivergeOnUnsetTelegram | main.py:19-20 | with token or chat id empty, both answer the same success but only app.py attempts the post |
| Entrypoints.JaneIsStored | main.py:41-79 | `{"name":"Jane","contact_number":"555-0100"}` with id 1 gives 200 with id 1 and the row ("Jane", "555-0100", "", "") in both entry points |
| Entrypoints.EmptyNameIsRejected | app.py:36-37 | an empty name gives 400 `Name and Phone are required.` and no effect in both entry points |

## Left out

- Flask routing, `jsonify`, `render_template` / `send_from_directory`, and
  the `/` and `/ping` endpoints. They are framework glue with no logic.
- `load_dotenv`, `os.getenv`, `PORT` and `app.run`. The environment is a
  map passed to `Service.LoadConfig`.
- JSON parsing, `get_json(silent=True) or {}`, and the `str()` coercion of
  non-string values. The body is a string-to-string map. For example, JSON
  `null` would become `"None"`, and a non-object body can raise before the
  `try`. Neither is modelled.
- The psycopg connection, the SQL statement and the commit. These go to a
  foreign database, so the insert is the abstract outcome
  `Stored(id) | StoreFailed(text)`. Whether an empty connection string
  connects is up to that outcome.
- `requests.post` and the Telegram API. They are foreign network I/O. Only
  whether a post is attempted, with which credentials and text, is
  modelled. The URL and the `parse_mode` payload field are not modelled.
- The exact set of characters Python's `str.strip()` removes. Whitespace is
  the parameter `isSpace`.
- The WSGI dispatcher's concurrency and the 10-second post timeout.
- Uniqueness of generated ids, which comes from the database.
