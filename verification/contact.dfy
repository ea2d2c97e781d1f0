/**
  The contact submission and the field normalisation both handlers apply to
  the request body before anything else: each field is read from the body
  (missing keys read as the empty string), stripped of surrounding
  whitespace and cut to its first 100 characters; name and phone are
  required.
*/
module Contact {
  import opened Text

  /** Width of every column of the contact table (varchar(100)). */
  const FieldLimit: nat := 100

  /** Body keys of the four fields. */
  const NameKey := "name"
  const PhoneKey := "contact_number"
  const EmailKey := "emailid"
  const MessageKey := "message"

  /** One contact-form entry, as handed to the store. */
  datatype Submission = Submission(name: string, contactNumber: string, emailid: string, message: string)

  /** Python's `data.get(key, "")`. */
  function Lookup(data: map<string, string>, key: string): string {
    if key in data then data[key] else ""
  }

  /** A string with no whitespace character at all. */
  predicate NoSpace(isSpace: char -> bool, s: string) {
    forall k :: 0 <= k < |s| ==> !isSpace(s[k])
  }

  /** `str(data.get(key, "")).strip()[:100]`. */
  function NormaliseField(isSpace: char -> bool, data: map<string, string>, key: string): (r: string)
    ensures |r| <= FieldLimit
    ensures r <= Strip(isSpace, Lookup(data, key))
    ensures |r| == FieldLimit || r == Strip(isSpace, Lookup(data, key))
    ensures key !in data ==> r == ""
    ensures r == [] <==> AllSpace(isSpace, Lookup(data, key))
    ensures r != [] ==> !isSpace(r[0])
  {
    Take(Strip(isSpace, Lookup(data, key)), FieldLimit)
  }

  /**
    `field` is what the value under `key` becomes: a prefix of the stripped
    value, all of it unless that is longer than the limit, and empty for a
    missing key.
  */
  ghost predicate Normalised(isSpace: char -> bool, data: map<string, string>, key: string, field: string) {
    && |field| <= FieldLimit
    && field <= Strip(isSpace, Lookup(data, key))
    && (|field| == FieldLimit || field == Strip(isSpace, Lookup(data, key)))
    && (key !in data ==> field == "")
  }

  /** Every field fits its column. */
  predicate WithinLimit(sub: Submission) {
    && |sub.name| <= FieldLimit
    && |sub.contactNumber| <= FieldLimit
    && |sub.emailid| <= FieldLimit
    && |sub.message| <= FieldLimit
  }

  /** The four normalised fields of a request body. */
  function Normalise(isSpace: char -> bool, data: map<string, string>): (sub: Submission)
    ensures WithinLimit(sub)
    ensures Normalised(isSpace, data, NameKey, sub.name)
    ensures Normalised(isSpace, data, PhoneKey, sub.contactNumber)
    ensures Normalised(isSpace, data, EmailKey, sub.emailid)
    ensures Normalised(isSpace, data, MessageKey, sub.message)
    ensures sub.name == [] <==> AllSpace(isSpace, Lookup(data, NameKey))
    ensures sub.contactNumber == [] <==> AllSpace(isSpace, Lookup(data, PhoneKey))
  {
    Submission(
      NormaliseField(isSpace, data, NameKey),
      NormaliseField(isSpace, data, PhoneKey),
      NormaliseField(isSpace, data, EmailKey),
      NormaliseField(isSpace, data, MessageKey))
  }

  /** `not name or not contact_number` is false: both required fields are present. */
  predicate Valid(sub: Submission) {
    sub.name != [] && sub.contactNumber != []
  }

  /**
    The handler tests emptiness after truncation, but that is the same as
    testing the stripped value, and the same as the raw value holding at
    least one non-whitespace character.
  */
  lemma ValidIffVisible(isSpace: char -> bool, data: map<string, string>)
    ensures Valid(Normalise(isSpace, data)) <==>
      Strip(isSpace, Lookup(data, NameKey)) != [] && Strip(isSpace, Lookup(data, PhoneKey)) != []
    ensures Valid(Normalise(isSpace, data)) <==>
      !AllSpace(isSpace, Lookup(data, NameKey)) && !AllSpace(isSpace, Lookup(data, PhoneKey))
  {
  }

  /** A raw value without surrounding whitespace and within the limit is stored as it is. */
  lemma NormaliseKeepsCleanValue(isSpace: char -> bool, data: map<string, string>, key: string)
    requires key in data && |data[key]| <= FieldLimit
    requires data[key] != [] ==> !isSpace(data[key][0]) && !isSpace(data[key][|data[key]| - 1])
    ensures NormaliseField(isSpace, data, key) == data[key]
  {
  }

  /**
    Truncation comes after stripping, so a stored value can end in
    whitespace: 99 visible characters, a space and one more visible
    character normalise to a value ending in that space, which a second
    normalisation would change. Normalisation is therefore not idempotent.
  */
  lemma TruncationCanExposeTrailingSpace(isSpace: char -> bool, space: char, visible: char)
    requires isSpace(space) && !isSpace(visible)
    ensures
      var raw := seq(FieldLimit - 1, _ => visible) + [space, visible];
      var once := NormaliseField(isSpace, map[MessageKey := raw], MessageKey);
      && once == seq(FieldLimit - 1, _ => visible) + [space]
      && isSpace(once[|once| - 1])
      && NormaliseField(isSpace, map[MessageKey := once], MessageKey) != once
  {
  }
}
