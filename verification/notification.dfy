/**
  The Telegram message both handlers send after a successful insert: a fixed
  header, then one `caption value` line each for the id, name, phone, email
  and message, with `-` standing in for an empty email or message.

  `ReadNotice` reads such a message back; it is the partner against which
  the template is checked.
*/
module Notification {
  import opened Options
  import opened Decimal
  import opened Contact

  const Header := "<b>\U{1F4E9} New Kraftcut Inquiry</b>"
  const IdLabel := "<b>ID:</b> "
  const NameLabel := "<b>Name:</b> "
  const PhoneLabel := "<b>Phone:</b> "
  const EmailLabel := "<b>Email:</b> "
  const MessageLabel := "<b>Message:</b> "

  /** Python's `s or '-'` on a string. */
  function OrDash(s: string): (r: string)
    ensures r != []
    ensures r == "-" <==> s == "" || s == "-"
    ensures s != [] ==> r == s
  {
    if s == [] then "-" else s
  }

  /** `caption value` followed by a newline. */
  function Line(caption: string, value: string): string {
    caption + value + "\n"
  }

  /**
    The notification text for the row stored under `id`. It opens with the
    header and the id line and closes with the message line;
    `NotificationRoundTrip` and `NotificationCarriesId` state what reads back.
  */
  function NotificationText(id: int, sub: Submission): (text: string)
    ensures Line(Header, "") + Line(IdLabel, IntToString(id)) <= text
    ensures |MessageLabel + OrDash(sub.message)| <= |text|
    ensures text[|text| - |MessageLabel + OrDash(sub.message)|..] == MessageLabel + OrDash(sub.message)
  {
    var head := Line(Header, "") + Line(IdLabel, IntToString(id));
    var fields := Line(NameLabel, sub.name) + Line(PhoneLabel, sub.contactNumber) + Line(EmailLabel, OrDash(sub.emailid));
    head + fields + (MessageLabel + OrDash(sub.message))
  }

  /** The fields a reader can recover from a notification. */
  datatype Notice = Notice(id: int, name: string, phone: string, email: string, message: string)

  predicate SingleLine(s: string) {
    forall k :: 0 <= k < |s| ==> s[k] != '\n'
  }

  /** The index of the first newline of `s`, or |s| when there is none. */
  function FirstNewline(s: string): (i: nat)
    ensures i <= |s|
    ensures forall k :: 0 <= k < i ==> s[k] != '\n'
    ensures i < |s| ==> s[i] == '\n'
    decreases |s|
  {
    if s == [] || s[0] == '\n' then 0
    else
      var i := 1 + FirstNewline(s[1..]);
      assert forall k :: 1 <= k < i ==> s[k] == s[1..][k - 1];
      i
  }

  /** Reads a line starting with `caption`: its value and what follows the newline. */
  function ReadLine(s: string, caption: string): Option<(string, string)> {
    if caption <= s then
      var t := s[|caption|..];
      var i := FirstNewline(t);
      if i < |t| then Some((t[..i], t[i + 1..])) else None
    else
      None
  }

  /** Reads the header and the id line; returns the id and the remaining text. */
  function ReadId(text: string): Option<(int, string)> {
    var header :- ReadLine(text, Header);
    if header.0 != [] then None
    else
      var idLine :- ReadLine(header.1, IdLabel);
      var id :- ParseInt(idLine.0);
      Some((id, idLine.1))
  }

  /** Reads every field back out of a notification text. */
  function ReadNotice(text: string): Option<Notice> {
    var idPart :- ReadId(text);
    var name :- ReadLine(idPart.1, NameLabel);
    var phone :- ReadLine(name.1, PhoneLabel);
    var email :- ReadLine(phone.1, EmailLabel);
    if MessageLabel <= email.1 then
      Some(Notice(idPart.0, name.0, phone.0, email.0, email.1[|MessageLabel|..]))
    else
      None
  }

  /** A line written with `Line` reads back as its value and the text after it. */
  lemma ReadLineOfLine(caption: string, value: string, rest: string)
    requires SingleLine(value)
    ensures ReadLine(Line(caption, value) + rest, caption) == Some((value, rest))
  {
    var s := Line(caption, value) + rest;
    assert s == caption + (value + ("\n" + rest));
    var t := s[|caption|..];
    assert t == value + ("\n" + rest);
    var i := FirstNewline(t);
    assert forall k :: 0 <= k < |value| ==> t[k] == value[k];
    assert t[|value|] == '\n';
    assert i == |value|;
    assert t[..i] == value;
    assert t[i + 1..] == rest;
  }

  /** The digits of an id never contain a newline. */
  lemma IdIsSingleLine(id: int)
    ensures SingleLine(IntToString(id))
  {
  }

  /** The header line is followed by the id line, whatever comes after. */
  lemma ReadIdOfLines(id: int, rest: string)
    ensures ReadId(Line(Header, "") + (Line(IdLabel, IntToString(id)) + rest)) == Some((id, rest))
  {
    var afterHeader := Line(IdLabel, IntToString(id)) + rest;
    ReadLineOfLine(Header, "", afterHeader);
    IdIsSingleLine(id);
    ReadLineOfLine(IdLabel, IntToString(id), rest);
    IntRoundTrip(id);
  }

  /** Concatenation regroups to the right. */
  lemma Append(a: string, b: string, c: string)
    ensures a + b + c == a + (b + c)
  {
  }

  /** The notification text as its lines, nested to the right. */
  lemma NotificationLines(id: int, sub: Submission)
    ensures NotificationText(id, sub)
         == Line(Header, "") + (Line(IdLabel, IntToString(id)) + (Line(NameLabel, sub.name)
          + (Line(PhoneLabel, sub.contactNumber) + (Line(EmailLabel, OrDash(sub.emailid))
          + (MessageLabel + OrDash(sub.message))))))
  {
    var tail := MessageLabel + OrDash(sub.message);
    var email := Line(EmailLabel, OrDash(sub.emailid));
    var phone := Line(PhoneLabel, sub.contactNumber);
    var name := Line(NameLabel, sub.name);
    var idLine := Line(IdLabel, IntToString(id));
    var header := Line(Header, "");
    assert NotificationText(id, sub) == (header + idLine) + (name + phone + email) + tail;
    Append(header + idLine, name + phone + email, tail);
    Append(name + phone, email, tail);
    Append(name, phone, email + tail);
    Append(header, idLine, name + (phone + (email + tail)));
  }

  /**
    Whatever the fields contain, the notification opens with the header and
    an id line from which the inserted row's id reads back.
  */
  lemma NotificationCarriesId(id: int, sub: Submission)
    ensures ReadId(NotificationText(id, sub)).Some?
    ensures ReadId(NotificationText(id, sub)).value.0 == id
  {
    NotificationLines(id, sub);
    ReadIdOfLines(id, Line(NameLabel, sub.name) + (Line(PhoneLabel, sub.contactNumber)
      + (Line(EmailLabel, OrDash(sub.emailid)) + (MessageLabel + OrDash(sub.message)))));
  }

  /**
    When name, phone and email are single lines, the notification reads back
    as exactly the stored fields, with `-` in place of an empty email or
    message.
  */
  lemma NotificationRoundTrip(id: int, sub: Submission)
    requires SingleLine(sub.name) && SingleLine(sub.contactNumber) && SingleLine(sub.emailid)
    ensures ReadNotice(NotificationText(id, sub))
         == Some(Notice(id, sub.name, sub.contactNumber, OrDash(sub.emailid), OrDash(sub.message)))
  {
    var tail := MessageLabel + OrDash(sub.message);
    var afterPhone := Line(EmailLabel, OrDash(sub.emailid)) + tail;
    var afterName := Line(PhoneLabel, sub.contactNumber) + afterPhone;
    var afterId := Line(NameLabel, sub.name) + afterName;
    NotificationLines(id, sub);
    ReadIdOfLines(id, afterId);
    ReadLineOfLine(NameLabel, sub.name, afterName);
    ReadLineOfLine(PhoneLabel, sub.contactNumber, afterPhone);
    ReadLineOfLine(EmailLabel, OrDash(sub.emailid), tail);
    assert tail[|MessageLabel|..] == OrDash(sub.message);
  }
}
