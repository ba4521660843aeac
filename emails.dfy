/**
 * `send` of src/emails.rs: check both addresses, frame the message and hand
 * it to the mail transport.
 *
 * lettre's address rules and the sendmail transport are parameters: a
 * predicate saying which strings EmailAddress::new accepts, and a transport
 * that accepts or rejects one framed email.
 */
module Emails {
  import opened Wrappers

  /** lettre's envelope: the optional sender and the recipients. */
  datatype Envelope = Envelope(from: Option<string>, to: seq<string>)

  datatype EnvelopeError = MissingTo

  /** `Envelope::new`, which refuses an envelope with no recipient. */
  function NewEnvelope(from: Option<string>, to: seq<string>): (r: Result<Envelope, EnvelopeError>)
    ensures r.Ok? <==> to != []
    ensures r.Ok? ==> r.value.from == from && r.value.to == to
  {
    if to == [] then Err(MissingTo) else Ok(Envelope(from, to))
  }

  /**
   * The three arguments of lettre's `SendableEmail::new`: the envelope, the
   * message identifier and the raw message bytes (here as text).
   */
  datatype SendableEmail = SendableEmail(envelope: Envelope, messageId: string, message: string)

  const ID_PREFIX := "update-"
  const BODY_OPENING := "Webpage at "
  const BODY_CLOSING := " has been updated.\n"

  function MessageId(url: string): string {
    ID_PREFIX + url
  }

  function Body(url: string, message: string): string {
    BODY_OPENING + url + BODY_CLOSING + message
  }

  /** Reads the page URL back out of a message identifier. */
  function UrlOfMessageId(id: string): Option<string> {
    if |ID_PREFIX| <= |id| && id[..|ID_PREFIX|] == ID_PREFIX then Some(id[|ID_PREFIX|..]) else None
  }

  /** Reads the free-text message back out of the body sent for `url`. */
  function MessageOfBody(url: string, body: string): Option<string> {
    var header := BODY_OPENING + url + BODY_CLOSING;
    if |header| <= |body| && body[..|header|] == header then Some(body[|header|..]) else None
  }

  /** The identifier names the page, and only identifiers built by MessageId name one. */
  lemma MessageIdRoundTrip(url: string, id: string)
    ensures UrlOfMessageId(MessageId(url)) == Some(url)
    ensures UrlOfMessageId(id) == Some(url) <==> id == MessageId(url)
  {
    assert MessageId(url)[..|ID_PREFIX|] == ID_PREFIX;
    if UrlOfMessageId(id) == Some(url) {
      assert id == id[..|ID_PREFIX|] + id[|ID_PREFIX|..];
    }
  }

  /** For a given page the body determines the message, and the message the body. */
  lemma BodyRoundTrip(url: string, message: string, body: string)
    ensures MessageOfBody(url, Body(url, message)) == Some(message)
    ensures MessageOfBody(url, body) == Some(message) <==> body == Body(url, message)
  {
    var header := BODY_OPENING + url + BODY_CLOSING;
    assert Body(url, message) == header + message;
    assert (header + message)[..|header|] == header;
    if MessageOfBody(url, body) == Some(message) {
      assert body == body[..|header|] + body[|header|..];
    }
  }

  datatype EmailError = InvalidAddress(address: string) | Transport(reason: string)

  /** Which strings `EmailAddress::new` accepts. */
  type IsAddress = string -> bool

  /** The sendmail transport: delivers one framed email or fails with a reason. */
  type MailTransport = SendableEmail -> Result<(), string>

  /**
   * Lines 14-21: the sender address is checked first, then the recipient;
   * only when both pass is the email built, addressed to that one recipient.
   */
  function Compose(isAddress: IsAddress, from: string, to: string, message: string, url: string): (r: Result<SendableEmail, EmailError>)
    ensures !isAddress(from) ==> r == Err(InvalidAddress(from))
    ensures isAddress(from) && !isAddress(to) ==> r == Err(InvalidAddress(to))
    ensures r.Ok? <==> isAddress(from) && isAddress(to)
    ensures r.Ok? ==> r.value.envelope == Envelope(Some(from), [to])
    ensures r.Ok? ==> r.value.messageId == "update-" + url && UrlOfMessageId(r.value.messageId) == Some(url)
    ensures r.Ok? ==> r.value.message == "Webpage at " + url + " has been updated.\n" + message
    ensures r.Ok? ==> MessageOfBody(url, r.value.message) == Some(message)
  {
    if !isAddress(from) then Err(InvalidAddress(from))
    else if !isAddress(to) then Err(InvalidAddress(to))
    else
      var envelope := NewEnvelope(Some(from), [to]);
      MessageIdRoundTrip(url, MessageId(url));
      BodyRoundTrip(url, message, Body(url, message));
      Ok(SendableEmail(envelope.value, MessageId(url), Body(url, message)))
  }

  /**
   * `send`: a rejected address is returned as an error; otherwise the
   * transport's verdict on the composed email is the result.
   */
  function Send(isAddress: IsAddress, transport: MailTransport, from: string, to: string, message: string, url: string): (r: Result<(), EmailError>)
    ensures (r.Err? && r.error.InvalidAddress?) <==> !(isAddress(from) && isAddress(to))
    ensures r.Ok? <==> Compose(isAddress, from, to, message, url).Ok? && transport(Compose(isAddress, from, to, message, url).value).Ok?
    ensures r.Err? && r.error.Transport? ==>
      Compose(isAddress, from, to, message, url).Ok? && transport(Compose(isAddress, from, to, message, url).value) == Err(r.error.reason)
  {
    match Compose(isAddress, from, to, message, url)
    case Err(e) => Err(e)
    case Ok(email) =>
      match transport(email)
      case Ok(_) => Ok(())
      case Err(reason) => Err(Transport(reason))
  }

  /** A rejected sender is reported before the recipient is looked at: the recipient does not change the result. */
  lemma SenderCheckedFirst(isAddress: IsAddress, transport: MailTransport, from: string, to1: string, to2: string, message: string, url: string)
    requires !isAddress(from)
    ensures Send(isAddress, transport, from, to1, message, url) == Send(isAddress, transport, from, to2, message, url)
  {
  }

  /** With a rejected address the transport is never consulted: any two transports give the same result. */
  lemma RejectedAddressSendsNothing(isAddress: IsAddress, t1: MailTransport, t2: MailTransport, from: string, to: string, message: string, url: string)
    requires !(isAddress(from) && isAddress(to))
    ensures Send(isAddress, t1, from, to, message, url) == Send(isAddress, t2, from, to, message, url)
    ensures Send(isAddress, t1, from, to, message, url) == Err(InvalidAddress(if isAddress(from) then to else from))
  {
  }
}
