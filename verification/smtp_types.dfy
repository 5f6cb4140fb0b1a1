/** The value types a dumbster SMTP action works on: the session phases, the
    response an action hands back to the session, and the received mail. Only
    the parts an action's signature needs are modelled here. */
module SmtpTypes {

  /** The phases of one SMTP session, in the order a well-behaved client walks
      through them. DATA_HDR and DATA_BODY together make up the DATA phase:
      header lines until a blank line, then body lines. */
  datatype SmtpState = CONNECT | GREET | MAIL | RCPT | DATA_HDR | DATA_BODY | QUIT

  /** An action's answer: the reply code, the reply text, and the phase the
      session moves to. */
  datatype SmtpResponse = SmtpResponse(code: int, message: string, next: SmtpState)

  /** A received mail. The blank-line action only passes messages along, so
      none of their contents is modelled. */
  datatype MailMessage = MailMessage

  /** A reference that may be absent (a null message in the session). */
  datatype Option<T> = None | Some(value: T)

  /** The sentinel code of a response that produces no reply line. */
  const NoReplyCode: int := -1

  /** "Bad sequence of commands", section 4.2.3 of RFC 5321. */
  const BadSequenceCode: int := 503

  /** True of the two phases in which the client is sending message data. */
  predicate InDataPhase(s: SmtpState) {
    s == DATA_HDR || s == DATA_BODY
  }

  /** True when the session writes a reply line back for this response. */
  predicate HasReplyLine(r: SmtpResponse) {
    r.code != NoReplyCode
  }
}
