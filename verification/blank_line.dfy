/** The action a session runs for an empty client line. A blank line has no
    verb, so what it means depends on the session phase alone: it closes the
    headers, it is part of the body, or it is out of sequence. */
module BlankLine {
  import opened SmtpTypes

  /** The action's display name; it also ends the text of its error reply. */
  function ToString(): (name: string)
    ensures BadSequenceMessage == "Bad sequence of commands: " + name
  {
    "Blank line"
  }

  /** The action reports that it depends on the session state. */
  function IsStateless(): (stateless: bool)
    ensures !stateless
  {
    false
  }

  /** The reply text for a blank line outside the DATA phase. */
  const BadSequenceMessage: string := "Bad sequence of commands: Blank line"

  /** The response to an empty line in phase `state`. The received messages
      and the message in progress are passed in but never consulted. */
  function Response(state: SmtpState, messages: seq<MailMessage>, current: Option<MailMessage>): (r: SmtpResponse)
    // a reply line is written exactly when the line is out of sequence
    ensures r.code == NoReplyCode <==> InDataPhase(state)
    ensures r.code == NoReplyCode || r.code == BadSequenceCode
    // inside the DATA phase the line is silent and the session is in the body afterwards
    ensures InDataPhase(state) ==> r.message == "" && r.next == DATA_BODY
    // outside it the line is rejected and the session stays where it was
    ensures !InDataPhase(state) ==>
              r.code == BadSequenceCode && r.message == BadSequenceMessage && r.next == state
    // the only phase change a blank line can cause is from the headers to the body
    ensures r.next != state ==> state == DATA_HDR && r.next == DATA_BODY
  {
    if state == DATA_HDR then
      SmtpResponse(NoReplyCode, "", DATA_BODY)
    else if state == DATA_BODY then
      SmtpResponse(NoReplyCode, "", state)
    else
      SmtpResponse(BadSequenceCode, "Bad sequence of commands: " + ToString(), state)
  }

  /** The phase a session is in after one blank line. */
  function Next(state: SmtpState): SmtpState {
    Response(state, [], None).next
  }

  /** The response is a function of the phase alone: neither the received
      messages nor the message in progress make a difference. */
  lemma ResponseIgnoresMessages(state: SmtpState,
                                messages1: seq<MailMessage>, current1: Option<MailMessage>,
                                messages2: seq<MailMessage>, current2: Option<MailMessage>)
    ensures Response(state, messages1, current1) == Response(state, messages2, current2)
    ensures Response(state, messages1, current1).next == Next(state)
  {
  }

  /** A second blank line does not move the session any further. */
  lemma NextIdempotent(state: SmtpState)
    ensures Next(Next(state)) == Next(state)
  {
  }

  /** Whether the client sees a reply line is decided by the phase: silent in
      the DATA phase, a reply everywhere else. */
  lemma ReplyLineIffOutOfSequence(state: SmtpState, messages: seq<MailMessage>, current: Option<MailMessage>)
    ensures HasReplyLine(Response(state, messages, current)) <==> !InDataPhase(state)
  {
  }
}
