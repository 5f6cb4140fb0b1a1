/** Runs of consecutive blank lines handed to the blank-line action one after
    another. */
module BlankLineRuns {
  import opened SmtpTypes
  import BlankLine

  /** The phase after `n` consecutive blank lines from phase `state`. */
  function AfterBlankLines(state: SmtpState, n: nat): (final: SmtpState)
    ensures n == 0 ==> final == state
    ensures n > 0 ==> final == BlankLine.Next(state)
    ensures InDataPhase(state) && n > 0 ==> final == DATA_BODY
    ensures !InDataPhase(state) ==> final == state
    decreases n
  {
    if n == 0 then state else AfterBlankLines(BlankLine.Next(state), n - 1)
  }

  /** Feeds `n` blank lines to the action one after another, starting in
      phase `state`, and collects the responses. */
  method FeedBlankLines(state: SmtpState, messages: seq<MailMessage>, current: Option<MailMessage>, n: nat)
    returns (replies: seq<SmtpResponse>, final: SmtpState)
    ensures |replies| == n
    ensures final == AfterBlankLines(state, n)
    // in the DATA phase no blank line of the run is answered
    ensures InDataPhase(state) ==>
              forall i :: 0 <= i < n ==> replies[i] == SmtpResponse(NoReplyCode, "", DATA_BODY)
    // outside it every one is rejected and nothing moves
    ensures !InDataPhase(state) ==>
              forall i :: 0 <= i < n ==> replies[i] == SmtpResponse(BadSequenceCode, BlankLine.BadSequenceMessage, state)
  {
    replies := [];
    final := state;
    var i := 0;
    while i < n
      invariant 0 <= i <= n
      invariant |replies| == i
      invariant final == AfterBlankLines(state, i)
      invariant InDataPhase(final) == InDataPhase(state)
      invariant InDataPhase(state) ==>
                  forall j :: 0 <= j < i ==> replies[j] == SmtpResponse(NoReplyCode, "", DATA_BODY)
      invariant !InDataPhase(state) ==>
                  forall j :: 0 <= j < i ==> replies[j] == SmtpResponse(BadSequenceCode, BlankLine.BadSequenceMessage, state)
    {
      var r := BlankLine.Response(final, messages, current);
      replies := replies + [r];
      final := r.next;
      i := i + 1;
    }
  }

  /** Any run of blank lines ends in the phase a single blank line reaches. */
  lemma RunCollapses(state: SmtpState, n: nat, m: nat)
    requires n > 0 && m > 0
    ensures AfterBlankLines(state, n) == AfterBlankLines(state, m)
    ensures AfterBlankLines(AfterBlankLines(state, n), m) == AfterBlankLines(state, n)
  {
  }
}
