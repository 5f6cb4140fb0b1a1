# Dumbster blank-line action

Dumbster is a test-double SMTP server: it accepts mail from real clients and
keeps every message for a test to inspect. Each client line is handed to an
*action* that returns a response: a reply code, a reply text and the session
phase that follows. This project models the action for an empty client line,
`BlankLine`, and proves what it does in every phase of a session.

A blank line has no verb, so its meaning comes from the phase alone:

- in the header part of the DATA phase (`DATA_HDR`) it ends the headers and
  moves the session to the body (`DATA_BODY`), with no reply line (code -1);
- in the body it is accepted silently and the phase stays `DATA_BODY`;
- in every other phase it is out of sequence: code 503 ("Bad sequence of
  commands", section 4.2.3 of RFC 5321), text
  `Bad sequence of commands: Blank line`, phase unchanged.

Files:

- `smtp_types.dfy` (module `SmtpTypes`): the session phases, the response
  record, the mail message (with no contents, since the action only passes
  messages along), the -1 and 503 codes. `SmtpState.java`,
  `SmtpResponse.java` and `MailMessage.java` are not part of this model; the
  types here carry only what the action's signature needs. A Java `null`
  message in progress is `None`.
- `blank_line.dfy` (module `BlankLine`): the action itself and its lemmas.
- `blank_line_runs.dfy` (module `BlankLineRuns`): the action applied to a run
  of consecutive blank lines, one after another.

Two facts about the code shape the model:

- The action never reads or changes the message in progress or the list of
  received messages; body text is collected elsewhere.
- `isStateless()` returns `false`, and so does `BlankLine.IsStateless`.

## Model

| member | source | states |
|---|---|---|
| BlankLine.ToString | src/com/dumbster/smtp/action/BlankLine.java:17-19 | the action's name is "Blank line", the text that ends its out-of-sequence reply |
| BlankLine.IsStateless | src/com/dumbster/smtp/action/BlankLine.java:12-14 | the action reports itself as not stateless |
| BlankLine.Response | src/com/dumbster/smtp/action/BlankLine.java:22-31 | code -1 exactly in DATA_HDR/DATA_BODY and 503 otherwise, never any other code; in the DATA phase empty text and next phase DATA_BODY; elsewhere text "Bad sequence of commands: Blank line" and the phase unchanged; the only phase change is DATA_HDR to DATA_BODY |
| BlankLine.ResponseIgnoresMessages | src/com/dumbster/smtp/action/BlankLine.java:22-31 | the response depends on the phase only, not on the received messages or the message in progress |
| BlankLine.NextIdempotent | src/com/dumbster/smtp/action/BlankLine.java:23-29 | applying the action to its own next phase gives the same phase again |
| BlankLine.ReplyLineIffOutOfSequence | src/com/dumbster/smtp/action/BlankLine.java:23-29 | a reply line is written if and only if the phase is outside DATA_HDR/DATA_BODY |
| BlankLineRuns.AfterBlankLines | src/com/dumbster/smtp/action/BlankLine.java:23-29 | after any positive number of blank lines the session is where one blank line takes it: DATA_BODY from the DATA phase, unchanged elsewhere |
| BlankLineRuns.FeedBlankLines | src/com/dumbster/smtp/action/BlankLine.java:22-31 | feeding n blank lines yields n responses, each exactly (-1, empty text, DATA_BODY) in the DATA phase, all the same 503 rejection with the phase unchanged elsewhere |
| BlankLineRuns.RunCollapses | src/com/dumbster/smtp/action/BlankLine.java:23-29 | any two non-empty runs of blank lines end in the same phase, and a further run changes nothing |

## Left out

- Every other action (HELO, MAIL, RCPT, DATA, header and body lines, `.`, RSET, NOOP, VRFY, QUIT, unknown verbs): their sources are not part of this model.
- The session driver, the shared inbox and body accumulation: their sources are not part of this model, and the blank-line action itself neither reads nor changes a message.
- `SmtpServerFactory`: starting the server thread, the shutdown hook, the startup wait that polls with `Thread.sleep` and logging are thread and lifecycle plumbing with no pure behaviour to state.
- The end-to-end tests in `SimpleSmtpServerTest` drive a real socket server through a mail library and check body round-trips and message counts, which depend on code that is not part of this model.
- Concurrency between sessions, the socket transport and line framing.
- BlankLine.Response: Java also accepts a `null` phase, for which both equality tests fail and the reply is the 503 rejection with a `null` next phase; `SmtpState` here has no null value, so that input is not modelled (every clause of the contract would still hold for it).
