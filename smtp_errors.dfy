/** Failures of the SMTP protocol object and of the SMTP transport.
    Each exception the implementation throws is one constructor here; the
    message text is a text the exception's message contains (all of it where
    the implementation uses a fixed message). */
module SmtpErrors {

  datatype Option<+T> = None | Some(value: T)

  datatype Error =
    /** The byte stream to `remote` could not be opened. */
    | ConnectionFailed(remote: string)
    /** HELO/EHLO while a session is already started. */
    | HeloOnExistingSession
    /** The client hostname given to HELO is not a DNS hostname. */
    | InvalidHostname
    /** AUTH while the authenticated flag is already set. */
    | AlreadyAuthenticated
    /** MAIL before a session was started. */
    | NoSession
    /** RCPT before a MAIL was accepted. */
    | NoReversePath
    /** DATA before a RCPT was accepted. */
    | NoForwardPath
    /** The message has neither a Sender nor a From address. */
    | MissingFromAddress
    /** The message has headers or a body but no recipient. */
    | NoRecipients

  /** Result of one command: accepted, or refused with an error. */
  datatype Outcome = Ok | Fail(error: Error)

  /** The text of the exception raised for `e`. */
  function Message(e: Error): string
  {
    match e
    case ConnectionFailed(remote) => "Could not open socket: unable to connect to " + remote
    case HeloOnExistingSession => "Cannot issue HELO to existing session"
    case InvalidHostname => "The input does not match the expected structure for a DNS hostname"
    case AlreadyAuthenticated => "Already authenticated for this session"
    case NoSession => "A valid session has not been started"
    case NoReversePath => "No sender reverse path has been supplied"
    case NoForwardPath => "No recipient forward path has been supplied"
    case MissingFromAddress =>
      "Laminas\\Mail\\Transport\\Smtp transport expects either a Sender or at least one From address in the Message; none provided"
    case NoRecipients =>
      "Laminas\\Mail\\Transport\\Smtp transport expects at least one recipient if the message has at least one header or body"
  }

  /** `t` occurs in `s` as a contiguous substring (PHPUnit's assertContains on a string). */
  predicate Contains(s: string, t: string)
  {
    exists i | 0 <= i <= |s| - |t| :: OccursAt(s, t, i)
  }

  /** `t` occurs in `s` starting at index `i`. */
  predicate OccursAt(s: string, t: string, i: int)
  {
    0 <= i <= |s| - |t| && s[i..i + |t|] == t
  }

  /** Every text contains itself. */
  lemma ContainsItself(s: string)
    ensures Contains(s, s)
  {
    assert OccursAt(s, s, 0);
  }

  /** A connection failure names the remote it tried, so the error is diagnosable. */
  lemma ConnectionErrorNamesRemote(remote: string)
    ensures Contains(Message(ConnectionFailed(remote)), remote)
  {
    var m := Message(ConnectionFailed(remote));
    var prefix := "Could not open socket: unable to connect to ";
    assert m == prefix + remote;
    assert OccursAt(m, remote, |prefix|);
  }
}
