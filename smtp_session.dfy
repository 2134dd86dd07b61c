/** The state machine of the SMTP protocol object (RFC 5321, section 3.3):
    which commands are legal given the flags set by earlier ones, what each
    command writes to the wire and how it changes the flags. Every line the
    object writes is recorded, as the recording channel of the test suite
    does; the protocol's log keeps the most recent 64 of them. */
module SmtpSession {
  import opened SmtpErrors
  import opened DataEncoding
  import opened Hostname

  /** How many entries the protocol log keeps (older ones are dropped first). */
  const MaxLog: nat := 64

  datatype Session = Session(
    connected: bool,          // the channel was opened (and not yet closed)
    sessionStarted: bool,     // HELO/EHLO done, or the session flag set directly
    authenticated: bool,      // the "already authenticated" flag
    senderSupplied: bool,     // a MAIL FROM was accepted
    recipientSupplied: bool,  // a RCPT TO was accepted since the last MAIL FROM / RSET
    completeQuit: bool,       // disconnect sends QUIT (the use_complete_quit option)
    calledQuit: bool,         // quit() was invoked by a disconnect
    transcript: seq<string>)  // every entry written since the log was last reset, in order

  /** A freshly constructed protocol object. */
  function Init(completeQuit: bool): Session
  {
    Session(false, false, false, false, false, completeQuit, false, [])
  }

  /** The value of the use_complete_quit option in a configuration: true unless set. */
  function CompleteQuitOption(config: map<string, bool>): bool
  {
    if "use_complete_quit" in config then config["use_complete_quit"] else true
  }

  /** The protocol commands. `reachable` is the network's answer to opening
      the channel, which the model takes as an input. */
  datatype Command =
    | Connect(remote: string, reachable: bool)
    | Helo(host: string)
    | Auth
    | Mail(from: string)
    | Rcpt(to: string)
    | Data(data: string)
    | Rset
    | Disconnect

  /** The state after a command and whether the command was accepted. */
  datatype Step = Step(next: Session, outcome: Outcome)

  /** `s` with `lines` written to the wire, each followed by CRLF. */
  function Sent(s: Session, lines: seq<string>): Session
  {
    s.(transcript := s.transcript + Entries(lines))
  }

  /** One command on session `s`. The recording channel accepts every command,
      so only the guards of the protocol object can refuse one. */
  function Apply(s: Session, c: Command): (r: Step)
    ensures r.next.completeQuit == s.completeQuit
  {
    match c
    case Connect(remote, reachable) =>
      if reachable then Step(s.(connected := true), Ok)
      else Step(s, Fail(ConnectionFailed(remote)))
    case Helo(host) =>
      if s.sessionStarted then Step(s, Fail(HeloOnExistingSession))
      else if !ValidHostname(host) then Step(s, Fail(InvalidHostname))
      else
        // EHLO is sent and the session started before the authentication check
        var t := Sent(s, ["EHLO " + host]).(sessionStarted := true);
        if t.authenticated then Step(t, Fail(AlreadyAuthenticated)) else Step(t, Ok)
    case Auth =>
      if s.authenticated then Step(s, Fail(AlreadyAuthenticated)) else Step(s, Ok)
    case Mail(from) =>
      if !s.sessionStarted then Step(s, Fail(NoSession))
      else Step(Sent(s, ["MAIL FROM:<" + from + ">"]).(senderSupplied := true, recipientSupplied := false), Ok)
    case Rcpt(to) =>
      if !s.senderSupplied then Step(s, Fail(NoReversePath))
      else Step(Sent(s, ["RCPT TO:<" + to + ">"]).(recipientSupplied := true), Ok)
    case Data(data) =>
      if !s.recipientSupplied then Step(s, Fail(NoForwardPath))
      else Step(Sent(s, DataCommand(data)), Ok)
    case Rset =>
      Step(Sent(s, ["RSET"]).(senderSupplied := false, recipientSupplied := false), Ok)
    case Disconnect =>
      var t := s.(connected := false, calledQuit := true);
      if !s.sessionStarted then Step(t, Ok)
      else
        var u := if s.completeQuit then Sent(t, ["QUIT"]) else t;
        Step(u.(authenticated := false, sessionStarted := false), Ok)
  }

  /** A sequence of commands issued one after another; a refused command
      leaves the state its refusal left, and the next command follows. */
  function Run(s: Session, cs: seq<Command>): Session
    decreases |cs|
  {
    if cs == [] then s else Run(Apply(s, cs[0]).next, cs[1..])
  }

  /** The protocol log: the most recent MaxLog entries of the transcript. */
  function Recent(transcript: seq<string>): seq<string>
  {
    if |transcript| <= MaxLog then transcript else transcript[|transcript| - MaxLog..]
  }

  /** Adding one entry to the log: when it is full the oldest entry goes first. */
  function AddLog(log: seq<string>, entry: string): (r: seq<string>)
    ensures 0 < |r| <= |log| + 1
    ensures |log| <= MaxLog ==> |r| <= MaxLog
    ensures r[|r| - 1] == entry
    ensures r[..|r| - 1] == log[|log| - (|r| - 1)..]
  {
    if |log| >= MaxLog then log[1..] + [entry] else log + [entry]
  }

  /** The flag invariant: a recipient is only ever on record together with a sender. */
  ghost predicate Inv(s: Session)
  {
    s.recipientSupplied ==> s.senderSupplied
  }

  // ---------------------------------------------------------------------------
  // Lemmas

  /** Adding entries one at a time keeps the log equal to the most recent
      MaxLog entries of everything written. */
  lemma AddLogKeepsRecent(transcript: seq<string>, entry: string)
    ensures AddLog(Recent(transcript), entry) == Recent(transcript + [entry])
    ensures |Recent(transcript)| <= MaxLog
  {
    var t := transcript + [entry];
    if |transcript| > MaxLog {
      assert Recent(transcript)[1..] + [entry] == t[|t| - MaxLog..];
    } else if |transcript| == MaxLog {
      assert transcript[1..] + [entry] == t[|t| - MaxLog..];
    }
  }

  /** The log is the tail of the transcript: all of it, or its last MaxLog entries. */
  lemma RecentIsSuffix(transcript: seq<string>)
    ensures |Recent(transcript)| == if |transcript| <= MaxLog then |transcript| else MaxLog
    ensures Recent(transcript) == transcript[|transcript| - |Recent(transcript)|..]
  {
  }

  /** While fewer than MaxLog entries were written, the log holds them all. */
  lemma RecentWhenShort(transcript: seq<string>)
    requires |transcript| <= MaxLog
    ensures Recent(transcript) == transcript
  {
  }

  /** HELO on a started session is refused and changes nothing, whatever the
      host; in particular a second HELO after an accepted one is refused. */
  lemma HeloOnExistingSessionRefused(s: Session, first: string, second: string)
    ensures s.sessionStarted ==> Apply(s, Helo(second)) == Step(s, Fail(HeloOnExistingSession))
    ensures Apply(s, Helo(first)).outcome == Ok ==>
      var t := Apply(s, Helo(first)).next;
      Apply(t, Helo(second)) == Step(t, Fail(HeloOnExistingSession))
  {
  }

  /** HELO with a host holding CR or LF is refused with the hostname error and
      nothing is written. */
  lemma HeloRejectsLineBreak(s: Session, host: string)
    requires !s.sessionStarted
    requires '\r' in host || '\n' in host
    ensures Apply(s, Helo(host)) == Step(s, Fail(InvalidHostname))
  {
    LineBreakRejected(host);
  }

  /** An accepted HELO: EHLO with the host is written and the session starts.
      The command then fails exactly when the authenticated flag was already set. */
  lemma HeloStartsSession(s: Session, host: string)
    requires !s.sessionStarted && ValidHostname(host)
    ensures var st := Apply(s, Helo(host));
      && st.next.sessionStarted
      && st.next.transcript == s.transcript + ["EHLO " + host + CRLF]
      && (st.outcome == Ok <==> !s.authenticated)
      && (st.outcome != Ok ==> st.outcome == Fail(AlreadyAuthenticated))
  {
    assert Entries(["EHLO " + host]) == ["EHLO " + host + CRLF];
  }

  /** AUTH is refused exactly when already authenticated, and changes nothing. */
  lemma AuthRefusedWhenAuthenticated(s: Session)
    ensures Apply(s, Auth).next == s
    ensures Apply(s, Auth).outcome == (if s.authenticated then Fail(AlreadyAuthenticated) else Ok)
  {
  }

  /** On a fresh object MAIL, RCPT and DATA are each refused with their own error
      and leave the object as it was. */
  lemma FreshSessionRefusesTransaction(completeQuit: bool, from: string, to: string, data: string)
    ensures Apply(Init(completeQuit), Mail(from)) == Step(Init(completeQuit), Fail(NoSession))
    ensures Apply(Init(completeQuit), Rcpt(to)) == Step(Init(completeQuit), Fail(NoReversePath))
    ensures Apply(Init(completeQuit), Data(data)) == Step(Init(completeQuit), Fail(NoForwardPath))
  {
  }

  /** MAIL is accepted exactly on a started session; it writes MAIL FROM with the
      address in angle brackets and opens a new envelope with no recipient yet. */
  lemma MailOpensEnvelope(s: Session, from: string)
    ensures var st := Apply(s, Mail(from));
      && (st.outcome == Ok <==> s.sessionStarted)
      && (s.sessionStarted ==>
            && st.next.senderSupplied && !st.next.recipientSupplied
            && st.next.transcript == s.transcript + ["MAIL FROM:<" + from + ">" + CRLF])
  {
    assert Entries(["MAIL FROM:<" + from + ">"]) == ["MAIL FROM:<" + from + ">" + CRLF];
  }

  /** RCPT is accepted exactly when a sender was supplied and writes RCPT TO. */
  lemma RcptNeedsSender(s: Session, to: string)
    ensures var st := Apply(s, Rcpt(to));
      && (st.outcome == Ok <==> s.senderSupplied)
      && (s.senderSupplied ==>
            st.next.recipientSupplied && st.next.transcript == s.transcript + ["RCPT TO:<" + to + ">" + CRLF])
  {
    assert Entries(["RCPT TO:<" + to + ">"]) == ["RCPT TO:<" + to + ">" + CRLF];
  }

  /** DATA is accepted exactly when a recipient was supplied; then the command,
      the stuffed body and the terminator are written, and a receiver reading
      them back gets exactly the lines of the text handed over. */
  lemma DataNeedsRecipient(s: Session, data: string)
    ensures var st := Apply(s, Data(data));
      && (st.outcome == Ok <==> s.recipientSupplied)
      && (s.recipientSupplied ==>
            var written := st.next.transcript[|s.transcript|..];
            && st.next.transcript == s.transcript + Entries(DataCommand(data))
            && written[0] == "DATA" + CRLF
            && written[|written| - 1] == "." + CRLF
            && Receive(DataCommand(data)[1..]) == Some(ReadLines(data)))
  {
    if s.recipientSupplied {
      DataTransparent(data);
      var st := Apply(s, Data(data));
      assert st.next.transcript[|s.transcript|..] == Entries(DataCommand(data));
    }
  }

  /** Disconnect closes the channel and records the quit; on a started session
      it clears the session and authenticated flags and writes QUIT exactly when
      the complete-quit option is on. The envelope flags are left alone. */
  lemma DisconnectEndsSession(s: Session)
    ensures var t := Apply(s, Disconnect).next;
      && Apply(s, Disconnect).outcome == Ok
      && !t.connected && t.calledQuit && !t.sessionStarted
      && t.authenticated == (s.authenticated && !s.sessionStarted)
      && t.senderSupplied == s.senderSupplied && t.recipientSupplied == s.recipientSupplied
      && t.completeQuit == s.completeQuit
      && t.transcript == s.transcript + (if s.sessionStarted && s.completeQuit then ["QUIT" + CRLF] else [])
  {
    assert Entries(["QUIT"]) == ["QUIT" + CRLF];
  }

  /** RSET is always accepted: it writes RSET and forgets the sender and the
      recipient, leaving the session and every other flag as they were. */
  lemma RsetClearsEnvelope(s: Session)
    ensures Apply(s, Rset).outcome == Ok
    ensures Apply(s, Rset).next == s.(senderSupplied := false, recipientSupplied := false,
                                      transcript := s.transcript + ["RSET" + CRLF])
  {
    assert Entries(["RSET"]) == ["RSET" + CRLF];
  }

  /** A refused command leaves the session exactly as it was, except HELO,
      which starts the session and writes EHLO before its authentication check. */
  lemma RefusalChangesNothing(s: Session, c: Command)
    requires Apply(s, c).outcome.Fail?
    requires !(c.Helo? && Apply(s, c).outcome == Fail(AlreadyAuthenticated))
    ensures Apply(s, c).next == s
  {
  }

  /** Every command keeps the flag invariant. */
  lemma ApplyKeepsInv(s: Session, c: Command)
    requires Inv(s)
    ensures Inv(Apply(s, c).next)
  {
  }

  /** A command only ever adds entries after the ones already written. */
  lemma ApplyExtendsTranscript(s: Session, c: Command)
    ensures s.transcript <= Apply(s, c).next.transcript
  {
    match c {
      case Helo(host) => PrefixOfAppend(s.transcript, Entries(["EHLO " + host]));
      case Mail(from) => PrefixOfAppend(s.transcript, Entries(["MAIL FROM:<" + from + ">"]));
      case Rcpt(to) => PrefixOfAppend(s.transcript, Entries(["RCPT TO:<" + to + ">"]));
      case Data(data) => PrefixOfAppend(s.transcript, Entries(DataCommand(data)));
      case Rset => PrefixOfAppend(s.transcript, Entries(["RSET"]));
      case Disconnect => PrefixOfAppend(s.transcript, Entries(["QUIT"]));
      case _ =>
    }
  }

  /** A sequence is a prefix of itself extended. */
  lemma PrefixOfAppend<T>(a: seq<T>, b: seq<T>)
    ensures a <= a + b
  {
    assert (a + b)[..|a|] == a;
  }

  /** Any sequence of commands keeps the flag invariant, and only ever adds
      entries after the ones already written. */
  lemma {:induction false} RunKeepsInv(s: Session, cs: seq<Command>)
    requires Inv(s)
    ensures Inv(Run(s, cs))
    ensures s.transcript <= Run(s, cs).transcript
    decreases |cs|
  {
    if cs != [] {
      ApplyKeepsInv(s, cs[0]);
      ApplyExtendsTranscript(s, cs[0]);
      var t := Apply(s, cs[0]).next;
      RunKeepsInv(t, cs[1..]);
      var r := Run(s, cs).transcript;
      assert r[..|t.transcript|] == t.transcript;
      assert r[..|s.transcript|] == t.transcript[..|s.transcript|];
    }
  }
}
