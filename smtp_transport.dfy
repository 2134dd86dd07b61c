/** The SMTP transport's send path: open (or reset) the session, then MAIL
    FROM, one RCPT TO per recipient in order, and DATA with the header block,
    an empty line and the body. The first refused command ends the send. */
module SmtpTransport {
  import opened SmtpErrors
  import opened DataEncoding
  import opened Hostname
  import opened SmtpSession
  import opened SmtpProtocol

  /** A message as the transport reads it: the reverse path (the Sender
      address, else the first From address), the recipient addresses in
      order, the header lines and the body text. */
  datatype Envelope = Envelope(from: Option<string>, recipients: seq<string>, headers: seq<string>, body: string)

  /** PHP's empty() on a string: the empty string and "0". */
  predicate PhpEmpty(s: string)
  {
    s == "" || s == "0"
  }

  /** The text handed to DATA: the header block, an empty line, then the body. */
  function MessageData(m: Envelope): string
  {
    Wire(m.headers) + CRLF + m.body
  }

  /** The RCPT TO commands for `recipients`, in order. */
  function RcptLines(recipients: seq<string>): (r: seq<string>)
    ensures |r| == |recipients|
    ensures forall i :: 0 <= i < |r| ==> r[i] == "RCPT TO:<" + recipients[i] + ">"
  {
    seq(|recipients|, i requires 0 <= i < |recipients| => "RCPT TO:<" + recipients[i] + ">")
  }

  /** RCPT for each recipient in turn, stopping at the first refusal. */
  function RcptAll(s: Session, recipients: seq<string>): Step
    decreases |recipients|
  {
    if recipients == [] then Step(s, Ok)
    else
      var st := Apply(s, Rcpt(recipients[0]));
      if st.outcome.Fail? then st else RcptAll(st.next, recipients[1..])
  }

  /** The session opened for a send: a started session is reset with RSET,
      otherwise the channel is opened and EHLO sent with the local name. */
  function OpenSession(s: Session, name: string, remote: string, reachable: bool): Step
  {
    if s.sessionStarted then Apply(s, Rset)
    else
      var c := Apply(s, Connect(remote, reachable));
      if c.outcome.Fail? then c else Apply(c.next, Helo(name))
  }

  /** The mail transaction of a send on the opened session `s`: the message's
      own checks, then MAIL FROM, RCPT TO for each recipient and DATA. */
  function Transaction(s: Session, m: Envelope): Step
  {
    if m.from.None? then Step(s, Fail(MissingFromAddress))
    else if |m.recipients| == 0 && (!PhpEmpty(Wire(m.headers)) || !PhpEmpty(m.body)) then
      Step(s, Fail(NoRecipients))
    else
      var mailed := Apply(s, Mail(m.from.value));
      if mailed.outcome.Fail? then mailed
      else
        var rcpted := RcptAll(mailed.next, m.recipients);
        if rcpted.outcome.Fail? then rcpted
        else Apply(rcpted.next, Data(MessageData(m)))
  }

  /** A whole send of `m` on session `s`. */
  function SendSpec(s: Session, name: string, remote: string, reachable: bool, m: Envelope): Step
  {
    var start := OpenSession(s, name, remote, reachable);
    if start.outcome.Fail? then start else Transaction(start.next, m)
  }

  /** The transport: a local name for EHLO and the protocol object it sends through. */
  class Transport {
    const name: string
    const connection: Smtp

    /** A transport with the default options (local name "localhost") sending
        through `connection`. */
    constructor(connection: Smtp)
      ensures this.connection == connection && name == "localhost"
    {
      this.connection := connection;
      name := "localhost";
    }

    /** Sends `m`; `reachable` is the network's answer if a channel must be opened. */
    method Send(m: Envelope, reachable: bool) returns (r: Outcome)
      requires connection.Valid()
      modifies connection
      ensures connection.Valid()
      ensures Step(connection.Model(), r) == SendSpec(old(connection.Model()), name, connection.host, reachable, m)
    {
      ghost var s0 := connection.Model();
      if connection.HasSession() {
        r := connection.Rset();
      } else {
        r := connection.Connect(connection.host, reachable);
        if r == Ok {
          r := connection.Helo(name);
        }
      }
      assert Step(connection.Model(), r) == OpenSession(s0, name, connection.host, reachable);
      if r.Fail? {
        return;
      }
      r := Transact(m);
    }

    /** The mail transaction of a send, on the session just opened or reset. */
    method Transact(m: Envelope) returns (r: Outcome)
      requires connection.Valid()
      modifies connection
      ensures connection.Valid()
      ensures Step(connection.Model(), r) == Transaction(old(connection.Model()), m)
    {
      if m.from.None? {
        return Fail(MissingFromAddress);
      }
      if |m.recipients| == 0 && (!PhpEmpty(Wire(m.headers)) || !PhpEmpty(m.body)) {
        return Fail(NoRecipients);
      }
      r := connection.Mail(m.from.value);
      if r.Fail? {
        return;
      }
      ghost var mailed := connection.Model();
      var i := 0;
      while i < |m.recipients|
        invariant i <= |m.recipients|
        invariant connection.Valid()
        invariant RcptAll(mailed, m.recipients) == RcptAll(connection.Model(), m.recipients[i..])
        decreases |m.recipients| - i
      {
        var rest := m.recipients[i..];
        r := connection.Rcpt(m.recipients[i]);
        if r.Fail? {
          return;
        }
        assert rest[1..] == m.recipients[i + 1..];
        i := i + 1;
      }
      assert m.recipients[i..] == [];
      r := connection.Data(MessageData(m));
    }
  }

  // ---------------------------------------------------------------------------
  // Lemmas

  /** From a session with a sender on record every RCPT is accepted; the RCPT TO
      lines are written in recipient order and nothing else changes except the
      recipient flag. */
  lemma {:induction false} RcptAllAccepted(s: Session, recipients: seq<string>)
    requires s.senderSupplied
    ensures var st := RcptAll(s, recipients);
      && st.outcome == Ok
      && st.next == s.(transcript := s.transcript + Entries(RcptLines(recipients)),
                       recipientSupplied := s.recipientSupplied || |recipients| > 0)
    decreases |recipients|
  {
    if recipients != [] {
      var st := Apply(s, Rcpt(recipients[0]));
      RcptNeedsSender(s, recipients[0]);
      RcptAllAccepted(st.next, recipients[1..]);
      var line := "RCPT TO:<" + recipients[0] + ">";
      assert RcptLines(recipients) == [line] + RcptLines(recipients[1..]);
      assert Entries(RcptLines(recipients)) == [line + CRLF] + Entries(RcptLines(recipients[1..]));
      AppendAssoc(s.transcript, [line + CRLF], Entries(RcptLines(recipients[1..])));
    } else {
      assert Entries(RcptLines(recipients)) == [];
    }
  }

  /** The lines DATA sends for a message: its header lines, the empty line and
      the lines of its body, all dot-stuffed. */
  lemma MessageDataLines(m: Envelope)
    requires forall i :: 0 <= i < |m.headers| ==> Clean(m.headers[i])
    ensures DataLines(MessageData(m)) == Stuffed(m.headers) + [""] + Stuffed(ReadLines(m.body))
  {
    var block := m.headers + [""];
    assert forall i :: 0 <= i < |block| ==> Clean(block[i]);
    WireAppend(m.headers, [""]);
    WireOne("");
    assert "" + CRLF == CRLF;
    assert MessageData(m) == Wire(block) + m.body;
    ReadWire(block, m.body);
    StuffedAppend(block, ReadLines(m.body));
    StuffedAppend(m.headers, [""]);
    assert Stuffed([""]) == [""];
  }

  /** A send on a session that was not started, with a reachable server, a valid
      local name, a reverse path and at least one recipient, is accepted and
      writes exactly EHLO, MAIL FROM, one RCPT TO per recipient in order, DATA,
      the stuffed header lines, the empty line, the stuffed body lines and the
      terminator. */
  lemma SendOnNewSession(s: Session, name: string, remote: string, m: Envelope)
    requires !s.sessionStarted && !s.authenticated && ValidHostname(name)
    requires m.from.Some? && |m.recipients| > 0
    requires forall i :: 0 <= i < |m.headers| ==> Clean(m.headers[i])
    ensures var st := SendSpec(s, name, remote, true, m);
      && st.outcome == Ok
      && st.next.transcript == s.transcript + Entries(
           ["EHLO " + name, "MAIL FROM:<" + m.from.value + ">"] + RcptLines(m.recipients)
           + ["DATA"] + Stuffed(m.headers) + [""] + Stuffed(ReadLines(m.body)) + ["."])
      && st.next.sessionStarted && st.next.senderSupplied && st.next.recipientSupplied
  {
    SendOnNewSessionSteps(s, name, remote, m);
    MessageDataLines(m);
    var sh, sb := Stuffed(m.headers), Stuffed(ReadLines(m.body));
    assert DataCommand(MessageData(m)) == ["DATA"] + (sh + [""] + sb) + ["."];
    CommandEntries(s.transcript, "EHLO " + name, "MAIL FROM:<" + m.from.value + ">", RcptLines(m.recipients), sh, sb);
  }

  /** The commands of a send on a new session, step by step. */
  lemma SendOnNewSessionSteps(s: Session, name: string, remote: string, m: Envelope)
    requires !s.sessionStarted && !s.authenticated && ValidHostname(name)
    requires m.from.Some? && |m.recipients| > 0
    ensures var st := SendSpec(s, name, remote, true, m);
      && st.outcome == Ok
      && st.next.transcript == s.transcript + ["EHLO " + name + CRLF] + ["MAIL FROM:<" + m.from.value + ">" + CRLF]
           + Entries(RcptLines(m.recipients)) + Entries(DataCommand(MessageData(m)))
      && st.next.sessionStarted && st.next.senderSupplied && st.next.recipientSupplied
  {
    var c := Apply(s, Connect(remote, true)).next;
    HeloStartsSession(c, name);
    TransactionAccepted(Apply(c, Helo(name)).next, m);
  }

  /** On an opened session, a transaction with a reverse path and at least one
      recipient is accepted and writes MAIL FROM, the RCPTs in order and the
      DATA exchange. */
  lemma TransactionAccepted(o: Session, m: Envelope)
    requires o.sessionStarted && m.from.Some? && |m.recipients| > 0
    ensures var st := Transaction(o, m);
      && st.outcome == Ok
      && st.next.transcript == o.transcript + ["MAIL FROM:<" + m.from.value + ">" + CRLF]
           + Entries(RcptLines(m.recipients)) + Entries(DataCommand(MessageData(m)))
      && st.next.sessionStarted && st.next.senderSupplied && st.next.recipientSupplied
  {
    var from := m.from.value;
    MailOpensEnvelope(o, from);
    var ml := Apply(o, Mail(from)).next;
    RcptAllAccepted(ml, m.recipients);
    var rc := RcptAll(ml, m.recipients).next;
    assert Transaction(o, m) == Apply(rc, Data(MessageData(m)));
  }

  /** The entries of the command list of a send, regrouped. */
  lemma CommandEntries(t: seq<string>, ehlo: string, mail: string, rcpts: seq<string>, sh: seq<string>, sb: seq<string>)
    ensures t + [ehlo + CRLF] + [mail + CRLF] + Entries(rcpts) + Entries(["DATA"] + (sh + [""] + sb) + ["."])
         == t + Entries([ehlo, mail] + rcpts + ["DATA"] + sh + [""] + sb + ["."])
  {
    var greet := [ehlo, mail];
    EntriesAppend(["DATA"] + (sh + [""] + sb), ["."]);
    EntriesAppend(["DATA"], sh + [""] + sb);
    EntriesAppend(sh + [""], sb);
    EntriesAppend(sh, [""]);
    EntriesAppend(greet + rcpts + ["DATA"] + sh + [""] + sb, ["."]);
    EntriesAppend(greet + rcpts + ["DATA"] + sh + [""], sb);
    EntriesAppend(greet + rcpts + ["DATA"] + sh, [""]);
    EntriesAppend(greet + rcpts + ["DATA"], sh);
    EntriesAppend(greet + rcpts, ["DATA"]);
    EntriesAppend(greet, rcpts);
    assert Entries(greet) == [ehlo + CRLF] + [mail + CRLF];
    Regroup(t, [ehlo + CRLF], [mail + CRLF], Entries(rcpts),
            Entries(["DATA"]), Entries(sh), Entries([""]), Entries(sb), Entries(["."]));
  }

  /** Regrouping a concatenation of nine pieces. */
  lemma Regroup<T>(t: seq<T>, a: seq<T>, b: seq<T>, c: seq<T>, d: seq<T>, e: seq<T>, f: seq<T>, g: seq<T>, h: seq<T>)
    ensures t + a + b + c + (d + (e + f + g) + h) == t + (a + b + c + d + e + f + g + h)
  {
  }

  /** A send on a session already started first resets it with RSET, whatever the
      message; `SendOnStartedSession` gives the whole accepted path. */
  lemma SendOnStartedSessionResets(s: Session, name: string, remote: string, reachable: bool, m: Envelope)
    requires s.sessionStarted
    ensures var st := SendSpec(s, name, remote, reachable, m);
      && |st.next.transcript| > |s.transcript|
      && st.next.transcript[|s.transcript|] == "RSET" + CRLF
  {
    var o := Apply(s, Rset).next;
    assert o.transcript == s.transcript + ["RSET" + CRLF];
    ApplyPrefix(s, name, remote, reachable, m);
  }

  /** A send on a started session with a reverse path and at least one
      recipient is accepted and writes exactly RSET (no EHLO), MAIL FROM, one
      RCPT TO per recipient in order, and the DATA exchange of the message. */
  lemma SendOnStartedSession(s: Session, name: string, remote: string, reachable: bool, m: Envelope)
    requires s.sessionStarted && m.from.Some? && |m.recipients| > 0
    ensures var st := SendSpec(s, name, remote, reachable, m);
      && st.outcome == Ok
      && st.next.transcript == s.transcript + ["RSET" + CRLF] + ["MAIL FROM:<" + m.from.value + ">" + CRLF]
           + Entries(RcptLines(m.recipients)) + Entries(DataCommand(MessageData(m)))
      && st.next.sessionStarted && st.next.senderSupplied && st.next.recipientSupplied
  {
    RsetClearsEnvelope(s);
    TransactionAccepted(Apply(s, Rset).next, m);
  }

  /** Whatever the send does after opening the session only adds entries. */
  lemma ApplyPrefix(s: Session, name: string, remote: string, reachable: bool, m: Envelope)
    ensures OpenSession(s, name, remote, reachable).next.transcript <= SendSpec(s, name, remote, reachable, m).next.transcript
  {
    var start := OpenSession(s, name, remote, reachable);
    if start.outcome.Ok? && m.from.Some? && !(|m.recipients| == 0 && (!PhpEmpty(Wire(m.headers)) || !PhpEmpty(m.body))) {
      var mailed := Apply(start.next, Mail(m.from.value));
      ApplyExtendsTranscript(start.next, Mail(m.from.value));
      if mailed.outcome.Ok? {
        RcptAllExtends(mailed.next, m.recipients);
        var rcpted := RcptAll(mailed.next, m.recipients);
        if rcpted.outcome.Ok? {
          ApplyExtendsTranscript(rcpted.next, Data(MessageData(m)));
        }
      }
    }
  }

  /** RCPTs only add entries. */
  lemma {:induction false} RcptAllExtends(s: Session, recipients: seq<string>)
    ensures s.transcript <= RcptAll(s, recipients).next.transcript
    decreases |recipients|
  {
    if recipients != [] {
      ApplyExtendsTranscript(s, Rcpt(recipients[0]));
      var st := Apply(s, Rcpt(recipients[0]));
      if st.outcome.Ok? {
        RcptAllExtends(st.next, recipients[1..]);
      }
    }
  }

  /** Without a reverse path the send stops after opening the session: no MAIL is sent. */
  lemma SendWithoutFromRefused(s: Session, name: string, remote: string, reachable: bool, m: Envelope)
    requires m.from.None?
    requires OpenSession(s, name, remote, reachable).outcome == Ok
    ensures SendSpec(s, name, remote, reachable, m) == Step(OpenSession(s, name, remote, reachable).next, Fail(MissingFromAddress))
  {
  }

  /** A message with a header or a body but no recipient is refused before MAIL is sent. */
  lemma SendWithoutRecipientRefused(s: Session, name: string, remote: string, reachable: bool, m: Envelope)
    requires m.from.Some? && m.recipients == [] && m.headers != []
    requires OpenSession(s, name, remote, reachable).outcome == Ok
    ensures SendSpec(s, name, remote, reachable, m) == Step(OpenSession(s, name, remote, reachable).next, Fail(NoRecipients))
  {
    WireCons(m.headers[0], m.headers[1..]);
    assert m.headers == [m.headers[0]] + m.headers[1..];
    assert |Wire(m.headers)| >= 2;
  }

  /** An unreachable server ends a send on a new session before anything is written,
      with an error naming the remote. */
  lemma SendUnreachable(s: Session, name: string, remote: string, m: Envelope)
    requires !s.sessionStarted
    ensures SendSpec(s, name, remote, false, m) == Step(s, Fail(ConnectionFailed(remote)))
  {
  }
}
