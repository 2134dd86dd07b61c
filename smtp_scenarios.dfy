/** The behaviours the test suite of the SMTP protocol pins down, replayed on
    the model: each method builds fresh objects, issues the commands of one
    test and returns what the test observes; its postcondition is the test's
    assertion. */
module SmtpScenarios {
  import opened SmtpErrors
  import opened DataEncoding
  import opened Hostname
  import opened SmtpSession
  import opened SmtpProtocol
  import opened SmtpTransport

  /** The header lines of the test message, in the order the message layer renders them. */
  const TestHeaders: seq<string> := [
    "Date: Sun, 10 Jun 2012 20:07:24 +0200",
    "Sender: Example Sender <sender@example.com>",
    "To: Recipient Name <recipient@example.com>"]

  /** The test message with body `body`: sender sender@example.com, one
      recipient recipient@example.com. */
  function TestMessage(body: string): Envelope
  {
    Envelope(Some("sender@example.com"), ["recipient@example.com"], TestHeaders, body)
  }

  /** The test header lines are read back as they are and need no stuffing. */
  lemma TestHeadersPlain()
    ensures forall i :: 0 <= i < |TestHeaders| ==> Clean(TestHeaders[i]) && (TestHeaders[i] == [] || TestHeaders[i][0] != '.')
  {
    DateHeaderClean();
    SenderHeaderClean();
    ToHeaderClean();
  }

  lemma DateHeaderClean()
    ensures Clean("Date: Sun, 10 Jun 2012 20:07:24 +0200")
  {
  }

  lemma SenderHeaderClean()
    ensures Clean("Sender: Example Sender <sender@example.com>")
  {
  }

  lemma ToHeaderClean()
    ensures Clean("To: Recipient Name <recipient@example.com>")
  {
  }

  /** The two test bodies: a plain line, and a line followed by a lone ".". */
  lemma TestBodiesPlain()
    ensures Clean("testSendMailWithoutMinimalHeaders")
    ensures Clean("This is a test")
    ensures "This is a test\n." == "This is a test" + [LF] + "."
    ensures "testSendMailWithoutMinimalHeaders" + CRLF == "testSendMailWithoutMinimalHeaders\r\n"
    ensures "This is a test" + CRLF + ".." + CRLF == "This is a test\r\n" + "..\r\n"
  {
  }

  /** A one-line body that does not begin with "." goes out as that line. */
  lemma PlainBodyWire(line: string)
    requires Clean(line) && line != [] && line[0] != '.'
    ensures ReadLines(line) == [line]
    ensures Wire(Stuffed(ReadLines(line))) == line + CRLF
  {
    ReadLastLine(line);
    assert Stuffed([line]) == [line];
    WireOne(line);
  }

  /** A line followed by a lone "." goes out as that line, then "..". */
  lemma EscapedBodyWire(first: string)
    requires Clean(first) && first != [] && first[0] != '.'
    ensures |ReadLines(first + [LF] + ".")| == 2
    ensures Wire(Stuffed(ReadLines(first + [LF] + "."))) == first + CRLF + ".." + CRLF
  {
    ReadLfJoined(first, ".");
    assert Stuff(first) == first && Stuff(".") == "..";
    assert Stuffed([first, "."]) == [first, ".."];
    assert [first, ".."] == [first] + [".."];
    WireCons(first, [".."]);
    WireOne("..");
  }

  /** The lines a send with one recipient writes on a fresh protocol object. */
  function OneRecipientLines(name: string, from: string, to: string, headers: seq<string>, body: string): (r: seq<string>)
    ensures |r| == |headers| + |ReadLines(body)| + 6
  {
    ["EHLO " + name, "MAIL FROM:<" + from + ">"] + ["RCPT TO:<" + to + ">"]
    + ["DATA"] + headers + [""] + Stuffed(ReadLines(body)) + ["."]
  }

  /** A send with one recipient on a fresh protocol object is accepted and
      writes EHLO, MAIL FROM, RCPT TO, DATA, the header lines, the empty line,
      the stuffed body lines and the terminator, each followed by CRLF. */
  lemma OneRecipientSend(name: string, remote: string, from: string, to: string, headers: seq<string>, body: string)
    requires ValidHostname(name)
    requires forall i :: 0 <= i < |headers| ==> Clean(headers[i]) && (headers[i] == [] || headers[i][0] != '.')
    ensures var st := SendSpec(Init(true), name, remote, true, Envelope(Some(from), [to], headers, body));
      st.outcome == Ok && st.next.transcript == Entries(OneRecipientLines(name, from, to, headers, body))
  {
    var m := Envelope(Some(from), [to], headers, body);
    SendOnNewSession(Init(true), name, remote, m);
    assert RcptLines(m.recipients) == ["RCPT TO:<" + to + ">"];
    StuffedUnchangedIff(headers);
    var lines := OneRecipientLines(name, from, to, headers, body);
    assert [] + Entries(lines) == Entries(lines);
  }

  /** The wire text of the lines of a send, piece by piece. */
  lemma WireOfSend(greet: seq<string>, rcpt: seq<string>, hs: seq<string>, sb: seq<string>)
    ensures Wire(greet + rcpt + ["DATA"] + hs + [""] + sb + ["."])
         == Wire(greet) + Wire(rcpt) + ("DATA" + CRLF) + Wire(hs) + CRLF + Wire(sb) + ("." + CRLF)
  {
    WireAppend(greet + rcpt + ["DATA"] + hs + [""] + sb, ["."]);
    WireAppend(greet + rcpt + ["DATA"] + hs + [""], sb);
    WireAppend(greet + rcpt + ["DATA"] + hs, [""]);
    WireAppend(greet + rcpt + ["DATA"], hs);
    WireAppend(greet + rcpt, ["DATA"]);
    WireAppend(greet, rcpt);
    WireOne("DATA");
    WireOne("");
    WireOne(".");
    assert "" + CRLF == CRLF;
  }

  /** The log of a send with one recipient. */
  lemma OneRecipientLog(name: string, from: string, to: string, headers: seq<string>, body: string)
    ensures Wire(OneRecipientLines(name, from, to, headers, body))
         == ("EHLO " + name + CRLF) + ("MAIL FROM:<" + from + ">" + CRLF) + ("RCPT TO:<" + to + ">" + CRLF)
          + ("DATA" + CRLF) + Wire(headers) + CRLF + Wire(Stuffed(ReadLines(body))) + ("." + CRLF)
  {
    WireOfSend(["EHLO " + name, "MAIL FROM:<" + from + ">"], ["RCPT TO:<" + to + ">"], headers, Stuffed(ReadLines(body)));
    var ehlo, mail, rcpt := "EHLO " + name, "MAIL FROM:<" + from + ">", "RCPT TO:<" + to + ">";
    assert [ehlo, mail] == [ehlo] + [mail];
    WireCons(ehlo, [mail]);
    WireOne(mail);
    WireOne(rcpt);
    assert Wire([ehlo, mail]) == (ehlo + CRLF) + (mail + CRLF);
  }

  /** The header block of the test message on the wire. */
  lemma TestHeadersWire()
    ensures Wire(TestHeaders)
         == "Date: Sun, 10 Jun 2012 20:07:24 +0200\r\n"
          + "Sender: Example Sender <sender@example.com>\r\n"
          + "To: Recipient Name <recipient@example.com>\r\n"
  {
    WireCons(TestHeaders[0], TestHeaders[1..]);
    WireCons(TestHeaders[1], TestHeaders[2..]);
    WireOne(TestHeaders[2]);
    assert TestHeaders[1..][1..] == TestHeaders[2..] == [TestHeaders[2]];
  }

  /** What the test send writes before the body: the commands, the header
      block and the empty line. */
  const TestPrefix: string := "EHLO localhost\r\n"
    + "MAIL FROM:<sender@example.com>\r\n"
    + "RCPT TO:<recipient@example.com>\r\n"
    + "DATA\r\n"
    + "Date: Sun, 10 Jun 2012 20:07:24 +0200\r\n"
    + "Sender: Example Sender <sender@example.com>\r\n"
    + "To: Recipient Name <recipient@example.com>\r\n"
    + "\r\n"

  /** The log of a send of the test message, around the wire text of its body. */
  lemma TestLog(body: string)
    ensures Wire(OneRecipientLines("localhost", "sender@example.com", "recipient@example.com", TestHeaders, body))
         == TestPrefix + Wire(Stuffed(ReadLines(body))) + ".\r\n"
  {
    OneRecipientLog("localhost", "sender@example.com", "recipient@example.com", TestHeaders, body);
    TestHeadersWire();
    TestCommandLines();
    var greet := "EHLO localhost\r\n" + "MAIL FROM:<sender@example.com>\r\n"
      + "RCPT TO:<recipient@example.com>\r\n" + "DATA\r\n";
    var h1, h2, h3 := "Date: Sun, 10 Jun 2012 20:07:24 +0200\r\n",
      "Sender: Example Sender <sender@example.com>\r\n", "To: Recipient Name <recipient@example.com>\r\n";
    AppendAssoc(greet, h1 + h2, h3);
    AppendAssoc(greet, h1, h2);
  }

  /** The log of a send of the test message on a fresh protocol object, whose
      transcript fits in the log. */
  lemma TestSendLog(body: string)
    ensures var t := SendSpec(Init(true), "localhost", "127.0.0.1", true, TestMessage(body)).next.transcript;
      |t| == |ReadLines(body)| + 9
      && Concat(t) == TestPrefix + Wire(Stuffed(ReadLines(body))) + ".\r\n"
  {
    TestHostnamesValid();
    TestHeadersPlain();
    OneRecipientSend("localhost", "127.0.0.1", "sender@example.com", "recipient@example.com", TestHeaders, body);
    TestLog(body);
  }

  /** The command lines of the test send as the test writes them. */
  lemma TestCommandLines()
    ensures "EHLO " + "localhost" + CRLF == "EHLO localhost\r\n"
    ensures "MAIL FROM:<" + "sender@example.com" + ">" + CRLF == "MAIL FROM:<sender@example.com>\r\n"
    ensures "RCPT TO:<" + "recipient@example.com" + ">" + CRLF == "RCPT TO:<recipient@example.com>\r\n"
    ensures "DATA" + CRLF == "DATA\r\n"
    ensures "." + CRLF == ".\r\n"
  {
    EhloLine();
    MailLine();
    RcptLine();
  }

  lemma EhloLine()
    ensures "EHLO " + "localhost" + CRLF == "EHLO localhost\r\n"
  {
  }

  lemma MailLine()
    ensures "MAIL FROM:<" + "sender@example.com" + ">" + CRLF == "MAIL FROM:<sender@example.com>\r\n"
  {
  }

  lemma RcptLine()
    ensures "RCPT TO:<" + "recipient@example.com" + ">" + CRLF == "RCPT TO:<recipient@example.com>\r\n"
  {
  }

  /** testSendMinimalMail: the whole log of a send with a one-line body. */
  method SendMinimalMail() returns (log: string)
    ensures log == "EHLO localhost\r\n"
      + "MAIL FROM:<sender@example.com>\r\n"
      + "RCPT TO:<recipient@example.com>\r\n"
      + "DATA\r\n"
      + "Date: Sun, 10 Jun 2012 20:07:24 +0200\r\n"
      + "Sender: Example Sender <sender@example.com>\r\n"
      + "To: Recipient Name <recipient@example.com>\r\n"
      + "\r\n"
      + "testSendMailWithoutMinimalHeaders\r\n"
      + ".\r\n"
  {
    var spy := new Smtp("127.0.0.1", map[]);
    var transport := new Transport(spy);
    var body := "testSendMailWithoutMinimalHeaders";
    var _ := transport.Send(TestMessage(body), true);
    log := spy.GetLog();
    TestBodiesPlain();
    PlainBodyWire(body);
    TestSendLog(body);
  }

  /** testSendEscapedEmail: LF becomes CRLF and the lone "." line goes out as "..". */
  method SendEscapedEmail() returns (log: string)
    ensures log == "EHLO localhost\r\n"
      + "MAIL FROM:<sender@example.com>\r\n"
      + "RCPT TO:<recipient@example.com>\r\n"
      + "DATA\r\n"
      + "Date: Sun, 10 Jun 2012 20:07:24 +0200\r\n"
      + "Sender: Example Sender <sender@example.com>\r\n"
      + "To: Recipient Name <recipient@example.com>\r\n"
      + "\r\n"
      + "This is a test\r\n"
      + "..\r\n"
      + ".\r\n"
  {
    var spy := new Smtp("127.0.0.1", map[]);
    var transport := new Transport(spy);
    var body := "This is a test\n.";
    var _ := transport.Send(TestMessage(body), true);
    log := spy.GetLog();
    TestBodiesPlain();
    EscapedBodyWire("This is a test");
    TestSendLog(body);
    AppendAssoc(TestPrefix, "This is a test\r\n", "..\r\n");
  }

  /** testDisconnectCallsQuit: disconnect invokes quit, even on a fresh object. */
  method DisconnectCallsQuit() returns (calledQuit: bool)
    ensures calledQuit
  {
    var spy := new Smtp("127.0.0.1", map[]);
    spy.Disconnect();
    calledQuit := spy.calledQuit;
  }

  /** testDisconnectResetsAuthFlag: authenticated before disconnect, not after. */
  method DisconnectResetsAuthFlag() returns (before: bool, after: bool)
    ensures before && !after
  {
    var spy := new Smtp("127.0.0.1", map[]);
    var _ := spy.Connect(spy.host, true);
    spy.SetSessionStatus(true);
    spy.SetAuth(true);
    before := spy.GetAuth();
    spy.Disconnect();
    after := spy.GetAuth();
  }

  /** testConnectHasVerboseErrors: a failed connection names the remote. */
  method ConnectHasVerboseErrors() returns (r: Outcome)
    ensures r.Fail? && Contains(Message(r.error), "nonexistentremote")
  {
    var smtp := new Smtp("127.0.0.1", map[]);
    r := smtp.Connect("nonexistentremote", false);
    ConnectionErrorNamesRemote("nonexistentremote");
  }

  /** testCanAvoidQuitRequest: QUIT is sent by default and not once the option is
      off; the option can also be switched off at construction. */
  method CanAvoidQuitRequest() returns (byDefault: bool, logWithQuit: string, afterSet: bool, logWithoutQuit: string, configured: bool)
    ensures byDefault && Contains(logWithQuit, "QUIT")
    ensures !afterSet && !Contains(logWithoutQuit, "QUIT")
    ensures !configured
  {
    TestHostnamesValid();
    var spy := new Smtp("127.0.0.1", map[]);
    byDefault := spy.UseCompleteQuit();

    logWithQuit := ConnectHeloDisconnect(spy);
    assert logWithQuit == "EHLO 127.0.0.1\r\n" + "QUIT\r\n";
    assert OccursAt(logWithQuit, "QUIT", 16);

    var _ := spy.SetUseCompleteQuit(false);
    afterSet := spy.UseCompleteQuit();

    logWithoutQuit := ConnectHeloDisconnect(spy);
    assert logWithoutQuit == "EHLO 127.0.0.1\r\n";
    NoQuitWithoutQ(logWithoutQuit);

    var connection := new Smtp("127.0.0.1", map["use_complete_quit" := false]);
    configured := connection.UseCompleteQuit();
  }

  /** Resets the log, connects, sends EHLO for 127.0.0.1 and disconnects;
      returns the log. */
  method ConnectHeloDisconnect(spy: Smtp) returns (log: string)
    requires spy.Valid() && spy.host == "127.0.0.1" && !spy.sessionStarted && !spy.authenticated
    modifies spy
    ensures spy.Valid() && spy.completeQuit == old(spy.completeQuit) && !spy.sessionStarted && !spy.authenticated
    ensures log == "EHLO 127.0.0.1\r\n" + (if spy.completeQuit then "QUIT\r\n" else "")
  {
    TestHostnamesValid();
    spy.ResetLog();
    var _ := spy.Connect(spy.host, true);
    ghost var s := spy.Model();
    var _ := spy.Helo();
    HeloStartsSession(s, "127.0.0.1");
    assert "EHLO " + "127.0.0.1" == "EHLO 127.0.0.1";
    assert s.transcript == [];
    assert spy.transcript == ["EHLO 127.0.0.1" + CRLF];
    ghost var h := spy.Model();
    spy.Disconnect();
    DisconnectEndsSession(h);
    assert "EHLO 127.0.0.1" + CRLF == "EHLO 127.0.0.1\r\n";
    assert "QUIT" + CRLF == "QUIT\r\n";
    log := spy.GetLog();
    if spy.completeQuit {
      assert spy.transcript == ["EHLO 127.0.0.1\r\n", "QUIT\r\n"];
      assert Concat(spy.transcript[1..]) == "QUIT\r\n" + Concat([]);
    } else {
      assert spy.transcript == ["EHLO 127.0.0.1\r\n"];
      assert Concat(spy.transcript) == "EHLO 127.0.0.1\r\n" + Concat([]);
    }
  }

  /** A text without the letter Q does not contain "QUIT". */
  lemma NoQuitWithoutQ(s: string)
    requires 'Q' !in s
    ensures !Contains(s, "QUIT")
  {
    forall i | 0 <= i <= |s| - 4 ensures !OccursAt(s, "QUIT", i) {
      assert s[i] in s;
    }
  }

  /** testAuthThrowsWhenAlreadyAuthed. */
  method AuthThrowsWhenAlreadyAuthed() returns (r: Outcome)
    ensures r == Fail(AlreadyAuthenticated) && Contains(Message(r.error), "Already authenticated for this session")
  {
    ContainsItself(Message(AlreadyAuthenticated));
    var spy := new Smtp("127.0.0.1", map[]);
    spy.SetAuth(true);
    r := spy.Auth();
  }

  /** testHeloThrowsWhenAlreadySession: the second HELO is refused. */
  method HeloThrowsWhenAlreadySession() returns (first: Outcome, second: Outcome)
    ensures first == Ok
    ensures second == Fail(HeloOnExistingSession) && Contains(Message(second.error), "Cannot issue HELO to existing session")
  {
    ContainsItself(Message(HeloOnExistingSession));
    TestHostnamesValid();
    var spy := new Smtp("127.0.0.1", map[]);
    first := spy.Helo("hostname.test");
    second := spy.Helo("hostname.test");
  }

  /** testHeloThrowsWithInvalidHostname. */
  method HeloThrowsWithInvalidHostname() returns (r: Outcome)
    ensures r == Fail(InvalidHostname) && Contains(Message(r.error), "The input does not match the expected structure for a DNS hostname")
  {
    ContainsItself(Message(InvalidHostname));
    TestHostnameInvalid();
    var spy := new Smtp("127.0.0.1", map[]);
    r := spy.Helo("invalid\r\nhost name");
  }

  /** testMailThrowsWhenNoSession: MAIL on a fresh object is refused. */
  method MailThrowsWhenNoSession() returns (r: Outcome)
    ensures r == Fail(NoSession) && Contains(Message(r.error), "A valid session has not been started")
  {
    ContainsItself(Message(NoSession));
    var spy := new Smtp("127.0.0.1", map[]);
    r := spy.Mail("test@example.com");
  }

  /** testRcptThrowsWhenNoMail: RCPT on a fresh object is refused. */
  method RcptThrowsWhenNoMail() returns (r: Outcome)
    ensures r == Fail(NoReversePath) && Contains(Message(r.error), "No sender reverse path has been supplied")
  {
    ContainsItself(Message(NoReversePath));
    var spy := new Smtp("127.0.0.1", map[]);
    r := spy.Rcpt("test@example.com");
  }

  /** testDataThrowsWhenNoRcpt: DATA on a fresh object is refused. */
  method DataThrowsWhenNoRcpt() returns (r: Outcome)
    ensures r == Fail(NoForwardPath) && Contains(Message(r.error), "No recipient forward path has been supplied")
  {
    ContainsItself(Message(NoForwardPath));
    var spy := new Smtp("127.0.0.1", map[]);
    r := spy.Data("message");
  }
}
