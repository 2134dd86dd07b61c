/** The SMTP protocol object driven over the recording channel of the test
    suite: the flags are fields that each command updates in place, every line
    written goes through `SendLine`, and the log keeps the most recent
    entries. Each command is proved to do what `SmtpSession.Apply` says. */
module SmtpProtocol {
  import opened SmtpErrors
  import opened DataEncoding
  import opened Hostname
  import opened SmtpSession

  /** The entries written by one turn of the body loop. */
  lemma BodyStep(t0: seq<string>, read: seq<string>, line: string)
    ensures t0 + Entries(Stuffed(read)) + [Stuff(line) + CRLF] == t0 + Entries(Stuffed(read + [line]))
  {
    StuffedSnoc(read, line);
    EntriesSnoc(Stuffed(read), Stuff(line));
    AppendAssoc(t0, Entries(Stuffed(read)), [Stuff(line) + CRLF]);
  }

  /** Reads the line starting at `pos`: up to the next LF or the end of the
      text, trailing CRs trimmed; reading resumes after the LF. */
  method ReadLine(data: string, pos: nat) returns (line: string, next: nat)
    requires pos < |data|
    ensures next <= |data| && ReadLines(data[pos..]) == [line] + ReadLines(data[next..])
    ensures pos < next
  {
    var k := LineEnd(data[pos..]);
    line := TrimCR(data[pos..][..k]);
    var skip := if k < |data| - pos then k + 1 else k;
    next := pos + skip;
    ReadAt(data, pos, k, skip);
    assert ReadLines(data[pos..]) == [line] + ReadLines(data[next..]);
  }

  /** The lines read from `pos` on: the line there, then those after its LF. */
  lemma ReadAt(data: string, pos: nat, k: nat, skip: nat)
    requires pos < |data| && k == LineEnd(data[pos..])
    requires skip == (if k < |data| - pos then k + 1 else k)
    ensures ReadLines(data[pos..]) == [TrimCR(data[pos..][..k])] + ReadLines(data[pos + skip..])
  {
    ReadLinesUnfold(data[pos..]);
    SliceOfSlice(data, pos, skip);
  }

  /** Dropping `i` elements, then `j` more, is dropping `i + j`. */
  lemma SliceOfSlice<T>(s: seq<T>, i: nat, j: nat)
    requires i + j <= |s|
    ensures s[i..][j..] == s[i + j..]
  {
  }

  lemma AppendNil<T>(a: seq<T>)
    ensures a + [] == a
  {
  }

  class Smtp {
    /** The server host given at construction. */
    const host: string

    var connected: bool
    var sessionStarted: bool
    var authenticated: bool
    var senderSupplied: bool
    var recipientSupplied: bool
    var completeQuit: bool
    var calledQuit: bool
    /** The log: the most recent MaxLog entries written. */
    var log: seq<string>
    /** Every entry written since the log was last reset. */
    ghost var transcript: seq<string>

    ghost predicate Valid()
      reads this
    {
      log == Recent(transcript)
    }

    /** The abstract state of the object. */
    ghost function Model(): Session
      reads this
    {
      Session(connected, sessionStarted, authenticated, senderSupplied, recipientSupplied,
              completeQuit, calledQuit, transcript)
    }

    /** A protocol object for `host`; the use_complete_quit option of `config`
        decides whether disconnect sends QUIT (it does unless the option is false). */
    constructor(host: string, config: map<string, bool>)
      ensures Valid() && this.host == host
      ensures Model() == Init(CompleteQuitOption(config))
    {
      this.host := host;
      connected, sessionStarted, authenticated := false, false, false;
      senderSupplied, recipientSupplied := false, false;
      completeQuit := CompleteQuitOption(config);
      calledQuit := false;
      log := [];
      transcript := [];
    }

    /** Writes one line, followed by CRLF, and records it in the log. */
    method SendLine(line: string)
      requires Valid()
      modifies this
      ensures Valid()
      ensures Model() == old(Model()).(transcript := old(transcript) + [line + CRLF])
    {
      AddLogKeepsRecent(transcript, line + CRLF);
      log := AddLog(log, line + CRLF);
      transcript := transcript + [line + CRLF];
    }

    /** Opens the channel to `remote`; `reachable` is the network's answer. */
    method Connect(remote: string, reachable: bool) returns (r: Outcome)
      requires Valid()
      modifies this
      ensures Valid()
      ensures Step(Model(), r) == Apply(old(Model()), Command.Connect(remote, reachable))
    {
      if !reachable {
        return Fail(ConnectionFailed(remote));
      }
      connected := true;
      r := Ok;
    }

    /** Sends EHLO for client hostname `hostname` (127.0.0.1 when none is
        given) and starts the session. */
    method Helo(hostname: string := "127.0.0.1") returns (r: Outcome)
      requires Valid()
      modifies this
      ensures Valid()
      ensures Step(Model(), r) == Apply(old(Model()), Command.Helo(hostname))
    {
      if sessionStarted {
        return Fail(HeloOnExistingSession);
      }
      if !ValidHostname(hostname) {
        return Fail(InvalidHostname);
      }
      SendLine("EHLO " + hostname);
      assert Entries(["EHLO " + hostname]) == ["EHLO " + hostname + CRLF];
      sessionStarted := true;
      r := Auth();
    }

    /** Refuses when the object is already authenticated; changes nothing. */
    method Auth() returns (r: Outcome)
      ensures r == Ok <==> !authenticated
      ensures r != Ok ==> r == Fail(AlreadyAuthenticated)
      ensures Step(Model(), r) == Apply(Model(), Command.Auth)
    {
      r := if authenticated then Fail(AlreadyAuthenticated) else Ok;
    }

    /** Sends MAIL FROM with the reverse path `from`. */
    method Mail(from: string) returns (r: Outcome)
      requires Valid()
      modifies this
      ensures Valid()
      ensures Step(Model(), r) == Apply(old(Model()), Command.Mail(from))
    {
      if !sessionStarted {
        return Fail(NoSession);
      }
      SendLine("MAIL FROM:<" + from + ">");
      assert Entries(["MAIL FROM:<" + from + ">"]) == ["MAIL FROM:<" + from + ">" + CRLF];
      senderSupplied, recipientSupplied := true, false;
      r := Ok;
    }

    /** Sends RCPT TO with the forward path `to`. */
    method Rcpt(to: string) returns (r: Outcome)
      requires Valid()
      modifies this
      ensures Valid()
      ensures Step(Model(), r) == Apply(old(Model()), Command.Rcpt(to))
    {
      if !senderSupplied {
        return Fail(NoReversePath);
      }
      SendLine("RCPT TO:<" + to + ">");
      assert Entries(["RCPT TO:<" + to + ">"]) == ["RCPT TO:<" + to + ">" + CRLF];
      recipientSupplied := true;
      r := Ok;
    }

    /** Sends DATA, then `data` read line by line and dot-stuffed, then the terminator. */
    method Data(data: string) returns (r: Outcome)
      requires Valid()
      modifies this
      ensures Valid()
      ensures Step(Model(), r) == Apply(old(Model()), Command.Data(data))
    {
      if !recipientSupplied {
        return Fail(NoForwardPath);
      }
      SendLine("DATA");
      SendBody(data);
      SendLine(".");
      ghost var t0 := old(transcript);
      EntriesSnoc(["DATA"] + DataLines(data), ".");
      assert Entries(["DATA"] + DataLines(data)) == ["DATA" + CRLF] + Entries(DataLines(data));
      AppendAssoc(t0, ["DATA" + CRLF], Entries(DataLines(data)));
      AppendAssoc(t0, Entries(["DATA"] + DataLines(data)), ["." + CRLF]);
      r := Ok;
    }

    /** The body loop of DATA: reads `data` one line at a time, up to each LF,
        trims trailing CRs and sends each line dot-stuffed. */
    method SendBody(data: string)
      requires Valid()
      modifies this
      ensures Valid()
      ensures Model() == old(Model()).(transcript := old(transcript) + Entries(DataLines(data)))
    {
      ghost var all := ReadLines(data);
      ghost var t0 := transcript;
      ghost var read: seq<string> := [];
      var pos := 0;
      assert Entries(Stuffed(read)) == [];
      assert data[pos..] == data;
      while pos < |data|
        invariant pos <= |data|
        invariant Valid()
        invariant Model() == old(Model()).(transcript := transcript)
        invariant read + ReadLines(data[pos..]) == all
        invariant transcript == t0 + Entries(Stuffed(read))
        decreases |data| - pos
      {
        var line, next := ReadLine(data, pos);
        SendLine(Stuff(line));
        BodyStep(t0, read, line);
        AppendAssoc(read, [line], ReadLines(data[next..]));
        read := read + [line];
        pos := next;
      }
      assert data[pos..] == [];
      AppendNil(read);
    }

    /** Sends RSET and forgets the sender and the recipients. */
    method Rset() returns (r: Outcome)
      requires Valid()
      modifies this
      ensures Valid()
      ensures Step(Model(), r) == Apply(old(Model()), Command.Rset)
    {
      SendLine("RSET");
      assert Entries(["RSET"]) == ["RSET" + CRLF];
      senderSupplied, recipientSupplied := false, false;
      r := Ok;
    }

    /** Closes the connection: quit() ends a started session, sending QUIT only
        with the complete-quit option, and clears the authenticated flag. */
    method Disconnect()
      requires Valid()
      modifies this
      ensures Valid()
      ensures Model() == Apply(old(Model()), Command.Disconnect).next
    {
      connected := false;
      calledQuit := true;
      if sessionStarted {
        authenticated := false;
        if completeQuit {
          SendLine("QUIT");
          assert Entries(["QUIT"]) == ["QUIT" + CRLF];
        }
        sessionStarted := false;
      }
    }

    /** Sets the authenticated flag (a test hook). */
    method SetAuth(status: bool)
      requires Valid()
      modifies this
      ensures Valid()
      ensures Model() == old(Model()).(authenticated := status)
    {
      authenticated := status;
    }

    /** Sets the session flag (a test hook). */
    method SetSessionStatus(status: bool)
      requires Valid()
      modifies this
      ensures Valid()
      ensures Model() == old(Model()).(sessionStarted := status)
    {
      sessionStarted := status;
    }

    /** Sets the complete-quit option and returns its new value. */
    method SetUseCompleteQuit(useCompleteQuit: bool) returns (b: bool)
      requires Valid()
      modifies this
      ensures Valid()
      ensures Model() == old(Model()).(completeQuit := useCompleteQuit)
      ensures b == useCompleteQuit
    {
      completeQuit := useCompleteQuit;
      b := completeQuit;
    }

    /** Empties the log. */
    method ResetLog()
      modifies this
      ensures Valid()
      ensures Model() == old(Model()).(transcript := [])
    {
      log := [];
      transcript := [];
    }

    function GetAuth(): bool
      reads this
    {
      authenticated
    }

    function HasSession(): bool
      reads this
    {
      sessionStarted
    }

    function UseCompleteQuit(): bool
      reads this
    {
      completeQuit
    }

    /** The log as one string: the most recent MaxLog entries written since the
        last reset, in order; all of them while no more than MaxLog were written. */
    function GetLog(): (s: string)
      reads this
      requires Valid()
      ensures s == Concat(Recent(transcript))
      ensures |transcript| <= MaxLog ==> s == Concat(transcript)
    {
      Concat(log)
    }
  }
}
