# SMTP client protocol and send path of laminas-mail

This project models the client side of SMTP as laminas-mail implements it, in
Dafny. The protocol object is `Laminas\Mail\Protocol\Smtp`, driven through
the recording test double `SmtpProtocolSpy`. The send path is
`Laminas\Mail\Transport\Smtp::send`. The behaviour modelled is the behaviour
that `test/Protocol/SmtpTest.php` fixes. The model has six modules and one
module of scenarios:

- `SmtpErrors`: the errors the protocol object and the transport raise,
  with their exception messages.
- `DataEncoding`: the DATA transformation. The text is read line by line up
  to each LF and trailing CRs are trimmed, so LF and CRLF endings both go out
  as CRLF. A line beginning with "." gets a second "." (dot-stuffing, RFC 5321
  section 4.5.2). The lone "." terminator follows (RFC 5321 section 4.1.1.4).
  A receiver-side function (`Receive`) undoes the stuffing and stops at the
  terminator; it is the reference the encoding is proved against.
- `Hostname`: the label grammar of the DNS hostname check that `helo` applies.
- `SmtpSession`: the protocol state machine as a pure step function
  `Apply(session, command)`. It gives the flags each command needs, what the
  command writes, and how it changes the flags. The protocol log keeps the 64
  most recent entries.
- `SmtpProtocol`: the protocol object as a class. Its flags are fields that
  each command updates in place, and its log is a `seq<string>` field. Every
  command method is proved to do exactly what `Apply` says; the setters and
  `resetLog` are proved to change only their own field. The DATA body is sent by a
  loop that reads one line at a time.
- `SmtpTransport`: the send path as a class over the protocol object,
  proved against the function `SendSpec`. A send on a started session resets
  it with RSET; otherwise it connects and sends EHLO with the local name
  "localhost". Then it sends MAIL FROM, one RCPT TO per recipient in order,
  and DATA with the header block, an empty line and the body. The first
  refused command ends the send.
- `SmtpScenarios`: each test of the suite as a method. The method builds
  fresh objects, issues the test's calls and ensures what the test asserts,
  including the exact log strings.

The network's answer to opening a channel is a parameter (`reachable`). The
recording channel accepts every command, as the test double does, so only the
protocol object's own guards can refuse one.

Behaviour the tests do not pin down follows the laminas-mail code. In four
places the code does less than a clean state machine would, and the model
follows the code:

- `disconnect` always closes the channel and records the quit, but it writes
  QUIT (when complete quit is on) and clears the session and authenticated
  flags only on a started session. On an object with no session it writes
  nothing, whatever the complete-quit option. The sender
  and recipient flags are never cleared by it. So `setAuth(true)` followed by
  `disconnect` on an object with no session leaves it authenticated.
- The base protocol's `auth` only checks the authenticated flag and does not
  set it.
- `helo` writes EHLO and marks the session started before it runs its
  authentication check. So a HELO refused with "Already authenticated" has
  already changed the state. `RefusalChangesNothing` states this exception.
- `mail` checks the session flag, not the connection state. The tests call
  `helo` without `connect`.

## Model

| member | source | states |
|---|---|---|
| SmtpErrors.Message | test/Protocol/SmtpTest.php:143-185 | definition of the text of each error; its contract is ConnectionErrorNamesRemote and the six error scenarios, which state what the message contains |
| SmtpErrors.ConnectionErrorNamesRemote | test/Protocol/SmtpTest.php:106-114 | the message of a connection failure contains the remote host it tried |
| DataEncoding.ReadLines | test/Protocol/SmtpTest.php:70 | every line read from a text is clean (no LF inside, no CR at the end), and there are no more lines than characters |
| DataEncoding.Stuff | test/Protocol/SmtpTest.php:81-82 | a stuffed line is never the lone ".", unstuffing gives the line back, and a line not beginning with "." is unchanged |
| DataEncoding.LineEnd | test/Protocol/SmtpTest.php:70 | the index where the first line ends: the first LF, or the end of the text when it has none; no LF comes before it |
| DataEncoding.TrimCR | test/Protocol/SmtpTest.php:70 | a prefix of the line that does not end in CR, everything cut off being CR |
| DataEncoding.DataLines | test/Protocol/SmtpTest.php:70-82 | definition of the body lines DATA sends: the lines read from the text, stuffed; its contracts are DataTransparent and NoStuffedLineIsTerminator |
| DataEncoding.DataCommand | test/Protocol/SmtpTest.php:49-55 | definition of what data writes: DATA, the body lines, then "."; its contracts are DataTransparent, PlainLineSentUnchanged and SmtpSession.DataNeedsRecipient |
| DataEncoding.Stuffed | test/Protocol/SmtpTest.php:81-82 | every line of the list stuffed, in order (pointwise); its meaning is proved by ReceiveStuffed and NoStuffedLineIsTerminator |
| DataEncoding.Entries | test/Protocol/SmtpTest.php:46-55 | each log entry is its line followed by CRLF, in order (pointwise); its meaning is proved by ReadWireRoundTrip and ConcatAppend |
| DataEncoding.ReadWireRoundTrip | test/Protocol/SmtpTest.php:50-54 | clean lines written with CRLF endings are read back as exactly those lines |
| DataEncoding.ReadWire | test/Protocol/SmtpTest.php:50-54 | reading CRLF-terminated clean lines followed by more text gives those lines, then the lines of the rest |
| DataEncoding.ReadLfJoined | test/Protocol/SmtpTest.php:70 | two clean lines joined by a bare LF are read as the two lines, so LF ends a line as CRLF does |
| DataEncoding.NormaliseWire | test/Protocol/SmtpTest.php:81 | normalising text that already has CRLF line endings leaves it unchanged |
| DataEncoding.NormaliseIdempotent | test/Protocol/SmtpTest.php:70-83 | normalising line endings twice is the same as once |
| DataEncoding.NoStuffedLineIsTerminator | test/Protocol/SmtpTest.php:81-83 | no body line that DATA sends is the lone "." that ends the data |
| DataEncoding.StuffedUnchangedIff | test/Protocol/SmtpTest.php:43-54 | stuffing leaves a list unchanged if and only if no line in it begins with "." |
| DataEncoding.ReceiveStuffed | test/Protocol/SmtpTest.php:81-83 | a receiver given stuffed lines, the terminator and anything after gets exactly the original lines |
| DataEncoding.DataTransparent | test/Protocol/SmtpTest.php:70-83 | a receiver reading what follows the DATA command gets exactly the lines of the text handed to data |
| DataEncoding.PlainLineSentUnchanged | test/Protocol/SmtpTest.php:43-55 | a single line without a leading "." or a line break is sent as DATA, the line itself and "." |
| DataEncoding.ConcatAppend | test/Protocol/SmtpTest.php:59 | the log string of two entry lists is the log string of the first, then of the second |
| Hostname.ValidHostname | test/Protocol/SmtpTest.php:159-164 | definition of the hostname check helo applies; its contracts are LineBreakRejected, TestHostnamesValid and TestHostnameInvalid |
| Hostname.LineBreakRejected | test/Protocol/SmtpTest.php:159-164 | a hostname holding CR or LF is never a valid hostname |
| Hostname.TestHostnamesValid | test/Protocol/SmtpTest.php:46 | "localhost", "127.0.0.1" and "hostname.test" are valid hostnames |
| Hostname.TestHostnameInvalid | test/Protocol/SmtpTest.php:163 | "invalid\r\nhost name" is not a valid hostname |
| SmtpSession.CompleteQuitOption | test/Protocol/SmtpTest.php:137-140 | definition of the use_complete_quit option: the configured value, on when not configured; its contracts are SmtpProtocol.Smtp.constructor and SmtpScenarios.CanAvoidQuitRequest |
| SmtpSession.Apply | test/Protocol/SmtpTest.php:90-185 | definition of one command's effect, which Connect, Helo, Auth, Mail, Rcpt, Data, Rset and Disconnect are proved equal to; its contract states that no command changes the complete-quit option, and the lemmas below state each command's guard and effect |
| SmtpSession.Recent | test/Protocol/SmtpTest.php:59 | definition of the log kept: the whole transcript, or its last 64 entries; its contract is RecentIsSuffix |
| SmtpSession.RecentIsSuffix | test/Protocol/SmtpTest.php:59 | the log is a tail of the transcript, of length min(written, 64) |
| SmtpSession.AddLog | test/Protocol/SmtpTest.php:59 | adding an entry puts it last, a log of at most 64 entries stays at most 64, and only drops entries from the front |
| SmtpSession.AddLogKeepsRecent | test/Protocol/SmtpTest.php:59 | adding an entry to the log, dropping the oldest when full, keeps it equal to the most recent 64 entries written |
| SmtpSession.RecentWhenShort | test/Protocol/SmtpTest.php:59 | while at most 64 entries were written, the log holds them all |
| SmtpSession.HeloOnExistingSessionRefused | test/Protocol/SmtpTest.php:151-157 | HELO on a started session is refused with "Cannot issue HELO to existing session" and changes nothing; a second HELO after an accepted one is refused |
| SmtpSession.HeloRejectsLineBreak | test/Protocol/SmtpTest.php:159-164 | HELO with CR or LF in the host is refused with the hostname error and writes nothing |
| SmtpSession.HeloStartsSession | test/Protocol/SmtpTest.php:122 | an accepted HELO writes EHLO with the host and starts the session; it fails exactly when already authenticated |
| SmtpSession.AuthRefusedWhenAuthenticated | test/Protocol/SmtpTest.php:143-149 | AUTH fails with "Already authenticated" exactly when the flag is set, and changes nothing |
| SmtpSession.FreshSessionRefusesTransaction | test/Protocol/SmtpTest.php:166-185 | on a fresh object MAIL, RCPT and DATA are each refused with their own error and change nothing |
| SmtpSession.MailOpensEnvelope | test/Protocol/SmtpTest.php:166-171 | MAIL is accepted if and only if a session was started; it writes MAIL FROM:<address>, sets the sender and clears the recipient |
| SmtpSession.RcptNeedsSender | test/Protocol/SmtpTest.php:173-178 | RCPT is accepted if and only if a sender was supplied; it writes RCPT TO:<address> and sets the recipient |
| SmtpSession.DataNeedsRecipient | test/Protocol/SmtpTest.php:180-185 | DATA is accepted if and only if a recipient was supplied; it writes DATA first and "." last, and a receiver gets the text's lines back |
| SmtpSession.DisconnectEndsSession | test/Protocol/SmtpTest.php:90-104 | disconnect closes the channel and records the quit; on a started session it clears the session and auth flags and writes QUIT exactly when complete quit is on |
| SmtpSession.RsetClearsEnvelope | test/Protocol/SmtpTest.php:57 | RSET is always accepted, writes RSET, clears the sender and recipient flags and changes nothing else |
| SmtpSession.RefusalChangesNothing | test/Protocol/SmtpTest.php:143-185 | a refused command leaves the session unchanged, except HELO refused for authentication |
| SmtpSession.ApplyKeepsInv | test/Protocol/SmtpTest.php:166-185 | every command keeps the invariant that a recipient is only on record with a sender |
| SmtpSession.ApplyExtendsTranscript | test/Protocol/SmtpTest.php:46-55 | a command only appends entries to what was written before |
| SmtpSession.RunKeepsInv | test/Protocol/SmtpTest.php:120-135 | any sequence of commands keeps the invariant and only appends entries |
| SmtpProtocol.ReadLine | test/Protocol/SmtpTest.php:70 | the line read at a position, followed by the lines read after it, are the lines of the rest of the text; reading advances |
| SmtpProtocol.Smtp.constructor | test/Protocol/SmtpTest.php:118 | a new object is the initial session, with complete quit on unless the configuration sets it off |
| SmtpProtocol.Smtp.SendLine | test/Protocol/SmtpTest.php:46-55 | one entry, the line and CRLF, is appended through AddLog; the log stays the most recent 64 entries |
| SmtpProtocol.Smtp.Connect | test/Protocol/SmtpTest.php:106-114 | the fields and outcome are those of Apply on Connect |
| SmtpProtocol.Smtp.Helo | test/Protocol/SmtpTest.php:151-164 | the fields and outcome are those of Apply on Helo; the host is 127.0.0.1 when none is given |
| SmtpProtocol.Smtp.Auth | test/Protocol/SmtpTest.php:143-149 | AUTH succeeds exactly when not authenticated, and otherwise fails with "Already authenticated"; the outcome and unchanged state are those of Apply on Auth |
| SmtpProtocol.Smtp.Mail | test/Protocol/SmtpTest.php:166-171 | the fields and outcome are those of Apply on Mail |
| SmtpProtocol.Smtp.Rcpt | test/Protocol/SmtpTest.php:173-178 | the fields and outcome are those of Apply on Rcpt |
| SmtpProtocol.Smtp.Data | test/Protocol/SmtpTest.php:180-185 | the fields and outcome are those of Apply on Data |
| SmtpProtocol.Smtp.SendBody | test/Protocol/SmtpTest.php:81-82 | the loop appends exactly the stuffed lines of the text, one entry each, and changes nothing else |
| SmtpProtocol.Smtp.Rset | test/Protocol/SmtpTest.php:57 | the fields and outcome are those of Apply on Rset |
| SmtpProtocol.Smtp.Disconnect | test/Protocol/SmtpTest.php:90-104 | the fields are those of Apply on Disconnect |
| SmtpProtocol.Smtp.SetAuth | test/Protocol/SmtpTest.php:100 | only the authenticated flag changes, to the given value |
| SmtpProtocol.Smtp.SetSessionStatus | test/Protocol/SmtpTest.php:99 | only the session flag changes, to the given value |
| SmtpProtocol.Smtp.SetUseCompleteQuit | test/Protocol/SmtpTest.php:127-128 | only the complete-quit option changes; the new value is returned |
| SmtpProtocol.Smtp.ResetLog | test/Protocol/SmtpTest.php:120 | the log is emptied and nothing else changes |
| SmtpProtocol.Smtp.GetLog | test/Protocol/SmtpTest.php:59 | the log string is the most recent 64 entries written since the last reset, concatenated in order; all of them while at most 64 were written |
| SmtpTransport.PhpEmpty | test/Protocol/SmtpTest.php:40-44 | definition of PHP's empty() on a string: "" or "0"; its contract is SendWithoutRecipientRefused, where headers make the message non-empty |
| SmtpTransport.MessageData | test/Protocol/SmtpTest.php:49-54 | definition of the text handed to DATA: the header lines with CRLF, an empty line, then the body; its contract is MessageDataLines |
| SmtpTransport.RcptLines | test/Protocol/SmtpTest.php:48 | one RCPT TO:<address> line per recipient, in order (pointwise); what the RCPTs do is proved by RcptAllAccepted |
| SmtpTransport.RcptAll | test/Protocol/SmtpTest.php:48 | definition of RCPT for each recipient in turn, stopping at the first refusal; its contracts are RcptAllAccepted and RcptAllExtends |
| SmtpTransport.OpenSession | test/Protocol/SmtpTest.php:46-57 | definition of how a send opens the session: RSET on a started session, else connect and EHLO with the local name; its contracts are SendOnStartedSession and SendOnNewSessionSteps |
| SmtpTransport.Transaction | test/Protocol/SmtpTest.php:47-55 | definition of the mail transaction after opening: the message checks, MAIL FROM, the RCPTs and DATA; its contract is TransactionAccepted |
| SmtpTransport.SendSpec | test/Protocol/SmtpTest.php:46-59 | definition of a whole send: open the session, then the transaction; its contracts are SendOnNewSession, SendOnStartedSession and the refusal lemmas |
| SmtpTransport.TransactionAccepted | test/Protocol/SmtpTest.php:47-55 | on an opened session, a message with a reverse path and a recipient is accepted and writes exactly MAIL FROM, the RCPTs in order and the DATA exchange |
| SmtpTransport.RcptAllAccepted | test/Protocol/SmtpTest.php:48 | with a sender on record every RCPT is accepted, writing the RCPT TO lines in order and changing nothing else but the recipient flag |
| SmtpTransport.MessageDataLines | test/Protocol/SmtpTest.php:49-54 | DATA sends the stuffed header lines, one empty line, then the stuffed lines of the body |
| SmtpTransport.SendOnNewSession | test/Protocol/SmtpTest.php:46-59 | a send on a new session with a sender and recipients writes exactly EHLO, MAIL FROM, the RCPTs in order, DATA, the headers, an empty line, the body and "." |
| SmtpTransport.SendOnNewSessionSteps | test/Protocol/SmtpTest.php:46-49 | each command of a send on a new session is accepted in turn, and the entries are those of each command in order |
| SmtpTransport.SendOnStartedSessionResets | test/Protocol/SmtpTest.php:57 | whatever the message, a send on a started session writes RSET as its first entry |
| SmtpTransport.SendOnStartedSession | test/Protocol/SmtpTest.php:57 | a send on a started session with a sender and recipients is accepted and writes exactly RSET, MAIL FROM, the RCPTs in order and the DATA exchange, so no EHLO |
| SmtpTransport.ApplyPrefix | test/Protocol/SmtpTest.php:57 | what a send writes after opening the session only appends entries |
| SmtpTransport.RcptAllExtends | test/Protocol/SmtpTest.php:48 | the RCPTs of a send only append entries |
| SmtpTransport.SendWithoutFromRefused | test/Protocol/SmtpTest.php:42 | a message without a sender or From address is refused after the session is opened, before MAIL |
| SmtpTransport.SendWithoutRecipientRefused | test/Protocol/SmtpTest.php:44 | a message with headers but no recipient is refused before MAIL |
| SmtpTransport.SendUnreachable | test/Protocol/SmtpTest.php:106-114 | an unreachable server ends a send on a new session with the connection error, writing nothing |
| SmtpTransport.Transport.constructor | test/Protocol/SmtpTest.php:28-33 | a transport sends through the given connection with the local name "localhost" |
| SmtpTransport.Transport.Send | test/Protocol/SmtpTest.php:57 | the protocol object's new state and the outcome are those of SendSpec |
| SmtpTransport.Transport.Transact | test/Protocol/SmtpTest.php:47-55 | the protocol object's new state and the outcome are those of Transaction on its state before |
| SmtpScenarios.TestHeadersPlain | test/Protocol/SmtpTest.php:50-52 | the three test header lines are clean and none begins with "." |
| SmtpScenarios.PlainBodyWire | test/Protocol/SmtpTest.php:43-54 | a clean one-line body without a leading "." is read as that line and goes out as the line and CRLF |
| SmtpScenarios.EscapedBodyWire | test/Protocol/SmtpTest.php:70-82 | a line, LF and "." is read as two lines and goes out as the line, CRLF, ".." and CRLF |
| SmtpScenarios.OneRecipientLines | test/Protocol/SmtpTest.php:46-55 | the lines of a one-recipient send: six commands and separators plus the headers and the body lines |
| SmtpScenarios.OneRecipientSend | test/Protocol/SmtpTest.php:46-59 | a one-recipient send on a fresh object is accepted and writes exactly those lines |
| SmtpScenarios.OneRecipientLog | test/Protocol/SmtpTest.php:46-55 | the log string of a one-recipient send, line by line |
| SmtpScenarios.TestSendLog | test/Protocol/SmtpTest.php:46-59 | the log of the test message is the fixed prefix of commands and headers, the body's wire text and ".\r\n" |
| SmtpScenarios.SendMinimalMail | test/Protocol/SmtpTest.php:35-60 | the log of the minimal send is exactly the string the test expects |
| SmtpScenarios.SendEscapedEmail | test/Protocol/SmtpTest.php:62-88 | the log of the send with body "This is a test\n." is exactly the string the test expects |
| SmtpScenarios.DisconnectCallsQuit | test/Protocol/SmtpTest.php:90-94 | disconnect on a fresh object records the quit |
| SmtpScenarios.DisconnectResetsAuthFlag | test/Protocol/SmtpTest.php:96-104 | authenticated before disconnect, not after |
| SmtpScenarios.ConnectHasVerboseErrors | test/Protocol/SmtpTest.php:106-114 | connecting to an unreachable "nonexistentremote" fails with a message naming it |
| SmtpScenarios.CanAvoidQuitRequest | test/Protocol/SmtpTest.php:116-141 | complete quit is on by default and QUIT is logged; after turning it off, or when configured off, no QUIT is logged |
| SmtpScenarios.ConnectHeloDisconnect | test/Protocol/SmtpTest.php:120-125 | reset, connect, helo and disconnect log EHLO, then QUIT exactly when complete quit is on |
| SmtpScenarios.NoQuitWithoutQ | test/Protocol/SmtpTest.php:135 | a text without the letter Q does not contain "QUIT" |
| SmtpScenarios.AuthThrowsWhenAlreadyAuthed | test/Protocol/SmtpTest.php:143-149 | AUTH after setAuth(true) fails with the already-authenticated error, whose message contains "Already authenticated for this session" |
| SmtpScenarios.HeloThrowsWhenAlreadySession | test/Protocol/SmtpTest.php:151-157 | the first HELO is accepted; the second fails with the existing-session error, whose message contains "Cannot issue HELO to existing session" |
| SmtpScenarios.HeloThrowsWithInvalidHostname | test/Protocol/SmtpTest.php:159-164 | HELO with "invalid\r\nhost name" fails with the hostname error, whose message contains the DNS hostname text |
| SmtpScenarios.MailThrowsWhenNoSession | test/Protocol/SmtpTest.php:166-171 | MAIL on a fresh object fails with the no-session error, whose message contains "A valid session has not been started" |
| SmtpScenarios.RcptThrowsWhenNoMail | test/Protocol/SmtpTest.php:173-178 | RCPT on a fresh object fails with the no-sender error, whose message contains "No sender reverse path has been supplied" |
| SmtpScenarios.DataThrowsWhenNoRcpt | test/Protocol/SmtpTest.php:180-185 | DATA on a fresh object fails with the no-recipient error, whose message contains "No recipient forward path has been supplied" |

## Left out

- Socket I/O, server replies and reply-code checks: the recording channel
  accepts every command, so every expected-reply check succeeds. The EHLO to
  HELO fallback after a refused EHLO is therefore not modelled.
- The network's answer to a connection attempt is an input (`reachable`). The
  exact wording of a connection error beyond naming the remote is not
  modelled.
- TLS (STARTTLS, secure transports) and authentication mechanisms (LOGIN,
  PLAIN, CRAM-MD5): only the base protocol's "already authenticated" guard is
  modelled.
- The reader of `data` takes at most 1000 bytes per read. The model reads
  whole lines, so a longer line is not split into several chunks.
- The DNS hostname validator is a separate library. `ValidHostname` keeps only
  its label grammar: no IDN, no TLD list, no IP address forms beyond dotted
  digits, and no limit on the length of a label or of the whole name, so the
  model accepts over-long names the validator rejects. It is also stricter
  than the validator, which accepts local names and URI hostnames: the model
  rejects forms such as a trailing dot ("localhost.") or an underscore
  ("my_host"). The host given to the constructor is not validated.
- Message and header objects: the header lines (`Sender:` and `To:` generated
  from the sender and the address list), Bcc handling and duplicate-recipient
  removal are not modelled. A message enters the model as its reverse path,
  its recipients, its rendered header lines and its body.
- The transport's options other than the local name, its automatic
  disconnect on destruction, and reconnecting after a time limit are not
  modelled.
- The protocol object's connection-check on every write (raising an error
  when no channel is open): the recording channel never needs a socket. So
  `helo`, `mail` and the others write whether or not `connect` was called, as
  the tests rely on (line 153).
- `GetAuth`, `HasSession` and `UseCompleteQuit` return a field and carry no
  contract beyond their body.
- SmtpSession.DisconnectEndsSession: follows the code, which writes QUIT
  and clears the authenticated flag only on a started session (so a
  disconnect with no session writes nothing even with complete quit on) and never clears the sender
  and recipient flags; the model does not promise the unconditional reset of
  all flags that a clean state machine would make.
- SmtpSession.MailOpensEnvelope: clearing the recipient flag on MAIL follows
  the implementation; no test asserts it.
- The messages of the errors are texts the exception messages contain. The
  hostname validator may report several messages joined together, and the
  connection error's full wording is not modelled.
