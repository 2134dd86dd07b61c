/** The DATA transformation of the SMTP client: the text handed to `data`
    is read line by line up to each LF, trailing CRs are trimmed, every line
    that begins with "." gets one more "." (RFC 5321, section 4.5.2), and
    each line goes on the wire followed by CRLF; the ".", CRLF end-of-data
    line follows (RFC 5321, section 4.1.1.4). Pure functions and lemmas. */
module DataEncoding {
  import opened SmtpErrors

  const CR: char := '\r'
  const LF: char := '\n'
  const CRLF: string := "\r\n"

  // ---------------------------------------------------------------------------
  // Reading the text handed to `data` line by line

  /** Index of the first LF in `s`, or |s| when there is none. */
  function LineEnd(s: string): (k: nat)
    ensures k <= |s|
    ensures k < |s| ==> s[k] == LF
    ensures forall i :: 0 <= i < k ==> s[i] != LF
  {
    if s == [] || s[0] == LF then 0 else 1 + LineEnd(s[1..])
  }

  /** `line` with every trailing CR removed (rtrim of "\r"). */
  function TrimCR(line: string): (r: string)
    ensures r <= line
    ensures r == [] || r[|r| - 1] != CR
    ensures forall i :: |r| <= i < |line| ==> line[i] == CR
  {
    if line != [] && line[|line| - 1] == CR then TrimCR(line[..|line| - 1]) else line
  }

  /** A line as the reader hands it out: no LF inside, no CR at its end. */
  predicate Clean(line: string)
  {
    LF !in line && (line == [] || line[|line| - 1] != CR)
  }

  /** The lines read from `s`: the pieces between LFs, trailing CRs trimmed.
      The reader stops at end of input, so an LF at the very end does not
      produce a last empty line, and the empty text has no lines at all. */
  function ReadLines(s: string): (lines: seq<string>)
    ensures forall i :: 0 <= i < |lines| ==> Clean(lines[i])
    ensures |lines| <= |s|
    decreases |s|
  {
    if s == [] then []
    else
      var k := LineEnd(s);
      [TrimCR(s[..k])] + ReadLines(s[if k < |s| then k + 1 else k..])
  }

  // ---------------------------------------------------------------------------
  // Dot-stuffing

  /** The line as sent: one more "." in front when it begins with ".". */
  function Stuff(line: string): (r: string)
    ensures r != "."
    ensures Unstuff(r) == line
    ensures line == [] || line[0] != '.' ==> r == line
    ensures |r| == |line| + 1 || r == line
  {
    if line != [] && line[0] == '.' then "." + line else line
  }

  /** The receiver's side of RFC 5321, section 4.5.2: drop the first "." of a
      line that begins with one. */
  function Unstuff(line: string): string
  {
    if line != [] && line[0] == '.' then line[1..] else line
  }

  /** Every line dot-stuffed. */
  function Stuffed(lines: seq<string>): (r: seq<string>)
    ensures |r| == |lines|
    ensures forall i :: 0 <= i < |r| ==> r[i] == Stuff(lines[i])
  {
    seq(|lines|, i requires 0 <= i < |lines| => Stuff(lines[i]))
  }

  /** The body lines `data` sends between the DATA command and the terminator. */
  function DataLines(data: string): seq<string>
  {
    Stuffed(ReadLines(data))
  }

  // ---------------------------------------------------------------------------
  // The wire format: each line followed by CRLF

  /** The log entries, one per line sent: the line followed by CRLF. */
  function Entries(lines: seq<string>): (r: seq<string>)
    ensures |r| == |lines|
    ensures forall i :: 0 <= i < |r| ==> r[i] == lines[i] + CRLF
  {
    seq(|lines|, i requires 0 <= i < |lines| => lines[i] + CRLF)
  }

  /** All entries concatenated in order (the log as one string). */
  function Concat(entries: seq<string>): string
  {
    if entries == [] then [] else entries[0] + Concat(entries[1..])
  }

  /** The text of `lines` on the wire. */
  function Wire(lines: seq<string>): string
  {
    Concat(Entries(lines))
  }

  /** `data` with its line endings normalised to CRLF (and its trailing CRs trimmed). */
  function Normalise(data: string): string
  {
    Wire(ReadLines(data))
  }

  /** The whole DATA exchange as lines: the command, the stuffed body, the terminator. */
  function DataCommand(data: string): seq<string>
  {
    ["DATA"] + DataLines(data) + ["."]
  }

  /** A receiver collecting the body after DATA: the lines up to the first "."
      line, each unstuffed; None when the terminator never comes. */
  function Receive(lines: seq<string>): Option<seq<string>>
  {
    if lines == [] then None
    else if lines[0] == "." then Some([])
    else
      match Receive(lines[1..])
      case None => None
      case Some(rest) => Some([Unstuff(lines[0])] + rest)
  }

  // ---------------------------------------------------------------------------
  // Lemmas

  /** Reading non-empty text: the first line, then the lines after its LF. */
  lemma ReadLinesUnfold(s: string)
    requires s != []
    ensures var k := LineEnd(s);
      ReadLines(s) == [TrimCR(s[..k])] + ReadLines(s[if k < |s| then k + 1 else k..])
  {
  }

  /** Entries of a list extended by one line. */
  lemma EntriesSnoc(lines: seq<string>, line: string)
    ensures Entries(lines + [line]) == Entries(lines) + [line + CRLF]
  {
  }

  /** Stuffing a list extended by one line. */
  lemma StuffedSnoc(lines: seq<string>, line: string)
    ensures Stuffed(lines + [line]) == Stuffed(lines) + [Stuff(line)]
  {
  }

  /** Stuffing distributes over appending line lists. */
  lemma StuffedAppend(a: seq<string>, b: seq<string>)
    ensures Stuffed(a + b) == Stuffed(a) + Stuffed(b)
  {
  }

  /** Entries distribute over appending line lists. */
  lemma EntriesAppend(a: seq<string>, b: seq<string>)
    ensures Entries(a + b) == Entries(a) + Entries(b)
  {
  }

  /** Sequence concatenation is associative. */
  lemma AppendAssoc<T>(a: seq<T>, b: seq<T>, c: seq<T>)
    ensures a + (b + c) == (a + b) + c
  {
  }

  /** Concatenation distributes over appending entry lists. */
  lemma {:induction false} ConcatAppend(a: seq<string>, b: seq<string>)
    ensures Concat(a + b) == Concat(a) + Concat(b)
    decreases |a|
  {
    if a == [] {
      assert a + b == b;
    } else {
      assert (a + b)[1..] == a[1..] + b;
      ConcatAppend(a[1..], b);
    }
  }

  /** The wire text of a concatenation of line lists is the concatenation of their wire texts. */
  lemma WireAppend(a: seq<string>, b: seq<string>)
    ensures Wire(a + b) == Wire(a) + Wire(b)
  {
    EntriesAppend(a, b);
    ConcatAppend(Entries(a), Entries(b));
  }

  /** One line on the wire is the line followed by CRLF. */
  lemma WireOne(line: string)
    ensures Wire([line]) == line + CRLF
  {
    assert Entries([line]) == [line + CRLF];
    assert Concat([line + CRLF]) == line + CRLF + Concat([]);
  }

  /** Reading a line that is followed by an LF: the line (trailing CRs trimmed), then the rest. */
  lemma ReadFirstLine(line: string, rest: string)
    requires LF !in line
    ensures ReadLines(line + [LF] + rest) == [TrimCR(line)] + ReadLines(rest)
  {
    var s := line + [LF] + rest;
    var k := LineEnd(s);
    assert s[|line|] == LF;
    assert forall i :: 0 <= i < |line| ==> s[i] == line[i] && line[i] in line;
    assert k == |line|;
    assert s[..k] == line;
    assert s[k + 1..] == rest;
  }

  /** Reading a last line with no LF after it gives just that line, CRs trimmed. */
  lemma ReadLastLine(line: string)
    requires line != [] && LF !in line
    ensures ReadLines(line) == [TrimCR(line)]
  {
    var k := LineEnd(line);
    assert forall i :: 0 <= i < |line| ==> line[i] in line;
    assert line[..k] == line;
  }

  /** A clean line followed by CRLF is read back as itself. */
  lemma ReadTerminatedLine(line: string, rest: string)
    requires Clean(line)
    ensures ReadLines(line + CRLF + rest) == [line] + ReadLines(rest)
  {
    var withCR := line + [CR];
    assert LF !in withCR by {
      forall i | 0 <= i < |withCR| ensures withCR[i] != LF {
        if i < |line| { assert withCR[i] == line[i]; assert line[i] in line; }
      }
    }
    assert line + CRLF + rest == withCR + [LF] + rest;
    ReadFirstLine(withCR, rest);
    assert withCR[..|withCR| - 1] == line;
    assert TrimCR(withCR) == TrimCR(line);
  }

  /** The wire text of a non-empty line list: its first line, CRLF, then the rest. */
  lemma WireCons(head: string, tail: seq<string>)
    ensures Wire([head] + tail) == head + CRLF + Wire(tail)
  {
    WireAppend([head], tail);
    WireOne(head);
  }

  /** Reading back wire text: clean lines followed by CRLF come back as those lines. */
  lemma {:induction false} ReadWire(lines: seq<string>, rest: string)
    requires forall i :: 0 <= i < |lines| ==> Clean(lines[i])
    ensures ReadLines(Wire(lines) + rest) == lines + ReadLines(rest)
    decreases |lines|
  {
    if lines == [] {
      assert Wire(lines) == [];
      assert Wire(lines) + rest == rest;
    } else {
      var head, tail := lines[0], lines[1..];
      var w := Wire(tail);
      assert lines == [head] + tail;
      WireCons(head, tail);
      assert Wire(lines) + rest == head + CRLF + (w + rest);
      ReadTerminatedLine(head, w + rest);
      ReadWire(tail, rest);
      AppendAssoc([head], tail, ReadLines(rest));
    }
  }

  /** Round trip: the lines of a CRLF-terminated text are exactly the lines that were written. */
  lemma ReadWireRoundTrip(lines: seq<string>)
    requires forall i :: 0 <= i < |lines| ==> Clean(lines[i])
    ensures ReadLines(Wire(lines)) == lines
  {
    ReadWire(lines, []);
    assert Wire(lines) + [] == Wire(lines);
    assert lines + [] == lines;
  }

  /** Normalising text that is already CRLF-terminated leaves it unchanged. */
  lemma NormaliseWire(lines: seq<string>)
    requires forall i :: 0 <= i < |lines| ==> Clean(lines[i])
    ensures Normalise(Wire(lines)) == Wire(lines)
  {
    ReadWireRoundTrip(lines);
  }

  /** Normalisation is idempotent. */
  lemma NormaliseIdempotent(data: string)
    ensures Normalise(Normalise(data)) == Normalise(data)
  {
    NormaliseWire(ReadLines(data));
  }

  /** No stuffed body line is the lone "." that ends the data. */
  lemma NoStuffedLineIsTerminator(data: string)
    ensures forall i :: 0 <= i < |DataLines(data)| ==> DataLines(data)[i] != "."
  {
  }

  /** Stuffing changes nothing exactly when no line begins with ".". */
  lemma StuffedUnchangedIff(lines: seq<string>)
    ensures Stuffed(lines) == lines <==> forall i :: 0 <= i < |lines| ==> lines[i] == [] || lines[i][0] != '.'
  {
    if Stuffed(lines) == lines {
      forall i | 0 <= i < |lines| ensures lines[i] == [] || lines[i][0] != '.' {
        assert Stuff(lines[i]) == lines[i];
      }
    }
  }

  /** The receiver recovers the lines from the stuffed lines and the terminator,
      whatever follows the terminator. */
  lemma {:induction false} ReceiveStuffed(lines: seq<string>, after: seq<string>)
    ensures Receive(Stuffed(lines) + ["."] + after) == Some(lines)
    decreases |lines|
  {
    var sent := Stuffed(lines) + ["."] + after;
    if lines == [] {
      assert sent[0] == ".";
    } else {
      assert sent[0] == Stuff(lines[0]) != ".";
      assert sent[1..] == Stuffed(lines[1..]) + ["."] + after;
      ReceiveStuffed(lines[1..], after);
      assert [lines[0]] + lines[1..] == lines;
    }
  }

  /** Transparency of DATA: a receiver reading the body after the DATA command
      gets back exactly the lines read from the text handed to `data`. */
  lemma DataTransparent(data: string)
    ensures Receive(DataCommand(data)[1..]) == Some(ReadLines(data))
  {
    assert DataCommand(data)[1..] == Stuffed(ReadLines(data)) + ["."] + [];
    ReceiveStuffed(ReadLines(data), []);
  }

  /** A single line that neither begins with "." nor holds a line break is sent
      unchanged, once, before the terminator. */
  lemma PlainLineSentUnchanged(line: string)
    requires line != [] && line[0] != '.' && LF !in line && line[|line| - 1] != CR
    ensures DataCommand(line) == ["DATA", line, "."]
  {
    ReadLastLine(line);
    assert Stuffed([line]) == [line];
  }

  /** LF line endings become CRLF: lines joined by LF are read back as those lines. */
  lemma ReadLfJoined(first: string, last: string)
    requires Clean(first) && Clean(last) && last != []
    ensures ReadLines(first + [LF] + last) == [first, last]
  {
    assert LF !in first;
    ReadFirstLine(first, last);
    ReadLastLine(last);
  }
}
