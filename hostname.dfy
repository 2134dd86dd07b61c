/** The client hostname check `helo` applies before it sends EHLO.
    The implementation delegates to a DNS hostname validator (RFC 1123,
    section 2.1, plus local names and IP literals); this module keeps its
    label grammar: dot-separated labels of letters, digits and hyphens, no
    empty label, no label beginning or ending with a hyphen. The grammar is
    stricter than the validator in some forms, such as a trailing dot or an
    underscore. */
module Hostname {

  /** A character that may appear in a hostname. */
  predicate HostChar(c: char)
  {
    ('a' <= c <= 'z') || ('A' <= c <= 'Z') || ('0' <= c <= '9') || c == '-' || c == '.'
  }

  /** `host` is a DNS hostname. */
  predicate ValidHostname(host: string)
  {
    && |host| > 0
    && (forall i :: 0 <= i < |host| ==> HostChar(host[i]))
    && host[0] != '.' && host[0] != '-'
    && host[|host| - 1] != '.' && host[|host| - 1] != '-'
    // after a dot a new label starts: neither an empty label nor a leading hyphen
    && (forall i :: 0 <= i < |host| - 1 && host[i] == '.' ==> host[i + 1] != '.' && host[i + 1] != '-')
    // no label ends with a hyphen
    && (forall i :: 0 <= i < |host| - 1 && host[i + 1] == '.' ==> host[i] != '-')
  }

  /** A hostname with a CR or LF in it is never accepted, so `helo` cannot be
      used to smuggle a second command onto the wire. */
  lemma LineBreakRejected(host: string)
    requires '\r' in host || '\n' in host
    ensures !ValidHostname(host)
  {
    var i :| 0 <= i < |host| && (host[i] == '\r' || host[i] == '\n');
    assert !HostChar(host[i]);
  }

  /** The names the tests use: the transport's default name and the two test hosts. */
  lemma TestHostnamesValid()
    ensures ValidHostname("localhost")
    ensures ValidHostname("127.0.0.1")
    ensures ValidHostname("hostname.test")
  {
    LocalhostValid();
    LoopbackValid();
    TestHostValid();
  }

  lemma LocalhostValid()
    ensures ValidHostname("localhost")
  {
  }

  lemma LoopbackValid()
    ensures ValidHostname("127.0.0.1")
  {
  }

  lemma TestHostValid()
    ensures ValidHostname("hostname.test")
  {
  }

  /** The malformed host of the test suite is rejected. */
  lemma TestHostnameInvalid()
    ensures !ValidHostname("invalid\r\nhost name")
  {
    LineBreakRejected("invalid\r\nhost name");
  }
}
