/**
The resolver configuration of a sandbox (pkg/server/sandbox_run.go): the
printer of the DNS options and a reader of resolv.conf as its inverse.
*/
module Resolv {
  import opened Wrappers
  import opened Strings
  import opened Seqs

  const MAX_DNS_SEARCHES := 6

  datatype DnsConfig = DnsConfig(servers: seq<string>, searches: seq<string>, options: seq<string>)

  function ParseDnsOptions(c: DnsConfig): Result<string> {
    if |c.searches| > MAX_DNS_SEARCHES then Err("DNSOption.Searches has more than 6 domains")
    else Ok(
      (if c.searches == [] then "" else "search " + Join(c.searches, " ") + "\n")
      + (if c.servers == [] then "" else "nameserver " + Join(c.servers, "\nnameserver ") + "\n")
      + (if c.options == [] then "" else "options " + Join(c.options, " ") + "\n"))
  }

  /** What setupSandboxFiles puts in the file of the sandbox, given the host's own. */
  function ResolvFile(dns: Option<DnsConfig>, host: string): Result<string> {
    var content := if dns.None? then Ok("") else ParseDnsOptions(dns.value);
    if content == Ok("") then Ok(host) else content
  }

  // --------------------------------------------------------------- reading

  predicate Blank(c: char) {
    c == ' ' || c == '\t' || c == '\n'
  }

  /** A word of the file: not empty, no white space. */
  predicate Token(s: string) {
    s != "" && forall i :: 0 <= i < |s| ==> !Blank(s[i])
  }

  predicate Tokens(ts: seq<string>) {
    forall i :: 0 <= i < |ts| ==> Token(ts[i])
  }

  predicate Clean(c: DnsConfig) {
    Tokens(c.servers) && Tokens(c.searches) && Tokens(c.options)
  }

  function WordLength(s: string): (k: nat)
    ensures k <= |s| && (k < |s| ==> Blank(s[k]))
    ensures forall i :: 0 <= i < k ==> !Blank(s[i])
  {
    if s == "" || Blank(s[0]) then 0 else 1 + WordLength(s[1..])
  }

  /** The words of a line: its longest runs without white space. */
  function Fields(s: string): (ts: seq<string>)
    ensures Tokens(ts)
    decreases |s|
  {
    if s == "" then []
    else
      var k := WordLength(s);
      if k == 0 then Fields(s[1..]) else [s[..k]] + Fields(s[k..])
  }

  const NOTHING := DnsConfig([], [], [])

  /** What a line adds: a search line replaces the list, the other keywords extend theirs. */
  function Apply(c: DnsConfig, keyword: string, args: seq<string>): (r: DnsConfig)
    requires args != []
    ensures Clean(c) && Tokens(args) ==> Clean(r)
  {
    if keyword == "search" then c.(searches := args)
    else if keyword == "nameserver" then c.(servers := c.servers + [args[0]])
    else if keyword == "options" then c.(options := c.options + args)
    else c
  }

  function ReadLine(c: DnsConfig, line: string): (r: DnsConfig)
    ensures Clean(c) ==> Clean(r)
  {
    var f := Fields(line);
    if |f| < 2 then c else Apply(c, f[0], f[1..])
  }

  function Read(c: DnsConfig, text: string): (r: DnsConfig)
    ensures Clean(c) ==> Clean(r)
    decreases |text|
  {
    var k := IndexOf(text, '\n', 0);
    if k == |text| then ReadLine(c, text) else Read(ReadLine(c, text[..k]), text[k + 1..])
  }

  // ---------------------------------------------------------------- proofs

  lemma {:induction false} WordLengthOf(t: string, rest: string)
    requires forall i :: 0 <= i < |t| ==> !Blank(t[i])
    requires rest == "" || Blank(rest[0])
    ensures WordLength(t + rest) == |t|
    decreases |t|
  {
    if t == "" {
      assert t + rest == rest;
    } else {
      assert (t + rest)[1..] == t[1..] + rest;
      WordLengthOf(t[1..], rest);
    }
  }

  /** The first word is split off at the first blank. */
  lemma FieldsStep(t: string, rest: string)
    requires Token(t)
    ensures Fields(t) == [t] && Fields(t + " " + rest) == [t] + Fields(rest)
  {
    WordLengthOf(t, "");
    assert t + "" == t && t[|t|..] == "";
    var s := t + " " + rest;
    WordLengthOf(t, " " + rest);
    assert s == t + (" " + rest);
    assert s[..|t|] == t && s[|t|..] == " " + rest;
    assert WordLength(" " + rest) == 0 && (" " + rest)[1..] == rest;
  }

  lemma {:induction false} FieldsOfJoin(ts: seq<string>)
    requires Tokens(ts) && ts != []
    ensures Fields(Join(ts, " ")) == ts
    decreases |ts|
  {
    FieldsStep(ts[0], Join(ts[1..], " "));
    if |ts| > 1 {
      FieldsOfJoin(ts[1..]);
    }
  }

  lemma {:induction false} JoinHasNoNewline(ts: seq<string>)
    requires Tokens(ts)
    ensures '\n' !in Join(ts, " ")
  {
    if |ts| > 1 {
      JoinHasNoNewline(ts[1..]);
    }
  }

  /** A keyword line is read and taken off the text. */
  lemma ReadKeyword(c: DnsConfig, keyword: string, ts: seq<string>, text: string, rest: string)
    requires Token(keyword) && Tokens(ts) && ts != []
    requires text == keyword + " " + Join(ts, " ") + "\n" + rest
    ensures Read(c, text) == Read(Apply(c, keyword, ts), rest)
  {
    var line := keyword + " " + Join(ts, " ");
    JoinHasNoNewline(ts);
    assert '\n' !in line;
    assert text == line + ['\n'] + rest;
    IndexIs(text, '\n', 0, |line|);
    assert text[..|line|] == line && text[|line| + 1..] == rest;
    FieldsStep(keyword, Join(ts, " "));
    FieldsOfJoin(ts);
    assert Fields(line) == [keyword] + ts;
  }

  /** The chain of nameserver lines, for servers that follow those already read. */
  lemma {:induction false} ReadServers(c: DnsConfig, servers: seq<string>, rest: string)
    requires Tokens(servers) && servers != []
    ensures Read(c, "nameserver " + Join(servers, "\nnameserver ") + "\n" + rest) ==
      Read(c.(servers := c.servers + servers), rest)
    decreases |servers|
  {
    hide Read;
    var text := "nameserver " + Join(servers, "\nnameserver ") + "\n" + rest;
    var first := servers[..1];
    var d := c.(servers := c.servers + first);
    assert "nameserver" + " " == "nameserver ";
    assert Apply(c, "nameserver", first) == d by {
      assert [first[0]] == first;
    }
    if |servers| == 1 {
      assert servers == first;
      ReadKeyword(c, "nameserver", first, text, rest);
    } else {
      var more := "nameserver " + Join(servers[1..], "\nnameserver ") + "\n" + rest;
      assert "\nnameserver " == "\n" + "nameserver ";
      ReadKeyword(c, "nameserver", first, text, more);
      ReadServers(d, servers[1..], rest);
      assert d.servers + servers[1..] == c.servers + servers;
    }
  }

  /** A list line of one of the two plain keywords, or none when the list is empty. */
  function ListLine(keyword: string, ts: seq<string>): string {
    if ts == [] then "" else keyword + " " + Join(ts, " ") + "\n"
  }

  lemma ReadListLine(c: DnsConfig, keyword: string, ts: seq<string>, rest: string)
    requires Token(keyword) && Tokens(ts)
    ensures Read(c, ListLine(keyword, ts) + rest) == Read(if ts == [] then c else Apply(c, keyword, ts), rest)
  {
    hide Read, Apply;
    var text := ListLine(keyword, ts) + rest;
    if ts == [] {
      assert text == rest;
    } else {
      ReadKeyword(c, keyword, ts, text, rest);
    }
  }

  lemma Printed(c: DnsConfig)
    requires |c.searches| <= MAX_DNS_SEARCHES
    ensures ParseDnsOptions(c).value == ListLine("search", c.searches)
      + ((if c.servers == [] then "" else "nameserver " + Join(c.servers, "\nnameserver ") + "\n")
         + (ListLine("options", c.options) + ""))
  {
    hide Join;
    assert "search" + " " == "search " && "options" + " " == "options ";
  }

  /** A clean configuration is read back as it was given. */
  lemma ReadPrinted(c: DnsConfig)
    requires |c.searches| <= MAX_DNS_SEARCHES && Clean(c)
    ensures Read(NOTHING, ParseDnsOptions(c).value) == c
  {
    hide Read, ListLine, Join, ParseDnsOptions;
    Printed(c);
    var tail := ListLine("options", c.options) + "";
    var middle := (if c.servers == [] then "" else "nameserver " + Join(c.servers, "\nnameserver ") + "\n") + tail;
    var searched := NOTHING.(searches := c.searches);
    var served := searched.(servers := c.servers);
    ReadListLine(NOTHING, "search", c.searches, middle);
    assert Read(searched, middle) == Read(served, tail) by {
      if c.servers == [] {
        assert middle == tail;
      } else {
        ReadServers(searched, c.servers, tail);
        assert [] + c.servers == c.servers;
        assert middle == "nameserver " + Join(c.servers, "\nnameserver ") + "\n" + tail;
      }
    }
    ReadListLine(served, "options", c.options, "");
    assert [] + c.options == c.options;
    ReadNothing(c);
  }

  lemma ReadNothing(c: DnsConfig)
    ensures Read(c, "") == c
  {
  }

  /**
  Printing fails exactly on more than six search domains; otherwise the file
  reads back as the configuration exactly if every entry is one word.
  */
  lemma ResolvRoundTrip(c: DnsConfig)
    ensures ParseDnsOptions(c).Err? <==> |c.searches| > 6
    ensures ParseDnsOptions(c).Ok? ==> (Read(NOTHING, ParseDnsOptions(c).value) == c <==> Clean(c))
  {
    if ParseDnsOptions(c).Ok? && Clean(c) {
      ReadPrinted(c);
    }
  }

  /** The host's file is used exactly if no DNS option at all is given. */
  lemma HostFileExactlyWithoutOptions(dns: Option<DnsConfig>, host: string)
    ensures dns.None? || dns.value == NOTHING ==> ResolvFile(dns, host) == Ok(host)
    ensures dns.Some? && dns.value != NOTHING ==> ResolvFile(dns, host) == ParseDnsOptions(dns.value)
    ensures dns.Some? ==> (ParseDnsOptions(dns.value) == Ok("") <==> dns.value == NOTHING)
  {
  }
}
