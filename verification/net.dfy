/** The parts of Go's `net` package the handler depends on: splitting a
    `host:port` address, and the address check every TCP dial performs before
    touching the network. */
module Net {
  import opened Wrappers
  import opened Seqs

  const MissingPort := "missing port in address"
  const TooManyColons := "too many colons in address"
  const MissingAddress := "missing address"
  const MissingCloseBracket := "missing ']' in address"
  const UnexpectedOpenBracket := "unexpected '[' in address"
  const UnexpectedCloseBracket := "unexpected ']' in address"

  /** The text of a `net.AddrError`. */
  function AddrError(address: string, why: string): string {
    if address == "" then why else "address " + address + ": " + why
  }

  /** `net.SplitHostPort`: the port follows the last colon; a host holding a
      colon must be written in brackets; stray brackets are errors. */
  function SplitHostPort(hostport: string): (r: Result<(string, string)>)
    ensures r.Ok? ==> var (h, p) := r.value;
      && NoBrackets(h) && NoBrackets(p) && ':' !in p
      && ((':' !in h && hostport == h + ":" + p) || hostport == "[" + h + "]:" + p)
    ensures ':' !in hostport ==> r == Err(AddrError(hostport, MissingPort))
  {
    var i := LastIndexOf(hostport, ':');
    if i < 0 then Err(AddrError(hostport, MissingPort))
    else if hostport[0] == '[' then
      var end := IndexOf(hostport, ']');
      if end < 0 then Err(AddrError(hostport, MissingCloseBracket))
      else if end + 1 == |hostport| then Err(AddrError(hostport, MissingPort))
      else if end + 1 != i then
        if hostport[end + 1] == ':' then Err(AddrError(hostport, TooManyColons))
        else Err(AddrError(hostport, MissingPort))
      else CheckBrackets(hostport, hostport[1..end], 1, end + 1, i)
    else
      var host := hostport[..i];
      if ':' in host then Err(AddrError(hostport, TooManyColons))
      else CheckBrackets(hostport, host, 0, 0, i)
  }

  /** An address not starting with `[` splits at its last colon. A colon
      before that one makes the host an unbracketed IPv6 address, "too many
      colons"; otherwise the split succeeds unless a bracket appears. */
  lemma SplitUnbracketed(hostport: string)
    requires ':' in hostport && hostport[0] != '['
    ensures var i := LastIndexOf(hostport, ':');
      && (':' in hostport[..i] ==> SplitHostPort(hostport) == Err(AddrError(hostport, TooManyColons)))
      && (':' !in hostport[..i] && NoBrackets(hostport) ==> SplitHostPort(hostport) == Ok((hostport[..i], hostport[i + 1..])))
      && (':' !in hostport[..i] && '[' in hostport ==> SplitHostPort(hostport) == Err(AddrError(hostport, UnexpectedOpenBracket)))
      && (':' !in hostport[..i] && '[' !in hostport && ']' in hostport ==>
            SplitHostPort(hostport) == Err(AddrError(hostport, UnexpectedCloseBracket)))
  {
    assert hostport[0..] == hostport;
  }

  /** A bare IPv6 server such as "::1" fails the dial with "too many colons". */
  lemma DialBareIpv6()
    ensures DialAddressError("::1") == Some("dial tcp: " + AddrError("::1", TooManyColons))
  {
    var hp := "::1";
    assert hp == ":" + [':'] + "1";
    LastIndexOfJoin(":", ':', "1");
    assert hp[..1][0] == ':';
    SplitUnbracketed(hp);
  }

  /** An address opening a bracket it never closes is rejected as such. */
  lemma SplitMissingBracket(hostport: string)
    requires ':' in hostport && hostport[0] == '[' && ']' !in hostport
    ensures SplitHostPort(hostport) == Err(AddrError(hostport, MissingCloseBracket))
  {
  }

  /** The last two checks of `SplitHostPort`: no `[` at or after `j`, no `]` at or after `k`. */
  function CheckBrackets(hostport: string, host: string, j: nat, k: nat, i: nat): Result<(string, string)>
    requires j <= k <= i < |hostport|
  {
    if '[' in hostport[j..] then Err(AddrError(hostport, UnexpectedOpenBracket))
    else if ']' in hostport[k..] then Err(AddrError(hostport, UnexpectedCloseBracket))
    else Ok((host, hostport[i + 1..]))
  }

  predicate NoBrackets(s: string) { '[' !in s && ']' !in s }

  /** `net.JoinHostPort`: brackets the host when it holds a colon. */
  function JoinHostPort(host: string, port: string): string {
    if ':' in host then "[" + host + "]:" + port else host + ":" + port
  }

  /** `SplitHostPort` inverts `JoinHostPort` for every bracket-free host and
      every bracket- and colon-free port, IPv6-style hosts included. */
  lemma SplitJoinHostPort(host: string, port: string)
    requires NoBrackets(host) && NoBrackets(port) && ':' !in port
    ensures SplitHostPort(JoinHostPort(host, port)) == Ok((host, port))
  {
    if ':' in host {
      SplitJoinBracketed(host, port);
    } else {
      SplitJoinPlain(host, port);
    }
  }

  lemma SplitJoinBracketed(host: string, port: string)
    requires NoBrackets(host) && NoBrackets(port) && ':' !in port && ':' in host
    ensures SplitHostPort("[" + host + "]:" + port) == Ok((host, port))
  {
    BracketedBranch(host, port);
    BracketedChecks(host, port);
  }

  /** A bracketed address takes the bracket branch, with the host between the brackets. */
  lemma BracketedBranch(host: string, port: string)
    requires NoBrackets(host) && ':' !in port
    ensures |host| + 2 < |"[" + host + "]:" + port|
    ensures SplitHostPort("[" + host + "]:" + port)
         == CheckBrackets("[" + host + "]:" + port, host, 1, |host| + 2, |host| + 2)
  {
    BracketedIndices(host, port);
  }

  /** Where the last colon and the first `]` of a bracketed address are. */
  lemma BracketedIndices(host: string, port: string)
    requires NoBrackets(host) && ':' !in port
    ensures var hp := "[" + host + "]:" + port;
      && LastIndexOf(hp, ':') == |host| + 2
      && IndexOf(hp, ']') == |host| + 1
      && hp[0] == '[' && hp[1..|host| + 1] == host
  {
    BracketedLastColon(host, port);
    BracketedFirstClose(host, port);
  }

  lemma BracketedLastColon(host: string, port: string)
    requires ':' !in port
    ensures LastIndexOf("[" + host + "]:" + port, ':') == |host| + 2
  {
    BracketedShape(host, port);
    LastIndexOfJoin("[" + host + "]", ':', port);
  }

  /** A bracketed address, cut before its port's colon. */
  lemma BracketedShape(host: string, port: string)
    ensures "[" + host + "]:" + port == ("[" + host + "]") + [':'] + port
  {
  }

  lemma BracketedFirstClose(host: string, port: string)
    requires NoBrackets(host)
    ensures IndexOf("[" + host + "]:" + port, ']') == |host| + 1
  {
    assert "[" + host + "]:" + port == ("[" + host) + [']'] + (":" + port);
    IndexOfJoin("[" + host, ']', ":" + port);
  }

  /** ... and passes the bracket checks, leaving the port after the colon. */
  lemma BracketedChecks(host: string, port: string)
    requires NoBrackets(host) && NoBrackets(port)
    ensures CheckBrackets("[" + host + "]:" + port, host, 1, |host| + 2, |host| + 2) == Ok((host, port))
  {
    var hp := "[" + host + "]:" + port;
    assert hp[1..] == host + "]:" + port;
    assert hp[|host| + 2..] == ":" + port;
    assert hp[|host| + 3..] == port;
  }

  lemma SplitJoinPlain(host: string, port: string)
    requires NoBrackets(host) && NoBrackets(port) && ':' !in port && ':' !in host
    ensures SplitHostPort(host + ":" + port) == Ok((host, port))
  {
    var hp := host + ":" + port;
    assert hp == host + [':'] + port;
    LastIndexOfJoin(host, ':', port);
    assert hp[..|host|] == host;
    assert hp[0..] == hp;
    assert hp[|host| + 1..] == port;
  }

  /** Dialing TCP first resolves the address: an empty address fails with
      "missing address", and an address `SplitHostPort` rejects fails with
      its `AddrError`, both as an `OpError` before any network I/O. */
  function DialAddressError(address: string): (r: Option<string>)
    ensures r.Some? <==> SplitHostPort(address).Err?
    ensures address == "" ==> r == Some("dial tcp: " + MissingAddress)
    ensures address != "" && ':' !in address ==> r == Some("dial tcp: " + AddrError(address, MissingPort))
    ensures address != "" && SplitHostPort(address).Err? ==> r == Some("dial tcp: " + SplitHostPort(address).error)
  {
    if address == "" then Some("dial tcp: " + MissingAddress)
    else
      match SplitHostPort(address)
      case Err(e) => Some("dial tcp: " + e)
      case Ok(_) => None
  }
}
