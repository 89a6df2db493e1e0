/**
 * Service fingerprinting (src/discovery/service.rs): the name of the service
 * on a port comes from a fixed port table, and for ssh, http, mysql and redis
 * a version is pulled out of the banner the service sent.
 *
 * The banner itself is read over the network (connect, send "\r\n", read at
 * most 1024 bytes); here it is an input: the outcome of that read, which is a
 * network error, no bytes (`None`) or the decoded text.
 */
module Service {
  import opened Wrappers
  import opened Text
  import opened DiscoveryTypes

  const SshPrefix: string := "SSH-"
  const ServerPrefix: string := "Server: "

  /** `format!("unknown_{}", port)`: the name of a port the table does not list. */
  function UnknownName(port: Port): (name: string)
    ensures StartsWith(name, "unknown_")
    ensures IsDigits(name[8..]) && DecimalValue(name[8..]) == port
  {
    var name := "unknown_" + Decimal(port);
    assert name[8..] == Decimal(port);
    DecimalRoundTrip(port);
    name
  }

  /** The ports the table lists by name. */
  predicate Listed(port: Port) {
    port in {21, 22, 23, 25, 80, 443, 3306, 5432, 6379, 27017}
  }

  /** The ports whose table entry extracts a version from the banner. */
  predicate Versioned(port: Port) {
    port in {22, 80, 443, 3306, 6379}
  }

  /** The protocol name the port table gives `port`. */
  function ServiceName(port: Port): (name: string)
    ensures !Listed(port) ==> name == UnknownName(port)
  {
    if port == 21 then "ftp"
    else if port == 22 then "ssh"
    else if port == 23 then "telnet"
    else if port == 25 then "smtp"
    else if port == 80 || port == 443 then "http"
    else if port == 3306 then "mysql"
    else if port == 5432 then "postgresql"
    else if port == 6379 then "redis"
    else if port == 27017 then "mongodb"
    else UnknownName(port)
  }

  /** The version parser the port table selects for `port`. */
  function VersionFor(port: Port, banner: Option<string>): (version: Option<string>)
    ensures !Versioned(port) ==> version == None
  {
    if port == 22 then ParseSshVersion(banner)
    else if port == 80 || port == 443 then ParseHttpVersion(banner)
    else if port == 3306 then ParseMysqlVersion(banner)
    else if port == 6379 then ParseRedisVersion(banner)
    else None
  }

  /**
   * `ServiceIdentifier::identify`, given the outcome of the banner read: a
   * read error is passed on; otherwise the name comes from the port alone,
   * the version from the parser the port selects, and the banner is kept as
   * it was read (a read of zero bytes gives `banner == None`, not an error).
   */
  function Identify(port: Port, banner: Result<Option<string>, DiscoveryError>): (r: Result<ServiceInfo, DiscoveryError>)
    ensures banner.Err? <==> r.Err?
    ensures banner.Err? ==> r.error == banner.error
    ensures r.Ok? ==> r.value == ServiceInfo(ServiceName(port), VersionFor(port, banner.value), banner.value)
    ensures r.Ok? && !Versioned(port) ==> r.value.version == None
  {
    match banner
    case Err(e) => Err(e)
    case Ok(b) => Ok(ServiceInfo(ServiceName(port), VersionFor(port, b), b))
  }

  /** No name in the table looks like the name of an unlisted port. */
  lemma ListedNameIsNotUnknown(port: Port)
    requires Listed(port)
    ensures !StartsWith(ServiceName(port), "unknown_")
  {
    if port == 5432 {
      assert ServiceName(port)[0] == 'p';
    }
  }

  /**
   * Two ports get the same service name only if they are the same port or
   * are 80 and 443: the name of an unlisted port spells the port out.
   */
  lemma ServiceNameDeterminesPort(p: Port, q: Port)
    requires ServiceName(p) == ServiceName(q)
    ensures p == q || (p in {80, 443} && q in {80, 443})
  {
    if !Listed(p) && !Listed(q) {
      assert DecimalValue(UnknownName(p)[8..]) == p;
    } else if Listed(p) && !Listed(q) {
      ListedNameIsNotUnknown(p);
    } else if !Listed(p) && Listed(q) {
      ListedNameIsNotUnknown(q);
    } else {
      assert ServiceName(p) == ServiceName(q);
    }
  }

  /**
   * `parse_ssh_version`: for a banner that starts with "SSH-", its second
   * whitespace-separated token; `None` for no banner, another banner, or a
   * banner with fewer than two tokens.
   */
  function ParseSshVersion(banner: Option<string>): (version: Option<string>)
    ensures version.Some? <==> banner.Some? && StartsWith(banner.value, SshPrefix) && |SplitWhitespace(banner.value)| >= 2
    ensures version.Some? ==> version.value == SplitWhitespace(banner.value)[1]
    ensures version.Some? ==> version.value != [] && NoWhitespace(version.value)
  {
    match banner
    case None => None
    case Some(b) =>
      if StartsWith(b, SshPrefix) then
        var tokens := SplitWhitespace(b);
        if |tokens| >= 2 then
          assert tokens[1] in tokens;
          Some(tokens[1])
        else None
      else None
  }

  /**
   * An identification line "SSH-protoversion-softwareversion", whitespace,
   * then a comment token: the parser returns the comment token, not the
   * software version inside the first token.
   */
  lemma SshVersionIsSecondToken(id: string, gap: string, comment: string, tail: string)
    requires StartsWith(id, SshPrefix) && NoWhitespace(id)
    requires gap != [] && AllWhitespace(gap)
    requires comment != [] && NoWhitespace(comment)
    requires tail == [] || IsWhitespace(tail[0])
    ensures ParseSshVersion(Some(id + gap + comment + tail)) == Some(comment)
  {
    var b := id + gap + comment + tail;
    assert b[..|SshPrefix|] == id[..|SshPrefix|];
    assert b == id + gap + (comment + tail);
    SplitWhitespaceCons(id, gap, comment + tail);
    SplitWhitespaceToken(comment, tail);
  }

  /** `Iterator::find` over lines: the first line that starts with `prefix`. */
  function FindLineStartingWith(lines: seq<string>, prefix: string): (found: Option<string>)
    ensures found.None? <==> forall i :: 0 <= i < |lines| ==> !StartsWith(lines[i], prefix)
    ensures found.Some? ==> exists i :: 0 <= i < |lines| && found.value == lines[i] && StartsWith(lines[i], prefix)
                                        && forall j :: 0 <= j < i ==> !StartsWith(lines[j], prefix)
  {
    if lines == [] then None
    else if StartsWith(lines[0], prefix) then Some(lines[0])
    else
      var found := FindLineStartingWith(lines[1..], prefix);
      assert forall i :: 1 <= i < |lines| ==> lines[i] == lines[1..][i - 1];
      found
  }

  lemma {:induction false} FindFirstLine(lines: seq<string>, prefix: string, k: nat)
    requires k < |lines| && StartsWith(lines[k], prefix)
    requires forall j :: 0 <= j < k ==> !StartsWith(lines[j], prefix)
    ensures FindLineStartingWith(lines, prefix) == Some(lines[k])
  {
    if k > 0 {
      assert !StartsWith(lines[0], prefix);
      FindFirstLine(lines[1..], prefix, k - 1);
    }
  }

  /**
   * `parse_http_version`: the text after "Server: " on the first line of the
   * banner that starts with it; `None` for no banner or when no line does.
   */
  function ParseHttpVersion(banner: Option<string>): (version: Option<string>)
    ensures version.None? <==> banner.None? || forall i :: 0 <= i < |Lines(banner.value)| ==> !StartsWith(Lines(banner.value)[i], ServerPrefix)
    ensures version.Some? ==>
      var lines := Lines(banner.value);
      exists i :: 0 <= i < |lines| && StartsWith(lines[i], ServerPrefix) && version.value == lines[i][|ServerPrefix|..]
                  && forall j :: 0 <= j < i ==> !StartsWith(lines[j], ServerPrefix)
    ensures version.Some? ==> NoNewline(version.value)
  {
    match banner
    case None => None
    case Some(b) =>
      match FindLineStartingWith(Lines(b), ServerPrefix)
      case None => None
      case Some(line) =>
        assert line in Lines(b);
        Some(line[|ServerPrefix|..])
  }

  /** The version is the rest of the first line of the banner that starts with "Server: ". */
  lemma HttpVersionOfFirstServerLine(banner: string, k: nat)
    requires k < |Lines(banner)| && StartsWith(Lines(banner)[k], ServerPrefix)
    requires forall j :: 0 <= j < k ==> !StartsWith(Lines(banner)[j], ServerPrefix)
    ensures ParseHttpVersion(Some(banner)) == Some(Lines(banner)[k][|ServerPrefix|..])
  {
    FindFirstLine(Lines(banner), ServerPrefix, k);
  }

  /**
   * An HTTP response head written with "\r\n" line ends, whose first
   * "Server: " header is line `k`: the parser returns that header's value
   * without the carriage return.
   */
  lemma HttpVersionOfResponseHead(lines: seq<string>, k: nat, server: string)
    requires forall l :: l in lines ==> NoNewline(l)
    requires k < |lines| && lines[k] == ServerPrefix + server
    requires forall j :: 0 <= j < k ==> !StartsWith(lines[j], ServerPrefix)
    ensures ParseHttpVersion(Some(JoinTerminated(lines, "\r\n"))) == Some(server)
  {
    var text := JoinTerminated(lines, "\r\n");
    LinesOfJoinTerminated(lines, "\r\n");
    assert StartsWith(lines[k], ServerPrefix) by {
      assert lines[k][..|ServerPrefix|] == ServerPrefix;
    }
    HttpVersionOfFirstServerLine(text, k);
    assert lines[k][|ServerPrefix|..] == server;
  }

  /**
   * A banner that is one unterminated "Server: " line (as a read cut short
   * can leave it): the version is the rest of the line, a bare trailing '\r'
   * included.
   */
  lemma HttpVersionOfUnterminatedLine(server: string)
    requires NoNewline(server)
    ensures ParseHttpVersion(Some(ServerPrefix + server)) == Some(server)
  {
    var line := ServerPrefix + server;
    assert NoNewline(line) by {
      assert forall m :: |ServerPrefix| <= m < |line| ==> line[m] == server[m - |ServerPrefix|];
    }
    LinesLast(line);
    assert StartsWith(line, ServerPrefix);
    HttpVersionOfFirstServerLine(line, 0);
    assert line[|ServerPrefix|..] == server;
  }

  /**
   * The shared shape of `parse_mysql_version` and `parse_redis_version`: the
   * trimmed banner when it contains `keyword` (case-sensitively), else `None`.
   */
  function ParseByKeyword(banner: Option<string>, keyword: string): (version: Option<string>)
    requires keyword != [] && !IsWhitespace(keyword[0]) && !IsWhitespace(keyword[|keyword| - 1])
    ensures version.Some? <==> banner.Some? && Contains(banner.value, keyword)
    ensures version.Some? ==> version.value == Trim(banner.value)
    ensures version.Some? ==> Contains(version.value, keyword)
  {
    match banner
    case None => None
    case Some(b) =>
      if Contains(b, keyword) then
        TrimKeepsOccurrence(b, keyword);
        Some(Trim(b))
      else None
  }

  /** `parse_mysql_version` */
  function ParseMysqlVersion(banner: Option<string>): (version: Option<string>)
    ensures version.Some? <==> banner.Some? && Contains(banner.value, "mysql")
    ensures version.Some? ==> version.value == Trim(banner.value) && Contains(version.value, "mysql")
  {
    ParseByKeyword(banner, "mysql")
  }

  /** `parse_redis_version` */
  function ParseRedisVersion(banner: Option<string>): (version: Option<string>)
    ensures version.Some? <==> banner.Some? && Contains(banner.value, "redis")
    ensures version.Some? ==> version.value == Trim(banner.value) && Contains(version.value, "redis")
  {
    ParseByKeyword(banner, "redis")
  }
}
