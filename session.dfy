/**
 * Session priming in setupBrowser: the cookies installed from the task's
 * tab-separated cookie records, and the proxy settings handed to the
 * browser launcher.
 */
module Session {
  import opened Wrappers
  import opened GoStrings

  const FieldSeparator := '\t'

  /** A record needs this many tab-separated fields to become a cookie. */
  const MinCookieFields := 7

  /** The cookie fields the service sets (proto.NetworkCookieParam). */
  datatype Cookie = Cookie(domain: string, path: string, secure: bool, name: string, value: string)

  /**
   * One record in the Netscape cookie-file layout
   * (domain, subdomains, path, secure, expiry, name, value) to a cookie;
   * None for a record that is skipped.
   */
  function ParseCookieRecord(record: string): (c: Option<Cookie>)
    ensures c.None? <==> Count(record, FieldSeparator) < MinCookieFields - 1
  {
    var parts := Split(record, FieldSeparator);
    if |parts| >= MinCookieFields then
      Some(Cookie(parts[0], parts[2], parts[3] == "TRUE", parts[5], parts[6]))
    else
      None
  }

  /** The cookies installed for a list of records, in the order they are installed. */
  function InstalledCookies(records: seq<string>): (cookies: seq<Cookie>)
    ensures |cookies| <= |records|
  {
    if |records| == 0 then []
    else
      var last := records[|records| - 1];
      InstalledCookies(records[..|records| - 1])
        + (match ParseCookieRecord(last) case Some(c) => [c] case None => [])
  }

  /**
   * The cookie loop of setupBrowser: each record is split on tabs and, when it
   * has enough fields, installed on its own (page.SetCookies). The result is
   * the sequence of cookies handed to the page.
   */
  method InstallCookies(records: seq<string>) returns (installed: seq<Cookie>)
    ensures installed == InstalledCookies(records)
  {
    installed := [];
    for i := 0 to |records|
      invariant installed == InstalledCookies(records[..i])
    {
      assert records[..i + 1][..i] == records[..i];
      var cookie := ParseCookieRecord(records[i]);
      if cookie.Some? {
        installed := installed + [cookie.value];
      }
    }
    assert records[..|records|] == records;
  }

  /** A record written from tab-free fields reads back as the cookie of those fields. */
  lemma CookieRecordRoundTrip(fields: seq<string>)
    requires |fields| >= MinCookieFields
    requires forall i :: 0 <= i < |fields| ==> FieldSeparator !in fields[i]
    ensures ParseCookieRecord(Join(fields, FieldSeparator))
            == Some(Cookie(fields[0], fields[2], fields[3] == "TRUE", fields[5], fields[6]))
  {
    SplitJoin(fields, FieldSeparator);
  }

  /** Installing two batches of records installs the cookies of each, one after the other. */
  lemma {:induction false} InstalledAppend(a: seq<string>, b: seq<string>)
    ensures InstalledCookies(a + b) == InstalledCookies(a) + InstalledCookies(b)
    decreases |b|
  {
    if |b| == 0 {
      assert a + b == a;
    } else {
      var ab := a + b;
      assert ab[..|ab| - 1] == a + b[..|b| - 1];
      assert ab[|ab| - 1] == b[|b| - 1];
      InstalledAppend(a, b[..|b| - 1]);
    }
  }

  /** A record with too few fields leaves the installed cookies as if it were absent. */
  lemma SkippedRecord(a: seq<string>, record: string, b: seq<string>)
    requires ParseCookieRecord(record).None?
    ensures InstalledCookies(a + [record] + b) == InstalledCookies(a + b)
  {
    InstalledAppend(a + [record], b);
    InstalledAppend(a, [record]);
    InstalledAppend(a, b);
    assert [record][..0] == [];
  }

  /** When every record is well-formed, the i-th cookie installed comes from the i-th record. */
  lemma {:induction false} InstalledInOrder(records: seq<string>)
    requires forall i :: 0 <= i < |records| ==> ParseCookieRecord(records[i]).Some?
    ensures |InstalledCookies(records)| == |records|
    ensures forall i :: 0 <= i < |records| ==>
              InstalledCookies(records)[i] == ParseCookieRecord(records[i]).value
    decreases |records|
  {
    if |records| > 0 {
      var init := records[..|records| - 1];
      InstalledInOrder(init);
    }
  }

  /** The proxy descriptor of a task request. */
  datatype Proxy = Proxy(data: string, protocol: string)

  /** A browser launcher flag and its value. */
  datatype Flag = Flag(name: string, value: string)

  const Socks5 := "socks5"
  const Socks5Prefix := "socks5://"

  /** The case-insensitive protocol test strings.ToLower(protocol) == "socks5". */
  predicate IsSocks5(protocol: string) {
    ToLower(protocol) == Socks5
  }

  /** The value of --proxy-server, or None when no proxy is configured. */
  function ProxyServer(p: Proxy): (server: Option<string>)
    ensures server.Some? <==> p.data != "" && p.protocol != ""
  {
    if p.data != "" && p.protocol != "" then
      if IsSocks5(p.protocol) then Some(Socks5Prefix + TrimPrefix(p.data, Socks5Prefix))
      else Some(p.protocol + "://" + p.data)
    else
      None
  }

  /** The launcher flags set for a proxy, in the order they are set. */
  function ProxyFlags(p: Proxy): (flags: seq<Flag>)
    ensures flags != [] <==> ProxyServer(p).Some?
    ensures forall i :: 0 < i < |flags| ==> IsSocks5(p.protocol) && flags[i].name != "--proxy-server"
  {
    match ProxyServer(p)
    case None => []
    case Some(server) =>
      [Flag("--proxy-server", server)]
      + if IsSocks5(p.protocol) then
          [ Flag("--disable-webrtc-hw-encoding", "true"),
            Flag("--disable-webrtc-hw-decoding", "true"),
            Flag("--proxy-bypass-list", "<-loopback>"),
            Flag("--disable-quic", "true"),
            Flag("--dns-prefetch-disable", "true"),
            Flag("--no-proxy-server", "false") ]
        else []
  }

  /** The protocols taken for SOCKS5: "socks5" in any mix of cases (K may be the Kelvin sign). */
  lemma Socks5Spellings(protocol: string)
    ensures IsSocks5(protocol) <==>
              |protocol| == 6
              && protocol[0] in {'s', 'S'} && protocol[1] in {'o', 'O'}
              && protocol[2] in {'c', 'C'} && protocol[3] in {'k', 'K', '\U{212A}'}
              && protocol[4] in {'s', 'S'} && protocol[5] == '5'
  {
    var lower := ToLower(protocol);
    if |protocol| == 6 {
      assert lower == Socks5 <==> forall i :: 0 <= i < 6 ==> lower[i] == Socks5[i];
      assert Socks5 == ['s', 'o', 'c', 'k', 's', '5'];
      forall i | 0 <= i < 6 ensures lower[i] == LowerRune(protocol[i]) { }
      LowerRuneTo(protocol[0], 's', 'S');
      LowerRuneTo(protocol[1], 'o', 'O');
      LowerRuneTo(protocol[2], 'c', 'C');
      LowerRuneTo(protocol[4], 's', 'S');
      assert LowerRune(protocol[3]) == 'k' <==> protocol[3] in {'k', 'K', '\U{212A}'};
      assert LowerRune(protocol[5]) == '5' <==> protocol[5] == '5';
    }
  }

  /** The runes that lower to an ASCII letter other than 'k': the letter and its capital. */
  lemma LowerRuneTo(c: char, lower: char, upper: char)
    requires 'a' <= lower <= 'z' && lower != 'k' && upper as int == lower as int - 32
    ensures LowerRune(c) == lower <==> c == lower || c == upper
  {
  }

  /** A proxy is configured only when both its data and its protocol are set; SOCKS5 adds six more flags. */
  lemma ProxyFlagsShape(p: Proxy)
    ensures |ProxyFlags(p)| == (if p.data == "" || p.protocol == "" then 0
                                else if IsSocks5(p.protocol) then 7 else 1)
    ensures ProxyFlags(p) != [] ==> ProxyFlags(p)[0] == Flag("--proxy-server", ProxyServer(p).value)
  {
  }

  /** For SOCKS5 the server is "socks5://" followed by the data with at most one such prefix removed. */
  lemma Socks5Server(p: Proxy)
    requires p.data != "" && IsSocks5(p.protocol)
    ensures ProxyServer(p).Some?
    ensures HasPrefix(ProxyServer(p).value, Socks5Prefix)
    ensures HasPrefix(p.data, Socks5Prefix) ==> ProxyServer(p) == Some(p.data)
    ensures !HasPrefix(p.data, Socks5Prefix) ==> ProxyServer(p) == Some(Socks5Prefix + p.data)
  {
  }

  /** For SOCKS5, data given with or without its "socks5://" scheme names the same server. */
  lemma Socks5SchemeOptional(host: string, protocol: string)
    requires host != "" && IsSocks5(protocol) && !HasPrefix(host, Socks5Prefix)
    ensures ProxyServer(Proxy(Socks5Prefix + host, protocol)) == ProxyServer(Proxy(host, protocol))
            == Some(Socks5Prefix + host)
  {
  }

  /** Only one leading "socks5://" is removed: a doubled scheme is passed on as it is. */
  lemma Socks5OnePrefixOnly(host: string, protocol: string)
    requires IsSocks5(protocol)
    ensures ProxyServer(Proxy(Socks5Prefix + Socks5Prefix + host, protocol))
            == Some(Socks5Prefix + Socks5Prefix + host)
  {
  }

  /** Any other protocol is kept verbatim, in its own case, before "://" and the data. */
  lemma OtherProxyServer(p: Proxy)
    requires p.data != "" && p.protocol != "" && !IsSocks5(p.protocol)
    ensures ProxyServer(p).Some?
    ensures var server := ProxyServer(p).value;
            HasPrefix(server, p.protocol + "://") && server[|p.protocol| + 3..] == p.data
  {
  }
}
