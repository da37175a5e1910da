/**
 * Indicator normalisation: the `ip` helper that decides whether a string is
 * an address literal, and the `re.sub(':\d+', '', host)` rewrite that drops
 * port numbers from HTTP hosts.
 */
module Normalizer {
  import opened Text

  /** One octet of a dotted quad: one to three ASCII digits, no leading zero, at most 255. */
  predicate IsOctet(t: string) {
    1 <= |t| <= 3 && AllDigits(t) && (t[0] == '0' ==> |t| == 1) && DecimalValue(t) <= 255
  }

  /** A dotted-quad IPv4 literal as `ipaddress.IPv4Address` parses it. */
  predicate IsIPv4(s: string) {
    var parts := Split(s, '.');
    |parts| == 4 && forall k :: 0 <= k < 4 ==> IsOctet(parts[k])
  }

  /** A dotted quad is made of digits and dots only, so it holds no `:`. */
  lemma IPv4HasNoColon(s: string)
    ensures IsIPv4(s) ==> ':' !in s
  {
    if IsIPv4(s) {
      var parts := Split(s, '.');
      assert IsOctet(parts[0]) && IsOctet(parts[1]) && IsOctet(parts[2]) && IsOctet(parts[3]);
      JoinSplit(s, '.');
      JoinOfDigits(parts, '.');
    }
  }

  /**
   * The `ip` helper: whether `ipaddress.ip_address` accepts the string.
   * It is total (the parser's `ValueError` becomes `false`); IPv6 literals
   * are outside this model and classify as not-an-address.
   */
  predicate Ip(indicator: string)
    ensures Ip(indicator) ==> ':' !in indicator
  {
    IPv4HasNoColon(indicator);
    IsIPv4(indicator)
  }

  /** The canonical spelling of the address with octets `a.b.c.d`. */
  function DottedQuad(a: nat, b: nat, c: nat, d: nat): string {
    Join([Decimal(a), Decimal(b), Decimal(c), Decimal(d)], '.')
  }

  lemma NumeralIsOctet(n: nat)
    requires n <= 255
    ensures IsOctet(Decimal(n)) && DecimalValue(Decimal(n)) == n && '.' !in Decimal(n)
  {
    DecimalRoundTrip(n);
    DecimalShape(n);
  }

  /** Every canonically written address is recognised, octet by octet. */
  lemma DottedQuadIsIp(a: nat, b: nat, c: nat, d: nat)
    requires a <= 255 && b <= 255 && c <= 255 && d <= 255
    ensures Ip(DottedQuad(a, b, c, d))
    ensures Split(DottedQuad(a, b, c, d), '.') == [Decimal(a), Decimal(b), Decimal(c), Decimal(d)]
  {
    NumeralIsOctet(a);
    NumeralIsOctet(b);
    NumeralIsOctet(c);
    NumeralIsOctet(d);
    SplitJoin([Decimal(a), Decimal(b), Decimal(c), Decimal(d)], '.');
  }

  /** Conversely, every recognised address is the canonical spelling of its four octets. */
  lemma IpIsDottedQuad(s: string)
    requires Ip(s)
    ensures var parts := Split(s, '.');
            && DecimalValue(parts[0]) <= 255 && DecimalValue(parts[1]) <= 255
            && DecimalValue(parts[2]) <= 255 && DecimalValue(parts[3]) <= 255
            && s == DottedQuad(DecimalValue(parts[0]), DecimalValue(parts[1]),
                               DecimalValue(parts[2]), DecimalValue(parts[3]))
  {
    var parts := Split(s, '.');
    assert IsOctet(parts[0]) && IsOctet(parts[1]) && IsOctet(parts[2]) && IsOctet(parts[3]);
    DecimalCanonical(parts[0]);
    DecimalCanonical(parts[1]);
    DecimalCanonical(parts[2]);
    DecimalCanonical(parts[3]);
    JoinSplit(s, '.');
    assert parts == [parts[0], parts[1], parts[2], parts[3]];
  }

  /** No `:` in `s` is immediately followed by a digit: the pattern `:\d+` has no match. */
  predicate NoPort(s: string) {
    forall i :: 0 <= i < |s| - 1 ==> !(s[i] == ':' && IsDigit(s[i + 1]))
  }

  /** Drops the maximal run of digits at the front of `s`. */
  function SkipDigits(s: string): (r: string)
    ensures |r| <= |s| && r == s[|s| - |r|..]
    ensures |r| > 0 ==> !IsDigit(r[0])
    decreases |s|
  {
    if |s| > 0 && IsDigit(s[0]) then SkipDigits(s[1..]) else s
  }

  /**
   * `re.sub(':\d+', '', host)`: scanning left to right, every `:` followed by
   * a maximal run of ASCII digits is deleted; every other character is kept.
   */
  function StripPorts(host: string): (r: string)
    ensures |r| <= |host|
    decreases |host|
  {
    if |host| == 0 then ""
    else if host[0] == ':' && |host| > 1 && IsDigit(host[1]) then StripPorts(SkipDigits(host[1..]))
    else [host[0]] + StripPorts(host[1..])
  }

  /** After stripping no `:`-digit pair is left, and a result does not start with a digit unless the input did. */
  lemma {:induction false} StripPortsLeavesNoPort(host: string)
    ensures NoPort(StripPorts(host))
    ensures |host| > 0 && !IsDigit(host[0]) && |StripPorts(host)| > 0 ==> !IsDigit(StripPorts(host)[0])
    decreases |host|
  {
    if |host| > 0 {
      if host[0] == ':' && |host| > 1 && IsDigit(host[1]) {
        StripPortsLeavesNoPort(SkipDigits(host[1..]));
      } else {
        StripPortsLeavesNoPort(host[1..]);
        var rest := StripPorts(host[1..]);
        var r := [host[0]] + rest;
        forall i | 0 <= i < |r| - 1
          ensures !(r[i] == ':' && IsDigit(r[i + 1]))
        {
          if i > 0 {
            assert r[i] == rest[i - 1] && r[i + 1] == rest[i];
          }
        }
      }
    }
  }

  /** A host in which the pattern has no match is returned unchanged. */
  lemma {:induction false} StripPortsKeepsPortless(host: string)
    requires NoPort(host)
    ensures StripPorts(host) == host
    decreases |host|
  {
    if |host| > 0 {
      assert NoPort(host[1..]) by {
        forall i | 0 <= i < |host| - 2
          ensures !(host[1..][i] == ':' && IsDigit(host[1..][i + 1]))
        {
          assert host[1..][i] == host[i + 1] && host[1..][i + 1] == host[i + 2];
        }
      }
      StripPortsKeepsPortless(host[1..]);
      assert [host[0]] + host[1..] == host;
    }
  }

  /** The stripped host keeps some of the input's characters in order, so it is never longer. */
  lemma {:induction false} StripPortsIsSubsequence(host: string)
    ensures IsSubsequence(StripPorts(host), host)
    ensures |StripPorts(host)| <= |host|
    decreases |host|
  {
    if |host| > 0 {
      var r := StripPorts(host);
      if host[0] == ':' && |host| > 1 && IsDigit(host[1]) {
        var rest := SkipDigits(host[1..]);
        assert r == StripPorts(rest);
        StripPortsIsSubsequence(rest);
        assert host[|host| - |rest|..] == rest;
        SubsequenceOfSuffix(r, host, |host| - |rest|);
      } else {
        var tail := StripPorts(host[1..]);
        assert r == [host[0]] + tail;
        StripPortsIsSubsequence(host[1..]);
        assert r[0] == host[0] && r[1..] == tail;
      }
    }
  }

  /** Stripping twice is stripping once. */
  lemma StripPortsIdempotent(host: string)
    ensures StripPorts(StripPorts(host)) == StripPorts(host)
  {
    StripPortsLeavesNoPort(host);
    StripPortsKeepsPortless(StripPorts(host));
  }

  /** A portless prefix passes through unchanged when no pair straddles the join. */
  lemma {:induction false} StripPortsPrefix(h: string, t: string)
    requires NoPort(h)
    requires |h| > 0 && h[|h| - 1] == ':' && |t| > 0 ==> !IsDigit(t[0])
    ensures StripPorts(h + t) == h + StripPorts(t)
    decreases |h|
  {
    if |h| == 0 {
      assert h + t == t;
    } else {
      var s := h + t;
      var rest := h[1..];
      assert s[0] == h[0];
      assert s[1..] == rest + t;
      assert !(s[0] == ':' && |s| > 1 && IsDigit(s[1])) by {
        if |h| > 1 {
          assert s[1] == h[1];
        } else if |t| > 0 {
          assert s[1] == t[0];
        }
      }
      assert StripPorts(s) == [h[0]] + StripPorts(rest + t);
      assert NoPort(rest) by {
        forall i | 0 <= i < |rest| - 1
          ensures !(rest[i] == ':' && IsDigit(rest[i + 1]))
        {
          assert rest[i] == h[i + 1] && rest[i + 1] == h[i + 2];
        }
      }
      assert |rest| > 0 ==> rest[|rest| - 1] == h[|h| - 1];
      StripPortsPrefix(rest, t);
      assert [h[0]] + rest == h;
    }
  }

  /** A run of digits followed by a non-digit (or by nothing) is skipped exactly. */
  lemma {:induction false} SkipDigitsPrefix(port: string, t: string)
    requires AllDigits(port)
    requires |t| == 0 || !IsDigit(t[0])
    ensures SkipDigits(port + t) == t
    decreases |port|
  {
    if |port| == 0 {
      assert port + t == t;
    } else {
      assert (port + t)[0] == port[0];
      assert (port + t)[1..] == port[1..] + t;
      SkipDigitsPrefix(port[1..], t);
    }
  }

  /** A `:` followed by a digit starts a match: the run of digits after it is dropped with it. */
  lemma StripPortsAtPort(port: string, t: string)
    requires |port| > 0 && IsDigit(port[0])
    ensures StripPorts([':'] + port + t) == StripPorts(SkipDigits(port + t))
  {
    var m := [':'] + port + t;
    assert m[1..] == port + t && m[1] == port[0];
  }

  /** A host that starts with `:<digits>` loses that port and keeps the rest, stripped. */
  lemma StripLeadingPort(port: string, t: string)
    requires |port| > 0 && AllDigits(port)
    requires |t| == 0 || !IsDigit(t[0])
    ensures StripPorts([':'] + port + t) == StripPorts(t)
  {
    StripPortsAtPort(port, t);
    SkipDigitsPrefix(port, t);
  }

  /** A portless prefix is kept before a `:` that starts the rest of the host. */
  lemma StripPortsBeforePort(h: string, port: string, t: string)
    requires NoPort(h)
    ensures StripPorts(h + [':'] + port + t) == h + StripPorts([':'] + port + t)
  {
    var m := [':'] + port + t;
    assert m[0] == ':';
    StripPortsPrefix(h, m);
    assert h + [':'] + port + t == h + m;
  }

  /**
   * The match is not anchored: a `:<digits>` port in the middle of a host is
   * deleted, and the text before and after it is kept (the after part is
   * stripped in turn).
   */
  lemma StripMiddlePort(h: string, port: string, t: string)
    requires NoPort(h)
    requires |port| > 0 && AllDigits(port)
    requires |t| == 0 || !IsDigit(t[0])
    ensures StripPorts(h + [':'] + port + t) == h + StripPorts(t)
  {
    StripPortsBeforePort(h, port, t);
    StripLeadingPort(port, t);
  }

  /** A trailing `:<digits>` port is removed from a host that has no other match. */
  lemma StripTrailingPort(host: string, port: string)
    requires NoPort(host)
    requires |port| > 0 && AllDigits(port)
    ensures StripPorts(host + ":" + port) == host
  {
    StripMiddlePort(host, port, "");
    assert host + [':'] + port + "" == host + ":" + port;
  }

  /** An address literal is not touched by stripping, and `address:port` strips back to it. */
  lemma StripAddressWithPort(address: string, port: nat)
    requires Ip(address)
    ensures StripPorts(address) == address
    ensures StripPorts(address + ":" + Decimal(port)) == address
  {
    assert NoPort(address) by {
      forall i | 0 <= i < |address| - 1
        ensures address[i] != ':'
      {
        assert address[i] in address;
      }
    }
    StripPortsKeepsPortless(address);
    DecimalRoundTrip(port);
    DecimalShape(port);
    StripTrailingPort(address, Decimal(port));
  }
}
