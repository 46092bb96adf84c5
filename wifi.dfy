/**
 * The scan parsing and network ranking of `wifi_monitor.py`: the `nmcli -t`
 * line parser, the choice of the configured network to join, and the
 * connection name derived from an SSID. The scan output and the list of
 * available networks are parameters; nmcli itself is not run.
 */
module Wifi {
  import opened Options
  import opened Text

  /** One network of a scan: `ssid`, `signal`, `security`. */
  datatype WifiNetwork = WifiNetwork(ssid: string, signal: nat, security: string)

  // ---------------------------------------------------------------------------
  // _parse_network_output
  // ---------------------------------------------------------------------------

  /**
   * The fields of one line split on `:`: `--` stands for an empty SSID, a
   * zero signal and an open network; a signal that is not all digits reads
   * as 0; an empty SSID yields nothing.
   */
  function ParseFields(parts: seq<string>): (r: Option<WifiNetwork>)
    requires |parts| >= 2
    ensures r.Some? <==> parts[0] != [] && parts[0] != "--"
    ensures r.Some? ==> r.value.ssid == parts[0]
    ensures r.Some? ==> r.value.signal == if IsDigits(parts[1]) then DigitsValue(parts[1]) else 0
    ensures r.Some? ==> r.value.security == if |parts| > 2 && parts[2] != "--" then parts[2] else "Open"
  {
    var ssid := if parts[0] != "--" then parts[0] else "";
    var signalText := if |parts| > 1 && parts[1] != "--" then parts[1] else "0";
    var security := if |parts| > 2 && parts[2] != "--" then parts[2] else "Open";
    var signal := if IsDigits(signalText) then DigitsValue(signalText) else 0;
    if ssid != [] then Some(WifiNetwork(ssid, signal, security)) else None
  }

  /**
   * One `SSID:SIGNAL:SECURITY` line. Empty lines, `--` lines and lines
   * without a `:` are skipped; the rest is read by `ParseFields`.
   */
  function ParseLine(line: string): (r: Option<WifiNetwork>)
    ensures r.Some? <==> line != "--" && ':' in line && Before(line, ':') != [] && Before(line, ':') != "--"
    ensures r.Some? ==> r.value.ssid == Before(line, ':') && ':' !in r.value.ssid
    ensures r.Some? && Count(line, ':') == 1 ==> r.value.security == "Open"
    ensures r.Some? ==>
              var parts := Split(line, ':');
              |parts| >= 2
              && r.value.signal == (if IsDigits(parts[1]) then DigitsValue(parts[1]) else 0)
              && r.value.security == (if |parts| > 2 && parts[2] != "--" then parts[2] else "Open")
  {
    SplitHeadIsBefore(line, ':');
    if line == [] || line == "--" then None
    else
      var parts := Split(line, ':');
      if |parts| < 2 then None else ParseFields(parts)
  }

  /** The networks of a list of lines, in line order. */
  function Collect(lines: seq<string>): (r: seq<WifiNetwork>)
    ensures |r| <= |lines|
    ensures forall k :: 0 <= k < |r| ==> r[k].ssid != [] && r[k].ssid != "--"
  {
    if lines == [] then []
    else
      var earlier := Collect(lines[..|lines| - 1]);
      match ParseLine(lines[|lines| - 1])
      case Some(n) => earlier + [n]
      case None => earlier
  }

  /** `_parse_network_output`: the lines of the stripped output, parsed one by one. */
  method ParseNetworkOutput(output: string) returns (networks: seq<WifiNetwork>)
    ensures networks == Collect(Split(Strip(output), '\n'))
  {
    var lines := Split(Strip(output), '\n');
    networks := [];
    for i := 0 to |lines|
      invariant networks == Collect(lines[..i])
    {
      var network := ParseLine(lines[i]);
      CollectStep(lines, i);
      if network.Some? {
        networks := networks + [network.value];
      }
    }
    assert lines[..|lines|] == lines;
  }

  lemma CollectStep(lines: seq<string>, i: nat)
    requires i < |lines|
    ensures ParseLine(lines[i]).Some? ==> Collect(lines[..i + 1]) == Collect(lines[..i]) + [ParseLine(lines[i]).value]
    ensures ParseLine(lines[i]).None? ==> Collect(lines[..i + 1]) == Collect(lines[..i])
  {
    assert lines[..i + 1][..i] == lines[..i];
  }

  /** The line nmcli prints for a network. */
  function FormatLine(n: WifiNetwork): string {
    n.ssid + ":" + NatToDigits(n.signal) + ":" + n.security
  }

  /** The lines for a list of networks, one per network. */
  function FormatLines(networks: seq<WifiNetwork>): (r: seq<string>)
    ensures |r| == |networks| && forall i :: 0 <= i < |networks| ==> r[i] == FormatLine(networks[i])
  {
    if networks == [] then [] else FormatLines(networks[..|networks| - 1]) + [FormatLine(networks[|networks| - 1])]
  }

  /** A network nmcli can print unambiguously: a real SSID, and no `:` or newline inside a field. */
  predicate Printable(n: WifiNetwork) {
    n.ssid != [] && n.ssid != "--" && n.security != "--"
    && ':' !in n.ssid && ':' !in n.security && '\n' !in n.ssid && '\n' !in n.security
  }

  lemma DigitsHaveNoSeparator(s: string, c: char)
    requires AllDigits(s) && !IsDigit(c)
    ensures c !in s
  {
  }

  /** A printed line splits on `:` into its three fields. */
  lemma FormatLineFields(n: WifiNetwork)
    requires Printable(n)
    ensures Split(FormatLine(n), ':') == [n.ssid, NatToDigits(n.signal), n.security]
    ensures FormatLine(n) != [] && FormatLine(n) != "--"
  {
    var digits := NatToDigits(n.signal);
    DigitsHaveNoSeparator(digits, ':');
    assert FormatLine(n) == n.ssid + [':'] + (digits + [':'] + n.security);
    SplitCons(n.ssid, ':', digits + [':'] + n.security);
    SplitCons(digits, ':', n.security);
    SplitNoSep(n.security, ':');
    assert |FormatLine(n)| > |n.ssid| + 1;
  }

  /** Parsing a printed line gives the network back. */
  lemma ParseFormatLine(n: WifiNetwork)
    requires Printable(n)
    ensures ParseLine(FormatLine(n)) == Some(n)
  {
    var digits := NatToDigits(n.signal);
    FormatLineFields(n);
    DigitsRoundTrip(n.signal);
    assert digits != "--" by {
      assert IsDigit(digits[0]);
    }
    assert ParseFields([n.ssid, digits, n.security]) == Some(n);
  }

  /** Nothing for `strip` to remove: the first SSID does not start, and the last security does not end, with whitespace. */
  predicate Unpadded(networks: seq<WifiNetwork>) {
    networks != [] ==>
      var first, last := networks[0], networks[|networks| - 1];
      (first.ssid != [] && !IsSpace(first.ssid[0]))
      && (last.security == [] || !IsSpace(last.security[|last.security| - 1]))
  }

  /**
   * The lines nmcli prints for a list of networks, joined by newlines, parse back
   * to the list: `ParseNetworkOutput` of that text returns exactly `networks`.
   */
  lemma {:induction false} ParsePrintedOutput(networks: seq<WifiNetwork>)
    requires forall i :: 0 <= i < |networks| ==> Printable(networks[i])
    requires Unpadded(networks)
    ensures Collect(Split(Strip(Join(FormatLines(networks), '\n')), '\n')) == networks
  {
    var lines := FormatLines(networks);
    if networks == [] {
      assert Split(Strip(Join(lines, '\n')), '\n') == [""];
    } else {
      forall i | 0 <= i < |lines|
        ensures '\n' !in lines[i]
      {
        DigitsHaveNoSeparator(NatToDigits(networks[i].signal), '\n');
      }
      var last := networks[|networks| - 1];
      assert lines[0] == networks[0].ssid + (":" + NatToDigits(networks[0].signal) + ":" + networks[0].security);
      JoinFirst(lines, '\n');
      assert lines[|lines| - 1] == (last.ssid + ":" + NatToDigits(last.signal)) + (":" + last.security);
      JoinLast(lines, '\n');
      StripUnpadded(Join(lines, '\n'));
      SplitJoin(lines, '\n');
      CollectFormatted(networks);
    }
  }

  lemma {:induction false} CollectFormatted(networks: seq<WifiNetwork>)
    requires forall i :: 0 <= i < |networks| ==> Printable(networks[i])
    ensures Collect(FormatLines(networks)) == networks
  {
    if networks != [] {
      var front, last := networks[..|networks| - 1], networks[|networks| - 1];
      CollectFormatted(front);
      ParseFormatLine(last);
      CollectSnoc(FormatLines(front), FormatLine(last));
      FrontLast(networks);
    }
  }

  lemma CollectSnoc(lines: seq<string>, line: string)
    ensures ParseLine(line).Some? ==> Collect(lines + [line]) == Collect(lines) + [ParseLine(line).value]
    ensures ParseLine(line).None? ==> Collect(lines + [line]) == Collect(lines)
  {
    assert (lines + [line])[..|lines|] == lines;
  }

  // ---------------------------------------------------------------------------
  // find_best_network
  // ---------------------------------------------------------------------------

  /** An entry of the `networks` configuration, in configuration order; `priority` defaults to 0. */
  datatype ConfiguredNetwork = ConfiguredNetwork(name: string, ssid: Option<string>, priority: int)

  /** An entry of `found_networks`. */
  datatype Candidate = Candidate(name: string, ssid: string, signal: nat, priority: int)

  /** The first available network with this SSID. */
  function FirstMatch(available: seq<WifiNetwork>, ssid: string): (r: Option<nat>)
    ensures r.Some? ==> r.value < |available| && available[r.value].ssid == ssid
                        && forall j :: 0 <= j < r.value ==> available[j].ssid != ssid
    ensures r.None? ==> forall j :: 0 <= j < |available| ==> available[j].ssid != ssid
  {
    if available == [] then None
    else if available[0].ssid == ssid then Some(0)
    else match FirstMatch(available[1..], ssid)
      case Some(k) => Some(k + 1)
      case None => None
  }

  /** What one configured network contributes: nothing without an SSID or a match, else its first match. */
  function MatchOf(c: ConfiguredNetwork, available: seq<WifiNetwork>): (r: seq<Candidate>)
    ensures |r| <= 1
    ensures r != [] <==> c.ssid.Some? && c.ssid.value != [] && FirstMatch(available, c.ssid.value).Some?
    ensures r != [] ==> r[0].name == c.name && r[0].ssid == c.ssid.value && r[0].priority == c.priority
                        && r[0].signal == available[FirstMatch(available, c.ssid.value).value].signal
  {
    if c.ssid.None? || c.ssid.value == [] then []
    else match FirstMatch(available, c.ssid.value)
      case Some(k) => [Candidate(c.name, c.ssid.value, available[k].signal, c.priority)]
      case None => []
  }

  /** `found_networks`, in configuration order. */
  function Matches(configured: seq<ConfiguredNetwork>, available: seq<WifiNetwork>): (r: seq<Candidate>)
    ensures |r| <= |configured|
  {
    if configured == [] then []
    else Matches(configured[..|configured| - 1], available) + MatchOf(configured[|configured| - 1], available)
  }

  /** Nothing is found exactly when no configured network has an SSID that is available. */
  lemma NothingFound(configured: seq<ConfiguredNetwork>, available: seq<WifiNetwork>)
    ensures Matches(configured, available) == [] <==> forall i :: 0 <= i < |configured| ==> MatchOf(configured[i], available) == []
  {
    if Matches(configured, available) == [] {
      EmptyMatchesNoneAvailable(configured, available);
    } else {
      var k := 0;
      MatchesAreAvailable(configured, available, k);
      var m := Matches(configured, available)[k];
      var i :| 0 <= i < |configured| && configured[i].name == m.name && configured[i].ssid == Some(m.ssid);
      assert MatchOf(configured[i], available) != [];
    }
  }

  lemma {:induction false} EmptyMatchesNoneAvailable(configured: seq<ConfiguredNetwork>, available: seq<WifiNetwork>)
    requires Matches(configured, available) == []
    ensures forall i :: 0 <= i < |configured| ==> MatchOf(configured[i], available) == []
  {
    if configured != [] {
      var front := configured[..|configured| - 1];
      EmptyMatchesNoneAvailable(front, available);
      forall i | 0 <= i < |configured| - 1
        ensures MatchOf(configured[i], available) == []
      {
        assert configured[i] == front[i];
      }
    }
  }

  /** Every found network is a configured one that is available, with the signal of its first scan entry. */
  lemma {:induction false} MatchesAreAvailable(configured: seq<ConfiguredNetwork>, available: seq<WifiNetwork>, k: nat)
    requires k < |Matches(configured, available)|
    ensures var m := Matches(configured, available)[k];
            m.ssid != [] && FirstMatch(available, m.ssid).Some?
            && m.signal == available[FirstMatch(available, m.ssid).value].signal
            && exists i :: 0 <= i < |configured| && configured[i].name == m.name && configured[i].ssid == Some(m.ssid)
                           && configured[i].priority == m.priority
  {
    var front := configured[..|configured| - 1];
    var last := configured[|configured| - 1];
    if k < |Matches(front, available)| {
      MatchesAreAvailable(front, available, k);
      var m := Matches(configured, available)[k];
      var i :| 0 <= i < |front| && front[i].name == m.name && front[i].ssid == Some(m.ssid)
                && front[i].priority == m.priority;
      assert configured[i] == front[i];
    } else {
      assert Matches(configured, available)[k] == MatchOf(last, available)[0];
    }
  }

  /** The sort key `(-priority, -signal)` puts `a` strictly before `b`. */
  predicate RanksAbove(a: Candidate, b: Candidate) {
    a.priority > b.priority || (a.priority == b.priority && a.signal > b.signal)
  }

  /**
   * Candidate `i` heads the stable sort of the first `n`: nothing ranks above
   * it, and it ranks strictly above every earlier candidate.
   */
  predicate HeadsAmong(found: seq<Candidate>, n: nat, i: nat)
    requires n <= |found|
  {
    i < n && forall j :: 0 <= j < n ==> !RanksAbove(found[j], found[i]) && (j < i ==> RanksAbove(found[i], found[j]))
  }

  /** The head of the sort is unique. */
  lemma HeadIsUnique(found: seq<Candidate>, i: nat, k: nat)
    requires HeadsAmong(found, |found|, i) && HeadsAmong(found, |found|, k)
    ensures i == k
  {
    assert !RanksAbove(found[k], found[i]) && !RanksAbove(found[i], found[k]);
  }

  lemma MatchesStep(configured: seq<ConfiguredNetwork>, available: seq<WifiNetwork>, i: nat)
    requires i < |configured|
    ensures Matches(configured[..i + 1], available) == Matches(configured[..i], available) + MatchOf(configured[i], available)
  {
    assert configured[..i + 1][..i] == configured[..i];
  }

  /**
   * The first element of `found_networks` once sorted by `(-priority, -signal)`:
   * Python's sort is stable, so it is the earliest candidate nothing ranks above.
   */
  method SortHead(found: seq<Candidate>) returns (head: nat)
    requires found != []
    ensures HeadsAmong(found, |found|, head)
  {
    head := 0;
    for i := 1 to |found|
      invariant HeadsAmong(found, i, head)
    {
      if RanksAbove(found[i], found[head]) {
        head := i;
      }
    }
  }

  /** `find_best_network` on a scan: `None` when nothing configured is available, else the name heading the sort. */
  method FindBestNetwork(configured: seq<ConfiguredNetwork>, available: seq<WifiNetwork>) returns (best: Option<string>)
    ensures best.None? <==> Matches(configured, available) == []
    ensures best.Some? ==> exists i :: 0 <= i < |Matches(configured, available)|
                                       && HeadsAmong(Matches(configured, available), |Matches(configured, available)|, i)
                                       && best.value == Matches(configured, available)[i].name
  {
    if available == [] {
      NothingFound(configured, available);
      return None;
    }
    var found: seq<Candidate> := [];
    for i := 0 to |configured|
      invariant found == Matches(configured[..i], available)
    {
      MatchesStep(configured, available, i);
      var c := configured[i];
      if c.ssid.Some? && c.ssid.value != [] {
        var ssid := c.ssid.value;
        var k := 0;
        while k < |available| && available[k].ssid != ssid
          invariant 0 <= k <= |available|
          invariant forall j :: 0 <= j < k ==> available[j].ssid != ssid
        {
          k := k + 1;
        }
        if k < |available| {
          assert FirstMatch(available, ssid) == Some(k);
          found := found + [Candidate(c.name, ssid, available[k].signal, c.priority)];
        } else {
          assert FirstMatch(available, ssid).None?;
        }
      }
    }
    assert configured[..|configured|] == configured;
    if found == [] {
      return None;
    }
    var head := SortHead(found);
    return Some(found[head].name);
  }

  // ---------------------------------------------------------------------------
  // safe_connection_name
  // ---------------------------------------------------------------------------

  predicate Unsafe(c: char) {
    c == ' ' || c == '-' || c == '.'
  }

  /** `ssid.replace(' ', '_').replace('-', '_').replace('.', '_')`. */
  function SafeConnectionName(ssid: string): (r: string)
    ensures |r| == |ssid|
    ensures forall i :: 0 <= i < |ssid| ==> r[i] == if Unsafe(ssid[i]) then '_' else ssid[i]
    ensures forall i :: 0 <= i < |r| ==> !Unsafe(r[i])
  {
    Replace(Replace(Replace(ssid, ' ', '_'), '-', '_'), '.', '_')
  }

  /** A safe name is its own safe name. */
  lemma SafeConnectionNameIdempotent(ssid: string)
    ensures SafeConnectionName(SafeConnectionName(ssid)) == SafeConnectionName(ssid)
  {
  }
}
