/** The dashboard: the uptime text of the system status card, the
    connected/total count of the connections card and the short list of
    connections. */
module Dashboard {
  import opened Seqs
  import opened Text
  import opened Connections

  function Hours(seconds: nat): nat
  {
    seconds / 3600
  }

  function Minutes(seconds: nat): nat
  {
    (seconds % 3600) / 60
  }

  /** formatUptime: whole hours, then the whole minutes left over. */
  function FormatUptime(seconds: nat): string
  {
    NatToString(Hours(seconds)) + "h " + NatToString(Minutes(seconds)) + "m"
  }

  /** The two parts are the uptime rounded down to the minute. */
  lemma UptimeParts(seconds: nat)
    ensures Minutes(seconds) < 60
    ensures Hours(seconds) * 3600 + Minutes(seconds) * 60 <= seconds < Hours(seconds) * 3600 + Minutes(seconds) * 60 + 60
    ensures Hours(seconds) * 60 + Minutes(seconds) == seconds / 60
  {
    var h, rest := seconds / 3600, seconds % 3600;
    assert seconds == h * 3600 + rest;
    var m, sec := rest / 60, rest % 60;
    assert rest == m * 60 + sec;
    assert seconds == (h * 60 + m) * 60 + sec;
  }

  /** A run of digits followed by a marker splits in one way only. */
  lemma {:induction false} DigitsThenMarker(a: string, b: string, x: string, y: string)
    requires AllDigits(a) && AllDigits(b)
    requires x != [] && y != [] && !('0' <= x[0] <= '9') && !('0' <= y[0] <= '9')
    requires a + x == b + y
    ensures a == b && x == y
  {
    assert a == (a + x)[..|a|];
    assert b == (b + y)[..|b|];
    assert x == (a + x)[|a|..];
    assert y == (b + y)[|b|..];
  }

  /** Two uptimes read the same exactly when they fall in the same
      minute: the text drops the seconds and nothing else. */
  lemma FormatUptimeSameMinute(s1: nat, s2: nat)
    ensures FormatUptime(s1) == FormatUptime(s2) <==> s1 / 60 == s2 / 60
  {
    UptimeParts(s1);
    UptimeParts(s2);
    if FormatUptime(s1) == FormatUptime(s2) {
      TextDetermines(s1, s2);
    } else if s1 / 60 == s2 / 60 {
      MinuteDetermines(s1, s2);
    }
  }

  /** The uptime text gives back its hours and minutes. */
  lemma TextDetermines(s1: nat, s2: nat)
    requires FormatUptime(s1) == FormatUptime(s2)
    ensures Hours(s1) == Hours(s2) && Minutes(s1) == Minutes(s2)
  {
    UptimeTextInjective(Hours(s1), Minutes(s1), Hours(s2), Minutes(s2));
  }

  lemma UptimeTextInjective(h1: nat, m1: nat, h2: nat, m2: nat)
    requires NatToString(h1) + "h " + NatToString(m1) + "m" == NatToString(h2) + "h " + NatToString(m2) + "m"
    ensures h1 == h2 && m1 == m2
  {
    SplitUptimeText(NatToString(h1), NatToString(m1), NatToString(h2), NatToString(m2));
    NatToStringInjective(h1, h2);
    NatToStringInjective(m1, m2);
  }

  predicate AllDigits(s: string)
  {
    forall i :: 0 <= i < |s| ==> '0' <= s[i] <= '9'
  }

  lemma SplitUptimeText(a1: string, b1: string, a2: string, b2: string)
    requires AllDigits(a1) && AllDigits(b1) && AllDigits(a2) && AllDigits(b2)
    requires a1 + "h " + b1 + "m" == a2 + "h " + b2 + "m"
    ensures a1 == a2 && b1 == b2
  {
    var x1, x2 := "h " + b1 + "m", "h " + b2 + "m";
    assert a1 + "h " + b1 + "m" == a1 + x1;
    assert a2 + "h " + b2 + "m" == a2 + x2;
    assert x1[0] == 'h' && x2[0] == 'h';
    DigitsThenMarker(a1, a2, x1, x2);
    assert b1 + "m" == x1[2..];
    assert b2 + "m" == x2[2..];
    DigitsThenMarker(b1, b2, "m", "m");
  }

  lemma MinuteDetermines(s1: nat, s2: nat)
    requires s1 / 60 == s2 / 60
    ensures Hours(s1) == Hours(s2) && Minutes(s1) == Minutes(s2)
  {
    UptimeParts(s1);
    UptimeParts(s2);
  }

  /** `c.isConnected` as a condition: absent reads as false. */
  predicate IsConnected(c: Connection)
  {
    c.isConnected == Some(true)
  }

  /** The connections card's `connectedCount/totalConnections`; both zero
      until the connections have loaded. */
  function ConnectionCounts(connections: Option<seq<Connection>>): (r: (nat, nat))
    ensures r.0 <= r.1
    ensures connections.None? ==> r == (0, 0)
    ensures connections.Some? ==> r.1 == |connections.value|
    ensures connections.Some? ==> (r.0 == r.1 <==> forall c :: c in connections.value ==> IsConnected(c))
    ensures connections.Some? ==> (r.0 == 0 <==> forall c :: c in connections.value ==> !IsConnected(c))
  {
    match connections
    case None => (0, 0)
    case Some(cs) =>
      var connected := Filter(cs, (c: Connection) => IsConnected(c));
      FilterAllKept(cs, (c: Connection) => IsConnected(c));
      (|connected|, |cs|)
  }

  /** The connected count goes up by one exactly for each connection whose
      `isConnected` is true: with the empty list at zero, this fixes it as
      the number of connected connections. */
  lemma ConnectionCountsCons(c: Connection, cs: seq<Connection>)
    ensures ConnectionCounts(Some([c] + cs)).0 == ConnectionCounts(Some(cs)).0 + (if IsConnected(c) then 1 else 0)
    ensures ConnectionCounts(Some([])).0 == 0
  {
    assert ([c] + cs)[1..] == cs;
  }

  /** A filter keeps as many elements as it was given exactly when it keeps
      all of them, and none exactly when it keeps none of them. */
  lemma {:induction false} FilterAllKept(cs: seq<Connection>, keep: Connection -> bool)
    ensures |Filter(cs, keep)| == |cs| <==> forall c :: c in cs ==> keep(c)
    ensures |Filter(cs, keep)| == 0 <==> forall c :: c in cs ==> !keep(c)
  {
    if cs != [] {
      FilterAllKept(cs[1..], keep);
      assert |Filter(cs[1..], keep)| <= |cs[1..]|;
      if forall c :: c in cs ==> keep(c) {
        FilterKeepsAll(cs, keep);
      }
      var r := Filter(cs, keep);
      if |r| > 0 {
        assert r[0] in r;
      }
    }
  }

  /** What the "Connected Databases" panel shows. */
  datatype Panel = Spinner | Listed(shown: seq<Connection>) | NoConnections

  /** A spinner while loading, else at most the first four connections, or
      the empty-state line when there are none. */
  function ConnectionsPanel(loading: bool, connections: Option<seq<Connection>>): (r: Panel)
    ensures r.Listed? ==> connections.Some? && 0 < |r.shown| <= 4 && r.shown <= connections.value
    ensures r.Listed? ==> connections.Some? && |r.shown| == if |connections.value| < 4 then |connections.value| else 4
    ensures r == Spinner <==> loading
    ensures r == NoConnections <==> !loading && (connections.None? || connections.value == [])
  {
    if loading then Spinner
    else if connections.Some? && |connections.value| > 0 then
      Listed(connections.value[..if |connections.value| < 4 then |connections.value| else 4])
    else NoConnections
  }

  /** The health report the status card reads. */
  datatype Health = Health(status: string, uptime: nat)

  /** The system status card: "Healthy" only for a healthy report, and an
      uptime line only when a report arrived. */
  function StatusCard(health: Option<Health>): (r: (string, Option<string>))
    ensures r.0 == "Healthy" <==> health.Some? && health.value.status == "healthy"
    ensures r.0 == "Healthy" || r.0 == "Degraded"
    ensures r.1.Some? <==> health.Some?
    ensures health.Some? ==> r.1 == Some("Uptime: " + FormatUptime(health.value.uptime))
  {
    var value := if health.Some? && health.value.status == "healthy" then "Healthy" else "Degraded";
    (value, if health.Some? then Some("Uptime: " + FormatUptime(health.value.uptime)) else None)
  }
}
