/** PipeWire node names of the channels, their volume filters and the mixes. */
module Naming {
  import opened Prelude

  const PREFIX := "ut-ch-"
  const STREAM_SUFFIX := "-stream-vol"
  const MONITOR_SUFFIX := "-monitor-vol"
  const STREAM_OUT := "ut-stream-out"

  function Suffix(mix: MixType): string {
    match mix case Stream => STREAM_SUFFIX case Monitor => MONITOR_SUFFIX
  }

  function NodeName(channel: string): string {
    PREFIX + channel
  }

  function VolNodeName(channel: string, mix: MixType): string {
    PREFIX + channel + Suffix(mix)
  }

  function MixNodeName(mix: MixType): string {
    match mix case Stream => "ut-stream-mix" case Monitor => "ut-monitor-mix"
  }

  predicate IsUndertoneChannel(name: string) {
    && StartsWith(name, PREFIX)
    && !EndsWith(name, STREAM_SUFFIX)
    && !EndsWith(name, MONITOR_SUFFIX)
  }

  /** A channel name whose node name cannot be confused with a filter's. */
  predicate Plain(channel: string) {
    !EndsWith(channel, STREAM_SUFFIX) && !EndsWith(channel, MONITOR_SUFFIX)
  }

  /** What a node stands for in the routing graph. */
  datatype Role =
    | Sink(channel: string)
    | Filter(channel: string, mix: MixType)
    | Mix(mix: MixType)
    | StreamOut

  function NameOf(role: Role): string {
    match role
    case Sink(channel) => NodeName(channel)
    case Filter(channel, mix) => VolNodeName(channel, mix)
    case Mix(mix) => MixNodeName(mix)
    case StreamOut => STREAM_OUT
  }

  predicate PlainRole(role: Role) {
    (role.Sink? || role.Filter?) ==> Plain(role.channel)
  }

  lemma SameTail(a: string, b: string, x: string, y: string)
    requires a + x == b + y && |x| == |y|
    ensures a == b && x == y
  {
    assert (a + x)[..|a|] == a && (b + y)[..|b|] == b;
    assert (a + x)[|a|..] == x && (b + y)[|b|..] == y;
  }

  lemma FilterNamesInjective(c: string, m: MixType, d: string, n: MixType)
    requires (c, m) != (d, n)
    ensures VolNodeName(c, m) != VolNodeName(d, n)
  {
    var s, t := VolNodeName(c, m), VolNodeName(d, n);
    // the letter before "-vol": "stream" ends in 'm', "monitor" in 'r'
    assert s[|s| - 5] == Suffix(m)[|Suffix(m)| - 5];
    assert t[|t| - 5] == Suffix(n)[|Suffix(n)| - 5];
    if m == n && s == t {
      SameTail(PREFIX + c, PREFIX + d, Suffix(m), Suffix(n));
      SameTail(PREFIX, PREFIX, c, d);
    }
  }

  lemma SinkIsNotFilter(c: string, d: string, n: MixType)
    requires Plain(c)
    ensures NodeName(c) != VolNodeName(d, n)
  {
    assert VolNodeName(d, n) == PREFIX + (d + Suffix(n));
    if c == d + Suffix(n) {
      assert EndsWith(c, Suffix(n));
    }
    assert NodeName(c)[|PREFIX|..] == c;
    assert (PREFIX + (d + Suffix(n)))[|PREFIX|..] == d + Suffix(n);
  }

  lemma FixedNames()
    ensures MixNodeName(Stream) != MixNodeName(Monitor)
    ensures MixNodeName(Stream) != STREAM_OUT && MixNodeName(Monitor) != STREAM_OUT
    ensures forall c :: |NodeName(c)| > 3 && NodeName(c)[3] == 'c'
    ensures forall c, m :: |VolNodeName(c, m)| > 3 && VolNodeName(c, m)[3] == 'c'
    ensures MixNodeName(Stream)[3] == 's' && MixNodeName(Monitor)[3] == 'm' && STREAM_OUT[3] == 's'
  {
    assert MixNodeName(Stream)[10] == 'm' && STREAM_OUT[10] == 'o';
  }

  /** No two roles share a node name, so "unique names" is a consistent demand. */
  lemma NamesInjective(r: Role, s: Role)
    requires PlainRole(r) && PlainRole(s)
    requires r != s
    ensures NameOf(r) != NameOf(s)
  {
    FixedNames();
    match (r, s)
    case (Sink(c), Sink(d)) =>
      assert NodeName(c)[|PREFIX|..] == c && NodeName(d)[|PREFIX|..] == d;
    case (Filter(c, m), Filter(d, n)) => FilterNamesInjective(c, m, d, n);
    case (Sink(c), Filter(d, n)) => SinkIsNotFilter(c, d, n);
    case (Filter(c, m), Sink(d)) => SinkIsNotFilter(d, c, m);
    case (_, _) =>
  }

  lemma FilterIsNotChannel(c: string, m: MixType)
    ensures !IsUndertoneChannel(VolNodeName(c, m))
  {
    var s := VolNodeName(c, m);
    assert s[|s| - |Suffix(m)|..] == Suffix(m);
  }

  lemma SuffixAcrossPrefix(c: string, m: MixType)
    ensures EndsWith(NodeName(c), Suffix(m)) <==> EndsWith(c, Suffix(m)) || c == Suffix(m)[1..]
  {
    var s, t := NodeName(c), Suffix(m);
    if |c| >= |t| {
      assert s[|s| - |t|..] == c[|c| - |t|..];
    } else if |c| == |t| - 1 {
      assert s[|s| - |t|..] == ['-'] + c;
      assert t == ['-'] + t[1..];
    } else if |t| <= |s| {
      // the window would start inside "ut-ch", before the prefix's last '-'
      var k := |s| - |t|;
      assert s[k..][|PREFIX| - 1 - k] == '-';
      assert t[|PREFIX| - 1 - k] != '-' || EndsWith(s, t) == (s[k..] == t);
      assert k <= 4;
      assert s[k] != t[0] || k == 2;
      if k == 2 {
        assert s[k..][3] == '-';
        assert t[3] != '-';
      }
      assert s[k..][0] == s[k];
    }
  }

  /** Which channel sinks `get_undertone_channels` recognises. Besides the two
      suffixes it also drops the channels called exactly "stream-vol" and
      "monitor-vol", whose suffix borrows the prefix's last '-'. */
  lemma RecognisedExactlyWhen(c: string)
    ensures IsUndertoneChannel(NodeName(c))
       <==> Plain(c) && c != "stream-vol" && c != "monitor-vol"
  {
    assert NodeName(c)[..|PREFIX|] == PREFIX;
    SuffixAcrossPrefix(c, Stream);
    SuffixAcrossPrefix(c, Monitor);
    assert Suffix(Stream)[1..] == "stream-vol";
    assert Suffix(Monitor)[1..] == "monitor-vol";
  }
}
