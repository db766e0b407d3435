/** The reachability probes built from the discovered endpoints. */
module Probe {
  import opened Tokens
  import opened Discovery

  /** netmiko's default `delay_factor`, used for every send but the ping. */
  const DefaultDelayFactor: nat := 1
  /** The ping is sent with `delay_factor=7`. */
  const PingDelayFactor: nat := 7

  /** `f"ping {destination_ip} so {source_ip} re 500 si 1400"`: 500
      repeats of 1400-byte packets, sourced from the tunnel's own address. */
  function PingCommand(e: Endpoints): (c: string)
    ensures var d, s := |e.destination|, |e.source|;
      |c| == d + s + 24 &&
      c[..5] == "ping " && c[5..5 + d] == e.destination &&
      c[5 + d..9 + d] == " so " && c[9 + d..9 + d + s] == e.source &&
      c[9 + d + s..] == " re 500 si 1400"
  {
    "ping " + e.destination + " so " + e.source + " re 500 si 1400"
  }

  /** `f"traceroute {destination_ip} time 1"`: one time unit per hop. */
  function TraceCommand(e: Endpoints): (c: string)
    ensures var d := |e.destination|;
      |c| == d + 18 &&
      c[..11] == "traceroute " && c[11..11 + d] == e.destination && c[11 + d..] == " time 1"
  {
    "traceroute " + e.destination + " time 1"
  }

  /** The router reads the ping as eight fields: the destination where a
      target belongs, the source after `so`, and the fixed repeat count and
      size. */
  lemma PingCommandTokens(e: Endpoints)
    requires IsWord(e.source) && IsWord(e.destination)
    ensures Split(PingCommand(e)) == ["ping", e.destination, "so", e.source, "re", "500", "si", "1400"]
  {
    var toks := ["ping", e.destination, "so", e.source, "re", "500", "si", "1400"];
    assert JoinSpace(toks[7..]) == "1400";
    assert JoinSpace(toks[6..]) == "si" + " " + "1400";
    assert JoinSpace(toks[5..]) == "500" + " " + ("si" + " " + "1400");
    assert JoinSpace(toks[4..]) == "re" + " " + ("500" + " " + ("si" + " " + "1400"));
    var tail := " re 500 si 1400";
    assert tail == " " + ("re" + " " + ("500" + " " + ("si" + " " + "1400")));
    assert JoinSpace(toks[3..]) == e.source + tail;
    assert JoinSpace(toks[2..]) == "so" + " " + (e.source + tail);
    assert JoinSpace(toks[1..]) == e.destination + " " + ("so" + " " + (e.source + tail));
    assert JoinSpace(toks) == "ping" + " " + (e.destination + " " + ("so" + " " + (e.source + tail)));
    assert PingCommand(e) == "ping" + " " + (e.destination + " " + ("so" + " " + (e.source + tail)));
    SplitJoinSpace(toks);
  }

  /** The traceroute is read as four fields, the destination second. */
  lemma TraceCommandTokens(e: Endpoints)
    requires IsWord(e.destination)
    ensures Split(TraceCommand(e)) == ["traceroute", e.destination, "time", "1"]
  {
    var toks := ["traceroute", e.destination, "time", "1"];
    assert JoinSpace(toks[3..]) == "1";
    assert JoinSpace(toks[2..]) == "time 1";
    assert JoinSpace(toks[1..]) == e.destination + " time 1";
    assert JoinSpace(toks) == TraceCommand(e);
    SplitJoinSpace(toks);
  }

  /** Distinct endpoints give distinct pings: each address is substituted
      where it can be read back. */
  lemma PingCommandInjective(e1: Endpoints, e2: Endpoints)
    requires IsWord(e1.source) && IsWord(e1.destination)
    requires IsWord(e2.source) && IsWord(e2.destination)
    requires PingCommand(e1) == PingCommand(e2)
    ensures e1 == e2
  {
    PingCommandTokens(e1);
    PingCommandTokens(e2);
  }

  /** The probes for the endpoints `src`/`dst` that the detail line
      `"Gi0/1 desc src 10.0.0.1 to dst 10.0.0.2"` yields. */
  lemma ProbeExample()
    ensures PingCommand(Endpoints("src", "dst")) == "ping dst so src re 500 si 1400"
    ensures TraceCommand(Endpoints("src", "dst")) == "traceroute dst time 1"
  {
  }
}
