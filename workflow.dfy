/** The diagnostic run of `Network_Script.py`: a fixed battery of status
    commands, tunnel discovery, then ping and traceroute, every response
    except the filter query's appended to one report string. The SSH
    connection is a `Session` whose answers are a function of the command
    sent. */
module Workflow {
  import opened Tokens
  import opened Discovery
  import opened Probe

  /** One command handed to the session, with the delay factor it was sent
      with. */
  datatype Sent = Sent(command: string, delayFactor: nat)

  /** A connected router session. What the router answers is `respond`;
      `sent` records every command in the order it was sent. */
  class Session {
    const respond: string -> string
    ghost var sent: seq<Sent>

    constructor (respond: string -> string)
      ensures this.respond == respond && sent == []
    {
      this.respond := respond;
      sent := [];
    }

    /** `net_connect.send_command(command, delay_factor=...)`. */
    method SendCommand(command: string, delayFactor: nat) returns (response: string)
      modifies this
      ensures response == respond(command)
      ensures sent == old(sent) + [Sent(command, delayFactor)]
    {
      response := respond(command);
      sent := sent + [Sent(command, delayFactor)];
    }
  }

  /** The status battery of `run_initial_checks`, in the order it is sent. */
  const InitialCommands: seq<string> :=
    ["show clock", "sh ver | section uptime", "show bgp sum", "show int des"]

  /** The responses to `commands`, each followed by a newline. */
  function Transcript(respond: string -> string, commands: seq<string>): string
    decreases |commands|
  {
    if commands == [] then ""
    else
      var n := |commands| - 1;
      Transcript(respond, commands[..n]) + respond(commands[n]) + "\n"
  }

  /** `commands`, each sent with the default delay factor. */
  function AtDefaultDelay(commands: seq<string>): seq<Sent>
    decreases |commands|
  {
    if commands == [] then []
    else
      var n := |commands| - 1;
      AtDefaultDelay(commands[..n]) + [Sent(commands[n], DefaultDelayFactor)]
  }

  /** Each command is logged once, in order, at the default delay factor. */
  lemma {:induction false} AtDefaultDelayShape(commands: seq<string>)
    ensures |AtDefaultDelay(commands)| == |commands|
    ensures forall k :: 0 <= k < |commands| ==> AtDefaultDelay(commands)[k] == Sent(commands[k], DefaultDelayFactor)
    decreases |commands|
  {
    if commands != [] {
      AtDefaultDelayShape(commands[..|commands| - 1]);
    }
  }

  /** What `get_tunnel_interface` returns: the response to the detail query
      for the first token of the filter response. */
  function TunnelDetail(respond: string -> string): (r: Result<string>)
    ensures r.Err? <==> AllSpace(respond(FilterQuery))
    ensures r.Err? ==> r.error == NoInterfaceToken
  {
    match InterfaceName(respond(FilterQuery))
    case Err(e) => Err(e)
    case Ok(iface) => Ok(respond(DetailQuery(iface)))
  }

  /** What `get_tunnel_interface` sends. */
  function TunnelSent(respond: string -> string): seq<Sent> {
    [Sent(FilterQuery, DefaultDelayFactor)] +
    match InterfaceName(respond(FilterQuery))
    case Err(_) => []
    case Ok(iface) => [Sent(DetailQuery(iface), DefaultDelayFactor)]
  }

  /** What `run_ping_and_traceroute` returns. */
  function ProbeReport(output: string, respond: string -> string): (r: Result<string>)
    ensures r.Ok? <==> TunnelDetail(respond).Ok? && |Split(TunnelDetail(respond).value)| >= 6
    ensures r.Ok? ==> output + TunnelDetail(respond).value <= r.value
  {
    match TunnelDetail(respond)
    case Err(e) => Err(e)
    case Ok(detail) =>
      match EndpointsOf(Split(detail))
      case Err(e) => Err(e)
      case Ok(ends) => Ok(output + detail + respond(PingCommand(ends)) + respond(TraceCommand(ends)))
  }

  /** What `run_ping_and_traceroute` sends. */
  function ProbeSent(respond: string -> string): seq<Sent> {
    TunnelSent(respond) +
    match TunnelDetail(respond)
    case Err(_) => []
    case Ok(detail) =>
      match EndpointsOf(Split(detail))
      case Err(_) => []
      case Ok(ends) => [Sent(PingCommand(ends), PingDelayFactor), Sent(TraceCommand(ends), DefaultDelayFactor)]
  }

  /** What `run_initial_checks` returns. */
  function RunReport(output: string, respond: string -> string): (r: Result<string>)
    ensures r.Ok? ==> output + Transcript(respond, InitialCommands) <= r.value
  {
    ProbeReport(output + Transcript(respond, InitialCommands), respond)
  }

  /** What `run_initial_checks` sends. */
  function RunSent(respond: string -> string): seq<Sent> {
    AtDefaultDelay(InitialCommands) + ProbeSent(respond)
  }

  /** Discovery sends the filter query, then the detail query for the first
      token exactly when the filter response has one. */
  lemma TunnelSentShape(respond: string -> string)
    ensures var r := TunnelSent(respond);
      1 <= |r| <= 2 && r[0] == Sent(FilterQuery, DefaultDelayFactor) &&
      (|r| == 2 <==> !AllSpace(respond(FilterQuery))) &&
      (|r| == 2 ==> r[1] == Sent(DetailQuery(InterfaceName(respond(FilterQuery)).value), DefaultDelayFactor))
  {
  }

  /** The probe stage sends what discovery sends, then two more commands,
      the ping at delay factor 7 and the traceroute at the default, exactly
      when the stage succeeds. */
  lemma ProbeSentShape(output: string, respond: string -> string)
    ensures var r, n := ProbeSent(respond), |TunnelSent(respond)|;
      n <= |r| && r[..n] == TunnelSent(respond) && (|r| == n || |r| == n + 2) &&
      (|r| == n + 2 <==> ProbeReport(output, respond).Ok?) &&
      (|r| == n + 2 ==>
        var ends := EndpointsOf(Split(TunnelDetail(respond).value)).value;
        r[n] == Sent(PingCommand(ends), PingDelayFactor) && r[n + 1] == Sent(TraceCommand(ends), DefaultDelayFactor))
  {
  }

  /** A run sends the battery at the default delay, then the filter query,
      and eight commands in all exactly when it succeeds. */
  lemma RunSentShape(output: string, respond: string -> string)
    ensures var r := RunSent(respond);
      5 <= |r| <= 8 && r[4] == Sent(FilterQuery, DefaultDelayFactor) &&
      (forall k :: 0 <= k < 4 ==> r[k] == Sent(InitialCommands[k], DefaultDelayFactor)) &&
      (|r| == 8 <==> RunReport(output, respond).Ok?)
  {
    AtDefaultDelayShape(InitialCommands);
    TunnelSentShape(respond);
    ProbeSentShape(output + Transcript(respond, InitialCommands), respond);
  }

  /** `get_tunnel_interface`: the filter query, then, if its response has a
      first token, the detail query for that token. */
  method GetTunnelInterface(session: Session) returns (r: Result<string>)
    modifies session
    ensures r == TunnelDetail(session.respond)
    ensures session.sent == old(session.sent) + TunnelSent(session.respond)
  {
    var searchTunnel := session.SendCommand(FilterQuery, DefaultDelayFactor);
    var iface :- InterfaceName(searchTunnel);
    var prodInterface := session.SendCommand(DetailQuery(iface), DefaultDelayFactor);
    return Ok(prodInterface);
  }

  /** `get_source_and_destination_ips`: the detail response's tokens, and
      the report with the detail response appended. */
  method GetSourceAndDestinationIps(session: Session, output: string)
    returns (r: Result<(seq<string>, string)>)
    modifies session
    ensures TunnelDetail(session.respond).Err? ==> r == Err(TunnelDetail(session.respond).error)
    ensures TunnelDetail(session.respond).Ok? ==>
      var detail := TunnelDetail(session.respond).value;
      r == Ok((Split(detail), output + detail))
    ensures session.sent == old(session.sent) + TunnelSent(session.respond)
  {
    var destination :- GetTunnelInterface(session);
    var report := output + destination;
    return Ok((Split(destination), report));
  }

  /** `run_ping_and_traceroute`: discovery, then the ping (delay factor 7)
      and the traceroute, each response appended. */
  method RunPingAndTraceroute(output: string, session: Session) returns (r: Result<string>)
    modifies session
    ensures r == ProbeReport(output, session.respond)
    ensures r.Ok? ==> output <= r.value
    ensures session.sent == old(session.sent) + ProbeSent(session.respond)
  {
    var ips :- GetSourceAndDestinationIps(session, output);
    var ends :- EndpointsOf(ips.0);
    var report := ips.1;
    var pingCommand := PingCommand(ends);
    var traceCommand := TraceCommand(ends);
    var pingResponse := session.SendCommand(pingCommand, PingDelayFactor);
    report := report + pingResponse;
    var traceResponse := session.SendCommand(traceCommand, DefaultDelayFactor);
    report := report + traceResponse;
    return Ok(report);
  }

  /** One more battery command: its response and a newline join the
      transcript, and it joins the log at the default delay. */
  lemma BatteryStep(respond: string -> string, i: nat)
    requires i < |InitialCommands|
    ensures Transcript(respond, InitialCommands[..i + 1]) ==
      Transcript(respond, InitialCommands[..i]) + respond(InitialCommands[i]) + "\n"
    ensures AtDefaultDelay(InitialCommands[..i + 1]) ==
      AtDefaultDelay(InitialCommands[..i]) + [Sent(InitialCommands[i], DefaultDelayFactor)]
  {
    assert InitialCommands[..i + 1][..i] == InitialCommands[..i];
  }

  /** `run_initial_checks`: the status battery, each response and a newline
      appended in turn, then `run_ping_and_traceroute`. */
  method RunInitialChecks(output: string, session: Session) returns (r: Result<string>)
    modifies session
    ensures r == RunReport(output, session.respond)
    ensures r.Ok? ==> output + Transcript(session.respond, InitialCommands) <= r.value
    ensures session.sent == old(session.sent) + RunSent(session.respond)
  {
    var report := output;
    for i := 0 to |InitialCommands|
      invariant report == output + Transcript(session.respond, InitialCommands[..i])
      invariant session.sent == old(session.sent) + AtDefaultDelay(InitialCommands[..i])
    {
      var response := session.SendCommand(InitialCommands[i], DefaultDelayFactor);
      report := report + response + "\n";
      BatteryStep(session.respond, i);
    }
    assert InitialCommands[..|InitialCommands|] == InitialCommands;
    r := RunPingAndTraceroute(report, session);
    assert session.sent == old(session.sent) + (AtDefaultDelay(InitialCommands) + ProbeSent(session.respond));
  }

  /** The battery written out: four responses, each followed by exactly one
      newline, the four commands sent once each in the fixed order. */
  lemma InitialChecksWrittenOut(respond: string -> string)
    ensures Transcript(respond, InitialCommands) ==
      respond("show clock") + "\n" + respond("sh ver | section uptime") + "\n" +
      respond("show bgp sum") + "\n" + respond("show int des") + "\n"
    ensures AtDefaultDelay(InitialCommands) ==
      [Sent("show clock", 1), Sent("sh ver | section uptime", 1),
       Sent("show bgp sum", 1), Sent("show int des", 1)]
  {
    var c := InitialCommands;
    assert c[..1][..0] == [] && c[..2][..1] == c[..1] && c[..3][..2] == c[..2] && c[..4][..3] == c[..3];
    assert c[..4] == c;
    assert Transcript(respond, c[..1]) == respond(c[0]) + "\n";
    assert Transcript(respond, c[..2]) == Transcript(respond, c[..1]) + respond(c[1]) + "\n";
    assert Transcript(respond, c[..3]) == Transcript(respond, c[..2]) + respond(c[2]) + "\n";
    assert Transcript(respond, c[..4]) == Transcript(respond, c[..3]) + respond(c[3]) + "\n";
    assert AtDefaultDelay(c[..1]) == [Sent(c[0], 1)];
    assert AtDefaultDelay(c[..2]) == AtDefaultDelay(c[..1]) + [Sent(c[1], 1)];
    assert AtDefaultDelay(c[..3]) == AtDefaultDelay(c[..2]) + [Sent(c[2], 1)];
    assert AtDefaultDelay(c[..4]) == AtDefaultDelay(c[..3]) + [Sent(c[3], 1)];
  }

  /** A full run: eight commands in order (the battery, the filter query, the
      detail query, the ping at delay factor 7, the traceroute), and the
      report is the prefix followed by the battery's responses, the detail
      response, the ping and the traceroute output. */
  lemma RunSucceeds(output: string, respond: string -> string, iface: string, ends: Endpoints)
    requires InterfaceName(respond(FilterQuery)) == Ok(iface)
    requires EndpointsOf(Split(respond(DetailQuery(iface)))) == Ok(ends)
    ensures RunReport(output, respond) == Ok(
      output +
      respond("show clock") + "\n" + respond("sh ver | section uptime") + "\n" +
      respond("show bgp sum") + "\n" + respond("show int des") + "\n" +
      respond(DetailQuery(iface)) + respond(PingCommand(ends)) + respond(TraceCommand(ends)))
    ensures RunSent(respond) ==
      [Sent("show clock", 1), Sent("sh ver | section uptime", 1),
       Sent("show bgp sum", 1), Sent("show int des", 1),
       Sent("sh int desc | I Prod", 1), Sent(DetailQuery(iface), 1),
       Sent(PingCommand(ends), 7), Sent(TraceCommand(ends), 1)]
  {
    InitialChecksWrittenOut(respond);
    var r1, r2, r3, r4 := respond("show clock"), respond("sh ver | section uptime"),
      respond("show bgp sum"), respond("show int des");
    assert output + Transcript(respond, InitialCommands) == output + r1 + "\n" + r2 + "\n" + r3 + "\n" + r4 + "\n";
  }

  /** An empty or all-whitespace filter response stops the run after the
      filter query: no detail query, no probe. */
  lemma RunWithoutInterface(output: string, respond: string -> string)
    requires AllSpace(respond(FilterQuery))
    ensures RunReport(output, respond) == Err(NoInterfaceToken)
    ensures RunSent(respond) ==
      [Sent("show clock", 1), Sent("sh ver | section uptime", 1),
       Sent("show bgp sum", 1), Sent("show int des", 1),
       Sent("sh int desc | I Prod", 1)]
  {
    InitialChecksWrittenOut(respond);
  }

  /** A detail response with fewer than six tokens stops the run before the
      probes: no ping, no traceroute, no endpoints. */
  lemma RunWithShortDetail(output: string, respond: string -> string, iface: string)
    requires InterfaceName(respond(FilterQuery)) == Ok(iface)
    requires |Split(respond(DetailQuery(iface)))| < 6
    ensures RunReport(output, respond) == Err(TooFewTokens(|Split(respond(DetailQuery(iface)))|))
    ensures RunSent(respond) ==
      [Sent("show clock", 1), Sent("sh ver | section uptime", 1),
       Sent("show bgp sum", 1), Sent("show int des", 1),
       Sent("sh int desc | I Prod", 1), Sent(DetailQuery(iface), 1)]
  {
    InitialChecksWrittenOut(respond);
  }

  /** The run succeeds exactly when the filter response has a token and the
      detail response for it has at least six. */
  lemma RunSucceedsIff(output: string, respond: string -> string)
    ensures RunReport(output, respond).Ok? <==>
      !AllSpace(respond(FilterQuery)) &&
      |Split(respond(DetailQuery(InterfaceName(respond(FilterQuery)).value)))| >= 6
  {
  }

  /** The report only grows: a successful run's report extends the incoming
      `output` by the battery's transcript, and every stage after it only
      appends. */
  lemma RunReportExtends(output: string, respond: string -> string)
    ensures RunReport(output, respond).Ok? ==>
      output <= output + Transcript(respond, InitialCommands) <= RunReport(output, respond).value
    ensures forall prefix :: ProbeReport(prefix, respond).Ok? ==> prefix <= ProbeReport(prefix, respond).value
  {
  }

  /** No command sent after the battery is one of the battery's commands,
      and the four later commands differ from each other, so every command
      of a run is sent once. */
  lemma LaterCommandsDiffer(iface: string, ends: Endpoints)
    ensures FilterQuery !in InitialCommands
    ensures DetailQuery(iface) !in InitialCommands && DetailQuery(iface) != FilterQuery
    ensures PingCommand(ends) !in InitialCommands && PingCommand(ends) != FilterQuery
    ensures TraceCommand(ends) !in InitialCommands && TraceCommand(ends) != FilterQuery
    ensures DetailQuery(iface) != PingCommand(ends) && DetailQuery(iface) != TraceCommand(ends)
    ensures PingCommand(ends) != TraceCommand(ends)
  {
    var d := DetailQuery(iface);
    assert d[0] == 's' && d[2] == 'o' && d[5] == 'i' && |d| >= 17;
    assert PingCommand(ends)[0] == 'p';
    assert TraceCommand(ends)[0] == 't';
  }

  /** The battery is sent first, each command exactly once: the first four
      commands are the battery, and none of them is sent again. */
  lemma InitialCommandsSentOnceFirst(respond: string -> string)
    ensures |RunSent(respond)| >= 5
    ensures RunSent(respond)[..4] == AtDefaultDelay(InitialCommands)
    ensures forall k :: 4 <= k < |RunSent(respond)| ==> RunSent(respond)[k].command !in InitialCommands
  {
    InitialChecksWrittenOut(respond);
    var filter := respond(FilterQuery);
    match InterfaceName(filter)
    case Err(_) =>
      LaterCommandsDiffer("", Endpoints("", ""));
    case Ok(iface) =>
      var detail := respond(DetailQuery(iface));
      match EndpointsOf(Split(detail))
      case Err(_) =>
        LaterCommandsDiffer(iface, Endpoints("", ""));
      case Ok(ends) =>
        LaterCommandsDiffer(iface, ends);
  }

  /** The filter response is never appended to the report: two routers that
      answer alike except to the filter query, and whose filter responses
      start with the same token, give the same report and the same
      commands. */
  lemma FilterResponseOnlyNamesInterface(output: string, r1: string -> string, r2: string -> string)
    requires forall c :: c != FilterQuery ==> r1(c) == r2(c)
    requires InterfaceName(r1(FilterQuery)) == InterfaceName(r2(FilterQuery))
    ensures RunReport(output, r1) == RunReport(output, r2)
    ensures RunSent(r1) == RunSent(r2)
  {
    LaterCommandsDiffer("", Endpoints("", ""));
    TranscriptAgrees(r1, r2, InitialCommands);
    match InterfaceName(r1(FilterQuery))
    case Err(_) =>
    case Ok(iface) =>
      LaterCommandsDiffer(iface, Endpoints("", ""));
      var detail := r1(DetailQuery(iface));
      match EndpointsOf(Split(detail))
      case Err(_) =>
      case Ok(ends) =>
        LaterCommandsDiffer(iface, ends);
  }

  /** The transcript depends only on the answers to its own commands. */
  lemma {:induction false} TranscriptAgrees(r1: string -> string, r2: string -> string, commands: seq<string>)
    requires forall k :: 0 <= k < |commands| ==> r1(commands[k]) == r2(commands[k])
    ensures Transcript(r1, commands) == Transcript(r2, commands)
    decreases |commands|
  {
    if commands != [] {
      TranscriptAgrees(r1, r2, commands[..|commands| - 1]);
    }
  }
}
