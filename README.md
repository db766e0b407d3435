# Network circuit diagnostics, modelled in Dafny

`Net_Script/Network_Script.py` diagnoses a WAN circuit by driving a router
over SSH. It sends a fixed battery of status commands. It finds the
production tunnel's interface from the first token of a filtered query. It
reads the tunnel's source and destination from token positions 2 and 5 of
that interface's description line. Then it pings and traceroutes the
destination. Every response except the filter query's goes into one report
string, which only grows as the run goes on.

The model has four modules:

- `Tokens` (`tokens.dfy`) models Python's `str.split()` with no argument.
  It cuts at runs of whitespace and yields no empty tokens. Its contracts
  characterise the result in both directions: a string splits to `toks`
  exactly when it is `toks` laid out between whitespace runs, with the inner
  runs non-empty.
- `Discovery` (`discovery.dfy`) holds the filter query, the interface name
  (`split()[0]`), the detail query `show int <name> | i des`, and the
  endpoint extraction (`[2]`, `[5]`). Each `IndexError` of the source is an
  `Err` of a `Result`.
- `Probe` (`probe.dfy`) holds the ping and traceroute templates and their
  delay factors.
- `Workflow` (`workflow.dfy`) holds a `Session` class. The router's answers
  in it are a function `respond` of the command, and a ghost log `sent`
  records each command with its delay factor. The four functions of the
  script are methods over that session. Each method is proved equal to a
  specification function of `respond` (the report it returns and the
  commands it sends). The lemmas state what those functions promise.

The SSH connection is the parameter `respond`. The report is therefore a
deterministic function of the incoming prefix and of the router's answers.
Two runs against sessions that answer alike give identical reports and send
identical commands.

The router is a stateless function of the command, which is general
enough for one run: every command of a run is sent exactly once
(`Workflow.InitialCommandsSentOnceFirst`, `Workflow.LaterCommandsDiffer`),
so an answer that depends on the session's history is, within a run, just
the answer to that one command.

What the code does that a reader might not expect:

- Tokens 2 and 5 (0-based) of `Gi0/1 desc src 10.0.0.1 to dst 10.0.0.2`
  are `src` and `dst`, not the addresses (`Discovery.EndpointsExample`).
  The ping built from that line is `ping dst so src re 500 si 1400`
  (`Probe.ProbeExample`).
- Only the ping is sent with a longer delay (`delay_factor=7`). The
  traceroute uses the default.
- The filter-query response is never added to the report. Only the detail
  response, the ping output and the traceroute output are.
- On a failure the code raises, and the report built so far is lost.
  Nothing in the code keeps a partial report, so the model's `Err` carries
  only the reason.

## Model

| member | source | states |
|---|---|---|
| Tokens.IsSpaceTable | Net_Script/Network_Script.py:36 | the ASCII characters `str.split()` cuts at are exactly HT, LF, VT, FF, CR, the separators 0x1C-0x1F and the space |
| Tokens.Word | Net_Script/Network_Script.py:36 | the run a token is cut from: the longest whitespace-free prefix, followed by the end or by whitespace |
| Tokens.Split | Net_Script/Network_Script.py:36 | `str.split()`: every token it returns is non-empty and free of whitespace |
| Tokens.SplitSkipsSpaces | Net_Script/Network_Script.py:36 | leading whitespace never changes the tokens |
| Tokens.SplitWordThen | Net_Script/Network_Script.py:36 | a whitespace-free word followed by the end or by whitespace is the next token |
| Tokens.SplitOfLayout | Net_Script/Network_Script.py:56 | round trip: tokens laid out between any whitespace runs (inner runs non-empty) split back to exactly those tokens |
| Tokens.LayoutOfSplit | Net_Script/Network_Script.py:56 | every string is its tokens laid out between its whitespace runs, so nothing but whitespace is dropped |
| Tokens.SplitCharacterization | Net_Script/Network_Script.py:56 | both directions: `s.split() == toks` exactly when `s` is `toks` laid out between whitespace runs |
| Tokens.SplitEmptyIff | Net_Script/Network_Script.py:36-39 | `split()` is empty exactly when the string is empty or all whitespace, so `[0]` fails exactly then |
| Tokens.FirstTokenAfterSpaces | Net_Script/Network_Script.py:36-39 | the first token is the whitespace-free run that starts after the leading whitespace |
| Tokens.SplitJoinSpace | Net_Script/Network_Script.py:39 | splitting words joined by single spaces gives the words back |
| Discovery.InterfaceName | Net_Script/Network_Script.py:35-39 | the interface is the first whitespace-delimited token of the filter response; an empty or all-whitespace response is the error `NoInterfaceToken`, and only then |
| Discovery.DetailQuery | Net_Script/Network_Script.py:39 | the template, verbatim: `show int `, then the interface name unchanged, then ` &#124; i des` |
| Discovery.EndpointsOf | Net_Script/Network_Script.py:70-72 | endpoints exist exactly when there are at least six tokens, and are then tokens 2 and 5 (source, destination); otherwise the error carries the token count |
| Discovery.DetailQueryTokens | Net_Script/Network_Script.py:39 | the detail query splits into six fields with the interface name whole as the third |
| Discovery.EndpointsOfLayout | Net_Script/Network_Script.py:56-72 | source and destination are the third and sixth whitespace-separated fields of the detail response whatever the spacing; fewer than six fields is an error and yields no pair |
| Discovery.InterfaceNameExample | Net_Script/Network_Script.py:35-39 | `"Gi0/1  desc  Prod-Tunnel"` names interface `Gi0/1` |
| Discovery.DetailLineText | Net_Script/Network_Script.py:56 | the seven fields `Gi0/1`, `desc`, `src`, `10.0.0.1`, `to`, `dst`, `10.0.0.2` joined by single spaces are the line `Gi0/1 desc src 10.0.0.1 to dst 10.0.0.2` |
| Discovery.EndpointsExample | Net_Script/Network_Script.py:56-72 | that line (its fields joined by single spaces) gives source `src` and destination `dst` |
| Probe.PingCommand | Net_Script/Network_Script.py:76 | the template, verbatim: `ping `, the destination, ` so `, the source, ` re 500 si 1400`, each address unchanged |
| Probe.TraceCommand | Net_Script/Network_Script.py:77 | the template, verbatim: `traceroute `, the destination unchanged, ` time 1` |
| Probe.PingCommandTokens | Net_Script/Network_Script.py:76 | the ping reads as `ping D so S re 500 si 1400`: destination second, source fourth, fixed repeat count and size |
| Probe.TraceCommandTokens | Net_Script/Network_Script.py:77 | the traceroute reads as `traceroute D time 1` |
| Probe.PingCommandInjective | Net_Script/Network_Script.py:76 | each address is substituted where it can be read back: different endpoints give different pings |
| Probe.ProbeExample | Net_Script/Network_Script.py:76-77 | the probes for `src`/`dst` are `ping dst so src re 500 si 1400` and `traceroute dst time 1` |
| Workflow.Session.SendCommand | Net_Script/Network_Script.py:78 | a send returns the router's answer to that command and appends the command with its delay factor to the log |
| Workflow.TunnelDetail | Net_Script/Network_Script.py:35-40 | discovery fails exactly when the filter response has no token, and then with `NoInterfaceToken` |
| Workflow.ProbeReport | Net_Script/Network_Script.py:54-80 | the probe stage succeeds exactly when discovery succeeds and the detail response has at least six tokens; its report is the incoming report, then the detail response, then more |
| Workflow.RunReport | Net_Script/Network_Script.py:17-23 | a successful run's report starts with the incoming report followed by the battery's transcript |
| Workflow.AtDefaultDelayShape | Net_Script/Network_Script.py:20-21 | the battery's log holds each command once, in order, at the default delay factor |
| Workflow.TunnelSentShape | Net_Script/Network_Script.py:35-39 | discovery sends the filter query, then the detail query for the first token exactly when the filter response has one |
| Workflow.ProbeSentShape | Net_Script/Network_Script.py:54-79 | the probe stage sends what discovery sends, then, exactly when the stage succeeds, the ping for the endpoints read from the detail response at delay 7 and the traceroute for them at the default; otherwise nothing more |
| Workflow.RunSentShape | Net_Script/Network_Script.py:17-79 | a run sends the battery at delay 1, then the filter query, and eight commands in all exactly when it succeeds |
| Workflow.BatteryStep | Net_Script/Network_Script.py:20-21 | one pass of the battery loop appends the response and a newline to the transcript and logs the command at the default delay |
| Workflow.GetTunnelInterface | Net_Script/Network_Script.py:26-40 | returns the detail response for the filter response's first token and sends the filter query then the detail query; with no token it fails after the filter query alone |
| Workflow.GetSourceAndDestinationIps | Net_Script/Network_Script.py:43-56 | returns the detail response's tokens and the report with the detail response appended |
| Workflow.RunPingAndTraceroute | Net_Script/Network_Script.py:59-80 | returns the report extended by the detail, ping and traceroute responses and sends ping (delay 7) then traceroute; the incoming report is a prefix of the result |
| Workflow.RunInitialChecks | Net_Script/Network_Script.py:7-23 | the loop appends each battery response and a newline, logging each command at the default delay, then runs the probe stage; the result extends the prefix and the battery's transcript |
| Workflow.TranscriptAgrees | Net_Script/Network_Script.py:20-21 | the battery's part of the report depends only on the router's answers to the battery's own commands |
| Workflow.InitialChecksWrittenOut | Net_Script/Network_Script.py:17-21 | the battery is `show clock`, the uptime section of `sh ver`, `show bgp sum`, `show int des` in that order, each response followed by exactly one newline |
| Workflow.RunSucceeds | Net_Script/Network_Script.py:17-80 | a successful run sends exactly eight commands in order (battery, filter, detail, ping at delay 7, traceroute) and reports prefix + battery responses with newlines + detail + ping + traceroute |
| Workflow.RunWithoutInterface | Net_Script/Network_Script.py:35-39 | an all-whitespace filter response fails the run after five commands, the fifth being the filter query `sh int desc &#124; I Prod`: no detail query and no probe |
| Workflow.RunWithShortDetail | Net_Script/Network_Script.py:54-72 | a detail response with fewer than six tokens fails the run after six commands: no ping, no traceroute |
| Workflow.RunSucceedsIff | Net_Script/Network_Script.py:35-72 | the run succeeds exactly when the filter response has a token and the detail response has at least six |
| Workflow.RunReportExtends | Net_Script/Network_Script.py:21-79 | the report only grows: a successful report extends the prefix and the battery transcript, and the probe stage only appends |
| Workflow.LaterCommandsDiffer | Net_Script/Network_Script.py:17-79 | the filter, detail, ping and traceroute commands are none of the battery's commands and all differ from each other |
| Workflow.InitialCommandsSentOnceFirst | Net_Script/Network_Script.py:17-22 | on every path the battery is the first four commands sent, and none of them is sent again |
| Workflow.FilterResponseOnlyNamesInterface | Net_Script/Network_Script.py:35-55 | the filter response is never appended: only its first token affects the report and the commands |

## Left out

- `main` (`Net_Script/Network_Script.py:83-129`) is left out. It reads credentials with `getpass`, reads `sys.argv`, opens the SSH connection and prints. All of that is I/O.
- `Net_Script/EAN.py` is left out. It is paramiko SSH setup and raw shell reads, with no logic of the workflow.
- Session errors (`IOError` and netmiko timeouts raised by a send) are not modelled. `respond` is total. In the code such an error ends the run and `main` drops the partial report, so there is no partial-result behaviour to model.
- What netmiko does with `delay_factor` (read timing, completion detection) is not modelled. The factor is recorded in the log as data.
- The two `IndexError` sites become `Err(NoInterfaceToken)` and `Err(TooFewTokens(n))`. `IOError` is not modelled (see above). In the source, the handler around the run in `main` (`Net_Script/Network_Script.py:122-129`) catches `IOError` but not `IndexError`; the `IndexError` handler at line 98 guards only the reading of `sys.argv`.
- `Tokens.IsSpace` covers Python's ASCII whitespace (0x09-0x0D, 0x1C-0x1F, 0x20) only. The non-ASCII whitespace that `str.split()` also cuts at (U+0085, U+00A0, U+2000-U+200A and others) is not modelled.
