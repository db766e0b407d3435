/** Tunnel discovery: the text handling of `get_tunnel_interface` and of the
    positional indexing in `run_ping_and_traceroute`. The queries' responses
    come in as parameters; sending them is the workflow's business. */
module Discovery {
  import opened Tokens

  /** Where the source would raise `IndexError`. */
  datatype Failure =
    | NoInterfaceToken           // the filter response has no token for `[0]`
    | TooFewTokens(count: nat)   // the detail response has fewer than 6 tokens

  datatype Result<T> = Ok(value: T) | Err(error: Failure) {
    predicate IsFailure() { Err? }

    function PropagateFailure<U>(): Result<U>
      requires Err?
    {
      Err(error)
    }

    function Extract(): T
      requires Ok?
    {
      value
    }
  }

  /** The tunnel's two addresses, as the router prints them. */
  datatype Endpoints = Endpoints(source: string, destination: string)

  /** The filtered query whose first token names the production tunnel. */
  const FilterQuery: string := "sh int desc | I Prod"

  /** `interface = search_tunnel.split()` then `interface[0]`: the first
      whitespace-delimited token of the filter response. */
  function InterfaceName(filterResponse: string): (r: Result<string>)
    ensures r.Err? <==> AllSpace(filterResponse)
    ensures r.Err? ==> r.error == NoInterfaceToken
    ensures r.Ok? ==>
      var n := LeadingSpaceCount(filterResponse);
      IsWord(r.value) && r.value <= filterResponse[n..] &&
      AtBoundary(filterResponse[n + |r.value|..])
  {
    var tokens := Split(filterResponse);
    SplitEmptyIff(filterResponse);
    if tokens == [] then Err(NoInterfaceToken)
    else
      FirstTokenAfterSpaces(filterResponse);
      Ok(tokens[0])
  }

  /** The query scoped to the tunnel interface, `f"show int {i} | i des"`. */
  function DetailQuery(iface: string): (q: string)
    ensures |q| == |iface| + 17
    ensures q[..9] == "show int " && q[9..9 + |iface|] == iface && q[9 + |iface|..] == " | i des"
  {
    "show int " + iface + " | i des"
  }

  /** `source_ip = tokens[2]`, `destination_ip = tokens[5]`. */
  function EndpointsOf(tokens: seq<string>): (r: Result<Endpoints>)
    ensures r.Ok? <==> |tokens| >= 6
    ensures r.Err? ==> r.error == TooFewTokens(|tokens|)
    ensures r.Ok? ==> r.value == Endpoints(tokens[2], tokens[5])
  {
    if |tokens| < 6 then Err(TooFewTokens(|tokens|))
    else Ok(Endpoints(tokens[2], tokens[5]))
  }

  /** The interface name is the third token of the detail query, so the
      router sees it whole. */
  lemma DetailQueryTokens(iface: string)
    requires IsWord(iface)
    ensures Split(DetailQuery(iface)) == ["show", "int", iface, "|", "i", "des"]
  {
    var toks := ["show", "int", iface, "|", "i", "des"];
    assert JoinSpace(toks[5..]) == "des";
    assert JoinSpace(toks[4..]) == "i des";
    assert JoinSpace(toks[3..]) == "| i des";
    assert JoinSpace(toks[2..]) == iface + " | i des";
    assert JoinSpace(toks[1..]) == "int " + iface + " | i des";
    assert JoinSpace(toks) == DetailQuery(iface);
    SplitJoinSpace(toks);
  }

  /** The endpoints are the third and sixth whitespace-separated fields of
      the detail response, however the fields are spaced; a response with
      fewer than six fields yields no endpoints. */
  lemma EndpointsOfLayout(gaps: seq<string>, toks: seq<string>)
    requires ValidLayout(gaps, toks)
    ensures |toks| >= 6 ==> EndpointsOf(Split(Layout(gaps, toks))) == Ok(Endpoints(toks[2], toks[5]))
    ensures |toks| < 6 ==> EndpointsOf(Split(Layout(gaps, toks))) == Err(TooFewTokens(|toks|))
  {
    SplitOfLayout(gaps, toks);
  }

  /** A filter response with the name first: the name comes out, the rest of
      the line is ignored. */
  lemma InterfaceNameExample()
    ensures InterfaceName("Gi0/1  desc  Prod-Tunnel") == Ok("Gi0/1")
  {
    var toks := ["Gi0/1", "desc", "Prod-Tunnel"];
    var gaps := ["", "  ", "  ", ""];
    assert Layout(gaps, toks) == "Gi0/1  desc  Prod-Tunnel";
    SplitOfLayout(gaps, toks);
  }

  /** The seven fields of the description line
      `"Gi0/1 desc src 10.0.0.1 to dst 10.0.0.2"`. */
  const DetailLineFields: seq<string> := ["Gi0/1", "desc", "src", "10.0.0.1", "to", "dst", "10.0.0.2"]

  /** `" ".join` of seven fields, written out. It models nothing of its own:
      it only carries the solver through the sample line below. */
  lemma JoinSevenFields(a: string, b: string, c: string, d: string, e: string, f: string, g: string)
    ensures JoinSpace([a, b, c, d, e, f, g]) == a + " " + (b + " " + (c + " " + (d + " " + (e + " " + (f + " " + g)))))
  {
    var toks := [a, b, c, d, e, f, g];
    assert JoinSpace(toks[6..]) == g;
    assert JoinSpace(toks[5..]) == f + " " + g;
    assert JoinSpace(toks[4..]) == e + " " + (f + " " + g);
    assert JoinSpace(toks[3..]) == d + " " + (e + " " + (f + " " + g));
    assert JoinSpace(toks[2..]) == c + " " + (d + " " + (e + " " + (f + " " + g)));
    assert JoinSpace(toks[1..]) == b + " " + (c + " " + (d + " " + (e + " " + (f + " " + g))));
  }

  /** The line spelled as its fields and spaces; kept apart from the join,
      since the solver handles long literals poorly next to recursive
      functions. */
  lemma DetailLineSpelled()
    ensures "Gi0/1 desc src 10.0.0.1 to dst 10.0.0.2" ==
      "Gi0/1" + " " + ("desc" + " " + ("src" + " " + ("10.0.0.1" + " " + ("to" + " " + ("dst" + " " + "10.0.0.2")))))
  {
  }

  /** Those fields joined by single spaces are the line itself. */
  lemma DetailLineText()
    ensures JoinSpace(DetailLineFields) == "Gi0/1 desc src 10.0.0.1 to dst 10.0.0.2"
  {
    JoinSevenFields("Gi0/1", "desc", "src", "10.0.0.1", "to", "dst", "10.0.0.2");
    DetailLineSpelled();
  }

  /** Indices 2 and 5 of that line are `src` and `dst`, not the addresses. */
  lemma EndpointsExample()
    ensures EndpointsOf(Split(JoinSpace(DetailLineFields))) == Ok(Endpoints("src", "dst"))
  {
    SplitJoinSpace(DetailLineFields);
  }
}
