/**
 * Terraform output extraction: `OutputProvider.Get` turns an opaque terraform
 * state into the typed `Outputs` record by asking an executor for a fixed,
 * ordered list of named outputs. The executor is a parameter: any function
 * from (state, output name) to a value or an error.
 */
module OutputProvider {
  import opened Wrappers
  import Strings

  /** The executor's `Output(tfState, outputName) (string, error)`. */
  type Executor = (string, string) -> Result<string, string>

  /** Go's `Outputs`; a nil `SystemDomainDNSServers` slice is `None`. */
  datatype Outputs = Outputs(
    externalIP: string,
    networkName: string,
    subnetworkName: string,
    boshTag: string,
    internalTag: string,
    directorAddress: string,
    routerBackendService: string,
    sshProxyTargetPool: string,
    tcpRouterTargetPool: string,
    wsTargetPool: string,
    concourseTargetPool: string,
    routerLBIP: string,
    sshProxyLBIP: string,
    tcpRouterLBIP: string,
    webSocketLBIP: string,
    concourseLBIP: string,
    systemDomainDNSServers: Option<seq<string>>)

  /** Go's zero value `Outputs{}`. */
  const EmptyOutputs := Outputs("", "", "", "", "", "", "", "", "", "", "", "", "", "", "", "", None)

  /**
   * What one call of `Get` gives back: Go's `(Outputs, error)` pair, plus the
   * names the executor was asked for, in order.
   */
  datatype Extraction = Extraction(outputs: Outputs, err: Option<string>, queried: seq<string>)

  const BaselineKeys: seq<string> :=
    ["external_ip", "network_name", "subnetwork_name", "bosh_open_tag_name", "internal_tag_name", "director_address"]
  const CfKeys: seq<string> :=
    ["router_backend_service", "ssh_proxy_target_pool", "tcp_router_target_pool", "ws_target_pool",
     "router_lb_ip", "ssh_proxy_lb_ip", "tcp_router_lb_ip", "ws_lb_ip"]
  const DNSServersKey: string := "system_domain_dns_servers"
  const ConcourseKeys: seq<string> := ["concourse_target_pool", "concourse_lb_ip"]

  /** The separator between DNS servers in the `system_domain_dns_servers` output. */
  const DNSServersSeparator: string := ",\n"

  /** The output names `Get` asks for, in the order it asks. */
  function QueryKeys(lbType: string, domainExists: bool): seq<string>
  {
    BaselineKeys
    + (if lbType == "cf" then CfKeys + (if domainExists then [DNSServersKey] else []) else [])
    + (if lbType == "concourse" then ConcourseKeys else [])
  }

  /** The values of a run of lookups, or the error of the first failing one. */
  datatype Fetched = Fetched(result: Result<seq<string>, string>, queried: seq<string>)

  /**
   * Asks the executor for each name in turn and stops at the first error:
   * Go's chain of `Output` calls, each followed by `if err != nil { return }`.
   */
  function Fetch(exec: Executor, tfState: string, names: seq<string>): (f: Fetched)
    ensures |f.queried| <= |names| && f.queried == names[..|f.queried|]
    ensures f.result.Success? ==>
      && f.queried == names
      && |f.result.value| == |names|
      && forall i :: 0 <= i < |names| ==> exec(tfState, names[i]) == Success(f.result.value[i])
    ensures f.result.Failure? ==>
      && |f.queried| >= 1
      && exec(tfState, names[|f.queried| - 1]) == Failure(f.result.error)
      && forall i :: 0 <= i < |f.queried| - 1 ==> exec(tfState, names[i]).Success?
    decreases |names|
  {
    if names == [] then Fetched(Success([]), [])
    else match exec(tfState, names[0])
      case Failure(e) => Fetched(Failure(e), [names[0]])
      case Success(v) =>
        var rest := Fetch(exec, tfState, names[1..]);
        match rest.result
        case Failure(e) => Fetched(Failure(e), [names[0]] + rest.queried)
        case Success(vs) => Fetched(Success([v] + vs), [names[0]] + rest.queried)
  }

  /** Builds the record from the values of `QueryKeys(lbType, domainExists)`, in that order. */
  function Assemble(vs: seq<string>, lbType: string, domainExists: bool): Outputs
    requires |vs| == |QueryKeys(lbType, domainExists)|
  {
    var cf := lbType == "cf";
    var concourse := lbType == "concourse";
    Outputs(
      externalIP := vs[0],
      networkName := vs[1],
      subnetworkName := vs[2],
      boshTag := vs[3],
      internalTag := vs[4],
      directorAddress := vs[5],
      routerBackendService := if cf then vs[6] else "",
      sshProxyTargetPool := if cf then vs[7] else "",
      tcpRouterTargetPool := if cf then vs[8] else "",
      wsTargetPool := if cf then vs[9] else "",
      concourseTargetPool := if concourse then vs[6] else "",
      routerLBIP := if cf then vs[10] else "",
      sshProxyLBIP := if cf then vs[11] else "",
      tcpRouterLBIP := if cf then vs[12] else "",
      webSocketLBIP := if cf then vs[13] else "",
      concourseLBIP := if concourse then vs[7] else "",
      systemDomainDNSServers :=
        if cf && domainExists then Some(Strings.Split(vs[14], DNSServersSeparator)) else None)
  }

  /** `OutputProvider.Get(tfState, lbType, domainExists)`. */
  function Get(exec: Executor, tfState: string, lbType: string, domainExists: bool): Extraction
  {
    if tfState == "" then Extraction(EmptyOutputs, None, [])
    else
      var f := Fetch(exec, tfState, QueryKeys(lbType, domainExists));
      match f.result
      case Failure(e) => Extraction(EmptyOutputs, Some(e), f.queried)
      case Success(vs) => Extraction(Assemble(vs, lbType, domainExists), None, f.queried)
  }

  // ---------------------------------------------------------------------------
  // Properties of Get

  /** An empty state is not an error: the zero record, and the executor is never asked. */
  lemma GetEmptyState(exec: Executor, lbType: string, domainExists: bool)
    ensures Get(exec, "", lbType, domainExists) == Extraction(EmptyOutputs, None, [])
  {
  }

  /**
   * The executor is asked for a prefix of the fixed key list, in order; the
   * call succeeds exactly when every key in the list succeeds, and then every
   * key was asked for once.
   */
  lemma GetQueriesInOrder(exec: Executor, tfState: string, lbType: string, domainExists: bool)
    requires tfState != ""
    ensures var x := Get(exec, tfState, lbType, domainExists);
      var keys := QueryKeys(lbType, domainExists);
      && |x.queried| <= |keys| && x.queried == keys[..|x.queried|]
      && (x.err.None? <==> forall i :: 0 <= i < |keys| ==> exec(tfState, keys[i]).Success?)
      && (x.err.None? ==> x.queried == keys)
  {
    var keys := QueryKeys(lbType, domainExists);
    var f := Fetch(exec, tfState, keys);
    if f.result.Failure? {
      var k := |f.queried| - 1;
      assert !exec(tfState, keys[k]).Success?;
    }
  }

  /** The executor is asked 6 times, 8 for concourse, 14 for cf and 15 for cf with a domain. */
  lemma GetQueryCount(exec: Executor, tfState: string, lbType: string, domainExists: bool)
    requires tfState != ""
    ensures var x := Get(exec, tfState, lbType, domainExists);
      x.err.None? ==>
        |x.queried| == (if lbType == "cf" then (if domainExists then 15 else 14)
                        else if lbType == "concourse" then 8
                        else 6)
  {
  }

  /**
   * All or nothing, and the first failure wins: an error leaves the record
   * at its zero value, and the error is the one of the first key in the fixed
   * order whose lookup fails; every key before it succeeded and none after it
   * was asked for.
   */
  lemma GetFirstErrorWins(exec: Executor, tfState: string, lbType: string, domainExists: bool)
    ensures var x := Get(exec, tfState, lbType, domainExists);
      var keys := QueryKeys(lbType, domainExists);
      x.err.Some? ==>
        && x.outputs == EmptyOutputs
        && 1 <= |x.queried| <= |keys|
        && exec(tfState, keys[|x.queried| - 1]) == Failure(x.err.value)
        && forall i :: 0 <= i < |x.queried| - 1 ==> exec(tfState, keys[i]).Success?
  {
  }

  /** The value of one executor lookup that is known to succeed. */
  function ValueOf(exec: Executor, tfState: string, name: string): string
  {
    match exec(tfState, name)
    case Success(v) => v
    case Failure(_) => ""
  }

  /** On success the six baseline fields hold the executor's values for their own keys. */
  lemma GetBaselineFields(exec: Executor, tfState: string, lbType: string, domainExists: bool)
    requires tfState != ""
    ensures var x := Get(exec, tfState, lbType, domainExists);
      x.err.None? ==>
        && exec(tfState, "external_ip") == Success(x.outputs.externalIP)
        && exec(tfState, "network_name") == Success(x.outputs.networkName)
        && exec(tfState, "subnetwork_name") == Success(x.outputs.subnetworkName)
        && exec(tfState, "bosh_open_tag_name") == Success(x.outputs.boshTag)
        && exec(tfState, "internal_tag_name") == Success(x.outputs.internalTag)
        && exec(tfState, "director_address") == Success(x.outputs.directorAddress)
  {
    var keys := QueryKeys(lbType, domainExists);
    var f := Fetch(exec, tfState, keys);
    if f.result.Success? {
      assert keys[..6] == BaselineKeys;
      assert forall i :: 0 <= i < 6 ==> exec(tfState, BaselineKeys[i]) == Success(f.result.value[i]);
    }
  }

  /**
   * For cf, the eight cf fields hold the executor's values for their own keys,
   * the concourse fields stay empty, and the DNS list is present exactly when
   * a domain exists.
   */
  lemma GetCfFields(exec: Executor, tfState: string, domainExists: bool)
    requires tfState != ""
    ensures var x := Get(exec, tfState, "cf", domainExists);
      x.err.None? ==>
        && exec(tfState, "router_backend_service") == Success(x.outputs.routerBackendService)
        && exec(tfState, "ssh_proxy_target_pool") == Success(x.outputs.sshProxyTargetPool)
        && exec(tfState, "tcp_router_target_pool") == Success(x.outputs.tcpRouterTargetPool)
        && exec(tfState, "ws_target_pool") == Success(x.outputs.wsTargetPool)
        && exec(tfState, "router_lb_ip") == Success(x.outputs.routerLBIP)
        && exec(tfState, "ssh_proxy_lb_ip") == Success(x.outputs.sshProxyLBIP)
        && exec(tfState, "tcp_router_lb_ip") == Success(x.outputs.tcpRouterLBIP)
        && exec(tfState, "ws_lb_ip") == Success(x.outputs.webSocketLBIP)
        && x.outputs.concourseTargetPool == "" && x.outputs.concourseLBIP == ""
        && (x.outputs.systemDomainDNSServers.Some? <==> domainExists)
  {
    var keys := QueryKeys("cf", domainExists);
    var f := Fetch(exec, tfState, keys);
    if f.result.Success? {
      assert keys[6..14] == CfKeys;
      assert forall i :: 0 <= i < 8 ==> exec(tfState, CfKeys[i]) == Success(f.result.value[6 + i]);
    }
  }

  /** For concourse, only the two concourse fields are read beyond the baseline. */
  lemma GetConcourseFields(exec: Executor, tfState: string, domainExists: bool)
    requires tfState != ""
    ensures var x := Get(exec, tfState, "concourse", domainExists);
      x.err.None? ==>
        && exec(tfState, "concourse_target_pool") == Success(x.outputs.concourseTargetPool)
        && exec(tfState, "concourse_lb_ip") == Success(x.outputs.concourseLBIP)
        && x.outputs.routerBackendService == "" && x.outputs.sshProxyTargetPool == ""
        && x.outputs.tcpRouterTargetPool == "" && x.outputs.wsTargetPool == ""
        && x.outputs.routerLBIP == "" && x.outputs.sshProxyLBIP == ""
        && x.outputs.tcpRouterLBIP == "" && x.outputs.webSocketLBIP == ""
        && x.outputs.systemDomainDNSServers.None?
  {
    var keys := QueryKeys("concourse", domainExists);
    var f := Fetch(exec, tfState, keys);
    if f.result.Success? {
      assert keys[6..] == ConcourseKeys;
      assert exec(tfState, keys[6]) == Success(f.result.value[6]);
      assert exec(tfState, keys[7]) == Success(f.result.value[7]);
    }
  }

  /** Any other LB type, the empty one included, fills in the baseline fields only. */
  lemma GetOtherTypeFields(exec: Executor, tfState: string, lbType: string, domainExists: bool)
    requires lbType != "cf" && lbType != "concourse"
    ensures var x := Get(exec, tfState, lbType, domainExists);
      x.err.None? ==>
        x.outputs == EmptyOutputs.(
          externalIP := x.outputs.externalIP,
          networkName := x.outputs.networkName,
          subnetworkName := x.outputs.subnetworkName,
          boshTag := x.outputs.boshTag,
          internalTag := x.outputs.internalTag,
          directorAddress := x.outputs.directorAddress)
  {
  }

  /**
   * The DNS server list is present only for cf with a domain; it is then the
   * raw `system_domain_dns_servers` output split on `",\n"`, has one more
   * element than the raw output has separators, and joins back to the raw
   * output.
   */
  lemma GetDNSServers(exec: Executor, tfState: string, lbType: string, domainExists: bool)
    ensures var x := Get(exec, tfState, lbType, domainExists);
      && (x.outputs.systemDomainDNSServers.Some? <==>
            tfState != "" && x.err.None? && lbType == "cf" && domainExists)
      && (x.outputs.systemDomainDNSServers.Some? ==>
            var raw := ValueOf(exec, tfState, DNSServersKey);
            var servers := x.outputs.systemDomainDNSServers.value;
            && exec(tfState, DNSServersKey) == Success(raw)
            && servers == Strings.Split(raw, DNSServersSeparator)
            && |servers| == Strings.Count(raw, DNSServersSeparator) + 1
            && Strings.Join(servers, DNSServersSeparator) == raw)
  {
    var x := Get(exec, tfState, lbType, domainExists);
    if x.outputs.systemDomainDNSServers.Some? {
      var keys := QueryKeys(lbType, domainExists);
      assert keys[14] == DNSServersKey;
      var raw := ValueOf(exec, tfState, DNSServersKey);
      Strings.SplitLength(raw, DNSServersSeparator);
      Strings.JoinSplit(raw, DNSServersSeparator);
    }
  }
}
