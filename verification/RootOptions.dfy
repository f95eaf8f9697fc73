/** proxy-init/cmd/root.go: `BuildFirewallConfiguration`, the source of the configurations that
    pkg/iptables compiles. */
module RootOptions {
  import opened Text
  import opened PortRanges
  import opened NatTable
  import opened Firewall
  import opened ConfigureFirewall

  /** A `--subnets-to-ignore` entry with its surrounding blanks removed, as net.ParseCIDR
      judges it. */
  datatype SubnetArgument = NotCidr(text: string) | Cidr(subnet: Subnet)

  predicate WellFormed(a: SubnetArgument) {
    a.Cidr? ==> a.subnet.prefixLen <= a.subnet.bits && OneLine(a.subnet.text)
  }

  datatype OptionError = BadIptablesMode | BadBinPath | BadIncomingPort | BadOutgoingPort | BadSubnet(text: string)

  const MODES: set<string> := {"legacy", "nft", "plain"}

  /** The mode a `--firewall-bin-path` stands for when no `--iptables-mode` is given. */
  function ModeOfBinPath(binPath: string): Option<string> {
    match binPath
    case "" => Some("legacy")
    case "iptables-legacy" => Some("legacy")
    case "iptables-nft" => Some("nft")
    case "iptables" => Some("plain")
    case _ => None
  }

  class Options {
    var iptablesMode: string
    var firewallBinPath: string
    var incomingProxyPort: int
    var outgoingProxyPort: int
    var proxyUserId: int
    var proxyGroupId: int
    var portsToRedirect: seq<int>
    var inboundPortsToIgnore: seq<string>
    var outboundPortsToIgnore: seq<string>
    var subnetsToIgnore: seq<SubnetArgument>

    predicate ModeUsable(mode: string)
      reads this
    {
      || mode in {"legacy", "nft", "plain"}
      || (mode == "" && firewallBinPath in {"", "iptables-legacy", "iptables-nft", "iptables"})
    }

    /** Which options are usable, before any side effect. */
    ghost predicate Usable(mode: string)
      reads this
    {
      && ModeUsable(mode)
      && IsValidPort(incomingProxyPort) && IsValidPort(outgoingProxyPort)
      && forall a <- subnetsToIgnore :: a.Cidr?
    }

    /** An error names the first option that is not usable. */
    ghost predicate Explains(mode: string, error: OptionError)
      reads this
    {
      match error
      case BadIptablesMode => mode !in {"", "legacy", "nft", "plain"}
      case BadBinPath => mode == "" && !ModeUsable(mode)
      case BadIncomingPort => ModeUsable(mode) && !IsValidPort(incomingProxyPort)
      case BadOutgoingPort => ModeUsable(mode) && IsValidPort(incomingProxyPort) && !IsValidPort(outgoingProxyPort)
      case BadSubnet(text) =>
        && ModeUsable(mode) && IsValidPort(incomingProxyPort) && IsValidPort(outgoingProxyPort)
        && exists k :: 0 <= k < |subnetsToIgnore| && subnetsToIgnore[k] == NotCidr(text)
             && forall j :: 0 <= j < k ==> subnetsToIgnore[j].Cidr?
    }

    /** BuildFirewallConfiguration. A configuration it returns is one ConfigureFirewall applies in
        full exactly when the ignore lists are empty or hold a valid entry and the ports to
        redirect are in range: those are not checked here. */
    method BuildFirewallConfiguration() returns (r: Result<FirewallConfiguration, OptionError>)
      requires forall a <- subnetsToIgnore :: WellFormed(a)
      modifies this`iptablesMode
      ensures r.Ok? <==> Usable(old(iptablesMode))
      ensures old(iptablesMode) != "" || !ModeUsable(old(iptablesMode)) ==> iptablesMode == old(iptablesMode)
      ensures old(iptablesMode) == "" && firewallBinPath in {"", "iptables-legacy"} ==> iptablesMode == "legacy"
      ensures old(iptablesMode) == "" && firewallBinPath == "iptables-nft" ==> iptablesMode == "nft"
      ensures old(iptablesMode) == "" && firewallBinPath == "iptables" ==> iptablesMode == "plain"
      ensures r.Ok? ==> iptablesMode in {"legacy", "nft", "plain"}
      ensures r.Err? ==> Explains(old(iptablesMode), r.error)
      ensures r.Ok? ==>
                var fc := r.value;
                && fc.mode == (if portsToRedirect == [] then "redirect-all" else "redirect-listed")
                && fc.portsToRedirectInbound == portsToRedirect
                && fc.inboundPortsToIgnore == inboundPortsToIgnore
                && fc.outboundPortsToIgnore == outboundPortsToIgnore
                && fc.proxyInboundPort == incomingProxyPort && fc.proxyOutgoingPort == outgoingProxyPort
                && fc.proxyUid == proxyUserId && fc.proxyGid == proxyGroupId
                && |fc.subnetsToIgnore| == |subnetsToIgnore|
                && forall k :: 0 <= k < |subnetsToIgnore| ==> subnetsToIgnore[k] == Cidr(fc.subnetsToIgnore[k])
      ensures r.Ok? ==>
                (Accepts(r.value) <==>
                 && PortListOk(inboundPortsToIgnore) && PortListOk(outboundPortsToIgnore)
                 && forall p <- portsToRedirect :: IsValidPort(p))
    {
      if iptablesMode != "" && iptablesMode !in MODES {
        return Err(BadIptablesMode);
      }
      if iptablesMode == "" {
        match ModeOfBinPath(firewallBinPath) {
          case None => return Err(BadBinPath);
          case Some(mode) => iptablesMode := mode;
        }
      }
      if !IsValidPort(incomingProxyPort) {
        return Err(BadIncomingPort);
      }
      if !IsValidPort(outgoingProxyPort) {
        return Err(BadOutgoingPort);
      }
      var sanitizedSubnets: seq<Subnet> := [];
      for i := 0 to |subnetsToIgnore|
        invariant |sanitizedSubnets| == i
        invariant forall k :: 0 <= k < i ==> subnetsToIgnore[k] == Cidr(sanitizedSubnets[k])
        invariant forall s <- sanitizedSubnets :: Cidr(s) in subnetsToIgnore
      {
        match subnetsToIgnore[i] {
          case NotCidr(text) =>
            assert subnetsToIgnore[i] in subnetsToIgnore;
            return Err(BadSubnet(text));
          case Cidr(subnet) => sanitizedSubnets := sanitizedSubnets + [subnet];
        }
      }
      assert forall s <- sanitizedSubnets :: WellFormed(Cidr(s));
      r := Ok(FirewallConfiguration(
        if |portsToRedirect| > 0 then REDIRECT_LISTED_MODE else REDIRECT_ALL_MODE,
        portsToRedirect, inboundPortsToIgnore, outboundPortsToIgnore, sanitizedSubnets,
        incomingProxyPort, outgoingProxyPort, proxyUserId, proxyGroupId));
    }
  }
}
