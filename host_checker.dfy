/** The allow-list gate on destination hosts: with subnets configured, the
    host's resolved address must lie in one of them. Name resolution and CIDR
    containment are given functions. */
module HostCheck {
  import opened Base

  /** `dns.lookup` and `new CIDRMatcher(subnets).contains(address)`. */
  datatype Network = Network(
    lookup: Option<string> -> Result<string, Failure>,
    contains: (seq<string>, string) -> bool)

  /** A missing `allowedSubnets` setting is the empty list. */
  function SubnetsOrEmpty(allowedSubnets: Option<seq<string>>): (subnets: seq<string>)
    ensures allowedSubnets.None? ==> subnets == []
    ensures allowedSubnets.Some? ==> subnets == allowedSubnets.value
  {
    if allowedSubnets.Some? then allowedSubnets.value else []
  }

  /** `HostChecker.isAllowed` with `CIDRMatcher` in scope. An empty list
      allows every host without a lookup; otherwise the resolved address, not
      the host string, is matched, and a failed lookup is an error, not a denial. */
  function IsAllowed(host: Option<string>, allowedSubnets: Option<seq<string>>, net: Network): (r: Result<bool, Failure>)
    ensures SubnetsOrEmpty(allowedSubnets) == [] ==> r == Ok(true)
    ensures SubnetsOrEmpty(allowedSubnets) != [] ==>
              && (net.lookup(host).Err? ==> r == Err(net.lookup(host).error))
              && (net.lookup(host).Ok? ==> r == Ok(net.contains(SubnetsOrEmpty(allowedSubnets), net.lookup(host).value)))
  {
    var subnets := SubnetsOrEmpty(allowedSubnets);
    if |subnets| < 1 then Ok(true)
    else
      match net.lookup(host)
      case Err(e) => Err(e)
      case Ok(address) => Ok(net.contains(subnets, address))
  }

  /** With no subnets configured the answer does not depend on the network at all. */
  lemma UnrestrictedIgnoresNetwork(host: Option<string>, allowedSubnets: Option<seq<string>>, net1: Network, net2: Network)
    requires allowedSubnets.None? || allowedSubnets == Some([])
    ensures IsAllowed(host, allowedSubnets, net1) == IsAllowed(host, allowedSubnets, net2) == Ok(true)
  {
  }

  /** The file never imports `CIDRMatcher`, so as written every check that
      gets past the lookup throws a ReferenceError. */
  const CidrMatcherUndefined := Plain("CIDRMatcher is not defined")

  function IsAllowedAsWritten(host: Option<string>, allowedSubnets: Option<seq<string>>, net: Network): (r: Result<bool, Failure>)
    ensures SubnetsOrEmpty(allowedSubnets) == [] ==> r == Ok(true)
    ensures SubnetsOrEmpty(allowedSubnets) != [] && net.lookup(host).Ok? ==> r == Err(CidrMatcherUndefined)
    ensures SubnetsOrEmpty(allowedSubnets) != [] && net.lookup(host).Err? ==> r == Err(net.lookup(host).error)
  {
    var subnets := SubnetsOrEmpty(allowedSubnets);
    if |subnets| < 1 then Ok(true)
    else
      match net.lookup(host)
      case Err(e) => Err(e)
      case Ok(_) => Err(CidrMatcherUndefined)
  }

  /** Configured subnets never let a resolvable host through as written,
      even one whose address they contain. */
  lemma AllowListDiscrepancy(host: Option<string>, subnets: seq<string>, net: Network)
    requires subnets != [] && net.lookup(host).Ok? && net.contains(subnets, net.lookup(host).value)
    ensures IsAllowedAsWritten(host, Some(subnets), net) == Err(CidrMatcherUndefined)
    ensures IsAllowed(host, Some(subnets), net) == Ok(true)
  {
  }
}
