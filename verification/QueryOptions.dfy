/** Per-query options and the two ways a rule action is merged into them (dns/router.go). */
module QueryOptions {
  import opened Wrappers
  import opened Netip

  datatype Strategy = AsIs | PreferIPv4 | PreferIPv6 | IPv4Only | IPv6Only

  datatype Options = Options(
    strategy: Strategy,
    disableCache: bool,
    disableOptimistic: bool,
    rewriteTTL: Option<nat>,
    timeout: nat,
    clientSubnet: Prefix,
    removeClientSubnet: bool)

  /** The option fields carried by route, evaluate and route-options actions. */
  datatype ActionOptions = ActionOptions(
    strategy: Strategy,
    disableCache: bool,
    disableOptimistic: bool,
    rewriteTTL: Option<nat>,
    timeout: nat,
    clientSubnet: Prefix,
    removeClientSubnet: bool)

  /** Fields both mergers treat alike. */
  function MergeCommon(o: Options, a: ActionOptions): Options {
    var o1 := if a.disableCache then o.(disableCache := true) else o;
    var o2 := if a.rewriteTTL.Some? then o1.(rewriteTTL := a.rewriteTTL) else o1;
    var o3 := if a.timeout > 0 then o2.(timeout := a.timeout) else o2;
    var o4 := if a.clientSubnet.IsValid() then o3.(clientSubnet := a.clientSubnet, removeClientSubnet := false) else o3;
    if a.removeClientSubnet then o4.(clientSubnet := NO_PREFIX, removeClientSubnet := true) else o4
  }

  /** `applyDNSRouteOptions`: the rule engine's merger, which skips the strategy. */
  function Apply(o: Options, a: ActionOptions): Options {
    var o' := MergeCommon(o, a);
    if a.disableOptimistic then o'.(disableOptimistic := true) else o'
  }

  /** The merger inlined in `matchDNS`, which skips the optimistic-cache switch. */
  function ApplyLegacy(o: Options, a: ActionOptions): Options {
    var o' := MergeCommon(o, a);
    if a.strategy != AsIs then o'.(strategy := a.strategy) else o'
  }

  /** The reference merger: every field an action can carry takes effect. */
  function ApplyEverything(o: Options, a: ActionOptions): Options {
    var o' := MergeCommon(o, a);
    var o'' := if a.disableOptimistic then o'.(disableOptimistic := true) else o';
    if a.strategy != AsIs then o''.(strategy := a.strategy) else o''
  }

  /** `finalizeExchangeOptions`. */
  function Finalize(o: Options, defaultStrategy: Strategy): Options {
    if o.strategy == AsIs then o.(strategy := defaultStrategy) else o
  }
}
