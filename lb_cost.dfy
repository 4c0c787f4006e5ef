// Load-balancer cost of the workspace cost estimator
// (pkg/workspace/costestimator/aws/lb.go).  The price table is the
// `findPrice` oracle; float arithmetic is done on reals.

module LoadBalancerCost {
  import opened Common

  datatype LBRequest = LBRequest(regionCode: string, lbType: string)

  const NetworkFamily: string := "Load Balancer-Network"
  const GatewayFamily: string := "Load Balancer-Gateway"
  const ClassicFamily: string := "Load Balancer"
  const ApplicationFamily: string := "Load Balancer-Application"

  /** The product family priced for a load-balancer type. */
  function Family(lbType: string): (f: string)
    ensures lbType == "network" <==> f == NetworkFamily
    ensures lbType == "gateway" <==> f == GatewayFamily
    ensures lbType == "classic" <==> f == ClassicFamily
    ensures lbType != "network" && lbType != "gateway" && lbType != "classic" <==> f == ApplicationFamily
  {
    if lbType == "network" then NetworkFamily
    else if lbType == "gateway" then GatewayFamily
    else if lbType == "classic" then ClassicFamily
    else ApplicationFamily
  }

  /** A lookup key of the price table. */
  datatype PriceQuery = PriceQuery(regionCode: string, family: string, usageType: string, unit: string)

  /**
   * LBCostByResource: the hourly price of the family in the region times
   * the estimation interval; a lookup error gives (0, err).
   */
  function LBCostByResource(request: LBRequest, findPrice: PriceQuery -> Result<real>, timeInterval: real)
    : (r: (real, Option<string>))
    ensures var q := PriceQuery(request.regionCode, Family(request.lbType), "LoadBalancerUsage", "Hrs");
      (findPrice(q).Err? ==> r.0 == 0.0 && r.1 == Some(findPrice(q).error)) &&
      (findPrice(q).Ok? ==> r.0 == findPrice(q).value * timeInterval && r.1.None?)
  {
    var price := findPrice(PriceQuery(request.regionCode, Family(request.lbType), "LoadBalancerUsage", "Hrs"));
    if price.Err? then (0.0, Some(price.error)) else (price.value * timeInterval, None)
  }

  /** Only the type decides the family; two types share a family only when both are unrecognised or equal. */
  lemma FamilyDistinguishesKnownTypes(t1: string, t2: string)
    requires Family(t1) == Family(t2) && t1 != t2
    ensures t1 != "network" && t1 != "gateway" && t1 != "classic"
    ensures t2 != "network" && t2 != "gateway" && t2 != "classic"
  {
  }
}
