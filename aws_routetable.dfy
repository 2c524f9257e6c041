/** The route table driver of the teardown (pkg/aws/routetable.go). */
module AwsRouteTable {
  import opened Wrappers
  import opened Sdk
  import opened Cloud

  /** The delete a route table gets: none without an id or outside the VPC. The main table is not singled out. */
  function RouteTableTarget(vpcId: string): RouteTable -> Option<Call>
  {
    (t: RouteTable) =>
      if t.routeTableId.Some? && t.vpcId == Some(vpcId) then Some(Api(RouteTables, Delete(t.routeTableId.value))) else None
  }

  /** deleteRouteTables: one delete per route table of the VPC, every error kept, no failure stopping the rest. */
  method DeleteRouteTables(cloud: Cloud, trace: seq<Call>, vpcId: string, tables: seq<RouteTable>)
    returns (trace': seq<Call>, errs: seq<Err>)
    ensures trace' == trace + Targets(tables, RouteTableTarget(vpcId))
    ensures errs == Failures(cloud, trace, Targets(tables, RouteTableTarget(vpcId)))
  {
    trace', errs := IssueEach(cloud, trace, tables, RouteTableTarget(vpcId));
  }

  /** A delete is issued exactly for the tables that have an id and belong to the VPC. */
  lemma RouteTableDeletes(vpcId: string, tables: seq<RouteTable>, c: Call)
    ensures c in Targets(tables, RouteTableTarget(vpcId)) <==>
      exists t :: t in tables && t.routeTableId.Some? && t.vpcId == Some(vpcId) && c == Api(RouteTables, Delete(t.routeTableId.value))
  {
    TargetsMember(tables, RouteTableTarget(vpcId), c);
  }

  /** The filter listRouteTables describes with. */
  function RouteTableFilter(vpcId: string): seq<Filter>
  {
    [Filter("vpc-id", [vpcId])]
  }

  /** listRouteTables: every table of every page, main tables included, or the first describe error. */
  method ListRouteTables(cloud: Cloud, trace: seq<Call>, vpcId: string)
    returns (trace': seq<Call>, r: Result<seq<RouteTable>, Err>)
    ensures trace' == trace + Listed(RouteTables, RouteTableFilter(vpcId), cloud.routeTables(trace, RouteTableFilter(vpcId)), All).calls
    ensures r == Listed(RouteTables, RouteTableFilter(vpcId), cloud.routeTables(trace, RouteTableFilter(vpcId)), All).result
  {
    trace', r := Paginate(cloud, trace, cloud.routeTables(trace, RouteTableFilter(vpcId)), RouteTables, RouteTableFilter(vpcId), All);
  }
}
