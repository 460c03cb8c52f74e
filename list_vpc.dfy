/** `list_vpc.py`: list every VPC of Prism Central, 50 per page. */
module ListVpc {
  import opened Prism
  import opened Paging

  /** The trace of the `list_vpcs(_page=p, _limit=50)` requests for the pages `calls`. */
  function VpcPageOps(calls: seq<nat>): (ops: seq<Op>)
    ensures |ops| == |calls| && forall i :: 0 <= i < |calls| ==> ops[i] == ListVpcsPage(calls[i])
  {
    seq(|calls|, i requires 0 <= i < |calls| => ListVpcsPage(calls[i]))
  }

  /**
   * `listVPC`: the paging loop over `list_vpcs`, appending `{name, ext_id}` of every item. Its
   * `for item in myData['data']` has no `None` guard, so a page without data raises.
   */
  method ListVpc(server: nat -> Page<Item>, ghost bound: nat) returns (vpcList: Outcome<seq<Ref>>, trace: seq<Op>)
    requires Bounded(server, bound)
    ensures vpcList == Listed(server, AsRefs, false, bound).items
    ensures trace == VpcPageOps(Listed(server, AsRefs, false, bound).calls)
    ensures |trace| >= 1 && forall k :: 0 <= k < |trace| ==> trace[k] == ListVpcsPage(k)
    ensures vpcList.Raised? <==> server(|trace| - 1).data.None?
    ensures forall xs :: Consistent(server, xs) ==>
              vpcList == Ok(Refs(xs)) && trace == VpcPageOps(Range(0, Max(1, PageCount(|xs|))))
  {
    var calls;
    vpcList, calls := ListAll(server, AsRefs, false, bound);
    trace := VpcPageOps(calls);
    ListingShape(server, AsRefs, false, bound);
    forall xs | Consistent(server, xs)
      ensures vpcList == Ok(Refs(xs)) && trace == VpcPageOps(Range(0, Max(1, PageCount(|xs|))))
    {
      assert server(0).total == |xs|;
      ConsistentListing(server, AsRefs, false, bound, xs);
      RefsPointwise(xs);
    }
  }

  /**
   * For a server holding 120 VPCs the loop asks for pages 0, 1 and 2 (50 + 50 + 20) and
   * returns the 120 records.
   */
  lemma HundredTwentyVpcs(server: nat -> Page<Item>, bound: nat, xs: seq<Item>)
    requires Consistent(server, xs) && |xs| == 120 && |xs| <= bound
    ensures Listed(server, AsRefs, false, bound) == Listing(Ok(Refs(xs)), [0, 1, 2])
  {
    ConsistentListing(server, AsRefs, false, bound, xs);
    RefsPointwise(xs);
    assert PageCount(120) == 3;
    assert Range(0, 3) == [0, 1, 2];
  }
}
