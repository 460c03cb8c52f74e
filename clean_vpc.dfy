/**
 * `clean_vpc.py`: find the VPC by name, list its subnets, and for each subnet delete the VMs
 * attached to it and then the subnet; finally delete the VPC. Responses are parameters; the
 * responses that can change as the script deletes things are functions of the calls made so far.
 */
module CleanVpc {
  import opened Prism
  import opened Paging

  /** A `list_vms` response filtered by subnet: a caught `VMMException`, or its `data`. */
  datatype VmListing = VmListFailed | VmListed(data: Option<seq<Item>>)

  /** The responses of Prism Central, as far as the script reads them. */
  datatype Api = Api(
    vpcs: Option<seq<Item>>,                      // data of list_vpcs()
    subnetPages: Id -> nat -> Page<Item>,         // list_subnets(vpcReference eq ...), by page
    vmsOnSubnet: (seq<Op>, Id) -> VmListing,      // list_vms(nics/any(... eq subnet)) after a history
    getVm: (seq<Op>, Id) -> Option<Etag>,         // get_vm_by_ext_id after a history; None when it raises
    deleteVm: (seq<Op>, Id, Etag) -> bool)        // delete_vm after a history; false when it raises

  /** Every subnet listing the script can request reports at most `bound` results. */
  ghost predicate ApiBounded(api: Api, bound: nat)
  {
    forall vpcId :: Bounded(api.subnetPages(vpcId), bound)
  }

  /**
   * `getVPCId`: iterating `list_vpcs().data` raises when it is `None`; otherwise the id of the
   * first VPC named `vpcName`, or `None` for its `return False`.
   */
  function GetVpcId(vpcs: Option<seq<Item>>, vpcName: string): (r: Outcome<Option<Id>>)
    ensures r.Raised? <==> vpcs.None?
    ensures r == Ok(None) <==> vpcs.Some? && forall i :: 0 <= i < |vpcs.value| ==> vpcs.value[i].name != vpcName
    ensures r.Ok? && r.value.Some? ==>
              exists i :: IsFirstNamed(vpcs.value, vpcName, i) && r.value.value == vpcs.value[i].extId
  {
    if vpcs.None? then Raised else Ok(FindByName(vpcs.value, vpcName))
  }

  // ---------------------------------------------------------------- retrieveVPCSubnet

  /** What `retrieveVPCSubnet` returns: with its `None` guard the loop never raises. */
  ghost function SubnetsListed(server: nat -> Page<Item>, bound: nat): seq<Ref>
    requires Bounded(server, bound)
  {
    GuardedRunNeverRaises(server, AsRefs, bound, 0, SentinelPages);
    Listed(server, AsRefs, true, bound).items.value
  }

  /**
   * `retrieveVPCSubnet`: the paging loop with `if myData['data'] is not None`. A page without
   * data contributes nothing and does not stop the loop, which goes on exactly while the page
   * count the latest page reported is beyond it.
   */
  method RetrieveVpcSubnet(vpcId: Id, server: nat -> Page<Item>, ghost bound: nat)
    returns (subnetList: seq<Ref>, ops: seq<Op>)
    requires Bounded(server, bound)
    ensures subnetList == SubnetsListed(server, bound)
    ensures ops == SubnetPageOps(vpcId, Listed(server, AsRefs, true, bound).calls)
    ensures |ops| >= 1 && forall k :: 0 <= k < |ops| ==> ops[k] == ListVpcSubnets(vpcId, k)
    ensures subnetList == Gathered(server, AsRefs, 0, |ops|)
    ensures forall q: nat :: q < |ops| - 1 ==> q + 1 < PageCount(server(q).total)
    ensures PageCount(server(|ops| - 1).total) <= |ops|
    ensures forall xs :: Consistent(server, xs) ==>
              subnetList == Refs(xs) && ops == SubnetPageOps(vpcId, Range(0, Max(1, PageCount(|xs|))))
  {
    var items, calls := ListAll(server, AsRefs, true, bound);
    GuardedListingShape(vpcId, server, bound);
    GuardedListingConsistent(vpcId, server, bound);
    subnetList := items.value;
    ops := SubnetPageOps(vpcId, calls);
  }

  /** The requests and the result of the guarded loop, for any bounded server. */
  lemma GuardedListingShape(vpcId: Id, server: nat -> Page<Item>, bound: nat)
    requires Bounded(server, bound)
    ensures var l := Listed(server, AsRefs, true, bound);
            var ops := SubnetPageOps(vpcId, l.calls);
            && l.items.Ok? && l.items.value == SubnetsListed(server, bound)
            && |ops| >= 1 && (forall k :: 0 <= k < |ops| ==> ops[k] == ListVpcSubnets(vpcId, k))
            && l.items.value == Gathered(server, AsRefs, 0, |ops|)
            && (forall q: nat :: q < |ops| - 1 ==> q + 1 < PageCount(server(q).total))
            && PageCount(server(|ops| - 1).total) <= |ops|
  {
    GuardedRunNeverRaises(server, AsRefs, bound, 0, SentinelPages);
    ListingShape(server, AsRefs, true, bound);
    var l := Listed(server, AsRefs, true, bound);
    assert forall k :: 0 <= k < |l.calls| ==> l.calls[k] == Range(0, |l.calls|)[k];
  }

  /** The requests and the result of the guarded loop, for a server that serves one list consistently. */
  lemma GuardedListingConsistent(vpcId: Id, server: nat -> Page<Item>, bound: nat)
    requires Bounded(server, bound)
    ensures var l := Listed(server, AsRefs, true, bound);
            forall xs :: Consistent(server, xs) ==>
              l.items == Ok(Refs(xs)) && SubnetPageOps(vpcId, l.calls) == SubnetPageOps(vpcId, Range(0, Max(1, PageCount(|xs|))))
  {
    forall xs | Consistent(server, xs)
      ensures Listed(server, AsRefs, true, bound) == Listing(Ok(Refs(xs)), Range(0, Max(1, PageCount(|xs|))))
    {
      assert server(0).total == |xs|;
      ConsistentListing(server, AsRefs, true, bound, xs);
      RefsPointwise(xs);
    }
  }

  // ---------------------------------------------------------------- deleteVMBySubnet

  /**
   * The calls of the `for vm in listVMs.data` loop from `vms` on, after the calls `hist`: a read
   * of the VM for its etag, then `delete_vm` with it. One `try` holds the whole loop, so the
   * first read or delete that raises ends it.
   */
  function DeleteVmsOps(api: Api, hist: seq<Op>, vms: seq<Item>): seq<Op>
    decreases |vms|
  {
    if vms == [] then []
    else
      var vmId := vms[0].extId;
      var etag := api.getVm(hist, vmId);
      if etag.None? then [GetVm(vmId)]
      else
        var pair := [GetVm(vmId), DeleteVm(vmId, etag.value)];
        if api.deleteVm(hist + [GetVm(vmId)], vmId, etag.value) then pair + DeleteVmsOps(api, hist + pair, vms[1..])
        else pair
  }

  /** The calls of `deleteVMBySubnet(subnetId)` after the calls `hist`. */
  function SubnetVmDeletions(api: Api, hist: seq<Op>, subnetId: Id): seq<Op>
  {
    var list := [ListVmsOnSubnet(subnetId)];
    match api.vmsOnSubnet(hist, subnetId)
    case VmListFailed => list
    case VmListed(data) => if data.None? then list else list + DeleteVmsOps(api, hist + list, data.value)
  }

  /**
   * One iteration of the loop after the calls `start` and `issued`: a failed read stops it, a
   * failed delete stops it after the pair, and otherwise it goes on with the next VM.
   */
  lemma DeleteVmsStep(api: Api, start: seq<Op>, issued: seq<Op>, vms: seq<Item>, j: nat)
    requires j < |vms|
    ensures var vmId := vms[j].extId;
            var etag := api.getVm(start + issued, vmId);
            var pair := if etag.Some? then [GetVm(vmId), DeleteVm(vmId, etag.value)] else [];
            var whole := issued + DeleteVmsOps(api, start + issued, vms[j..]);
            && (etag.None? ==> whole == issued + [GetVm(vmId)])
            && (etag.Some? && !api.deleteVm(start + issued + [GetVm(vmId)], vmId, etag.value) ==>
                  whole == issued + pair)
            && (etag.Some? && api.deleteVm(start + issued + [GetVm(vmId)], vmId, etag.value) ==>
                  whole == (issued + pair) + DeleteVmsOps(api, start + (issued + pair), vms[j + 1..]))
  {
    assert vms[j..][0] == vms[j] && vms[j..][1..] == vms[j + 1..];
    var vmId := vms[j].extId;
    var etag := api.getVm(start + issued, vmId);
    if etag.Some? {
      var pair := [GetVm(vmId), DeleteVm(vmId, etag.value)];
      var later := DeleteVmsOps(api, start + issued + pair, vms[j + 1..]);
      ConcatAssoc(start, issued, pair);
      ConcatAssoc(issued, pair, later);
    }
  }

  /** The `for vm in listVMs.data` loop of `deleteVMBySubnet`, inside its `try`. */
  method DeleteVms(api: Api, start: seq<Op>, vms: seq<Item>) returns (issued: seq<Op>)
    ensures issued == DeleteVmsOps(api, start, vms)
  {
    ghost var whole := DeleteVmsOps(api, start, vms);
    issued := [];
    var j := 0;
    assert vms[j..] == vms && start + issued == start;
    while j < |vms|
      invariant j <= |vms|
      invariant whole == issued + DeleteVmsOps(api, start + issued, vms[j..])
    {
      var vmId := vms[j].extId;
      DeleteVmsStep(api, start, issued, vms, j);
      var etagValue := api.getVm(start + issued, vmId);
      if etagValue.None? {
        issued := issued + [GetVm(vmId)];
        return;
      }
      var deleted := api.deleteVm(start + issued + [GetVm(vmId)], vmId, etagValue.value);
      issued := issued + [GetVm(vmId), DeleteVm(vmId, etagValue.value)];
      if !deleted {
        return;
      }
      j := j + 1;
    }
    assert vms[j..] == [];
  }

  /**
   * `deleteVMBySubnet`: lists the VMs on the subnet and deletes them one by one, each with the
   * etag of a read of that VM made just before. A failed listing, or a listing without data,
   * deletes nothing.
   */
  method DeleteVmBySubnet(api: Api, hist: seq<Op>, subnetId: Id) returns (ops: seq<Op>)
    ensures ops == SubnetVmDeletions(api, hist, subnetId)
    ensures |ops| >= 1 && ops[0] == ListVmsOnSubnet(subnetId)
    ensures forall k :: 1 <= k < |ops| ==> ops[k].GetVm? || ops[k].DeleteVm?
    ensures api.vmsOnSubnet(hist, subnetId).VmListFailed? || api.vmsOnSubnet(hist, subnetId).data.None? ==>
              ops == [ListVmsOnSubnet(subnetId)]
  {
    ops := [ListVmsOnSubnet(subnetId)];
    var listVms := api.vmsOnSubnet(hist, subnetId);
    if listVms.VmListFailed? || listVms.data.None? {
      return;
    }
    var issued := DeleteVms(api, hist + ops, listVms.data.value);
    DeleteVmsCalls(api, hist + ops, listVms.data.value);
    ops := ops + issued;
    assert forall k :: 1 <= k < |ops| ==> ops[k] == issued[k - 1];
  }

  /** Every call of `ops` is a read or a deletion of a VM. */
  predicate OnlyVmCalls(ops: seq<Op>)
  {
    forall k :: 0 <= k < |ops| ==> ops[k].GetVm? || ops[k].DeleteVm?
  }

  /** The loop issues only reads and deletions of VMs. */
  lemma {:induction false} DeleteVmsCalls(api: Api, hist: seq<Op>, vms: seq<Item>)
    ensures OnlyVmCalls(DeleteVmsOps(api, hist, vms))
    decreases |vms|
  {
    if vms != [] {
      var vmId := vms[0].extId;
      var etag := api.getVm(hist, vmId);
      if etag.Some? {
        var pair := [GetVm(vmId), DeleteVm(vmId, etag.value)];
        if api.deleteVm(hist + [GetVm(vmId)], vmId, etag.value) {
          DeleteVmsCalls(api, hist + pair, vms[1..]);
          var rest := DeleteVmsOps(api, hist + pair, vms[1..]);
          assert forall k :: 2 <= k < |pair + rest| ==> (pair + rest)[k] == rest[k - 2];
        }
      }
    }
  }

  // ---------------------------------------------------------------- main

  /**
   * The calls `main` makes for one subnet after the calls `hist`: `deleteVMBySubnet`, then
   * `deleteSubnetById`, whose `ApiException` is caught.
   */
  function SubnetBlock(api: Api, hist: seq<Op>, subnetId: Id): seq<Op>
  {
    SubnetVmDeletions(api, hist, subnetId) + [DeleteSubnet(subnetId)]
  }

  /** The blocks of the `for subnet in vpcSubnets` loop, each after the calls before it. */
  function Blocks(api: Api, hist: seq<Op>, subnets: seq<Ref>): (bs: seq<seq<Op>>)
    ensures |bs| == |subnets|
    decreases |subnets|
  {
    if subnets == [] then []
    else
      var b := SubnetBlock(api, hist, subnets[0].extId);
      [b] + Blocks(api, hist + b, subnets[1..])
  }

  function Concat(bs: seq<seq<Op>>): seq<Op>
    decreases |bs|
  {
    if bs == [] then [] else bs[0] + Concat(bs[1..])
  }

  /** The calls of the whole `for subnet in vpcSubnets` loop. */
  function Teardown(api: Api, hist: seq<Op>, subnets: seq<Ref>): seq<Op>
  {
    Concat(Blocks(api, hist, subnets))
  }

  /** The first block, then the blocks of the other subnets after it. */
  lemma TeardownCons(api: Api, hist: seq<Op>, subnets: seq<Ref>)
    requires subnets != []
    ensures var b := SubnetBlock(api, hist, subnets[0].extId);
            Teardown(api, hist, subnets) == b + Teardown(api, hist + b, subnets[1..])
  {
    var b := SubnetBlock(api, hist, subnets[0].extId);
    var bs := [b] + Blocks(api, hist + b, subnets[1..]);
    assert bs[0] == b && bs[1..] == Blocks(api, hist + b, subnets[1..]);
  }

  /**
   * `main`: `getVPCId`; when it finds the VPC, `retrieveVPCSubnet`, the loop over the subnets
   * and `deleteVPCById`. A raising `getVPCId` ends the run; a VPC that is not found ends it
   * after the one lookup.
   */
  ghost function Decommissioned(api: Api, vpcName: string, bound: nat): Execution
    requires ApiBounded(api, bound)
  {
    match GetVpcId(api.vpcs, vpcName)
    case Raised => Execution([ListVpcs], false)
    case Ok(None) => Execution([ListVpcs], true)
    case Ok(Some(vpcId)) =>
      var listed := LookupOps(api, vpcId, bound);
      Execution(listed + Teardown(api, listed, SubnetsOf(api, vpcId, bound)) + [DeleteVpc(vpcId)], true)
  }

  /** One iteration of the loop of `main`, after the calls `listed` and `issued`. */
  lemma TeardownStep(api: Api, listed: seq<Op>, issued: seq<Op>, subnets: seq<Ref>, i: nat, b: seq<Op>)
    requires i < |subnets|
    requires b == SubnetBlock(api, listed + issued, subnets[i].extId)
    ensures issued + Teardown(api, listed + issued, subnets[i..])
            == (issued + b) + Teardown(api, listed + (issued + b), subnets[i + 1..])
  {
    var hist := listed + issued;
    var rest := subnets[i..];
    assert rest != [] && rest[0] == subnets[i] && rest[1..] == subnets[i + 1..];
    var later := Teardown(api, hist + b, subnets[i + 1..]);
    TeardownCons(api, hist, rest);
    ConcatAssoc(listed, issued, b);
    ConcatAssoc(issued, b, later);
  }

  /** One iteration of the loop of `main`: `deleteVMBySubnet`, then `deleteSubnetById`. */
  method ClearSubnet(api: Api, hist: seq<Op>, subnetId: Id) returns (block: seq<Op>)
    ensures block == SubnetBlock(api, hist, subnetId)
  {
    var vmOps := DeleteVmBySubnet(api, hist, subnetId);
    block := vmOps + [DeleteSubnet(subnetId)];
  }

  /** The `for subnet in vpcSubnets` loop of `main`. */
  method DeleteSubnets(api: Api, listed: seq<Op>, subnets: seq<Ref>) returns (issued: seq<Op>)
    ensures issued == Teardown(api, listed, subnets)
  {
    ghost var whole := Teardown(api, listed, subnets);
    issued := [];
    var i := 0;
    assert subnets[i..] == subnets && listed + issued == listed;
    while i < |subnets|
      invariant i <= |subnets|
      invariant whole == issued + Teardown(api, listed + issued, subnets[i..])
    {
      var b := ClearSubnet(api, listed + issued, subnets[i].extId);
      TeardownStep(api, listed, issued, subnets, i, b);
      issued := issued + b;
      i := i + 1;
    }
    assert subnets[i..] == [];
    assert Teardown(api, listed + issued, []) == [];
  }

  /** `main` of `clean_vpc.py`. */
  method Decommission(api: Api, vpcName: string, ghost bound: nat) returns (trace: seq<Op>, completed: bool)
    requires ApiBounded(api, bound)
    ensures Execution(trace, completed) == Decommissioned(api, vpcName, bound)
  {
    trace := [ListVpcs];
    var vpcId := GetVpcId(api.vpcs, vpcName);
    if vpcId.Raised? {
      return trace, false;
    }
    if vpcId.value.None? {
      return trace, true;
    }
    var id := vpcId.value.value;
    var vpcSubnets, pageOps := RetrieveVpcSubnet(id, api.subnetPages(id), bound);
    trace := trace + pageOps;
    var teardown := DeleteSubnets(api, trace, vpcSubnets);
    trace := trace + teardown + [DeleteVpc(id)];
    completed := true;
  }

  // ---------------------------------------------------------------- properties

  /** A call that fails inside the deletion loop, given the calls `hist` before `ops`. */
  ghost predicate CallFailed(api: Api, hist: seq<Op>, ops: seq<Op>, k: nat)
    requires k < |ops|
  {
    var before := hist + ops[..k];
    match ops[k]
    case GetVm(vm) => api.getVm(before, vm).None?
    case DeleteVm(vm, etag) => !api.deleteVm(before, vm, etag)
    case _ => false
  }

  /**
   * The deletion loop goes through `vms` in order, a read then a delete per VM, every call but
   * the last succeeds, and when it leaves VMs untouched its last call is the one that failed.
   */
  ghost predicate StopsAtFirstFailure(api: Api, hist: seq<Op>, vms: seq<Item>, ops: seq<Op>)
  {
    VisitsInOrder(vms, ops) && FailsOnlyLast(api, hist, vms, ops)
  }

  /** `ops` reads and then deletes the VMs of `vms`, one after the other, from the first on. */
  predicate VisitsInOrder(vms: seq<Item>, ops: seq<Op>)
    decreases |ops|
  {
    ops != [] ==>
      && vms != []
      && ops[0] == GetVm(vms[0].extId)
      && (|ops| >= 2 ==> ops[1].DeleteVm? && ops[1].vm == vms[0].extId && VisitsInOrder(vms[1..], ops[2..]))
  }

  /** No call of `ops` but the last fails, and the last does when `ops` stops short of `vms`. */
  ghost predicate FailsOnlyLast(api: Api, hist: seq<Op>, vms: seq<Item>, ops: seq<Op>)
  {
    && (forall k :: 0 <= k < |ops| - 1 ==> !CallFailed(api, hist, ops, k))
    && (|ops| < 2 * |vms| ==> |ops| > 0 && CallFailed(api, hist, ops, |ops| - 1))
  }

  lemma CallFailedShift(api: Api, hist: seq<Op>, pair: seq<Op>, rest: seq<Op>, k: nat)
    requires |pair| <= k < |pair + rest|
    ensures CallFailed(api, hist, pair + rest, k) == CallFailed(api, hist + pair, rest, k - |pair|)
  {
    assert (pair + rest)[k] == rest[k - |pair|];
    assert hist + (pair + rest)[..k] == hist + pair + rest[..k - |pair|];
  }

  /** `deleteVMBySubnet`'s single `try` ends the loop at the first read or delete that raises. */
  lemma {:induction false} DeletionStopsAtFirstFailure(api: Api, hist: seq<Op>, vms: seq<Item>)
    ensures StopsAtFirstFailure(api, hist, vms, DeleteVmsOps(api, hist, vms))
    decreases |vms|
  {
    var ops := DeleteVmsOps(api, hist, vms);
    if vms != [] {
      var vmId := vms[0].extId;
      var etag := api.getVm(hist, vmId);
      assert hist + ops[..0] == hist;
      if etag.Some? {
        var pair := [GetVm(vmId), DeleteVm(vmId, etag.value)];
        assert hist + ops[..1] == hist + [GetVm(vmId)];
        if api.deleteVm(hist + [GetVm(vmId)], vmId, etag.value) {
          DeletionStopsAtFirstFailure(api, hist + pair, vms[1..]);
          StopsAfterPair(api, hist, vms, pair, DeleteVmsOps(api, hist + pair, vms[1..]));
        }
      }
    }
  }

  /** A read and a delete of the first VM that both succeed, then the loop over the others. */
  lemma StopsAfterPair(api: Api, hist: seq<Op>, vms: seq<Item>, pair: seq<Op>, rest: seq<Op>)
    requires vms != [] && |pair| == 2
    requires pair[0] == GetVm(vms[0].extId) && pair[1].DeleteVm? && pair[1].vm == vms[0].extId
    requires !CallFailed(api, hist, pair + rest, 0) && !CallFailed(api, hist, pair + rest, 1)
    requires StopsAtFirstFailure(api, hist + pair, vms[1..], rest)
    ensures StopsAtFirstFailure(api, hist, vms, pair + rest)
  {
    VisitsAfterPair(vms, pair, rest);
    FailsAfterPair(api, hist, vms, pair, rest);
  }

  lemma VisitsAfterPair(vms: seq<Item>, pair: seq<Op>, rest: seq<Op>)
    requires vms != [] && |pair| == 2
    requires pair[0] == GetVm(vms[0].extId) && pair[1].DeleteVm? && pair[1].vm == vms[0].extId
    requires VisitsInOrder(vms[1..], rest)
    ensures VisitsInOrder(vms, pair + rest)
  {
    assert (pair + rest)[2..] == rest;
  }

  lemma FailsAfterPair(api: Api, hist: seq<Op>, vms: seq<Item>, pair: seq<Op>, rest: seq<Op>)
    requires vms != [] && |pair| == 2
    requires !CallFailed(api, hist, pair + rest, 0) && !CallFailed(api, hist, pair + rest, 1)
    requires FailsOnlyLast(api, hist + pair, vms[1..], rest)
    ensures FailsOnlyLast(api, hist, vms, pair + rest)
  {
    var ops := pair + rest;
    forall k | 2 <= k < |ops| - 1
      ensures !CallFailed(api, hist, ops, k)
    {
      CallFailedShift(api, hist, pair, rest, k);
    }
    if |ops| < 2 * |vms| {
      CallFailedShift(api, hist, pair, rest, |ops| - 1);
    }
  }

  /** Every VM `deleteVMBySubnet` deletes, it deletes with the etag of the read just before. */
  lemma {:induction false} DeleteVmsPaired(api: Api, hist: seq<Op>, vms: seq<Item>)
    requires VmWritesPaired(api.getVm, hist)
    ensures VmWritesPaired(api.getVm, hist + DeleteVmsOps(api, hist, vms))
    decreases |vms|
  {
    if vms == [] {
      assert hist + [] == hist;
    } else {
      var vmId := vms[0].extId;
      var etag := api.getVm(hist, vmId);
      if etag.None? {
        PairedAppendNoWrites(api.getVm, hist, [GetVm(vmId)]);
      } else {
        var pair := [GetVm(vmId), DeleteVm(vmId, etag.value)];
        PairedAppendReadWrite(api.getVm, hist, DeleteVm(vmId, etag.value));
        if api.deleteVm(hist + [GetVm(vmId)], vmId, etag.value) {
          DeleteVmsPaired(api, hist + pair, vms[1..]);
          var later := DeleteVmsOps(api, hist + pair, vms[1..]);
          ConcatAssoc(hist, pair, later);
        }
      }
    }
  }

  /** A block for `subnetId`: its VM listing, reads and deletions of VMs, then its own deletion. */
  predicate BlockFor(b: seq<Op>, subnetId: Id)
  {
    && |b| >= 2
    && b[0] == ListVmsOnSubnet(subnetId)
    && b[|b| - 1] == DeleteSubnet(subnetId)
    && forall k :: 0 < k < |b| - 1 ==> b[k].GetVm? || b[k].DeleteVm?
  }

  lemma SubnetBlockShape(api: Api, hist: seq<Op>, subnetId: Id)
    ensures BlockFor(SubnetBlock(api, hist, subnetId), subnetId)
  {
    var list := [ListVmsOnSubnet(subnetId)];
    var listing := api.vmsOnSubnet(hist, subnetId);
    if listing.VmListed? && listing.data.Some? {
      var ops := DeleteVmsOps(api, hist + list, listing.data.value);
      DeleteVmsCalls(api, hist + list, listing.data.value);
      var b := list + ops + [DeleteSubnet(subnetId)];
      assert forall k :: 0 < k < |b| - 1 ==> b[k] == ops[k - 1];
    }
  }

  /**
   * The loop over the subnets is one block per subnet, in list order: each subnet's VMs are
   * dealt with before the subnet is deleted.
   */
  lemma {:induction false} TeardownBlocks(api: Api, hist: seq<Op>, subnets: seq<Ref>)
    ensures forall i :: 0 <= i < |subnets| ==> BlockFor(Blocks(api, hist, subnets)[i], subnets[i].extId)
    decreases |subnets|
  {
    if subnets != [] {
      var b := SubnetBlock(api, hist, subnets[0].extId);
      var rest := subnets[1..];
      TeardownBlocks(api, hist + b, rest);
      SubnetBlockShape(api, hist, subnets[0].extId);
      var bs := Blocks(api, hist, subnets);
      assert bs == [b] + Blocks(api, hist + b, rest);
      forall i | 1 <= i < |subnets|
        ensures BlockFor(bs[i], subnets[i].extId)
      {
        assert bs[i] == Blocks(api, hist + b, rest)[i - 1] && subnets[i] == rest[i - 1];
      }
    }
  }

  /**
   * The loop deletes each listed subnet once, after the ones listed before it, and deletes no
   * VPC.
   */
  lemma {:induction false} TeardownInListOrder(api: Api, hist: seq<Op>, subnets: seq<Ref>)
    ensures Keep(Teardown(api, hist, subnets), IsSubnetDeletion) == SubnetDeletions(subnets)
    ensures Keep(Teardown(api, hist, subnets), IsVpcDeletion) == []
    decreases |subnets|
  {
    if subnets != [] {
      var b := SubnetBlock(api, hist, subnets[0].extId);
      var rest := subnets[1..];
      var later := Teardown(api, hist + b, rest);
      TeardownInListOrder(api, hist + b, rest);
      SubnetBlockShape(api, hist, subnets[0].extId);
      TeardownCons(api, hist, subnets);
      KeepBlockThen(b, subnets[0].extId, later);
      SubnetDeletionsCons(subnets);
    }
  }

  lemma SubnetDeletionsCons(subnets: seq<Ref>)
    requires subnets != []
    ensures SubnetDeletions(subnets) == [DeleteSubnet(subnets[0].extId)] + SubnetDeletions(subnets[1..])
  {
    var r := [DeleteSubnet(subnets[0].extId)] + SubnetDeletions(subnets[1..]);
    forall i | 0 < i < |subnets|
      ensures r[i] == SubnetDeletions(subnets)[i]
    {
      assert r[i] == SubnetDeletions(subnets[1..])[i - 1] && subnets[1..][i - 1] == subnets[i];
    }
  }

  predicate IsSubnetDeletion(op: Op)
  {
    op.DeleteSubnet?
  }

  predicate IsVpcDeletion(op: Op)
  {
    op.DeleteVpc?
  }

  predicate IsDeletion(op: Op)
  {
    op.DeleteVm? || op.DeleteSubnet? || op.DeleteVpc?
  }

  /** One `delete_subnet_by_id` per subnet, in the order of `subnets`. */
  function SubnetDeletions(subnets: seq<Ref>): (ops: seq<Op>)
    ensures |ops| == |subnets| && forall i :: 0 <= i < |subnets| ==> ops[i] == DeleteSubnet(subnets[i].extId)
  {
    seq(|subnets|, i requires 0 <= i < |subnets| => DeleteSubnet(subnets[i].extId))
  }

  /** A block, then further calls: the block adds its subnet's deletion and no VPC deletion. */
  lemma KeepBlockThen(b: seq<Op>, subnetId: Id, later: seq<Op>)
    requires BlockFor(b, subnetId)
    ensures Keep(b + later, IsSubnetDeletion) == [DeleteSubnet(subnetId)] + Keep(later, IsSubnetDeletion)
    ensures Keep(b + later, IsVpcDeletion) == Keep(later, IsVpcDeletion)
  {
    KeepAppend(b, later, IsSubnetDeletion);
    KeepAppend(b, later, IsVpcDeletion);
    BlockDeletions(b, subnetId);
  }

  lemma BlockDeletions(b: seq<Op>, subnetId: Id)
    requires BlockFor(b, subnetId)
    ensures Keep(b, IsSubnetDeletion) == [DeleteSubnet(subnetId)]
    ensures Keep(b, IsVpcDeletion) == []
  {
    var middle := b[1..|b| - 1];
    assert b == [b[0]] + middle + [b[|b| - 1]];
    assert forall k :: 0 <= k < |middle| ==> middle[k] == b[k + 1];
    KeepNone(middle, IsSubnetDeletion);
    KeepNone(middle, IsVpcDeletion);
    KeepAppend([b[0]] + middle, [b[|b| - 1]], IsSubnetDeletion);
    KeepAppend([b[0]], middle, IsSubnetDeletion);
    KeepAppend([b[0]] + middle, [b[|b| - 1]], IsVpcDeletion);
    KeepAppend([b[0]], middle, IsVpcDeletion);
    KeepPair(b[0], b[0], IsSubnetDeletion);
    KeepPair(b[|b| - 1], b[|b| - 1], IsSubnetDeletion);
    KeepPair(b[0], b[0], IsVpcDeletion);
    KeepPair(b[|b| - 1], b[|b| - 1], IsVpcDeletion);
  }

  /** The calls `main` makes before the loop over the subnets of the VPC `vpcId`. */
  ghost function LookupOps(api: Api, vpcId: Id, bound: nat): (listed: seq<Op>)
    requires ApiBounded(api, bound)
    ensures forall k :: 0 <= k < |listed| ==> listed[k].ListVpcs? || listed[k].ListVpcSubnets?
  {
    [ListVpcs] + SubnetPageOps(vpcId, Listed(api.subnetPages(vpcId), AsRefs, true, bound).calls)
  }

  /** The subnets `retrieveVPCSubnet` returns for the VPC `vpcId`. */
  ghost function SubnetsOf(api: Api, vpcId: Id, bound: nat): seq<Ref>
    requires ApiBounded(api, bound)
  {
    SubnetsListed(api.subnetPages(vpcId), bound)
  }

  /**
   * `main` deletes a VPC only when `getVPCId` found it, then exactly once and as its last call,
   * and it completes unless `getVPCId` raised; without a VPC it deletes nothing at all.
   */
  lemma DecommissionDeletesOnlyFoundVpc(api: Api, vpcName: string, bound: nat)
    requires ApiBounded(api, bound)
    ensures var e := Decommissioned(api, vpcName, bound);
            var found := GetVpcId(api.vpcs, vpcName);
            && (e.completed <==> found.Ok?)
            && (found.Ok? && found.value.Some? ==>
                  && |e.trace| > 0 && e.trace[|e.trace| - 1] == DeleteVpc(found.value.value)
                  && Keep(e.trace, IsVpcDeletion) == [DeleteVpc(found.value.value)])
            && (!(found.Ok? && found.value.Some?) ==> e.trace == [ListVpcs] && Keep(e.trace, IsDeletion) == [])
  {
    var found := GetVpcId(api.vpcs, vpcName);
    if found.Ok? && found.value.Some? {
      var vpcId := found.value.value;
      var listed := LookupOps(api, vpcId, bound);
      var teardown := Teardown(api, listed, SubnetsOf(api, vpcId, bound));
      KeepNone(listed, IsVpcDeletion);
      TeardownInListOrder(api, listed, SubnetsOf(api, vpcId, bound));
      KeepAppend(listed, teardown, IsVpcDeletion);
      KeepAppend(listed + teardown, [DeleteVpc(vpcId)], IsVpcDeletion);
      KeepPair(DeleteVpc(vpcId), DeleteVpc(vpcId), IsVpcDeletion);
    } else {
      KeepPair(ListVpcs, ListVpcs, IsDeletion);
    }
  }

  /**
   * When the VPC is found, `main` lists its subnets, then works through them in list order,
   * one block per subnet (its VMs, then the subnet itself), and deletes every listed subnet
   * exactly once, in that order, whatever happens to the VMs.
   */
  lemma DecommissionInListOrder(api: Api, vpcName: string, bound: nat, vpcId: Id)
    requires ApiBounded(api, bound)
    requires GetVpcId(api.vpcs, vpcName) == Ok(Some(vpcId))
    ensures var e := Decommissioned(api, vpcName, bound);
            var listed := LookupOps(api, vpcId, bound);
            var subnets := SubnetsOf(api, vpcId, bound);
            var bs := Blocks(api, listed, subnets);
            && e.trace == listed + Concat(bs) + [DeleteVpc(vpcId)]
            && (forall i :: 0 <= i < |subnets| ==> BlockFor(bs[i], subnets[i].extId))
            && Keep(e.trace, IsSubnetDeletion) == SubnetDeletions(subnets)
  {
    var listed := LookupOps(api, vpcId, bound);
    var subnets := SubnetsOf(api, vpcId, bound);
    var teardown := Teardown(api, listed, subnets);
    TeardownBlocks(api, listed, subnets);
    TeardownInListOrder(api, listed, subnets);
    KeepNone(listed, IsSubnetDeletion);
    KeepAppend(listed, teardown, IsSubnetDeletion);
    KeepAppend(listed + teardown, [DeleteVpc(vpcId)], IsSubnetDeletion);
    KeepPair(DeleteVpc(vpcId), DeleteVpc(vpcId), IsSubnetDeletion);
  }

  /** The loop over the subnets keeps every VM deletion paired with the read before it. */
  lemma {:induction false} TeardownPaired(api: Api, hist: seq<Op>, subnets: seq<Ref>)
    requires VmWritesPaired(api.getVm, hist)
    ensures VmWritesPaired(api.getVm, hist + Teardown(api, hist, subnets))
    decreases |subnets|
  {
    if subnets == [] {
      assert hist + [] == hist;
    } else {
      var subnetId := subnets[0].extId;
      var list := [ListVmsOnSubnet(subnetId)];
      var b := SubnetBlock(api, hist, subnetId);
      PairedAppendNoWrites(api.getVm, hist, list);
      var deletions := SubnetVmDeletions(api, hist, subnetId);
      var listing := api.vmsOnSubnet(hist, subnetId);
      if listing.VmListed? && listing.data.Some? {
        DeleteVmsPaired(api, hist + list, listing.data.value);
        var later := DeleteVmsOps(api, hist + list, listing.data.value);
        ConcatAssoc(hist, list, later);
      }
      assert VmWritesPaired(api.getVm, hist + deletions);
      PairedAppendNoWrites(api.getVm, hist + deletions, [DeleteSubnet(subnetId)]);
      ConcatAssoc(hist, deletions, [DeleteSubnet(subnetId)]);
      TeardownPaired(api, hist + b, subnets[1..]);
      TeardownCons(api, hist, subnets);
      var later := Teardown(api, hist + b, subnets[1..]);
      ConcatAssoc(hist, b, later);
    }
  }

  /**
   * Every `delete_vm` of `main` immediately follows a `get_vm_by_ext_id` of the same VM and
   * carries the etag that read returned.
   */
  lemma DecommissionPairsVmWrites(api: Api, vpcName: string, bound: nat)
    requires ApiBounded(api, bound)
    ensures VmWritesPaired(api.getVm, Decommissioned(api, vpcName, bound).trace)
  {
    var found := GetVpcId(api.vpcs, vpcName);
    assert VmWritesPaired(api.getVm, []);
    if found.Ok? && found.value.Some? {
      var vpcId := found.value.value;
      var listed := LookupOps(api, vpcId, bound);
      var teardown := Teardown(api, listed, SubnetsOf(api, vpcId, bound));
      PairedAppendNoWrites(api.getVm, [], listed);
      assert [] + listed == listed;
      TeardownPaired(api, listed, SubnetsOf(api, vpcId, bound));
      PairedAppendNoWrites(api.getVm, listed + teardown, [DeleteVpc(vpcId)]);
    } else {
      PairedAppendNoWrites(api.getVm, [], [ListVpcs]);
      assert [] + [ListVpcs] == [ListVpcs];
    }
  }
}
