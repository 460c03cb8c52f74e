/**
 * The `main` of `clone-prod-to-dev-vpc.py` as the trace of remote calls it issues: create the
 * VPC, wait for it, create the overlay subnets, select the VMs by category, list the new VPC's
 * subnets, clone every selected VM onto the second of them, add the default route.
 */
module CloneProdToDev {
  import opened Prism
  import opened Paging
  import opened CloneSteps

  /** The responses of Prism Central, as far as the script reads them. */
  datatype Api = Api(
    namedSubnets: string -> Option<seq<Item>>,      // data of list_subnets(name eq ...)
    vpcs: Option<seq<Item>>,                       // data of the wait's list_vpcs()
    category: CategoryResponse,                    // get_all_categories(key, value)
    vmPages: nat -> Page<Item>,                    // list_vms, by page
    subnetPages: Id -> nat -> Page<Item>,          // list_subnets(vpcReference eq ...), by page
    getVm: (seq<Op>, Id) -> Option<Etag>,          // get_vm_by_ext_id after a history
    routeTables: Id -> Option<seq<Item>>,          // data of list_route_tables(vpcReference eq ...)
    getRouteTable: (seq<Op>, Id) -> RouteTableRead)  // get_route_table_by_id after a history

  /** The script's module-level settings. */
  datatype Config = Config(
    vpcName: string, externalNetworkName: string, categoryName: string, categoryValue: string,
    subnets: seq<SubnetConfig>)

  /** Every page server the script reads reports at most `bound` results. */
  ghost predicate ApiBounded(api: Api, bound: nat)
  {
    Bounded(api.vmPages, bound) && forall vpcId :: Bounded(api.subnetPages(vpcId), bound)
  }

  /** The name `main` gives the clone of a VM. */
  function CloneName(vmName: string): string
  {
    "clone-" + vmName
  }

  /** The payload `createOverlaySubnet` sends for one entry of the subnet list. */
  function OverlayPayload(vpcId: Option<Id>, cfg: SubnetConfig): OverlaySubnet
  {
    OverlaySubnet(cfg.subnetName, vpcId, cfg.ipNetwork, cfg.ipPrefix, cfg.ipGateway, cfg.ipPoolStart, cfg.ipPoolEnd)
  }

  /** One `create_subnet` per entry, in list order. */
  function SubnetCreations(vpcId: Option<Id>, subnets: seq<SubnetConfig>): (ops: seq<Op>)
    ensures |ops| == |subnets|
    ensures forall i :: 0 <= i < |subnets| ==> ops[i] == CreateSubnet(OverlayPayload(vpcId, subnets[i]))
  {
    seq(|subnets|, i requires 0 <= i < |subnets| => CreateSubnet(OverlayPayload(vpcId, subnets[i])))
  }

  /** The calls of the clone loop, each `cloneVmById` seeing the calls made before it. */
  function CloneAll(getVm: (seq<Op>, Id) -> Option<Etag>, hist: seq<Op>, vms: seq<Ref>, target: Id): seq<Op>
    decreases |vms|
  {
    if vms == [] then []
    else
      var first := CloneOps(getVm, hist, vms[0].extId, target, CloneName(vms[0].name));
      first + CloneAll(getVm, hist + first, vms[1..], target)
  }

  /** The opening calls: `retrieveNetworkId` and `create_vpc` inside `createVpc`, then the wait's `list_vpcs`. */
  function Setup(api: Api, cfg: Config): seq<Op>
  {
    [ListSubnetsNamed(cfg.externalNetworkName),
     CreateVpc(cfg.vpcName, RetrieveNetworkId(api.namedSubnets(cfg.externalNetworkName))),
     ListVpcs]
  }

  /**
   * The clone loop: `vpcSubnets[1]` is evaluated for the first VM, so an `IndexError` is
   * raised before any clone when VMs were selected but the VPC has fewer than two subnets.
   */
  function Cloning(getVm: (seq<Op>, Id) -> Option<Etag>, hist: seq<Op>, vms: seq<Ref>, vpcSubnets: seq<Ref>): Outcome<seq<Op>>
  {
    if vms == [] then Ok([])
    else if |vpcSubnets| < 2 then Raised
    else Ok(CloneAll(getVm, hist, vms, vpcSubnets[1].extId))
  }

  /** The run of `main`. */
  ghost function Provisioning(api: Api, cfg: Config, bound: nat): Execution
    requires ApiBounded(api, bound)
  {
    match Awaited(api.vpcs, cfg.vpcName, WaitTimeout)
    case Raised => Execution(Setup(api, cfg), false)
    case Ok(vpcId) => Provisioned(api, cfg, bound, vpcId)
  }

  /** The run of `main` once `waitForVpcCreation` returned `vpcId` (`None` for its `False`). */
  ghost function Provisioned(api: Api, cfg: Config, bound: nat, vpcId: Option<Id>): Execution
    requires ApiBounded(api, bound)
  {
    var created := Setup(api, cfg) + SubnetCreations(vpcId, cfg.subnets);
    var selection := VmSelection(api.category, api.vmPages, bound, cfg.categoryName, cfg.categoryValue);
    var selected := created + selection.ops;
    if selection.result.Raised? then Execution(selected, false)
    else
      var listing := VpcSubnetListing(vpcId, api.subnetPages, bound);
      var listed := selected + listing.ops;
      if listing.result.Raised? then Execution(listed, false)
      else Finish(api, cfg, vpcId.value, selection.result.value, listing.result.value, listed)
  }

  /** The clone loop and `createDefaultRoute`, after the calls `listed`. */
  function Finish(api: Api, cfg: Config, vpcId: Id, vms: seq<Ref>, vpcSubnets: seq<Ref>, listed: seq<Op>): Execution
  {
    match Cloning(api.getVm, listed, vms, vpcSubnets)
    case Raised => Execution(listed, false)
    case Ok(clones) =>
      var route := RouteUpdate(api.namedSubnets, api.routeTables, api.getRouteTable, listed + clones,
                               vpcId, cfg.externalNetworkName);
      Execution(listed + clones + route.ops, route.result.Ok?)
  }

  /** One step of the clone loop, after the calls `hist` and `issued`. */
  lemma CloneAllStep(getVm: (seq<Op>, Id) -> Option<Etag>, hist: seq<Op>, issued: seq<Op>, vms: seq<Ref>, j: nat,
                     target: Id, first: seq<Op>)
    requires j < |vms|
    requires first == CloneOps(getVm, hist + issued, vms[j].extId, target, CloneName(vms[j].name))
    ensures issued + CloneAll(getVm, hist + issued, vms[j..], target)
            == (issued + first) + CloneAll(getVm, hist + (issued + first), vms[j + 1..], target)
  {
    assert vms[j..][0] == vms[j] && vms[j..][1..] == vms[j + 1..];
    var later := CloneAll(getVm, hist + issued + first, vms[j + 1..], target);
    ConcatAssoc(hist, issued, first);
    ConcatAssoc(issued, first, later);
  }

  /** The `createOverlaySubnet` loop over the subnet list. */
  method CreateSubnets(vpcId: Option<Id>, subnets: seq<SubnetConfig>) returns (ops: seq<Op>)
    ensures ops == SubnetCreations(vpcId, subnets)
  {
    ops := [];
    var i := 0;
    while i < |subnets|
      invariant i <= |subnets|
      invariant ops == SubnetCreations(vpcId, subnets[..i])
    {
      ops := ops + [CreateSubnet(OverlayPayload(vpcId, subnets[i]))];
      i := i + 1;
      assert SubnetCreations(vpcId, subnets[..i])
             == SubnetCreations(vpcId, subnets[..i - 1]) + [CreateSubnet(OverlayPayload(vpcId, subnets[i - 1]))];
    }
    assert subnets[..i] == subnets;
  }

  /**
   * The clone loop of `main`: each selected VM in turn is cloned onto the second listed subnet,
   * under a name made of the prefix `clone-` and the VM's own name.
   */
  method CloneSelected(getVm: (seq<Op>, Id) -> Option<Etag>, hist: seq<Op>, vms: seq<Ref>, vpcSubnets: seq<Ref>)
    returns (clones: Outcome<seq<Op>>)
    ensures clones == Cloning(getVm, hist, vms, vpcSubnets)
  {
    ghost var target := if |vpcSubnets| >= 2 then vpcSubnets[1].extId else "";
    var issued := [];
    var j := 0;
    assert vms[j..] == vms && hist + issued == hist;
    while j < |vms|
      invariant j <= |vms|
      invariant j > 0 ==> |vpcSubnets| >= 2
      invariant CloneAll(getVm, hist, vms, target) == issued + CloneAll(getVm, hist + issued, vms[j..], target)
    {
      if |vpcSubnets| < 2 {
        assert vms != [];
        return Raised;
      }
      var cloneOps := CloneVmById(getVm, hist + issued, vms[j].extId, vpcSubnets[1].extId, CloneName(vms[j].name));
      CloneAllStep(getVm, hist, issued, vms, j, target, cloneOps);
      issued := issued + cloneOps;
      j := j + 1;
    }
    assert vms[j..] == [];
    assert CloneAll(getVm, hist + issued, vms[j..], target) == [];
    assert issued == CloneAll(getVm, hist, vms, target);
    clones := Ok(issued);
  }

  /** `main`, statement by statement. */
  method Provision(api: Api, cfg: Config, ghost bound: nat) returns (trace: seq<Op>, completed: bool)
    requires ApiBounded(api, bound)
    ensures Execution(trace, completed) == Provisioning(api, cfg, bound)
  {
    // createVpc(vpcName)
    var externalNetworkId := RetrieveNetworkId(api.namedSubnets(cfg.externalNetworkName));
    trace := [ListSubnetsNamed(cfg.externalNetworkName), CreateVpc(cfg.vpcName, externalNetworkId)];
    // vpcId = waitForVpcCreation(vpcName)
    trace := trace + [ListVpcs];
    var vpcId, sleeps := WaitForVpcCreation(api.vpcs, cfg.vpcName, WaitTimeout, WaitInterval);
    if vpcId.Raised? {
      return trace, false;
    }
    trace, completed := ProvisionAfterWait(api, cfg, bound, vpcId.value, trace);
  }

  /** The rest of `main` once the wait has returned. */
  method ProvisionAfterWait(api: Api, cfg: Config, ghost bound: nat, vpcId: Option<Id>, setup: seq<Op>)
    returns (trace: seq<Op>, completed: bool)
    requires ApiBounded(api, bound) && setup == Setup(api, cfg)
    ensures Execution(trace, completed) == Provisioned(api, cfg, bound, vpcId)
  {
    var createOps := CreateSubnets(vpcId, cfg.subnets);
    trace := setup + createOps;
    // vmList = getVmsByCategories(categoryName, categoryValue)
    var vmList, selectOps := GetVmsByCategories(api.category, api.vmPages, bound, cfg.categoryName, cfg.categoryValue);
    trace := trace + selectOps;
    if vmList.Raised? {
      return trace, false;
    }
    // vpcSubnets = retrieveVpcSubnets(vpcId)
    var vpcSubnets, listOps := RetrieveVpcSubnets(vpcId, api.subnetPages, bound);
    trace := trace + listOps;
    if vpcSubnets.Raised? {
      return trace, false;
    }
    var clones := CloneSelected(api.getVm, trace, vmList.value, vpcSubnets.value);
    if clones.Raised? {
      return trace, false;
    }
    trace := trace + clones.value;
    // createDefaultRoute(vpcId)
    var routes, routeOps := CreateDefaultRoute(api.namedSubnets, api.routeTables, api.getRouteTable, trace,
                                               vpcId.value, cfg.externalNetworkName);
    trace := trace + routeOps;
    completed := routes.Ok?;
  }

  // ---------------------------------------------------------------- calls of a run, by kind

  predicate IsSubnetCreation(op: Op) { op.CreateSubnet? }
  predicate IsVmRead(op: Op) { op.GetVm? }
  predicate IsCloneCall(op: Op) { op.CloneVm? }
  predicate IsRouteUpdate(op: Op) { op.UpdateRouteTable? }

  /** `list_subnets(name eq ...)` is issued both by `createVpc` and by `createDefaultRoute`. */
  predicate Ranked(op: Op) { !op.ListSubnetsNamed? }

  /**
   * The phase of `main` a call belongs to: 0 create and wait, 1 subnet creation, 2 VM
   * selection, 3 listing the VPC's subnets, 4 cloning, 5 the route.
   */
  function Phase(op: Op): nat
  {
    match op
    case CreateVpc(_, _) => 0
    case ListVpcs => 0
    case CreateSubnet(_) => 1
    case ListCategories(_, _) => 2
    case ListVmsPage(_) => 2
    case ListVpcSubnets(_, _) => 3
    case GetVm(_) => 4
    case CloneVm(_, _, _, _) => 4
    case _ => 5
  }

  /** The ranked calls of `t` come in non-decreasing phase. */
  ghost predicate PhaseOrdered(t: seq<Op>)
  {
    forall a, b :: 0 <= a < b < |t| && Ranked(t[a]) && Ranked(t[b]) ==> Phase(t[a]) <= Phase(t[b])
  }

  ghost predicate PhasesWithin(t: seq<Op>, lo: nat, hi: nat)
  {
    forall k :: 0 <= k < |t| && Ranked(t[k]) ==> lo <= Phase(t[k]) <= hi
  }

  lemma {:induction false} OrderedExtend(s: seq<Op>, t: seq<Op>, lo: nat, hi: nat, p: nat)
    requires PhaseOrdered(s) && PhasesWithin(s, lo, hi) && lo <= hi <= p
    requires PhasesWithin(t, p, p)
    ensures PhaseOrdered(s + t) && PhasesWithin(s + t, lo, p)
  {
    var u := s + t;
    forall a, b | 0 <= a < b < |u| && Ranked(u[a]) && Ranked(u[b])
      ensures Phase(u[a]) <= Phase(u[b])
    {
      if b < |s| {
        assert u[a] == s[a] && u[b] == s[b];
      } else if a < |s| {
        assert u[a] == s[a] && u[b] == t[b - |s|];
      } else {
        assert u[a] == t[a - |s|] && u[b] == t[b - |s|];
      }
    }
    forall k | 0 <= k < |u| && Ranked(u[k])
      ensures lo <= Phase(u[k]) <= p
    {
      if k < |s| {
        assert u[k] == s[k];
      } else {
        assert u[k] == t[k - |s|];
      }
    }
  }

  /** A trace within phases `lo..hi` holds no call of phase `q` outside them. */
  lemma {:induction false} KeepOutside(t: seq<Op>, lo: nat, hi: nat, p: Op -> bool, q: nat)
    requires PhasesWithin(t, lo, hi) && (q < lo || hi < q)
    requires forall op :: p(op) ==> Ranked(op) && Phase(op) == q
    ensures Keep(t, p) == []
  {
    KeepNone(t, p);
  }

  lemma VmSelectionKinds(category: CategoryResponse, vmPages: nat -> Page<Item>, bound: nat,
                         categoryName: string, categoryValue: string)
    requires Bounded(vmPages, bound)
    ensures PhasesWithin(VmSelection(category, vmPages, bound, categoryName, categoryValue).ops, 2, 2)
  {
  }

  lemma VpcSubnetListingKinds(vpcId: Option<Id>, subnetPages: Id -> nat -> Page<Item>, bound: nat)
    requires vpcId.Some? ==> Bounded(subnetPages(vpcId.value), bound)
    ensures PhasesWithin(VpcSubnetListing(vpcId, subnetPages, bound).ops, 3, 3)
  {
  }

  /** The calls of one `cloneVmById`: its read, then its clone when the read succeeded. */
  lemma CloneOpsShape(getVm: (seq<Op>, Id) -> Option<Etag>, hist: seq<Op>, vmId: Id, target: Id, vmName: string)
    ensures var ops := CloneOps(getVm, hist, vmId, target, vmName);
            var etag := getVm(hist, vmId);
            && (etag.None? ==> ops == [GetVm(vmId)])
            && (etag.Some? ==> ops == [GetVm(vmId), CloneVm(vmId, vmName, target, etag.value)])
  {
  }

  lemma CloneOpsKept(getVm: (seq<Op>, Id) -> Option<Etag>, hist: seq<Op>, vmId: Id, target: Id, vmName: string)
    ensures var ops := CloneOps(getVm, hist, vmId, target, vmName);
            var etag := getVm(hist, vmId);
            && Keep(ops, IsVmRead) == [GetVm(vmId)]
            && Keep(ops, IsCloneCall) == (if etag.Some? then [CloneVm(vmId, vmName, target, etag.value)] else [])
  {
    var etag := getVm(hist, vmId);
    CloneOpsShape(getVm, hist, vmId, target, vmName);
    KeepPair(GetVm(vmId), GetVm(vmId), IsVmRead);
    KeepPair(GetVm(vmId), GetVm(vmId), IsCloneCall);
    if etag.Some? {
      KeepPair(GetVm(vmId), CloneVm(vmId, vmName, target, etag.value), IsVmRead);
      KeepPair(GetVm(vmId), CloneVm(vmId, vmName, target, etag.value), IsCloneCall);
    }
  }

  /** A call the clone loop may issue: a read of a VM, or a clone onto `target`. */
  predicate CloneLoopCall(op: Op, target: Id)
  {
    op.GetVm? || (op.CloneVm? && op.target == target)
  }

  ghost predicate CloneLoopCalls(t: seq<Op>, target: Id)
  {
    forall k :: 0 <= k < |t| ==> CloneLoopCall(t[k], target)
  }

  /** The clone loop issues only reads and clones of VMs, every clone onto `target`. */
  lemma {:induction false} CloneAllKinds(getVm: (seq<Op>, Id) -> Option<Etag>, hist: seq<Op>, vms: seq<Ref>, target: Id)
    ensures CloneLoopCalls(CloneAll(getVm, hist, vms, target), target)
    decreases |vms|
  {
    if vms != [] {
      var first := CloneOps(getVm, hist, vms[0].extId, target, CloneName(vms[0].name));
      var rest := CloneAll(getVm, hist + first, vms[1..], target);
      CloneOpsShape(getVm, hist, vms[0].extId, target, CloneName(vms[0].name));
      CloneAllKinds(getVm, hist + first, vms[1..], target);
      assert CloneAll(getVm, hist, vms, target) == first + rest;
      forall k | 0 <= k < |first + rest|
        ensures CloneLoopCall((first + rest)[k], target)
      {
        if k < |first| {
          assert (first + rest)[k] == first[k];
          if k == 1 {
            assert first[k] == CloneVm(vms[0].extId, CloneName(vms[0].name), target, getVm(hist, vms[0].extId).value);
          }
        } else {
          assert (first + rest)[k] == rest[k - |first|];
        }
      }
    }
  }

  /** The reads issued for `vms`, one per VM in order. */
  function ReadsOf(vms: seq<Ref>): (r: seq<Op>)
    ensures |r| == |vms| && forall i :: 0 <= i < |vms| ==> r[i] == GetVm(vms[i].extId)
  {
    seq(|vms|, i requires 0 <= i < |vms| => GetVm(vms[i].extId))
  }

  /** The clone loop reads every VM of the list exactly once, in list order. */
  lemma {:induction false} CloneAllReads(getVm: (seq<Op>, Id) -> Option<Etag>, hist: seq<Op>, vms: seq<Ref>, target: Id)
    ensures Keep(CloneAll(getVm, hist, vms, target), IsVmRead) == ReadsOf(vms)
    decreases |vms|
  {
    if vms != [] {
      var first := CloneOps(getVm, hist, vms[0].extId, target, CloneName(vms[0].name));
      var rest := CloneAll(getVm, hist + first, vms[1..], target);
      CloneOpsKept(getVm, hist, vms[0].extId, target, CloneName(vms[0].name));
      KeepAppend(first, rest, IsVmRead);
      CloneAllReads(getVm, hist + first, vms[1..], target);
      assert CloneAll(getVm, hist, vms, target) == first + rest;
      ReadsOfCons(vms);
    }
  }

  lemma ReadsOfCons(vms: seq<Ref>)
    requires vms != []
    ensures ReadsOf(vms) == [GetVm(vms[0].extId)] + ReadsOf(vms[1..])
  {
    var r := [GetVm(vms[0].extId)] + ReadsOf(vms[1..]);
    forall i | 0 < i < |vms|
      ensures r[i] == ReadsOf(vms)[i]
    {
      assert r[i] == ReadsOf(vms[1..])[i - 1] && vms[1..][i - 1] == vms[i];
    }
  }

  /** When every read succeeds, the clone loop clones every VM of the list once, in list order. */
  lemma {:induction false} CloneAllClones(getVm: (seq<Op>, Id) -> Option<Etag>, hist: seq<Op>, vms: seq<Ref>, target: Id)
    requires forall h, v :: getVm(h, v).Some?
    ensures var c := Keep(CloneAll(getVm, hist, vms, target), IsCloneCall);
            |c| == |vms| &&
            forall i :: 0 <= i < |vms| ==>
              c[i].CloneVm? && c[i].vm == vms[i].extId && c[i].cloneName == CloneName(vms[i].name) && c[i].target == target
    decreases |vms|
  {
    if vms != [] {
      var first := CloneOps(getVm, hist, vms[0].extId, target, CloneName(vms[0].name));
      var rest := CloneAll(getVm, hist + first, vms[1..], target);
      CloneOpsKept(getVm, hist, vms[0].extId, target, CloneName(vms[0].name));
      KeepAppend(first, rest, IsCloneCall);
      CloneAllClones(getVm, hist + first, vms[1..], target);
      var etag := getVm(hist, vms[0].extId);
      assert etag.Some?;
      var x := CloneVm(vms[0].extId, CloneName(vms[0].name), target, etag.value);
      assert CloneAll(getVm, hist, vms, target) == first + rest;
      ClonedInOrderCons(x, Keep(rest, IsCloneCall), vms, target);
    }
  }

  /** A clone of the first VM followed by the clones of the others, in order, onto `target`. */
  lemma ClonedInOrderCons(x: Op, later: seq<Op>, vms: seq<Ref>, target: Id)
    requires vms != []
    requires x.CloneVm? && x.vm == vms[0].extId && x.cloneName == CloneName(vms[0].name) && x.target == target
    requires |later| == |vms| - 1
    requires forall i :: 0 <= i < |vms| - 1 ==>
               later[i].CloneVm? && later[i].vm == vms[1..][i].extId
               && later[i].cloneName == CloneName(vms[1..][i].name) && later[i].target == target
    ensures var c := [x] + later;
            |c| == |vms| &&
            forall i :: 0 <= i < |vms| ==>
              c[i].CloneVm? && c[i].vm == vms[i].extId && c[i].cloneName == CloneName(vms[i].name) && c[i].target == target
  {
    var c := [x] + later;
    forall i | 0 < i < |vms|
      ensures c[i] == later[i - 1] && vms[1..][i - 1] == vms[i]
    {
    }
  }

  /** The clone loop keeps every clone paired with the read just before it. */
  lemma {:induction false} CloneAllPaired(getVm: (seq<Op>, Id) -> Option<Etag>, hist: seq<Op>, vms: seq<Ref>, target: Id)
    requires VmWritesPaired(getVm, hist)
    ensures VmWritesPaired(getVm, hist + CloneAll(getVm, hist, vms, target))
    decreases |vms|
  {
    if vms == [] {
      assert hist + [] == hist;
    } else {
      var first := CloneOps(getVm, hist, vms[0].extId, target, CloneName(vms[0].name));
      var etag := getVm(hist, vms[0].extId);
      CloneOpsShape(getVm, hist, vms[0].extId, target, CloneName(vms[0].name));
      if etag.Some? {
        PairedAppendReadWrite(getVm, hist, CloneVm(vms[0].extId, CloneName(vms[0].name), target, etag.value));
      } else {
        PairedAppendNoWrites(getVm, hist, first);
      }
      CloneAllPaired(getVm, hist + first, vms[1..], target);
      var rest := CloneAll(getVm, hist + first, vms[1..], target);
      assert CloneAll(getVm, hist, vms, target) == first + rest;
      ConcatAssoc(hist, first, rest);
    }
  }

  // ---------------------------------------------------------------- properties of main

  /** What the clone loop works on when a run reaches it without raising. */
  datatype Plan = Plan(vpcId: Id, vms: seq<Ref>, vpcSubnets: seq<Ref>)

  ghost function ClonePlan(api: Api, cfg: Config, bound: nat): (r: Option<Plan>)
    requires ApiBounded(api, bound)
    ensures r.Some? && r.value.vms != [] ==> |r.value.vpcSubnets| >= 2
    ensures r.Some? ==> Awaited(api.vpcs, cfg.vpcName, WaitTimeout) == Ok(Some(r.value.vpcId))
  {
    match Awaited(api.vpcs, cfg.vpcName, WaitTimeout)
    case Raised => None
    case Ok(vpcId) =>
      var selection := VmSelection(api.category, api.vmPages, bound, cfg.categoryName, cfg.categoryValue);
      var listing := VpcSubnetListing(vpcId, api.subnetPages, bound);
      if selection.result.Raised? || listing.result.Raised? then None
      else if selection.result.value != [] && |listing.result.value| < 2 then None
      else Some(Plan(vpcId.value, selection.result.value, listing.result.value))
  }

  /**
   * The calls of `main` come phase by phase: create the VPC and wait, create the subnets,
   * select the VMs, list the VPC's subnets, clone, update the route table.
   */
  lemma ProvisionInPhaseOrder(api: Api, cfg: Config, bound: nat)
    requires ApiBounded(api, bound)
    ensures PhaseOrdered(Provisioning(api, cfg, bound).trace)
  {
    match Awaited(api.vpcs, cfg.vpcName, WaitTimeout)
    case Raised =>
      SetupInPhaseOrder(api, cfg);
    case Ok(vpcId) =>
      ProvisionedInPhaseOrder(api, cfg, bound, vpcId);
  }

  lemma SetupInPhaseOrder(api: Api, cfg: Config)
    ensures PhaseOrdered(Setup(api, cfg)) && PhasesWithin(Setup(api, cfg), 0, 0)
  {
    var setup := Setup(api, cfg);
    OrderedExtend([], setup, 0, 0, 0);
    assert [] + setup == setup;
  }

  lemma ProvisionedInPhaseOrder(api: Api, cfg: Config, bound: nat, vpcId: Option<Id>)
    requires ApiBounded(api, bound)
    ensures PhaseOrdered(Provisioned(api, cfg, bound, vpcId).trace)
  {
    var setup := Setup(api, cfg);
    SetupInPhaseOrder(api, cfg);
    var creations := SubnetCreations(vpcId, cfg.subnets);
    assert PhasesWithin(creations, 1, 1) by {
      forall k | 0 <= k < |creations| ensures creations[k].CreateSubnet? {
      }
    }
    var created := setup + creations;
    OrderedExtend(setup, creations, 0, 0, 1);
    var selection := VmSelection(api.category, api.vmPages, bound, cfg.categoryName, cfg.categoryValue);
    VmSelectionKinds(api.category, api.vmPages, bound, cfg.categoryName, cfg.categoryValue);
    OrderedExtend(created, selection.ops, 0, 1, 2);
    if selection.result.Ok? {
      ListedInPhaseOrder(api, cfg, bound, vpcId, selection.result.value, created + selection.ops);
    }
  }

  /** The listing of the VPC's subnets and what follows it, after the selection `selected` ended with `vms`. */
  lemma ListedInPhaseOrder(api: Api, cfg: Config, bound: nat, vpcId: Option<Id>, vms: seq<Ref>, selected: seq<Op>)
    requires ApiBounded(api, bound)
    requires PhaseOrdered(selected) && PhasesWithin(selected, 0, 2)
    ensures var listing := VpcSubnetListing(vpcId, api.subnetPages, bound);
            var listed := selected + listing.ops;
            && PhaseOrdered(listed)
            && (listing.result.Ok? ==>
                  PhaseOrdered(Finish(api, cfg, vpcId.value, vms, listing.result.value, listed).trace))
  {
    var listing := VpcSubnetListing(vpcId, api.subnetPages, bound);
    VpcSubnetListingKinds(vpcId, api.subnetPages, bound);
    OrderedExtend(selected, listing.ops, 0, 2, 3);
    if listing.result.Ok? {
      FinishInPhaseOrder(api, cfg, vpcId.value, vms, listing.result.value, selected + listing.ops);
    }
  }

  lemma FinishInPhaseOrder(api: Api, cfg: Config, vpcId: Id, vms: seq<Ref>, vpcSubnets: seq<Ref>, listed: seq<Op>)
    requires PhaseOrdered(listed) && PhasesWithin(listed, 0, 3)
    ensures PhaseOrdered(Finish(api, cfg, vpcId, vms, vpcSubnets, listed).trace)
  {
    match Cloning(api.getVm, listed, vms, vpcSubnets)
    case Raised =>
    case Ok(clones) =>
      if vms != [] {
        var target := vpcSubnets[1].extId;
        CloneAllKinds(api.getVm, listed, vms, target);
        assert clones == CloneAll(api.getVm, listed, vms, target);
        forall k | 0 <= k < |clones|
          ensures Phase(clones[k]) == 4
        {
          assert CloneLoopCall(clones[k], target);
        }
      }
      OrderedExtend(listed, clones, 0, 3, 4);
      var route := RouteUpdate(api.namedSubnets, api.routeTables, api.getRouteTable, listed + clones,
                               vpcId, cfg.externalNetworkName);
      OrderedExtend(listed + clones, route.ops, 0, 4, 5);
  }

  lemma {:induction false} WithinAppend(s: seq<Op>, t: seq<Op>, lo: nat, m1: nat, m2: nat, hi: nat)
    requires PhasesWithin(s, lo, m1) && PhasesWithin(t, m2, hi) && lo <= m2 && m1 <= hi
    ensures PhasesWithin(s + t, lo, hi)
  {
    var u := s + t;
    forall k | 0 <= k < |u| && Ranked(u[k])
      ensures lo <= Phase(u[k]) <= hi
    {
      if k < |s| {
        assert u[k] == s[k];
      } else {
        assert u[k] == t[k - |s|];
      }
    }
  }

  /** The calls of a run up to and including the listing of the VPC's subnets. */
  ghost function Prelude(api: Api, cfg: Config, bound: nat, vpcId: Option<Id>): seq<Op>
    requires ApiBounded(api, bound)
  {
    var selection := VmSelection(api.category, api.vmPages, bound, cfg.categoryName, cfg.categoryValue);
    Setup(api, cfg) + SubnetCreations(vpcId, cfg.subnets) + selection.ops
      + if selection.result.Raised? then [] else VpcSubnetListing(vpcId, api.subnetPages, bound).ops
  }

  /** The calls of the clone loop of a run that reaches it. */
  function PlannedClones(api: Api, plan: Plan, listed: seq<Op>): seq<Op>
    requires plan.vms != [] ==> |plan.vpcSubnets| >= 2
  {
    if plan.vms == [] then [] else CloneAll(api.getVm, listed, plan.vms, plan.vpcSubnets[1].extId)
  }

  /** A run whose wait raised stops after its opening calls. */
  lemma RunLayoutRaised(api: Api, cfg: Config, bound: nat)
    requires ApiBounded(api, bound) && Awaited(api.vpcs, cfg.vpcName, WaitTimeout).Raised?
    ensures Provisioning(api, cfg, bound) == Execution(Setup(api, cfg), false)
  {
  }

  /** A run that does not reach the clone loop stops within its prelude. */
  lemma RunLayoutUnplanned(api: Api, cfg: Config, bound: nat)
    requires ApiBounded(api, bound) && Awaited(api.vpcs, cfg.vpcName, WaitTimeout).Ok?
    requires ClonePlan(api, cfg, bound).None?
    ensures Provisioning(api, cfg, bound)
            == Execution(Prelude(api, cfg, bound, Awaited(api.vpcs, cfg.vpcName, WaitTimeout).value), false)
  {
  }

  /** A run that reaches the clone loop: its prelude, the loop, then `createDefaultRoute`. */
  lemma RunLayoutPlanned(api: Api, cfg: Config, bound: nat)
    requires ApiBounded(api, bound) && ClonePlan(api, cfg, bound).Some?
    ensures var plan := ClonePlan(api, cfg, bound).value;
            var listed := Prelude(api, cfg, bound, Some(plan.vpcId));
            var clones := PlannedClones(api, plan, listed);
            var route := RouteUpdate(api.namedSubnets, api.routeTables, api.getRouteTable, listed + clones,
                                     plan.vpcId, cfg.externalNetworkName);
            Provisioning(api, cfg, bound) == Execution(listed + clones + route.ops, route.result.Ok?)
  {
  }

  /** Before the clone loop a run creates, selects and lists, in phases 0 to 3; the creations follow the setup. */
  lemma PreludeLayout(api: Api, cfg: Config, bound: nat, vpcId: Option<Id>)
    requires ApiBounded(api, bound)
    ensures var p := Prelude(api, cfg, bound, vpcId);
            var created := Setup(api, cfg) + SubnetCreations(vpcId, cfg.subnets);
            && |created| <= |p| && p == created + p[|created|..]
            && PhasesWithin(p[|created|..], 2, 3) && PhasesWithin(p, 0, 3)
  {
    var selection := VmSelection(api.category, api.vmPages, bound, cfg.categoryName, cfg.categoryValue);
    var listing := if selection.result.Raised? then [] else VpcSubnetListing(vpcId, api.subnetPages, bound).ops;
    VmSelectionKinds(api.category, api.vmPages, bound, cfg.categoryName, cfg.categoryValue);
    if selection.result.Ok? {
      VpcSubnetListingKinds(vpcId, api.subnetPages, bound);
    }
    assert PhasesWithin(listing, 3, 3);
    var creations := SubnetCreations(vpcId, cfg.subnets);
    assert PhasesWithin(creations, 1, 1) by {
      forall k | 0 <= k < |creations| ensures creations[k].CreateSubnet? {
      }
    }
    assert Prelude(api, cfg, bound, vpcId) == Setup(api, cfg) + creations + selection.ops + listing;
    PreludeShape(Setup(api, cfg), creations, selection.ops, listing);
  }

  /** Four blocks of calls in phases 0, 1, 2 and 3, one after the other. */
  lemma PreludeShape(setup: seq<Op>, creations: seq<Op>, selection: seq<Op>, listing: seq<Op>)
    requires PhasesWithin(setup, 0, 0) && PhasesWithin(creations, 1, 1)
    requires PhasesWithin(selection, 2, 2) && PhasesWithin(listing, 3, 3)
    ensures var p := setup + creations + selection + listing;
            var created := setup + creations;
            && |created| <= |p| && p == created + p[|created|..] && p[|created|..] == selection + listing
            && PhasesWithin(p[|created|..], 2, 3) && PhasesWithin(p, 0, 3)
  {
    var p := setup + creations + selection + listing;
    var created := setup + creations;
    ConcatAssoc(created, selection, listing);
    assert p[|created|..] == selection + listing;
    WithinAppend(selection, listing, 2, 2, 3, 3);
    WithinAppend(setup, creations, 0, 0, 1, 1);
    WithinAppend(created, selection + listing, 0, 1, 2, 3);
  }

  lemma PlannedClonesKinds(api: Api, plan: Plan, listed: seq<Op>)
    requires plan.vms != [] ==> |plan.vpcSubnets| >= 2
    ensures PhasesWithin(PlannedClones(api, plan, listed), 4, 4)
    ensures forall k :: 0 <= k < |PlannedClones(api, plan, listed)| ==>
              !PlannedClones(api, plan, listed)[k].UpdateRouteTable?
  {
    var clones := PlannedClones(api, plan, listed);
    if plan.vms != [] {
      var target := plan.vpcSubnets[1].extId;
      CloneAllKinds(api.getVm, listed, plan.vms, target);
      forall k | 0 <= k < |clones|
        ensures Phase(clones[k]) == 4 && !clones[k].UpdateRouteTable?
      {
        assert CloneLoopCall(clones[k], target);
      }
    }
  }

  lemma RouteOpsKinds(api: Api, cfg: Config, hist: seq<Op>, vpcId: Id)
    ensures var route := RouteUpdate(api.namedSubnets, api.routeTables, api.getRouteTable, hist, vpcId, cfg.externalNetworkName);
            && PhasesWithin(route.ops, 5, 5)
            && (forall k :: 0 <= k < |route.ops| ==> !IsVmWrite(route.ops[k]))
            && Keep(route.ops, IsRouteUpdate) == (if route.result.Ok? then [route.ops[|route.ops| - 1]] else [])
  {
    var route := RouteUpdate(api.namedSubnets, api.routeTables, api.getRouteTable, hist, vpcId, cfg.externalNetworkName);
    var a, b := ListSubnetsNamed(cfg.externalNetworkName), ListRouteTables(vpcId);
    if route.result.Ok? {
      var c, d := route.ops[2], route.ops[3];
      assert route.ops == [a, b, c, d] && c.GetRouteTable? && d.UpdateRouteTable?;
      RouteCallsPhases(a, b, c, d);
      RouteCallsKeep(a, b, c, d);
    } else {
      assert route.ops == [a, b];
      KeepPair(a, b, IsRouteUpdate);
    }
  }

  /** The lookups of `createDefaultRoute`, then its read and update of the route table, all in phase 5. */
  lemma RouteCallsPhases(a: Op, b: Op, c: Op, d: Op)
    requires a.ListSubnetsNamed? && b.ListRouteTables? && c.GetRouteTable? && d.UpdateRouteTable?
    ensures PhasesWithin([a, b, c, d], 5, 5)
    ensures forall k :: 0 <= k < 4 ==> !IsVmWrite([a, b, c, d][k])
  {
  }

  /** Of those four calls only the last updates a route table. */
  lemma RouteCallsKeep(a: Op, b: Op, c: Op, d: Op)
    requires a.ListSubnetsNamed? && b.ListRouteTables? && c.GetRouteTable? && d.UpdateRouteTable?
    ensures Keep([a, b, c, d], IsRouteUpdate) == [d]
  {
    assert [a, b, c, d] == [a, b] + [c, d];
    KeepPair(a, b, IsRouteUpdate);
    KeepPair(c, d, IsRouteUpdate);
    KeepAppend([a, b], [c, d], IsRouteUpdate);
  }

  /** The calls a run issues after the calls `listed`, when it reaches the clone loop. */
  lemma PlannedTailKinds(api: Api, cfg: Config, plan: Plan, listed: seq<Op>)
    requires plan.vms != [] ==> |plan.vpcSubnets| >= 2
    ensures var clones := PlannedClones(api, plan, listed);
            var route := RouteUpdate(api.namedSubnets, api.routeTables, api.getRouteTable, listed + clones,
                                     plan.vpcId, cfg.externalNetworkName);
            PhasesWithin(clones + route.ops, 4, 5)
  {
    var clones := PlannedClones(api, plan, listed);
    var route := RouteUpdate(api.namedSubnets, api.routeTables, api.getRouteTable, listed + clones,
                             plan.vpcId, cfg.externalNetworkName);
    PlannedClonesKinds(api, plan, listed);
    RouteOpsKinds(api, cfg, listed + clones, plan.vpcId);
    WithinAppend(clones, route.ops, 4, 4, 5, 5);
  }

  /** After the waited-for creations, a run issues calls of phases 2 to 5 only. */
  lemma RunAfterCreations(api: Api, cfg: Config, bound: nat)
    requires ApiBounded(api, bound) && Awaited(api.vpcs, cfg.vpcName, WaitTimeout).Ok?
    ensures var e := Provisioning(api, cfg, bound);
            var created := Setup(api, cfg) + SubnetCreations(Awaited(api.vpcs, cfg.vpcName, WaitTimeout).value, cfg.subnets);
            && |created| <= |e.trace| && e.trace == created + e.trace[|created|..]
            && PhasesWithin(e.trace[|created|..], 2, 5)
  {
    var e := Provisioning(api, cfg, bound);
    var vpcId := Awaited(api.vpcs, cfg.vpcName, WaitTimeout).value;
    var created := Setup(api, cfg) + SubnetCreations(vpcId, cfg.subnets);
    var p := Prelude(api, cfg, bound, vpcId);
    PreludeLayout(api, cfg, bound, vpcId);
    var plan := ClonePlan(api, cfg, bound);
    var tail: seq<Op> := [];
    if plan.None? {
      RunLayoutUnplanned(api, cfg, bound);
    } else {
      RunLayoutPlanned(api, cfg, bound);
      var clones := PlannedClones(api, plan.value, p);
      tail := clones + RouteUpdate(api.namedSubnets, api.routeTables, api.getRouteTable, p + clones,
                                   plan.value.vpcId, cfg.externalNetworkName).ops;
      PlannedTailKinds(api, cfg, plan.value, p);
    }
    assert e.trace == p + tail;
    AfterCreationsShape(created, p[|created|..], tail);
  }

  /** The creations, then calls of phases 2 and 3, then calls of phases 4 and 5. */
  lemma AfterCreationsShape(created: seq<Op>, rest: seq<Op>, tail: seq<Op>)
    requires PhasesWithin(rest, 2, 3) && PhasesWithin(tail, 4, 5)
    ensures var t := created + rest + tail;
            && |created| <= |t| && t == created + t[|created|..] && PhasesWithin(t[|created|..], 2, 5)
  {
    var t := created + rest + tail;
    ConcatAssoc(created, rest, tail);
    assert t[|created|..] == rest + tail;
    WithinAppend(rest, tail, 2, 3, 4, 5);
  }

  /**
   * `main` sends one `create_subnet` per entry of the subnet list, in list order, right after
   * creating the VPC and waiting for it, and no other; none when the wait raised.
   */
  lemma ProvisionCreatesConfiguredSubnets(api: Api, cfg: Config, bound: nat)
    requires ApiBounded(api, bound)
    ensures var e := Provisioning(api, cfg, bound);
            var waited := Awaited(api.vpcs, cfg.vpcName, WaitTimeout);
            && (waited.Raised? ==> Keep(e.trace, IsSubnetCreation) == [] && !e.completed)
            && (waited.Ok? ==>
                  && |e.trace| >= 3 + |cfg.subnets|
                  && e.trace[..3 + |cfg.subnets|] == Setup(api, cfg) + SubnetCreations(waited.value, cfg.subnets)
                  && Keep(e.trace, IsSubnetCreation) == SubnetCreations(waited.value, cfg.subnets))
  {
    var e := Provisioning(api, cfg, bound);
    var waited := Awaited(api.vpcs, cfg.vpcName, WaitTimeout);
    var setup := Setup(api, cfg);
    KeepNone(setup, IsSubnetCreation);
    if waited.Ok? {
      var creations := SubnetCreations(waited.value, cfg.subnets);
      var created := setup + creations;
      RunAfterCreations(api, cfg, bound);
      var rest := e.trace[|created|..];
      KeepOutside(rest, 2, 5, IsSubnetCreation, 1);
      KeepAll(creations, IsSubnetCreation);
      KeepAppend(setup, creations, IsSubnetCreation);
      KeepAppend(created, rest, IsSubnetCreation);
      assert e.trace[..|created|] == created;
    }
  }

  /**
   * With the script's own subnet list, a run past the wait creates `vpc-01-subnet-01` on
   * 10.1.0.0/24 and then `vpc-01-subnet-02` on 10.2.0.0/24, and no other subnet.
   */
  lemma ScriptCreatesTwoSubnets(api: Api, cfg: Config, bound: nat)
    requires ApiBounded(api, bound) && cfg.subnets == SubnetList
    requires Awaited(api.vpcs, cfg.vpcName, WaitTimeout).Ok?
    ensures var c := Keep(Provisioning(api, cfg, bound).trace, IsSubnetCreation);
            && |c| == 2 && c[0].CreateSubnet? && c[1].CreateSubnet?
            && c[0].subnet.name == "vpc-01-subnet-01" && c[0].subnet.ipNetwork == "10.1.0.0"
            && c[1].subnet.name == "vpc-01-subnet-02" && c[1].subnet.ipNetwork == "10.2.0.0"
            && c[0].subnet.ipPrefix == 24 && c[1].subnet.ipPrefix == 24
  {
    ProvisionCreatesConfiguredSubnets(api, cfg, bound);
  }

  /**
   * The clone loop of `main`: a run that does not reach it reads and clones no VM; one that
   * does reads every selected VM once, in selection order, clones only onto the VPC's second
   * subnet, and, when every read succeeds, clones every selected VM exactly once, the i-th as
   * `"clone-" + vmList[i].name`.
   */
  lemma ProvisionClonesSelectedVms(api: Api, cfg: Config, bound: nat)
    requires ApiBounded(api, bound)
    ensures var e := Provisioning(api, cfg, bound);
            var plan := ClonePlan(api, cfg, bound);
            && (plan.None? ==> Keep(e.trace, IsVmRead) == [] && Keep(e.trace, IsCloneCall) == [])
            && (plan.Some? ==> Keep(e.trace, IsVmRead) == ReadsOf(plan.value.vms))
            && (plan.Some? ==> forall k :: 0 <= k < |e.trace| && e.trace[k].CloneVm? ==>
                  |plan.value.vpcSubnets| >= 2 && e.trace[k].target == plan.value.vpcSubnets[1].extId)
            && (plan.Some? && (forall h, v :: api.getVm(h, v).Some?) ==>
                  var c := Keep(e.trace, IsCloneCall);
                  && |c| == |plan.value.vms|
                  && forall i :: 0 <= i < |c| ==>
                       c[i].CloneVm? && c[i].vm == plan.value.vms[i].extId
                       && c[i].cloneName == CloneName(plan.value.vms[i].name)
                       && c[i].target == plan.value.vpcSubnets[1].extId)
  {
    var e := Provisioning(api, cfg, bound);
    var plan := ClonePlan(api, cfg, bound);
    if plan.None? {
      UnplannedRunStopsEarly(api, cfg, bound);
    } else {
      RunLayoutPlanned(api, cfg, bound);
      PlannedCloneCalls(api, cfg, bound, plan.value);
      assert CloneCallsOf(api, plan.value, e.trace);
    }
  }

  /** A run that does not reach the clone loop reads and clones no VM, adds no route and does not complete. */
  lemma UnplannedRunStopsEarly(api: Api, cfg: Config, bound: nat)
    requires ApiBounded(api, bound) && ClonePlan(api, cfg, bound).None?
    ensures Keep(Provisioning(api, cfg, bound).trace, IsVmRead) == []
    ensures Keep(Provisioning(api, cfg, bound).trace, IsCloneCall) == []
    ensures Keep(Provisioning(api, cfg, bound).trace, IsRouteUpdate) == []
    ensures !Provisioning(api, cfg, bound).completed
  {
    var waited := Awaited(api.vpcs, cfg.vpcName, WaitTimeout);
    if waited.Raised? {
      RunLayoutRaised(api, cfg, bound);
      NoVmCallsBeforeCloning(Setup(api, cfg));
    } else {
      RunLayoutUnplanned(api, cfg, bound);
      PreludeLayout(api, cfg, bound, waited.value);
      NoVmCallsBeforeCloning(Prelude(api, cfg, bound, waited.value));
    }
  }

  /** Calls of phases 0 to 3 hold no VM read, no clone and no route-table update. */
  lemma NoVmCallsBeforeCloning(t: seq<Op>)
    requires PhasesWithin(t, 0, 3)
    ensures Keep(t, IsVmRead) == [] && Keep(t, IsCloneCall) == [] && Keep(t, IsRouteUpdate) == []
  {
    KeepOutside(t, 0, 3, IsVmRead, 4);
    KeepOutside(t, 0, 3, IsCloneCall, 4);
    KeepOutside(t, 0, 3, IsRouteUpdate, 5);
  }

  lemma PlannedCloneCalls(api: Api, cfg: Config, bound: nat, plan: Plan)
    requires ApiBounded(api, bound) && (plan.vms != [] ==> |plan.vpcSubnets| >= 2)
    ensures var listed := Prelude(api, cfg, bound, Some(plan.vpcId));
            var clones := PlannedClones(api, plan, listed);
            var t := listed + clones
                     + RouteUpdate(api.namedSubnets, api.routeTables, api.getRouteTable, listed + clones,
                                   plan.vpcId, cfg.externalNetworkName).ops;
            CloneCallsOf(api, plan, t)
  {
    var listed := Prelude(api, cfg, bound, Some(plan.vpcId));
    var clones := PlannedClones(api, plan, listed);
    PreludeLayout(api, cfg, bound, Some(plan.vpcId));
    RouteOpsKinds(api, cfg, listed + clones, plan.vpcId);
    ClonesBetween(api, plan, listed,
                  RouteUpdate(api.namedSubnets, api.routeTables, api.getRouteTable, listed + clones,
                              plan.vpcId, cfg.externalNetworkName).ops);
  }

  /**
   * The reads and clones of `t` are those of the clone loop over `plan`: every VM read once in
   * order, clones only onto the second subnet, and with every read succeeding one clone per
   * VM in order.
   */
  ghost predicate CloneCallsOf(api: Api, plan: Plan, t: seq<Op>)
    requires plan.vms != [] ==> |plan.vpcSubnets| >= 2
  {
    ReadsFollowPlan(plan, t) && ClonesOntoTarget(plan, t)
    && ((forall h, v :: api.getVm(h, v).Some?) ==> ClonesFollowPlan(plan, t))
  }

  ghost predicate ReadsFollowPlan(plan: Plan, t: seq<Op>)
  {
    Keep(t, IsVmRead) == ReadsOf(plan.vms)
  }

  ghost predicate ClonesOntoTarget(plan: Plan, t: seq<Op>)
  {
    forall k :: 0 <= k < |t| && t[k].CloneVm? ==>
      |plan.vpcSubnets| >= 2 && t[k].target == plan.vpcSubnets[1].extId
  }

  ghost predicate ClonesFollowPlan(plan: Plan, t: seq<Op>)
    requires plan.vms != [] ==> |plan.vpcSubnets| >= 2
  {
    var c := Keep(t, IsCloneCall);
    && |c| == |plan.vms|
    && forall i :: 0 <= i < |c| ==>
         c[i].CloneVm? && c[i].vm == plan.vms[i].extId
         && c[i].cloneName == CloneName(plan.vms[i].name)
         && c[i].target == plan.vpcSubnets[1].extId
  }

  /** The clone loop between calls of phases 0 to 3 and calls of phase 5. */
  lemma ClonesBetween(api: Api, plan: Plan, listed: seq<Op>, tail: seq<Op>)
    requires PhasesWithin(listed, 0, 3) && PhasesWithin(tail, 5, 5)
    requires plan.vms != [] ==> |plan.vpcSubnets| >= 2
    ensures CloneCallsOf(api, plan, listed + PlannedClones(api, plan, listed) + tail)
  {
    ReadsBetween(api, plan, listed, tail);
    TargetsBetween(api, plan, listed, tail);
    if forall h, v :: api.getVm(h, v).Some? {
      ClonesCountBetween(api, plan, listed, tail);
    }
  }

  lemma ReadsBetween(api: Api, plan: Plan, listed: seq<Op>, tail: seq<Op>)
    requires PhasesWithin(listed, 0, 3) && PhasesWithin(tail, 5, 5)
    requires plan.vms != [] ==> |plan.vpcSubnets| >= 2
    ensures ReadsFollowPlan(plan, listed + PlannedClones(api, plan, listed) + tail)
  {
    var clones := PlannedClones(api, plan, listed);
    KeepOutside(listed, 0, 3, IsVmRead, 4);
    KeepOutside(tail, 5, 5, IsVmRead, 4);
    KeepAppend(listed, clones, IsVmRead);
    KeepAppend(listed + clones, tail, IsVmRead);
    if plan.vms != [] {
      CloneAllReads(api.getVm, listed, plan.vms, plan.vpcSubnets[1].extId);
    }
  }

  lemma ClonesCountBetween(api: Api, plan: Plan, listed: seq<Op>, tail: seq<Op>)
    requires PhasesWithin(listed, 0, 3) && PhasesWithin(tail, 5, 5)
    requires plan.vms != [] ==> |plan.vpcSubnets| >= 2
    requires forall h, v :: api.getVm(h, v).Some?
    ensures ClonesFollowPlan(plan, listed + PlannedClones(api, plan, listed) + tail)
  {
    var clones := PlannedClones(api, plan, listed);
    KeepOutside(listed, 0, 3, IsCloneCall, 4);
    KeepOutside(tail, 5, 5, IsCloneCall, 4);
    KeepAppend(listed, clones, IsCloneCall);
    KeepAppend(listed + clones, tail, IsCloneCall);
    if plan.vms != [] {
      CloneAllClones(api.getVm, listed, plan.vms, plan.vpcSubnets[1].extId);
    }
  }

  lemma TargetsBetween(api: Api, plan: Plan, listed: seq<Op>, tail: seq<Op>)
    requires PhasesWithin(listed, 0, 3) && PhasesWithin(tail, 5, 5)
    requires plan.vms != [] ==> |plan.vpcSubnets| >= 2
    ensures ClonesOntoTarget(plan, listed + PlannedClones(api, plan, listed) + tail)
  {
    var clones := PlannedClones(api, plan, listed);
    var t := listed + clones + tail;
    forall k | 0 <= k < |listed|
      ensures !t[k].CloneVm?
    {
      assert t[k] == listed[k];
    }
    forall k | |listed| + |clones| <= k < |t|
      ensures !t[k].CloneVm?
    {
      assert t[k] == tail[k - |listed| - |clones|];
    }
    if plan.vms != [] {
      CloneAllKinds(api.getVm, listed, plan.vms, plan.vpcSubnets[1].extId);
      forall k | |listed| <= k < |listed| + |clones|
        ensures CloneLoopCall(t[k], plan.vpcSubnets[1].extId)
      {
        assert t[k] == clones[k - |listed|];
      }
    }
  }

  /** Calls of phases other than 4 write no VM. */
  lemma NoVmWritesOutside(t: seq<Op>, lo: nat, hi: nat)
    requires PhasesWithin(t, lo, hi) && (hi < 4 || 4 < lo)
    requires forall k :: 0 <= k < |t| ==> !t[k].DeleteVm?
    ensures forall k :: 0 <= k < |t| ==> !IsVmWrite(t[k])
  {
  }

  /**
   * Every `clone_vm` of a run of `main` immediately follows the `get_vm_by_ext_id` of the same
   * VM and carries the etag that read returned.
   */
  lemma ProvisionPairsVmWrites(api: Api, cfg: Config, bound: nat)
    requires ApiBounded(api, bound)
    ensures VmWritesPaired(api.getVm, Provisioning(api, cfg, bound).trace)
  {
    var waited := Awaited(api.vpcs, cfg.vpcName, WaitTimeout);
    var plan := ClonePlan(api, cfg, bound);
    if waited.Raised? {
      RunLayoutRaised(api, cfg, bound);
      PairedAppendNoWrites(api.getVm, [], Setup(api, cfg));
      assert [] + Setup(api, cfg) == Setup(api, cfg);
    } else if plan.None? {
      RunLayoutUnplanned(api, cfg, bound);
      PreludePaired(api, cfg, bound, waited.value);
    } else {
      RunLayoutPlanned(api, cfg, bound);
      var listed := Prelude(api, cfg, bound, Some(plan.value.vpcId));
      PreludePaired(api, cfg, bound, Some(plan.value.vpcId));
      var clones := PlannedClones(api, plan.value, listed);
      if plan.value.vms != [] {
        CloneAllPaired(api.getVm, listed, plan.value.vms, plan.value.vpcSubnets[1].extId);
      } else {
        assert listed + clones == listed;
      }
      RouteOpsKinds(api, cfg, listed + clones, plan.value.vpcId);
      PairedAppendNoWrites(api.getVm, listed + clones,
                           RouteUpdate(api.namedSubnets, api.routeTables, api.getRouteTable, listed + clones,
                                       plan.value.vpcId, cfg.externalNetworkName).ops);
    }
  }

  lemma PreludePaired(api: Api, cfg: Config, bound: nat, vpcId: Option<Id>)
    requires ApiBounded(api, bound)
    ensures VmWritesPaired(api.getVm, Prelude(api, cfg, bound, vpcId))
  {
    var p := Prelude(api, cfg, bound, vpcId);
    PreludeLayout(api, cfg, bound, vpcId);
    PreludeReadsNoVm(api, cfg, bound, vpcId);
    NoVmWritesOutside(p, 0, 3);
    PairedAppendNoWrites(api.getVm, [], p);
    assert [] + p == p;
  }

  lemma PreludeReadsNoVm(api: Api, cfg: Config, bound: nat, vpcId: Option<Id>)
    requires ApiBounded(api, bound)
    ensures var p := Prelude(api, cfg, bound, vpcId); forall k :: 0 <= k < |p| ==> !p[k].DeleteVm?
  {
    PreludeLayout(api, cfg, bound, vpcId);
  }

  /**
   * `t` ends with the update of the VPC's first route table: right after reading that table,
   * with the etag of that read, sending the table's routes with the default route appended.
   */
  ghost predicate EndsWithRouteUpdate(api: Api, cfg: Config, vpcId: Id, t: seq<Op>)
  {
    var tables := api.routeTables(vpcId);
    && tables.Some? && |tables.value| > 0
    && |t| >= 2
    && var tableId := tables.value[0].extId;
    && var read := api.getRouteTable(t[..|t| - 2], tableId);
    && t[|t| - 2] == GetRouteTable(tableId)
    && t[|t| - 1] == UpdateRouteTable(read.table.extId,
         WithRoute(read.table.staticRoutes,
                   DefaultRoute(RetrieveNetworkId(api.namedSubnets(cfg.externalNetworkName)), cfg.externalNetworkName)),
         read.etag)
  }

  /**
   * A run of `main` completes exactly when it sends one route-table update, and then that
   * update is its last call: it follows the read of the VPC's first route table, carries that
   * read's etag, and sends the table's routes with the default route appended.
   */
  lemma ProvisionEndsWithRouteUpdate(api: Api, cfg: Config, bound: nat)
    requires ApiBounded(api, bound)
    ensures var e := Provisioning(api, cfg, bound);
            |Keep(e.trace, IsRouteUpdate)| == (if e.completed then 1 else 0)
    ensures var e := Provisioning(api, cfg, bound);
            var plan := ClonePlan(api, cfg, bound);
            e.completed ==> plan.Some? && EndsWithRouteUpdate(api, cfg, plan.value.vpcId, e.trace)
  {
    var plan := ClonePlan(api, cfg, bound);
    if plan.None? {
      UnplannedRunStopsEarly(api, cfg, bound);
    } else {
      RunLayoutPlanned(api, cfg, bound);
      PlannedRoute(api, cfg, bound, plan.value);
    }
  }

  /**
   * `retrieveNetworkId` is called twice in a run, on the same lookup of the external network:
   * its id, or `None` when that lookup found nothing, goes into `create_vpc` as the VPC's
   * external subnet, and into the default route as its next hop. A `None` does not stop either.
   */
  lemma NetworkIdFeedsVpcAndRoute(api: Api, cfg: Config, bound: nat)
    requires ApiBounded(api, bound)
    ensures var e := Provisioning(api, cfg, bound);
            var data := api.namedSubnets(cfg.externalNetworkName);
            var x := RetrieveNetworkId(data);
            && (x.None? <==> data.None? || |data.value| == 0)
            && (x.Some? ==> x.value == data.value[0].extId)
            && |e.trace| >= 3 && e.trace[1] == CreateVpc(cfg.vpcName, x)
            && (e.completed ==>
                  && e.trace[|e.trace| - 1].UpdateRouteTable?
                  && var routes := e.trace[|e.trace| - 1].routes;
                  && |routes| >= 1
                  && routes[|routes| - 1].nexthopReference == x
                  && routes[|routes| - 1].nexthopName == cfg.externalNetworkName)
  {
    var e := Provisioning(api, cfg, bound);
    RunStartsWithSetup(api, cfg, bound);
    assert e.trace[1] == e.trace[..3][1];
    if e.completed {
      ProvisionEndsWithRouteUpdate(api, cfg, bound);
      RouteNextHop(api, cfg, ClonePlan(api, cfg, bound).value.vpcId, e.trace);
    }
  }

  /** The route update that ends a trace sends, as its last route, the default route through the external network. */
  lemma RouteNextHop(api: Api, cfg: Config, vpcId: Id, t: seq<Op>)
    requires EndsWithRouteUpdate(api, cfg, vpcId, t)
    ensures t[|t| - 1].UpdateRouteTable?
    ensures var routes := t[|t| - 1].routes;
            && |routes| >= 1
            && routes[|routes| - 1].nexthopReference == RetrieveNetworkId(api.namedSubnets(cfg.externalNetworkName))
            && routes[|routes| - 1].nexthopName == cfg.externalNetworkName
  {
  }

  /** Every run opens with the external-network lookup, `create_vpc` and the wait's `list_vpcs`. */
  lemma RunStartsWithSetup(api: Api, cfg: Config, bound: nat)
    requires ApiBounded(api, bound)
    ensures var e := Provisioning(api, cfg, bound);
            |e.trace| >= 3 && e.trace[..3] == Setup(api, cfg)
  {
    var e := Provisioning(api, cfg, bound);
    var waited := Awaited(api.vpcs, cfg.vpcName, WaitTimeout);
    if waited.Raised? {
      RunLayoutRaised(api, cfg, bound);
    } else {
      RunAfterCreations(api, cfg, bound);
      var created := Setup(api, cfg) + SubnetCreations(waited.value, cfg.subnets);
      assert e.trace[..3] == created[..3];
    }
  }

  lemma PlannedRoute(api: Api, cfg: Config, bound: nat, plan: Plan)
    requires ApiBounded(api, bound) && (plan.vms != [] ==> |plan.vpcSubnets| >= 2)
    ensures var listed := Prelude(api, cfg, bound, Some(plan.vpcId));
            var clones := PlannedClones(api, plan, listed);
            var route := RouteUpdate(api.namedSubnets, api.routeTables, api.getRouteTable, listed + clones,
                                     plan.vpcId, cfg.externalNetworkName);
            var t := listed + clones + route.ops;
            && |Keep(t, IsRouteUpdate)| == (if route.result.Ok? then 1 else 0)
            && (route.result.Ok? ==> EndsWithRouteUpdate(api, cfg, plan.vpcId, t))
  {
    var listed := Prelude(api, cfg, bound, Some(plan.vpcId));
    PreludeLayout(api, cfg, bound, Some(plan.vpcId));
    var clones := PlannedClones(api, plan, listed);
    PlannedClonesKinds(api, plan, listed);
    WithinAppend(listed, clones, 0, 3, 4, 4);
    RouteAfter(api, cfg, listed + clones, plan.vpcId);
  }

  /** `createDefaultRoute` after calls `hist` that hold no route-table update. */
  lemma RouteAfter(api: Api, cfg: Config, hist: seq<Op>, vpcId: Id)
    requires PhasesWithin(hist, 0, 4)
    ensures var route := RouteUpdate(api.namedSubnets, api.routeTables, api.getRouteTable, hist, vpcId, cfg.externalNetworkName);
            var t := hist + route.ops;
            && |Keep(t, IsRouteUpdate)| == (if route.result.Ok? then 1 else 0)
            && (route.result.Ok? ==> EndsWithRouteUpdate(api, cfg, vpcId, t))
  {
    var route := RouteUpdate(api.namedSubnets, api.routeTables, api.getRouteTable, hist, vpcId, cfg.externalNetworkName);
    RouteOpsKinds(api, cfg, hist, vpcId);
    KeepOutside(hist, 0, 4, IsRouteUpdate, 5);
    KeepAppend(hist, route.ops, IsRouteUpdate);
    if route.result.Ok? {
      RouteAfterEnds(api, cfg, hist, vpcId);
    }
  }

  lemma RouteAfterEnds(api: Api, cfg: Config, hist: seq<Op>, vpcId: Id)
    requires RouteUpdate(api.namedSubnets, api.routeTables, api.getRouteTable, hist, vpcId, cfg.externalNetworkName).result.Ok?
    ensures EndsWithRouteUpdate(api, cfg, vpcId,
              hist + RouteUpdate(api.namedSubnets, api.routeTables, api.getRouteTable, hist, vpcId, cfg.externalNetworkName).ops)
  {
    var route := RouteUpdate(api.namedSubnets, api.routeTables, api.getRouteTable, hist, vpcId, cfg.externalNetworkName);
    var lookups := [ListSubnetsNamed(cfg.externalNetworkName), ListRouteTables(vpcId)];
    var c, d := route.ops[2], route.ops[3];
    assert route.ops == lookups + [c, d];
    LastTwo(hist, lookups, c, d);
  }

  /** The last two calls of `h + (l + [c, d])` and what precedes them. */
  lemma LastTwo(h: seq<Op>, l: seq<Op>, c: Op, d: Op)
    ensures var t := h + (l + [c, d]);
            && |t| >= 2 && t[..|t| - 2] == h + l && t[|t| - 2] == c && t[|t| - 1] == d
  {
    ConcatAssoc(h, l, [c, d]);
  }

  /**
   * `main` does not stop when `waitForVpcCreation` returns `False`: it still creates every
   * subnet (without a VPC reference) and selects the VMs, and then raises when
   * `retrieveVpcSubnets` concatenates `False` into its filter, so no VM is read or cloned and
   * no route is added.
   */
  lemma TimedOutWaitCreatesSubnetsThenRaises(api: Api, cfg: Config, bound: nat)
    requires ApiBounded(api, bound) && Awaited(api.vpcs, cfg.vpcName, WaitTimeout) == Ok(None)
    ensures var e := Provisioning(api, cfg, bound);
            && !e.completed
            && Keep(e.trace, IsSubnetCreation) == SubnetCreations(None, cfg.subnets)
            && Keep(e.trace, IsVmRead) == [] && Keep(e.trace, IsCloneCall) == []
            && Keep(e.trace, IsRouteUpdate) == []
  {
    assert ClonePlan(api, cfg, bound).None?;
    ProvisionCreatesConfiguredSubnets(api, cfg, bound);
    ProvisionClonesSelectedVms(api, cfg, bound);
    ProvisionEndsWithRouteUpdate(api, cfg, bound);
  }
}
