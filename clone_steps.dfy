/**
 * The steps of `clone-prod-to-dev-vpc.py`: waiting for the new VPC, selecting VMs by category,
 * listing the VPC's subnets, cloning one VM and adding the default route. Each remote response
 * is a parameter; a response that depends on what happened before (an etag) is a function of
 * the trace issued so far.
 */
module CloneSteps {
  import opened Prism
  import opened Paging

  /** Defaults of `waitForVpcCreation` (seconds). */
  const WaitTimeout: int := 3000
  const WaitInterval: int := 1

  /** A subnet entry of the script's `subnetList` dictionary. */
  datatype SubnetConfig = SubnetConfig(
    subnetName: string, subnetDescription: string, ipNetwork: string, ipPrefix: nat,
    ipGateway: string, ipPoolStart: string, ipPoolEnd: string)

  /** The script's `subnetList`, in dictionary order. */
  const SubnetList: seq<SubnetConfig> := [
    SubnetConfig("vpc-01-subnet-01", "This is the first overlay subnet", "10.1.0.0", 24,
                 "10.1.0.1", "10.1.0.100", "10.1.0.199"),
    SubnetConfig("vpc-01-subnet-02", "This is the second overlay subnet", "10.2.0.0", 24,
                 "10.2.0.1", "10.2.0.100", "10.2.0.199")
  ]

  /**
   * `retrieveNetworkId` on the `data` of its `list_subnets(_filter="name eq ...")` response:
   * the id of the first entry, or `None` when `data` is `None` or empty (both falsy).
   */
  function RetrieveNetworkId(data: Option<seq<Item>>): (r: Option<Id>)
    ensures r.Some? <==> data.Some? && |data.value| > 0
    ensures r.Some? ==> r.value == data.value[0].extId
  {
    if data.Some? && |data.value| > 0 then Some(data.value[0].extId) else None
  }

  // ---------------------------------------------------------------- waitForVpcCreation

  /**
   * What `waitForVpcCreation` returns on the snapshot `vpcs` (the `data` of its one
   * `list_vpcs()`): `Ok(None)` is its `return False`.
   */
  function Awaited(vpcs: Option<seq<Item>>, vpcName: string, timeout: int): Outcome<Option<Id>>
  {
    if timeout <= 0 then Ok(None)
    else if vpcs.None? then Raised
    else
      var id := FindByName(vpcs.value, vpcName);
      if id.Some? && id.value != "" then Ok(id) else Ok(None)
  }

  /**
   * The wait loop. The list is fetched once before the loop, so each iteration tests the same
   * snapshot: a VPC found there is returned before any sleep; otherwise the loop sleeps
   * `interval` until `elapsedTime < timeout` fails, ceil(timeout / interval) times, and returns
   * `False`. `sleeps` counts the `time.sleep` calls.
   */
  method WaitForVpcCreation(vpcs: Option<seq<Item>>, vpcName: string, timeout: int, interval: int)
    returns (vpcId: Outcome<Option<Id>>, sleeps: nat)
    requires interval > 0
    ensures vpcId == Awaited(vpcs, vpcName, timeout)
    ensures vpcId.Ok? && vpcId.value.Some? ==>
              sleeps == 0 && vpcs.Some? && FindByName(vpcs.value, vpcName) == vpcId.value
    ensures vpcId == Ok(None) ==> sleeps == CeilDiv(timeout, interval)
    ensures vpcId.Raised? ==> sleeps == 0 && vpcs.None? && timeout > 0
  {
    var elapsedTime := 0;
    sleeps := 0;
    while elapsedTime < timeout
      invariant CeilDiv(timeout, interval) == sleeps + CeilDiv(timeout - elapsedTime, interval)
      invariant sleeps > 0 ==> timeout > 0 && Awaited(vpcs, vpcName, timeout) == Ok(None)
      invariant sleeps == 0 ==> elapsedTime == 0
      decreases timeout - elapsedTime
    {
      if vpcs.None? {
        return Raised, sleeps;
      }
      var found := FindByName(vpcs.value, vpcName);
      if found.Some? && found.value != "" {
        return Ok(found), sleeps;
      }
      sleeps := sleeps + 1;
      elapsedTime := elapsedTime + interval;
    }
    vpcId := Ok(None);
  }

  // ---------------------------------------------------------------- getVmsByCategories

  /** A `get_all_categories` response: an `ApiException`, or the `data` of the response. */
  datatype CategoryResponse = CategoryApiError | CategoryData(data: Option<seq<Item>>)

  /**
   * `getCategoryId`: the id of the first category found. An `ApiException` is printed and the
   * function falls off its end (`None`); `data[0]` of an empty or missing list raises.
   */
  function GetCategoryId(response: CategoryResponse): (r: Outcome<Option<Id>>)
    ensures response.CategoryApiError? ==> r == Ok(None)
    ensures r.Raised? <==> response.CategoryData? && (response.data.None? || |response.data.value| == 0)
    ensures r.Ok? && r.value.Some? ==>
              response.CategoryData? && response.data.Some? && |response.data.value| > 0
              && r.value.value == response.data.value[0].extId
  {
    match response
    case CategoryApiError => Ok(None)
    case CategoryData(data) =>
      if data.Some? && |data.value| > 0 then Ok(Some(data.value[0].extId)) else Raised
  }

  /** One `{name, ext_id}` record per entry of `categories` whose id equals `categoryId`. */
  function CategoryHits(categories: seq<CategoryRef>, categoryId: Option<Id>, ref: Ref): seq<Ref>
  {
    if categories == [] then []
    else (if Some(categories[0].extId) == categoryId then [ref] else [])
         + CategoryHits(categories[1..], categoryId, ref)
  }

  /** What one listed VM contributes: nothing when its `categories` is `None`. */
  function SelectedRefs(vm: Item, categoryId: Option<Id>): seq<Ref>
  {
    if vm.categories.None? then [] else CategoryHits(vm.categories.value, categoryId, ToRef(vm))
  }

  function Selected(categoryId: Option<Id>): Item -> seq<Ref>
  {
    vm => SelectedRefs(vm, categoryId)
  }

  /** The ids of a VM's category entries, in order. */
  function CategoryIds(categories: seq<CategoryRef>): (ids: seq<Id>)
    ensures |ids| == |categories| && forall i :: 0 <= i < |categories| ==> ids[i] == categories[i].extId
  {
    seq(|categories|, i requires 0 <= i < |categories| => categories[i].extId)
  }

  /** How many category entries of `vm` carry `categoryId`; none when `categories` is `None`. */
  function Tagged(vm: Item, categoryId: Id): nat
  {
    if vm.categories.None? then 0 else multiset(CategoryIds(vm.categories.value))[categoryId]
  }

  /** `n` copies of `ref`. */
  function Copies(ref: Ref, n: nat): (r: seq<Ref>)
    ensures |r| == n
  {
    if n == 0 then [] else [ref] + Copies(ref, n - 1)
  }

  lemma {:induction false} CopiesMembers(ref: Ref, n: nat, r: Ref)
    ensures r in Copies(ref, n) <==> n > 0 && r == ref
  {
    if n > 0 {
      CopiesMembers(ref, n - 1, r);
    }
  }

  lemma {:induction false} HitsAreCopies(categories: seq<CategoryRef>, categoryId: Id, ref: Ref)
    ensures CategoryHits(categories, Some(categoryId), ref)
            == Copies(ref, multiset(CategoryIds(categories))[categoryId])
    decreases |categories|
  {
    if categories != [] {
      HitsAreCopies(categories[1..], categoryId, ref);
      CategoryIdsCons(categories);
      var n := multiset(CategoryIds(categories[1..]))[categoryId];
      if categories[0].extId == categoryId {
        assert multiset(CategoryIds(categories))[categoryId] == n + 1;
      } else {
        assert multiset(CategoryIds(categories))[categoryId] == n;
        assert [] + Copies(ref, n) == Copies(ref, n);
      }
    }
  }

  lemma CategoryIdsCons(categories: seq<CategoryRef>)
    requires categories != []
    ensures CategoryIds(categories) == [categories[0].extId] + CategoryIds(categories[1..])
  {
    var ids := [categories[0].extId] + CategoryIds(categories[1..]);
    forall i | 0 < i < |categories|
      ensures ids[i] == categories[i].extId
    {
      assert ids[i] == CategoryIds(categories[1..])[i - 1] && categories[1..][i - 1] == categories[i];
    }
  }

  /** A VM contributes its `{name, ext_id}` record once per category entry carrying the id. */
  lemma SelectedCopies(vm: Item, categoryId: Id)
    ensures Selected(Some(categoryId))(vm) == Copies(ToRef(vm), Tagged(vm, categoryId))
  {
    if vm.categories.Some? {
      HitsAreCopies(vm.categories.value, categoryId, ToRef(vm));
    }
  }

  /** The number of category entries carrying `categoryId` over all of `xs`. */
  function TagTotal(xs: seq<Item>, categoryId: Id): nat
  {
    if xs == [] then 0 else Tagged(xs[0], categoryId) + TagTotal(xs[1..], categoryId)
  }

  /** The VMs of `xs` that carry `categoryId` at least once, in order. */
  function Carriers(xs: seq<Item>, categoryId: Id): seq<Item>
  {
    if xs == [] then []
    else (if Tagged(xs[0], categoryId) > 0 then [xs[0]] else []) + Carriers(xs[1..], categoryId)
  }

  /**
   * A record is selected from `xs` exactly when some VM of `xs` carries the category id, and
   * the selection holds one record per matching category entry.
   */
  lemma SelectionMembers(xs: seq<Item>, categoryId: Id, r: Ref)
    ensures r in FlatMap(Selected(Some(categoryId)), xs) <==>
            exists i :: 0 <= i < |xs| && Tagged(xs[i], categoryId) > 0 && r == ToRef(xs[i])
    ensures |FlatMap(Selected(Some(categoryId)), xs)| == TagTotal(xs, categoryId)
  {
    SelectionMembership(xs, categoryId, r);
    SelectionSize(xs, categoryId);
  }

  lemma {:induction false} SelectionMembership(xs: seq<Item>, categoryId: Id, r: Ref)
    ensures r in FlatMap(Selected(Some(categoryId)), xs) <==>
            exists i :: 0 <= i < |xs| && Tagged(xs[i], categoryId) > 0 && r == ToRef(xs[i])
    decreases |xs|
  {
    if xs != [] {
      SelectionMembership(xs[1..], categoryId, r);
      SelectedCopies(xs[0], categoryId);
      CopiesMembers(ToRef(xs[0]), Tagged(xs[0], categoryId), r);
      assert FlatMap(Selected(Some(categoryId)), xs)
             == Selected(Some(categoryId))(xs[0]) + FlatMap(Selected(Some(categoryId)), xs[1..]);
      if exists i :: 0 <= i < |xs| && Tagged(xs[i], categoryId) > 0 && r == ToRef(xs[i]) {
        var i :| 0 <= i < |xs| && Tagged(xs[i], categoryId) > 0 && r == ToRef(xs[i]);
        if i > 0 {
          assert xs[1..][i - 1] == xs[i];
        }
      }
      if exists i :: 0 <= i < |xs[1..]| && Tagged(xs[1..][i], categoryId) > 0 && r == ToRef(xs[1..][i]) {
        var i :| 0 <= i < |xs[1..]| && Tagged(xs[1..][i], categoryId) > 0 && r == ToRef(xs[1..][i]);
        assert xs[i + 1] == xs[1..][i];
      }
    }
  }

  lemma {:induction false} SelectionSize(xs: seq<Item>, categoryId: Id)
    ensures |FlatMap(Selected(Some(categoryId)), xs)| == TagTotal(xs, categoryId)
    decreases |xs|
  {
    if xs != [] {
      SelectionSize(xs[1..], categoryId);
      SelectedCopies(xs[0], categoryId);
      CopiesMembers(ToRef(xs[0]), Tagged(xs[0], categoryId), ToRef(xs[0]));
    }
  }

  lemma RefsAppend(xs: seq<Item>, ys: seq<Item>)
    ensures Refs(xs + ys) == Refs(xs) + Refs(ys)
  {
    var r := Refs(xs) + Refs(ys);
    forall i | 0 <= i < |xs| + |ys|
      ensures Refs(xs + ys)[i] == r[i]
    {
      if i < |xs| {
        assert (xs + ys)[i] == xs[i];
      } else {
        assert (xs + ys)[i] == ys[i - |xs|];
      }
    }
  }

  /**
   * When no VM carries the id twice, the selection is the records of the carriers, in server
   * order, one each.
   */
  lemma {:induction false} SelectionOfSingleTags(xs: seq<Item>, categoryId: Id)
    requires forall i :: 0 <= i < |xs| ==> Tagged(xs[i], categoryId) <= 1
    ensures FlatMap(Selected(Some(categoryId)), xs) == Refs(Carriers(xs, categoryId))
    decreases |xs|
  {
    if xs != [] {
      assert forall i :: 0 <= i < |xs[1..]| ==> xs[1..][i] == xs[i + 1];
      SelectionOfSingleTags(xs[1..], categoryId);
      SelectedCopies(xs[0], categoryId);
      var head := if Tagged(xs[0], categoryId) > 0 then [xs[0]] else [];
      RefsAppend(head, Carriers(xs[1..], categoryId));
      assert Carriers(xs, categoryId) == head + Carriers(xs[1..], categoryId);
      assert FlatMap(Selected(Some(categoryId)), xs)
             == Selected(Some(categoryId))(xs[0]) + FlatMap(Selected(Some(categoryId)), xs[1..]);
      assert Copies(ToRef(xs[0]), Tagged(xs[0], categoryId)) == Refs(head);
    }
  }

  /** An unresolved category (the `ApiException` path) selects nothing. */
  lemma {:induction false} UnresolvedSelectsNothing(xs: seq<Item>)
    ensures FlatMap(Selected(None), xs) == []
    decreases |xs|
  {
    if xs != [] {
      UnresolvedSelectsNothing(xs[1..]);
      var vm := xs[0];
      if vm.categories.Some? {
        NoHits(vm.categories.value, ToRef(vm));
      }
    }
  }

  lemma {:induction false} NoHits(categories: seq<CategoryRef>, ref: Ref)
    ensures CategoryHits(categories, None, ref) == []
    decreases |categories|
  {
    if categories != [] {
      NoHits(categories[1..], ref);
    }
  }

  /** The trace of the `list_vms` requests for the pages `calls`. */
  function VmPageOps(calls: seq<nat>): (ops: seq<Op>)
    ensures |ops| == |calls| && forall i :: 0 <= i < |calls| ==> ops[i] == ListVmsPage(calls[i])
  {
    seq(|calls|, i requires 0 <= i < |calls| => ListVmsPage(calls[i]))
  }

  /** The calls and the result of `getVmsByCategories`. */
  ghost function VmSelection(category: CategoryResponse, vmPages: nat -> Page<Item>, bound: nat,
                             categoryName: string, categoryValue: string): Step<seq<Ref>>
    requires Bounded(vmPages, bound)
  {
    var lookup := [ListCategories(categoryName, categoryValue)];
    match GetCategoryId(category)
    case Raised => Step(Raised, lookup)
    case Ok(categoryId) =>
      var l := Listed(vmPages, Selected(categoryId), false, bound);
      Step(l.items, lookup + VmPageOps(l.calls))
  }

  /**
   * `getVmsByCategories`: resolves the category id once, then pages through `list_vms`
   * keeping, per VM, one record per category entry that carries the id.
   */
  method GetVmsByCategories(category: CategoryResponse, vmPages: nat -> Page<Item>, ghost bound: nat,
                            categoryName: string, categoryValue: string)
    returns (vmList: Outcome<seq<Ref>>, ops: seq<Op>)
    requires Bounded(vmPages, bound)
    ensures Step(vmList, ops) == VmSelection(category, vmPages, bound, categoryName, categoryValue)
    ensures |ops| >= 1 && ops[0] == ListCategories(categoryName, categoryValue)
    ensures forall k :: 1 <= k < |ops| ==> ops[k] == ListVmsPage(k - 1)
    ensures GetCategoryId(category).Raised? ==> vmList.Raised? && |ops| == 1
    ensures forall xs :: Consistent(vmPages, xs) && GetCategoryId(category).Ok? ==>
              vmList == Ok(FlatMap(Selected(GetCategoryId(category).value), xs))
  {
    ops := [ListCategories(categoryName, categoryValue)];
    var categoryId := GetCategoryId(category);
    if categoryId.Raised? {
      return Raised, ops;
    }
    var calls;
    vmList, calls := ListAll(vmPages, Selected(categoryId.value), false, bound);
    ops := ops + VmPageOps(calls);
    ListingShape(vmPages, Selected(categoryId.value), false, bound);
    forall xs | Consistent(vmPages, xs)
      ensures vmList == Ok(FlatMap(Selected(categoryId.value), xs))
    {
      assert vmPages(0).total == |xs|;
      ConsistentListing(vmPages, Selected(categoryId.value), false, bound, xs);
    }
  }

  // ---------------------------------------------------------------- retrieveVpcSubnets

  /**
   * The calls and the result of `retrieveVpcSubnets(vpcId)`. When the wait returned `False`,
   * building the filter string `"vpcReference eq '" + vpcId + "'"` raises before any request.
   */
  ghost function VpcSubnetListing(vpcId: Option<Id>, subnetPages: Id -> nat -> Page<Item>, bound: nat): Step<seq<Ref>>
    requires vpcId.Some? ==> Bounded(subnetPages(vpcId.value), bound)
  {
    if vpcId.None? then Step(Raised, [])
    else
      var l := Listed(subnetPages(vpcId.value), AsRefs, false, bound);
      Step(l.items, SubnetPageOps(vpcId.value, l.calls))
  }

  /** `retrieveVpcSubnets`: the paging loop over the subnets of one VPC, without a `None` guard. */
  method RetrieveVpcSubnets(vpcId: Option<Id>, subnetPages: Id -> nat -> Page<Item>, ghost bound: nat)
    returns (subnetList: Outcome<seq<Ref>>, ops: seq<Op>)
    requires vpcId.Some? ==> Bounded(subnetPages(vpcId.value), bound)
    ensures Step(subnetList, ops) == VpcSubnetListing(vpcId, subnetPages, bound)
    ensures vpcId.None? ==> subnetList.Raised? && ops == []
    ensures vpcId.Some? ==> |ops| >= 1 && forall k :: 0 <= k < |ops| ==> ops[k] == ListVpcSubnets(vpcId.value, k)
    ensures forall xs :: vpcId.Some? && Consistent(subnetPages(vpcId.value), xs) ==>
              subnetList == Ok(Refs(xs))
              && ops == SubnetPageOps(vpcId.value, Range(0, Max(1, PageCount(|xs|))))
  {
    if vpcId.None? {
      return Raised, [];
    }
    var server := subnetPages(vpcId.value);
    var calls;
    subnetList, calls := ListAll(server, AsRefs, false, bound);
    ops := SubnetPageOps(vpcId.value, calls);
    ListingShape(server, AsRefs, false, bound);
    forall xs | Consistent(server, xs)
      ensures subnetList == Ok(Refs(xs)) && ops == SubnetPageOps(vpcId.value, Range(0, Max(1, PageCount(|xs|))))
    {
      assert server(0).total == |xs|;
      ConsistentListing(server, AsRefs, false, bound, xs);
      RefsPointwise(xs);
    }
  }

  // ---------------------------------------------------------------- cloneVmById

  /** The calls of `cloneVmById`: a read of the VM, then a clone carrying its etag when the read succeeded. */
  function CloneOps(getVm: (seq<Op>, Id) -> Option<Etag>, hist: seq<Op>, vmId: Id, networkExtId: Id, vmName: string): seq<Op>
  {
    var etag := getVm(hist, vmId);
    [GetVm(vmId)] + if etag.Some? then [CloneVm(vmId, vmName, networkExtId, etag.value)] else []
  }

  /**
   * `cloneVmById`: reads the VM for its etag and issues one `clone_vm` with that etag as
   * `if_match` and one NIC on `networkExtId`. A `VMMException` from the read is caught, so no
   * clone is issued; one from the clone is caught too and changes nothing here.
   */
  method CloneVmById(getVm: (seq<Op>, Id) -> Option<Etag>, hist: seq<Op>, vmId: Id, networkExtId: Id, vmName: string)
    returns (ops: seq<Op>)
    ensures ops == CloneOps(getVm, hist, vmId, networkExtId, vmName)
    ensures ops[0] == GetVm(vmId)
    ensures |ops| == (if getVm(hist, vmId).Some? then 2 else 1)
    ensures |ops| == 2 ==> ops[1] == CloneVm(vmId, vmName, networkExtId, getVm(hist, vmId).value)
    ensures VmWritesPaired(getVm, hist) ==> VmWritesPaired(getVm, hist + ops)
  {
    var etagValue := getVm(hist, vmId);
    if etagValue.None? {
      ops := [GetVm(vmId)];
      if VmWritesPaired(getVm, hist) {
        PairedAppendNoWrites(getVm, hist, ops);
      }
      return;
    }
    ops := [GetVm(vmId), CloneVm(vmId, vmName, networkExtId, etagValue.value)];
    if VmWritesPaired(getVm, hist) {
      PairedAppendReadWrite(getVm, hist, CloneVm(vmId, vmName, networkExtId, etagValue.value));
    }
  }

  // ---------------------------------------------------------------- createDefaultRoute

  datatype RouteTableData = RouteTableData(extId: Id, staticRoutes: Option<seq<Route>>)
  /** A `get_route_table_by_id` response: the table and the etag of the fetched object. */
  datatype RouteTableRead = RouteTableRead(table: RouteTableData, etag: Etag)

  /** The route `createDefaultRoute` adds: 0.0.0.0/24 through the external subnet. */
  function DefaultRoute(externalNetworkId: Option<Id>, externalNetworkName: string): Route
  {
    Route(true, 32768, Ipv4Subnet("0.0.0.0", 24), "EXTERNAL_SUBNET", externalNetworkId, None, externalNetworkName)
  }

  /**
   * The static routes after adding `route`: the existing routes, unchanged and in order, then
   * `route`; just `[route]` when the list is absent or empty.
   */
  function WithRoute(routes: Option<seq<Route>>, route: Route): (r: seq<Route>)
    ensures |r| >= 1 && r[|r| - 1] == route
    ensures routes.Some? ==> |r| == |routes.value| + 1 && r[..|routes.value|] == routes.value
    ensures routes.None? ==> r == [route]
  {
    if routes.Some? && |routes.value| > 0 then routes.value + [route] else [route]
  }

  /** The route table object the script fetches and changes in place before sending it back. */
  class RouteTable {
    var extId: Id
    var staticRoutes: Option<seq<Route>>

    constructor (data: RouteTableData)
      ensures extId == data.extId && staticRoutes == data.staticRoutes
    {
      extId := data.extId;
      staticRoutes := data.staticRoutes;
    }

    /** `static_routes.append(route)`, or `static_routes = [route]` when it is absent or empty. */
    method AddRoute(route: Route)
      modifies this
      ensures staticRoutes == Some(WithRoute(old(staticRoutes), route))
      ensures extId == old(extId)
    {
      if staticRoutes.Some? && |staticRoutes.value| > 0 {
        staticRoutes := Some(staticRoutes.value + [route]);
      } else {
        staticRoutes := Some([route]);
      }
    }
  }

  /** The calls and the routes sent by `createDefaultRoute`. */
  function RouteUpdate(namedSubnets: string -> Option<seq<Item>>, routeTables: Id -> Option<seq<Item>>,
                       getRouteTable: (seq<Op>, Id) -> RouteTableRead, hist: seq<Op>,
                       vpcId: Id, externalNetworkName: string): Step<seq<Route>>
  {
    var lookups := [ListSubnetsNamed(externalNetworkName), ListRouteTables(vpcId)];
    var tables := routeTables(vpcId);
    if tables.None? || |tables.value| == 0 then Step(Raised, lookups)
    else
      var tableId := tables.value[0].extId;
      var read := getRouteTable(hist + lookups, tableId);
      var routes := WithRoute(read.table.staticRoutes,
                              DefaultRoute(RetrieveNetworkId(namedSubnets(externalNetworkName)), externalNetworkName));
      Step(Ok(routes), lookups + [GetRouteTable(tableId), UpdateRouteTable(read.table.extId, routes, read.etag)])
  }

  /**
   * `createDefaultRoute`: looks up the external subnet and the VPC's first route table, reads
   * that table with its etag, appends the default route to it in place and sends the table
   * back with that etag as `if_match`. `data[0]` of a missing or empty list of tables raises.
   */
  method CreateDefaultRoute(namedSubnets: string -> Option<seq<Item>>, routeTables: Id -> Option<seq<Item>>,
                            getRouteTable: (seq<Op>, Id) -> RouteTableRead, hist: seq<Op>,
                            vpcId: Id, externalNetworkName: string)
    returns (routes: Outcome<seq<Route>>, ops: seq<Op>)
    ensures Step(routes, ops) == RouteUpdate(namedSubnets, routeTables, getRouteTable, hist, vpcId, externalNetworkName)
    ensures |ops| >= 2 && ops[..2] == [ListSubnetsNamed(externalNetworkName), ListRouteTables(vpcId)]
    ensures routes.Raised? <==> routeTables(vpcId).None? || |routeTables(vpcId).value| == 0
    ensures routes.Ok? ==>
              var tableId := routeTables(vpcId).value[0].extId;
              var read := getRouteTable(hist + ops[..2], tableId);
              && |ops| == 4 && ops[2] == GetRouteTable(tableId)
              && ops[3] == UpdateRouteTable(read.table.extId, routes.value, read.etag)
              && |routes.value| >= 1
              && routes.value[|routes.value| - 1]
                 == DefaultRoute(RetrieveNetworkId(namedSubnets(externalNetworkName)), externalNetworkName)
              && (read.table.staticRoutes.Some? ==>
                    routes.value[..|read.table.staticRoutes.value|] == read.table.staticRoutes.value)
  {
    var externalNetworkId := RetrieveNetworkId(namedSubnets(externalNetworkName));
    ops := [ListSubnetsNamed(externalNetworkName), ListRouteTables(vpcId)];
    var tables := routeTables(vpcId);
    if tables.None? || |tables.value| == 0 {
      return Raised, ops;
    }
    var routeTableId := tables.value[0].extId;
    var read := getRouteTable(hist + ops, routeTableId);
    var routeTable := new RouteTable(read.table);
    ops := ops + [GetRouteTable(routeTableId)];
    var newRoute := DefaultRoute(externalNetworkId, externalNetworkName);
    routeTable.AddRoute(newRoute);
    ops := ops + [UpdateRouteTable(routeTable.extId, routeTable.staticRoutes.value, read.etag)];
    routes := Ok(routeTable.staticRoutes.value);
  }
}
