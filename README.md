# Nutanix Prism Central VPC scripts, modelled in Dafny

Three Python scripts drive the Prism Central v4 API through its SDK clients:

- `clone-prod-to-dev-vpc.py` provisions a development VPC. It creates the VPC, lists the VPCs
  once and looks for the new VPC in that list, and creates two overlay subnets. It then selects VMs by category,
  lists the new VPC's subnets, and clones every selected VM onto the second subnet. Last, it
  adds a default route to the VPC's route table.
- `clean_vpc.py` decommissions a VPC found by name. For each of its subnets it deletes the VMs
  attached to that subnet and then the subnet itself. Last, it deletes the VPC.
- `list_vpc.py` pages through all VPCs and prints their names.

The model treats Prism Central as an oracle. Every response a script reads is a parameter: a
function from page index to page for the paged lists, or a plain value. A response that can
change while the script runs is a function of the calls issued so far. These are the etag of
a VM or a route table, the VMs attached to a subnet, and whether a `delete_vm` in `clean_vpc.py`
succeeds. What a script does becomes the
sequence of remote calls it issues (`Prism.Op`), plus a flag saying whether it reached its end.
A Python exception that no `except` clause catches ends that sequence with `completed = false`,
or with `Outcome.Raised` for a single step.

Modules:

- `Prism` (prism.dfy): the shared vocabulary. It holds the records the scripts read and collect,
  the route and subnet payloads, and the `Op` trace. It also holds the first-match name search,
  the `Keep` filter over traces, and `VmWritesPaired`. That predicate says every VM clone or
  delete comes right after a read of the same VM and carries the etag that read returned.
- `Paging` (paging.dfy): the pagination loop that the scripts copy four times. `ListAll` has a
  sentinel of 10000 pages and a page size of 50, and re-derives `nbPages` from every response.
  It is generic in what one item contributes, and in whether a page without `data` is skipped
  (with the `None` guard of `clean_vpc.py`) or makes the `for` raise (without the guard).
- `ListVpc` (list_vpc.dfy): `listVPC`.
- `CloneSteps` (clone_steps.dfy): the helper functions of `clone-prod-to-dev-vpc.py`. The route
  table fetched in `createDefaultRoute` is a class whose `static_routes` field `AddRoute`
  changes in place.
- `CloneProdToDev` (clone_prod_to_dev.dfy): `main` of `clone-prod-to-dev-vpc.py`, as a method
  proved equal to a specification of its trace, with lemmas about the order and the counts of
  its calls.
- `CleanVpc` (clean_vpc.dfy): all of `clean_vpc.py`.

Where the system's design description and the code disagree, the model follows the code:

- The description has a timed-out wait for the new VPC abort provisioning. In the code,
  `main` goes on after `waitForVpcCreation` returns `False`. It creates the subnets with
  `vpc_reference = False` and selects the VMs. It then raises a `TypeError` in
  `retrieveVpcSubnets`, where `"vpcReference eq '" + False` is evaluated, so nothing is cloned
  and no route is added (`TimedOutWaitCreatesSubnetsThenRaises`).
- The description has the wait re-check a fresh live query on every round, never a cached
  value. The code calls `list_vpcs()` once before its loop and tests that same snapshot on every
  round, so a VPC missing from it is never found (`WaitForVpcCreation`).
- The description has an unresolvable external network stop the steps that depend on it. In
  the code, the `None` that `retrieveNetworkId` returns for an empty or missing lookup goes on
  into `create_vpc` as the external subnet and into the default route as its next hop
  (`NetworkIdFeedsVpcAndRoute`).
- The description has the wait time out once the elapsed time strictly exceeds the timeout.
  The code loops while `elapsedTime < timeout`, so it sleeps exactly ceil(timeout / interval)
  times.
- The description has errors on independent per-item steps caught so that the loop continues.
  In `deleteVMBySubnet`, one `try` holds the whole loop, so the first failing read or delete
  skips the rest of that subnet's VMs (`DeletionStopsAtFirstFailure`). `main` still deletes the
  subnet and goes on to the next one.
- The description mentions a drain poll after VM deletion, floating addresses, and re-reading
  after an etag conflict. None of these is in the code, and none is modelled.
- `list_vpc.py` has no guard on `data` being `None`. Rather than require every page to carry
  data, the model lets such a page make the run end in `Raised`, which is what the unguarded
  `for` does.

## Model

| member | source | states |
|---|---|---|
| Prism.FindByName | nutanix/python/clone-prod-to-dev-vpc.py:86-90 | The result is `None` exactly when no entry has the name; otherwise it is the id of the first entry that has it. |
| Paging.CeilDiv | nutanix/python/clone-prod-to-dev-vpc.py:169 | For `n > 0`, `q` is the least count with `n <= q * d`, that is `(q - 1) * d < n <= q * d`; it is 0 for `n <= 0`. This is `math.ceil(total / 50)` on integers. |
| Paging.ListAll | nutanix/python/clone-prod-to-dev-vpc.py:158-173 | The loop's items and requested pages equal the recursive specification `Listed` of the loop, for every server whose totals are bounded. |
| Paging.ListingShape | nutanix/python/list_vpc.py:39-50 | The loop requests pages 0, 1, … consecutively, at least once. It goes on past a page exactly when that page did not raise and the page count it reported is beyond it. It raises exactly when its last page raised. Otherwise it stops at the page count its last page reported, and returns what the requested pages contributed, in order. Nothing collected earlier is dropped. |
| Paging.GuardedRunNeverRaises | nutanix/python/clean_vpc.py:61-65 | With the `None` guard, the loop never raises, whatever the server returns. |
| Paging.ConsistentListing | nutanix/python/clone-prod-to-dev-vpc.py:156-175 | For a server holding R items, the loop returns what those items contribute, in server order, after requesting pages 0 to max(1, ceil(R / 50)) - 1. |
| Paging.EmptyListingSingleCall | nutanix/python/clone-prod-to-dev-vpc.py:158-173 | With zero results, the loop requests page 0 once and returns the empty list. |
| Paging.RefsPointwise | nutanix/python/list_vpc.py:49 | Collecting `{name, ext_id}` per item gives one record per item, in order, copying only those two fields. |
| ListVpc.ListVpc | nutanix/python/list_vpc.py:32-52 | Pages 0, 1, … are requested in order. The result raises exactly when the last page had no `data`. For a server holding R VPCs, it is exactly their R `{name, ext_id}` records in server order, after max(1, ceil(R / 50)) requests. |
| ListVpc.HundredTwentyVpcs | nutanix/python/list_vpc.py:39-50 | 120 VPCs take pages 0, 1 and 2 and give 120 records. |
| CloneProdToDev.NetworkIdFeedsVpcAndRoute | nutanix/python/clone-prod-to-dev-vpc.py:178-188 | The script looks up the external network twice, once in `createVpc` and once in `createDefaultRoute`, and the model answers both lookups alike. From that answer, `retrieveNetworkId` gives the id `x`, which is `None` exactly when the answer's `data` is missing or empty, and `data[0].ext_id` otherwise. A run's second call is `create_vpc` with `x` as its external subnet. In every completed run, the last route of the final route-table update has `x` as its next hop and the external network's name as its next-hop name. |
| CloneSteps.WaitForVpcCreation | nutanix/python/clone-prod-to-dev-vpc.py:93-107 | The outcome depends only on the one snapshot. A VPC found there (with a non-empty, so truthy, id) is returned after zero sleeps. Otherwise the result is `False` after exactly ceil(timeout / interval) sleeps. A snapshot whose `data` is `None` raises. |
| CloneSteps.SelectedCopies | nutanix/python/clone-prod-to-dev-vpc.py:209-213 | A VM contributes its record once per category entry that carries the id, and nothing when `categories` is `None`. |
| CloneSteps.SelectionMembers | nutanix/python/clone-prod-to-dev-vpc.py:209-213 | A record is selected exactly when some VM on the pages carries the category id. The selection's length is the total number of matching category entries. |
| CloneSteps.SelectionOfSingleTags | nutanix/python/clone-prod-to-dev-vpc.py:209-213 | When no VM carries the id twice, the selection is the records of the carrying VMs, in server order. |
| CloneSteps.GetCategoryId | nutanix/python/clone-prod-to-dev-vpc.py:219-230 | An `ApiException` gives `None`. The lookup raises exactly when the response's `data` is missing or empty. Otherwise the id is the first entry's `ext_id`. |
| CloneSteps.UnresolvedSelectsNothing | nutanix/python/clone-prod-to-dev-vpc.py:226-230 | When `getCategoryId` catches an `ApiException` and returns `None`, no VM is selected. |
| CloneSteps.GetVmsByCategories | nutanix/python/clone-prod-to-dev-vpc.py:191-216 | The category is looked up once, before the paging, which requests pages 0, 1, …. A raising lookup ends with no page requested. For a consistent server, the result is the selection over all its VMs in order. |
| CloneSteps.RetrieveVpcSubnets | nutanix/python/clone-prod-to-dev-vpc.py:156-175 | A `False` VPC id raises before any request. Otherwise pages 0, 1, … are requested, and for a server holding R subnets the result is their R records in order, after max(1, ceil(R / 50)) requests. |
| CloneSteps.CloneVmById | nutanix/python/clone-prod-to-dev-vpc.py:233-258 | The VM is read first. A successful read is followed by exactly one `clone_vm` of that VM, with the clone name, a NIC on `networkExtId`, and the read's etag as `if_match`. A failed read is caught and issues no clone. The step keeps `VmWritesPaired`. |
| CloneSteps.WithRoute | nutanix/python/clone-prod-to-dev-vpc.py:293-297 | The new routes are the old ones, unchanged and in order, followed by the new route. When the list is absent or empty they are just `[new_route]`. |
| CloneSteps.RouteTable.AddRoute | nutanix/python/clone-prod-to-dev-vpc.py:294-297 | In place, `static_routes` becomes `WithRoute` of its old value, and the table id is unchanged. |
| CloneSteps.CreateDefaultRoute | nutanix/python/clone-prod-to-dev-vpc.py:261-299 | The step raises exactly when the VPC has no route table. Otherwise: the external subnet and the route tables are looked up; the first table is read; the update goes to the table just read, with that read's etag. It sends the old routes as a prefix, then the 0.0.0.0/24 route through the external subnet with priority 32768. |
| CloneProdToDev.SubnetCreations | nutanix/python/clone-prod-to-dev-vpc.py:307-316 | There is one `create_subnet` per subnet entry, in list order, each with that entry's name, network, prefix, gateway, pool and the VPC id. |
| CloneProdToDev.CreateSubnets | nutanix/python/clone-prod-to-dev-vpc.py:307-316 | The creation loop issues exactly `SubnetCreations`. |
| CloneProdToDev.CloneSelected | nutanix/python/clone-prod-to-dev-vpc.py:322-323 | The clone loop issues `cloneVmById` per selected VM in order, each seeing the calls before it. It raises before any clone when VMs were selected but fewer than two subnets were listed. |
| CloneProdToDev.Provision | nutanix/python/clone-prod-to-dev-vpc.py:302-325 | `main`, statement by statement, issues exactly the trace, and reaches its end exactly as the specification `Provisioning` gives. |
| CloneProdToDev.ProvisionAfterWait | nutanix/python/clone-prod-to-dev-vpc.py:306-325 | The rest of `main`, after the wait, issues exactly the trace of `Provisioned`. |
| CloneProdToDev.RunLayoutUnplanned | nutanix/python/clone-prod-to-dev-vpc.py:318-323 | When the wait does not raise but the run has no clone plan (a timed-out wait, a raising selection or listing, or VMs selected with fewer than two subnets listed), the run's trace is exactly its prelude of creations, selection and listing. It does not complete and never enters the clone loop. |
| CloneProdToDev.RunLayoutPlanned | nutanix/python/clone-prod-to-dev-vpc.py:318-325 | A run with a clone plan (a found VPC, and at least two subnets whenever VMs were selected) is its prelude, then the clone loop over the plan, then `createDefaultRoute`. It completes exactly when the route step does. |
| CloneProdToDev.ProvisionInPhaseOrder | nutanix/python/clone-prod-to-dev-vpc.py:302-325 | The calls of every run come phase by phase: VPC creation and wait, subnet creation, VM selection, subnet listing, cloning, route update. |
| CloneProdToDev.ProvisionCreatesConfiguredSubnets | nutanix/python/clone-prod-to-dev-vpc.py:303-316 | A raising wait creates no subnet. Otherwise the calls right after the wait are exactly one `create_subnet` per entry, in order, and the run makes no other subnet creation. |
| CloneProdToDev.ScriptCreatesTwoSubnets | nutanix/python/clone-prod-to-dev-vpc.py:34-53 | In a run whose wait does not raise, the script's own subnet list makes two subnet creations: `vpc-01-subnet-01` on 10.1.0.0/24, then `vpc-01-subnet-02` on 10.2.0.0/24. |
| CloneProdToDev.CloneAllReads | nutanix/python/clone-prod-to-dev-vpc.py:322-323 | The clone loop reads every selected VM exactly once, in selection order. |
| CloneProdToDev.CloneAllClones | nutanix/python/clone-prod-to-dev-vpc.py:322-323 | When every read succeeds, the loop issues one clone per VM, the i-th of `vmList[i]`, named `"clone-" + name`, onto the given subnet. |
| CloneProdToDev.CloneAllPaired | nutanix/python/clone-prod-to-dev-vpc.py:322-323 | The clone loop keeps `VmWritesPaired`. |
| CloneProdToDev.ProvisionClonesSelectedVms | nutanix/python/clone-prod-to-dev-vpc.py:318-323 | A run that does not reach the clone loop reads and clones no VM. One that does reads each selected VM once, in order, and clones only onto `vpcSubnets[1]`. When every read succeeds, it issues exactly `len(vmList)` clones, the i-th named `"clone-" + vmList[i].name`. |
| CloneProdToDev.ProvisionPairsVmWrites | nutanix/python/clone-prod-to-dev-vpc.py:302-325 | Every `clone_vm` of a run comes right after the read of the same VM and carries that read's etag. |
| CloneProdToDev.ProvisionEndsWithRouteUpdate | nutanix/python/clone-prod-to-dev-vpc.py:302-325 | A run completes exactly when it issues one route-table update, and none otherwise. That update is its last call: it comes right after the read of the VPC's first table, and carries that read's etag and the table's routes with the default route appended. |
| CloneProdToDev.TimedOutWaitCreatesSubnetsThenRaises | nutanix/python/clone-prod-to-dev-vpc.py:304-320 | After a timed-out wait, `main` still creates every subnet, without a VPC reference. It then raises, having read, cloned and routed nothing. |
| CleanVpc.GetVpcId | nutanix/python/clean_vpc.py:35-42 | The lookup raises exactly when `data` is `None`. It gives `False` exactly when no VPC has the name, and otherwise the id of the first VPC that has it. |
| CleanVpc.RetrieveVpcSubnet | nutanix/python/clean_vpc.py:45-67 | The guarded loop requests pages 0, 1, … and continues exactly while the latest page count is beyond the page. It returns what the pages with data contribute, a page without data contributing nothing. For R subnets, the result is exactly their records in order, after max(1, ceil(R / 50)) requests. |
| CleanVpc.DeleteVms | nutanix/python/clean_vpc.py:78-81 | The loop over the listed VMs issues exactly the reads and deletes of `DeleteVmsOps`. |
| CleanVpc.DeleteVmsCalls | nutanix/python/clean_vpc.py:78-81 | The loop issues only VM reads and VM deletes. |
| CleanVpc.DeleteVmBySubnet | nutanix/python/clean_vpc.py:69-83 | The step first lists the subnet's VMs, then issues only VM reads and deletes. A listing that fails or has no `data` deletes nothing. |
| CleanVpc.DeletionStopsAtFirstFailure | nutanix/python/clean_vpc.py:73-83 | The loop reads and then deletes the listed VMs one after the other, from the first on. No call but the last fails. When the loop leaves VMs untried, its last call is the one that failed. |
| CleanVpc.DeleteVmsPaired | nutanix/python/clean_vpc.py:80-81 | Every `delete_vm` comes right after the read of the same VM and carries that read's etag. |
| CleanVpc.SubnetBlockShape | nutanix/python/clean_vpc.py:112-114 | Per subnet, the calls are its VM listing, then only VM reads and deletes, then the deletion of that subnet. |
| CleanVpc.ClearSubnet | nutanix/python/clean_vpc.py:112-114 | One iteration of `main`'s loop issues exactly that subnet's block. |
| CleanVpc.DeleteSubnets | nutanix/python/clean_vpc.py:112-114 | `main`'s loop issues exactly the teardown, one block per listed subnet, each after the blocks before it. |
| CleanVpc.TeardownBlocks | nutanix/python/clean_vpc.py:112-114 | Block i of the loop belongs to the i-th listed subnet: it lists that subnet's VMs, then only reads and deletes VMs, then deletes that subnet. |
| CleanVpc.TeardownInListOrder | nutanix/python/clean_vpc.py:112-114 | The subnet deletions of the loop are exactly one per listed subnet, in list order. No VPC is deleted inside the loop. |
| CleanVpc.Decommission | nutanix/python/clean_vpc.py:106-116 | `main` issues exactly the trace, and reaches its end exactly as the specification `Decommissioned` gives. |
| CleanVpc.DecommissionDeletesOnlyFoundVpc | nutanix/python/clean_vpc.py:107-116 | Without a found VPC, the only call is the VPC list, and no delete of any kind is issued. With one, the VPC is deleted exactly once, as the very last call. The run completes unless the lookup raised. |
| CleanVpc.DecommissionInListOrder | nutanix/python/clean_vpc.py:110-116 | With a found VPC, the run is: the subnet listing, one block per subnet in list order (its VMs, then the subnet), and the VPC deletion. Every listed subnet is deleted exactly once, whatever happened to its VMs. |
| CleanVpc.DecommissionPairsVmWrites | nutanix/python/clean_vpc.py:106-116 | Every `delete_vm` of the run comes right after the read of the same VM and carries that read's etag. |

## Left out

- CloneSteps.UnresolvedSelectsNothing: category references are modelled as always carrying
  an `ext_id` string. In the script, a `None` category id compared with `category['ext_id']`
  would select any VM whose category entry has a null `ext_id`, and the model has no such entry.
- CloneProdToDev.NetworkIdFeedsVpcAndRoute: assumes that the two `list_subnets(name eq ...)`
  lookups of the external network, in `createVpc` and in `createDefaultRoute`, get the same
  answer, because the model's `namedSubnets` does not depend on earlier calls. If the external
  network changed between the two lookups, the script would send different ids, and this
  lemma does not cover that.
- Paging.ListAll: requires every total the server reports to be bounded, which the loop needs
  to terminate in the model. A server that reports a total of 50·(p+2) on page p makes the
  loop of `clone-prod-to-dev-vpc.py:158-173`, and its three copies, request pages forever. The
  model does not capture such a run.
- SDK configuration (host, port, credentials, `verify_ssl`), `load_dotenv` and the environment
  variables: they are inputs. `vpcName`, the category key and value, and the external network
  name are parameters of the model.
- Retry and backoff (`maxRetryAttempts`, `backoffFactor`): they run inside the SDK client,
  which is not part of this model.
- HTTP failures of the calls that no `try` guards (the list calls, `create_vpc`'s lookup,
  `list_route_tables`, `get_route_table_by_id`, `update_route_table_by_id`): the model's oracle
  always answers them.
- The outcome of `create_vpc`, `create_subnet`, `clone_vm`, `delete_subnet_by_id` and
  `delete_vpc_by_id`: each is caught or ignored by the script, so only the call appears in
  the trace.
- `math.ceil` of a float quotient: modelled as integer ceiling division. The two agree for
  every total below 50·2^48; for larger totals the float quotient can round down to an integer
  and give one page fewer.
- The filter and order strings (`vpcReference eq '…'`, `startswith(name, 'hol')`, `name asc`):
  they are opaque inputs to the remote query language. Each list response is a parameter
  already filtered.
- `time.sleep`: modelled as a count of sleeps, never as time.
- `print` output, including `main`'s final count line and the printed exceptions.
- The SDK's handling of `vpc_reference = False` in a subnet payload: the model records the
  payload with no VPC.
- The model objects the SDK builds in `createOverlaySubnet`, `createVpc` and `cloneVmById`:
  they are recorded as the payload fields the script sets.
