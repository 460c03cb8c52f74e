/**
 * Vocabulary shared by the three Prism Central scripts: the records they read from list
 * responses, the `{name, ext_id}` records they collect, the payloads they send, and the trace
 * of remote calls a script issues. The remote API itself is an oracle: each script's model takes
 * the responses as functions, so nothing here talks to a server.
 */
module Prism {

  type Id = string
  type Etag = string

  datatype Option<T> = None | Some(value: T)

  /** `Raised` is a Python exception that no `except` clause of the script catches. */
  datatype Outcome<T> = Ok(value: T) | Raised

  /** What one step of a script returns and the calls it issued. */
  datatype Step<T> = Step(result: Outcome<T>, ops: seq<Op>)

  /** The calls of one run of a script, and whether it reached its end without an uncaught exception. */
  datatype Execution = Execution(trace: seq<Op>, completed: bool)

  datatype CategoryRef = CategoryRef(extId: Id)

  /** One entry of a list response's `data`, with the fields the scripts read. */
  datatype Item = Item(name: string, extId: Id, categories: Option<seq<CategoryRef>>)

  /** The `{'name': ..., 'ext_id': ...}` dictionary the scripts append to their lists. */
  datatype Ref = Ref(name: string, extId: Id)

  function ToRef(item: Item): Ref
  {
    Ref(item.name, item.extId)
  }

  /** Payload of `create_subnet`: an overlay subnet with one address pool. */
  datatype OverlaySubnet = OverlaySubnet(
    name: string, vpc: Option<Id>, ipNetwork: string, ipPrefix: nat,
    ipGateway: string, ipPoolStart: string, ipPoolEnd: string)

  datatype Ipv4Subnet = Ipv4Subnet(ip: string, prefixLength: nat)

  /** A static route of a route table. */
  datatype Route = Route(
    isActive: bool, priority: nat, destination: Ipv4Subnet, nexthopType: string,
    nexthopReference: Option<Id>, nexthopIpAddress: Option<string>, nexthopName: string)

  /** One remote call, in the order the script issues it. */
  datatype Op =
    | ListSubnetsNamed(name: string)
    | ListVpcSubnets(vpc: Id, page: nat)
    | CreateSubnet(subnet: OverlaySubnet)
    | DeleteSubnet(subnetId: Id)
    | CreateVpc(vpcName: string, externalSubnet: Option<Id>)
    | ListVpcs
    | ListVpcsPage(page: nat)
    | DeleteVpc(vpcId: Id)
    | ListRouteTables(vpcOfTable: Id)
    | GetRouteTable(table: Id)
    | UpdateRouteTable(table: Id, routes: seq<Route>, tableIfMatch: Etag)
    | ListCategories(key: string, value: string)
    | ListVmsPage(page: nat)
    | ListVmsOnSubnet(subnetOfVms: Id)
    | GetVm(vm: Id)
    | CloneVm(vm: Id, cloneName: string, target: Id, ifMatch: Etag)
    | DeleteVm(vm: Id, ifMatch: Etag)

  /** `i` is the position of the first element of `data` whose name is `name`. */
  predicate IsFirstNamed(data: seq<Item>, name: string, i: int)
  {
    0 <= i < |data| && data[i].name == name && forall j :: 0 <= j < i ==> data[j].name != name
  }

  /**
   * The `for vpc in data: if vpc.name == name: return ext_id` search shared by
   * `checkVpcExists` and `getVPCId`; `None` stands for their `return False`.
   */
  function FindByName(data: seq<Item>, name: string): (r: Option<Id>)
    ensures r.None? <==> forall i :: 0 <= i < |data| ==> data[i].name != name
    ensures r.Some? ==> exists i :: IsFirstNamed(data, name, i) && r.value == data[i].extId
  {
    if |data| == 0 then None
    else if data[0].name == name then
      assert IsFirstNamed(data, name, 0);
      Some(data[0].extId)
    else
      var r := FindByName(data[1..], name);
      assert forall i :: 0 < i < |data| ==> data[i] == data[1..][i - 1];
      if r.Some? then
        var i :| IsFirstNamed(data[1..], name, i) && r.value == data[1..][i].extId;
        assert IsFirstNamed(data, name, i + 1);
        r
      else r
  }

  /** The calls of `t` that satisfy `p`, in trace order. */
  function Keep(t: seq<Op>, p: Op -> bool): (r: seq<Op>)
    ensures |r| <= |t|
  {
    if t == [] then [] else (if p(t[0]) then [t[0]] else []) + Keep(t[1..], p)
  }

  lemma KeepCons(x: Op, t: seq<Op>, p: Op -> bool)
    ensures Keep([x] + t, p) == (if p(x) then [x] else []) + Keep(t, p)
  {
    assert ([x] + t)[0] == x && ([x] + t)[1..] == t;
  }

  lemma {:induction false} KeepAppend(s: seq<Op>, t: seq<Op>, p: Op -> bool)
    ensures Keep(s + t, p) == Keep(s, p) + Keep(t, p)
    decreases |s|
  {
    if s == [] {
      assert s + t == t;
    } else {
      var x := s[0];
      assert s == [x] + s[1..];
      assert s + t == [x] + (s[1..] + t);
      KeepCons(x, s[1..] + t, p);
      KeepCons(x, s[1..], p);
      KeepAppend(s[1..], t, p);
    }
  }

  lemma KeepPair(a: Op, b: Op, p: Op -> bool)
    ensures Keep([a], p) == (if p(a) then [a] else [])
    ensures Keep([a, b], p) == Keep([a], p) + Keep([b], p)
  {
    assert [a, b] == [a] + [b];
    KeepAppend([a], [b], p);
  }

  /** Keeping the calls of a trace none of which satisfies `p` keeps nothing. */
  lemma {:induction false} KeepNone(t: seq<Op>, p: Op -> bool)
    requires forall k :: 0 <= k < |t| ==> !p(t[k])
    ensures Keep(t, p) == []
    decreases |t|
  {
    if t != [] {
      assert forall k :: 0 <= k < |t[1..]| ==> t[1..][k] == t[k + 1];
      KeepNone(t[1..], p);
    }
  }

  /** Keeping the calls of a trace all of which satisfy `p` keeps them all. */
  lemma {:induction false} KeepAll(t: seq<Op>, p: Op -> bool)
    requires forall k :: 0 <= k < |t| ==> p(t[k])
    ensures Keep(t, p) == t
    decreases |t|
  {
    if t != [] {
      assert forall k :: 0 <= k < |t[1..]| ==> t[1..][k] == t[k + 1];
      KeepAll(t[1..], p);
    }
  }

  /** A call that writes a VM under optimistic concurrency control (`if_match`). */
  predicate IsVmWrite(op: Op)
  {
    op.CloneVm? || op.DeleteVm?
  }

  /**
   * Every clone or delete of a VM in trace `t` immediately follows a `get_vm_by_ext_id` of the
   * same VM and carries the etag that read returned; `getVm` gives the etag a read returns
   * after a given history of calls, or `None` when the read raises.
   */
  ghost predicate VmWritesPaired(getVm: (seq<Op>, Id) -> Option<Etag>, t: seq<Op>)
  {
    forall k :: 0 <= k < |t| && IsVmWrite(t[k]) ==>
      k > 0 && t[k - 1] == GetVm(t[k].vm) && getVm(t[..k - 1], t[k].vm) == Some(t[k].ifMatch)
  }

  /** Appending calls that write no VM keeps the pairing of the earlier writes. */
  lemma {:induction false} PairedAppendNoWrites(getVm: (seq<Op>, Id) -> Option<Etag>, t: seq<Op>, s: seq<Op>)
    requires VmWritesPaired(getVm, t)
    requires forall k :: 0 <= k < |s| ==> !IsVmWrite(s[k])
    ensures VmWritesPaired(getVm, t + s)
  {
    var u := t + s;
    forall k | |t| <= k < |u|
      ensures !IsVmWrite(u[k])
    {
      assert u[k] == s[k - |t|];
    }
    forall k | 0 <= k < |t| && IsVmWrite(u[k])
      ensures k > 0 && u[k - 1] == GetVm(u[k].vm) && getVm(u[..k - 1], u[k].vm) == Some(u[k].ifMatch)
    {
      assert u[k] == t[k] && u[k - 1] == t[k - 1];
      assert u[..k - 1] == t[..k - 1];
    }
  }

  /** A read of a VM followed by a write that uses the etag the read returned keeps the pairing. */
  lemma {:induction false} PairedAppendReadWrite(getVm: (seq<Op>, Id) -> Option<Etag>, t: seq<Op>, w: Op)
    requires VmWritesPaired(getVm, t)
    requires IsVmWrite(w) && getVm(t, w.vm) == Some(w.ifMatch)
    ensures VmWritesPaired(getVm, t + [GetVm(w.vm), w])
  {
    var u := t + [GetVm(w.vm), w];
    forall k | 0 <= k < |u| && IsVmWrite(u[k])
      ensures k > 0 && u[k - 1] == GetVm(u[k].vm) && getVm(u[..k - 1], u[k].vm) == Some(u[k].ifMatch)
    {
      if k == |t| + 1 {
        assert u[..k - 1] == t;
      } else {
        assert k < |t|;
        assert u[k] == t[k] && u[k - 1] == t[k - 1];
        assert u[..k - 1] == t[..k - 1];
      }
    }
  }

  /**
   * Associativity of trace concatenation, as a lemma so that callers whose context holds large
   * trace functions can use it without proving it there.
   */
  lemma ConcatAssoc(a: seq<Op>, b: seq<Op>, c: seq<Op>)
    ensures a + b + c == a + (b + c)
  {
  }
}
