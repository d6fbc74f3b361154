/**
 * The instance metadata resolver: existence and shutdown checks for a Node, and the
 * metadata (provider ID, addresses, region, zone) derived from its virtual machine.
 */
module NodeMetadata {
  import opened Wrappers
  import opened Errors
  import opened Objects
  import opened Store
  import opened ProviderId
  import opened InstanceLookup

  datatype Metadata = Metadata(
    providerID: string,
    nodeAddresses: seq<NodeAddress>,
    region: string,
    zone: string)

  /**
   * Appends `a` unless an entry with the same type and address is already there, as the
   * cloud-provider node helper does.
   */
  function AddToNodeAddresses(addrs: seq<NodeAddress>, a: NodeAddress): seq<NodeAddress> {
    if a in addrs then addrs else addrs + [a]
  }

  /** The InternalIP entries of `s`, in order. */
  function InternalOnly(s: seq<NodeAddress>): (r: seq<NodeAddress>)
    decreases |s|
  {
    if s == [] then []
    else InternalOnly(s[..|s| - 1]) + (if s[|s| - 1].addressType == InternalIP then [s[|s| - 1]] else [])
  }

  /** The entries of `s` in order, each kept only where it first occurs. */
  function Dedup(s: seq<NodeAddress>): (r: seq<NodeAddress>)
    decreases |s|
  {
    if s == [] then []
    else
      var init := s[..|s| - 1];
      if s[|s| - 1] in init then Dedup(init) else Dedup(init) + [s[|s| - 1]]
  }

  /**
   * The address policy: the machine's live address alone when it reports one, otherwise the
   * node's previous InternalIP entries without repeats.
   */
  function NodeAddresses(status: VirtualMachineStatus, prevAddrs: seq<NodeAddress>): (r: seq<NodeAddress>)
    ensures forall a :: a in r ==> a.addressType == InternalIP
    ensures status.ipAddress != "" ==> r == [NodeAddress(InternalIP, status.ipAddress)]
  {
    if status.ipAddress != "" then [NodeAddress(InternalIP, status.ipAddress)]
    else
      InternalOnlyMembers(prevAddrs);
      DedupMembers(InternalOnly(prevAddrs));
      Dedup(InternalOnly(prevAddrs))
  }

  /** `idx` picks `r` out of `s` at strictly increasing positions: `r` is a subsequence of `s`, order kept. */
  ghost predicate Embeds(idx: seq<int>, r: seq<NodeAddress>, s: seq<NodeAddress>) {
    && |idx| == |r|
    && (forall i :: 0 <= i < |idx| ==> 0 <= idx[i] < |s| && r[i] == s[idx[i]])
    && (forall i, j :: 0 <= i < j < |idx| ==> idx[i] < idx[j])
  }

  /** A subsequence of a subsequence is a subsequence. */
  lemma EmbedsCompose(inner: seq<int>, a: seq<NodeAddress>, b: seq<NodeAddress>, outer: seq<int>, c: seq<NodeAddress>)
    returns (idx: seq<int>)
    requires Embeds(inner, a, b) && Embeds(outer, b, c)
    ensures Embeds(idx, a, c)
  {
    idx := seq(|inner|, k requires 0 <= k < |inner| => outer[inner[k]]);
  }

  lemma {:induction false} InternalOnlyMembers(s: seq<NodeAddress>)
    ensures forall a :: a in InternalOnly(s) <==> a in s && a.addressType == InternalIP
    ensures |InternalOnly(s)| <= |s|
    decreases |s|
  {
    if s != [] {
      InternalOnlyMembers(s[..|s| - 1]);
      assert s == s[..|s| - 1] + [s[|s| - 1]];
    }
  }

  lemma {:induction false} DedupMembers(s: seq<NodeAddress>)
    ensures forall a :: a in Dedup(s) <==> a in s
    ensures |Dedup(s)| <= |s|
    decreases |s|
  {
    if s != [] {
      DedupMembers(s[..|s| - 1]);
      assert s == s[..|s| - 1] + [s[|s| - 1]];
    }
  }

  lemma {:induction false} DedupNoRepeats(s: seq<NodeAddress>)
    ensures forall i, j :: 0 <= i < j < |Dedup(s)| ==> Dedup(s)[i] != Dedup(s)[j]
    decreases |s|
  {
    if s != [] {
      var init := s[..|s| - 1];
      DedupNoRepeats(init);
      DedupMembers(init);
    }
  }

  /** A sequence without repeats is its own deduplication. */
  lemma {:induction false} DedupOfDistinct(s: seq<NodeAddress>)
    requires forall i, j :: 0 <= i < j < |s| ==> s[i] != s[j]
    ensures Dedup(s) == s
    decreases |s|
  {
    if s != [] {
      var init := s[..|s| - 1];
      DedupOfDistinct(init);
      assert s[|s| - 1] !in init by {
        forall i | 0 <= i < |init| ensures init[i] != s[|s| - 1] { assert init[i] == s[i]; }
      }
      assert s == init + [s[|s| - 1]];
    }
  }

  /** A sequence of InternalIP entries is kept whole by the filter. */
  lemma {:induction false} InternalOnlyOfInternal(s: seq<NodeAddress>)
    requires forall i :: 0 <= i < |s| ==> s[i].addressType == InternalIP
    ensures InternalOnly(s) == s
    decreases |s|
  {
    if s != [] {
      InternalOnlyOfInternal(s[..|s| - 1]);
      assert s == s[..|s| - 1] + [s[|s| - 1]];
    }
  }

  /** An embedding into `s` still embeds into `s` with one entry appended, and can take that entry too. */
  lemma EmbedsAppend(idx: seq<int>, r: seq<NodeAddress>, s: seq<NodeAddress>, x: NodeAddress)
    requires Embeds(idx, r, s)
    ensures Embeds(idx, r, s + [x])
    ensures Embeds(idx + [|s|], r + [x], s + [x])
  {
    assert forall i :: 0 <= i < |s| ==> (s + [x])[i] == s[i];
  }

  /** The filter keeps its entries in their original order. */
  lemma {:induction false} InternalOnlyInOrder(s: seq<NodeAddress>) returns (idx: seq<int>)
    ensures Embeds(idx, InternalOnly(s), s)
    decreases |s|
  {
    if s == [] {
      idx := [];
    } else {
      var init, last := s[..|s| - 1], s[|s| - 1];
      var prefix := InternalOnlyInOrder(init);
      EmbedsAppend(prefix, InternalOnly(init), init, last);
      assert s == init + [last];
      idx := if last.addressType == InternalIP then prefix + [|init|] else prefix;
    }
  }

  /**
   * Removing repeats keeps the surviving entries in their original order, each taken at its
   * first occurrence: no earlier position of `s` holds the same entry.
   */
  lemma {:induction false} DedupInOrder(s: seq<NodeAddress>) returns (idx: seq<int>)
    ensures Embeds(idx, Dedup(s), s)
    ensures forall i, k :: 0 <= i < |idx| && 0 <= k < idx[i] ==> s[k] != Dedup(s)[i]
    decreases |s|
  {
    if s == [] {
      idx := [];
    } else {
      var init, last := s[..|s| - 1], s[|s| - 1];
      var prefix := DedupInOrder(init);
      EmbedsAppend(prefix, Dedup(init), init, last);
      assert s == init + [last];
      if last in init {
        idx := prefix;
      } else {
        idx := prefix + [|init|];
        assert forall k :: 0 <= k < |init| ==> s[k] == init[k] != last;
      }
    }
  }

  /** With no live address the policy's result is a subsequence of the previous addresses, in their order. */
  lemma NodeAddressesInOrder(status: VirtualMachineStatus, prevAddrs: seq<NodeAddress>) returns (idx: seq<int>)
    requires status.ipAddress == ""
    ensures Embeds(idx, NodeAddresses(status, prevAddrs), prevAddrs)
  {
    var filtered := InternalOnlyInOrder(prevAddrs);
    var deduped := DedupInOrder(InternalOnly(prevAddrs));
    idx := EmbedsCompose(deduped, Dedup(InternalOnly(prevAddrs)), InternalOnly(prevAddrs), filtered, prevAddrs);
  }

  /** Every address the policy yields is an InternalIP; there are no repeats and at most one per previous entry. */
  lemma NodeAddressesShape(status: VirtualMachineStatus, prevAddrs: seq<NodeAddress>)
    ensures forall a :: a in NodeAddresses(status, prevAddrs) ==> a.addressType == InternalIP
    ensures |NodeAddresses(status, prevAddrs)| == 1 || |NodeAddresses(status, prevAddrs)| <= |prevAddrs|
    ensures var r := NodeAddresses(status, prevAddrs); forall i, j :: 0 <= i < j < |r| ==> r[i] != r[j]
    ensures status.ipAddress == "" ==>
      forall a :: a in NodeAddresses(status, prevAddrs) <==> a in prevAddrs && a.addressType == InternalIP
  {
    if status.ipAddress == "" {
      InternalOnlyMembers(prevAddrs);
      DedupMembers(InternalOnly(prevAddrs));
      DedupNoRepeats(InternalOnly(prevAddrs));
    }
  }

  /** Distinct previous InternalIP entries survive unchanged when the machine reports no address. */
  lemma NodeAddressesKeepsDistinctInternal(status: VirtualMachineStatus, prevAddrs: seq<NodeAddress>)
    requires status.ipAddress == ""
    requires forall i :: 0 <= i < |prevAddrs| ==> prevAddrs[i].addressType == InternalIP
    requires forall i, j :: 0 <= i < j < |prevAddrs| ==> prevAddrs[i] != prevAddrs[j]
    ensures NodeAddresses(status, prevAddrs) == prevAddrs
  {
    InternalOnlyOfInternal(prevAddrs);
    DedupOfDistinct(prevAddrs);
  }

  datatype InstancesV2 = InstancesV2(client: Client, namespace: string, zoneAndRegionEnabled: bool) {

    function Getter(): InstanceGetter {
      InstanceGetter(client)
    }

    /** A node has an instance unless the lookup says InstanceNotFound; other failures are errors. */
    function InstanceExists(node: Node): (r: Result<bool, Error>)
      reads client
      ensures var got := Getter().GetByProviderID(node.providerID, namespace);
        && (r == Success(true) <==> got.Success?)
        && (r == Success(false) <==> got == Failure(InstanceNotFound))
        && (r.Failure? <==> got.Failure? && got.error != InstanceNotFound)
        && (r.Failure? ==> r.error == got.error)
    {
      match Getter().GetByProviderID(node.providerID, namespace)
      case Success(_) => Success(true)
      case Failure(err) => if err == InstanceNotFound then Success(false) else Failure(err)
    }

    /** A node is shut down when its machine is stopped; every lookup failure is an error. */
    function InstanceShutdown(node: Node): (r: Result<bool, Error>)
      reads client
      ensures var got := Getter().GetByProviderID(node.providerID, namespace);
        && (r.Success? <==> got.Success?)
        && (r.Success? ==> (r.value <==> got.value.status.phase == MachineStopped))
        && (r.Failure? ==> r.error == got.error)
    {
      match Getter().GetByProviderID(node.providerID, namespace)
      case Success(instance) => Success(instance.status.phase == MachineStopped)
      case Failure(err) => Failure(err)
    }

    method GetNodeAddresses(status: VirtualMachineStatus, prevAddrs: seq<NodeAddress>) returns (addrs: seq<NodeAddress>)
      ensures addrs == NodeAddresses(status, prevAddrs)
      ensures status.ipAddress != "" ==> addrs == [NodeAddress(InternalIP, status.ipAddress)]
      ensures status.ipAddress == "" ==> forall a :: a in addrs <==> a in prevAddrs && a.addressType == InternalIP
      ensures forall a :: a in addrs ==> a.addressType == InternalIP
      ensures |addrs| == 1 || |addrs| <= |prevAddrs|
    {
      addrs := [];
      var foundInternalIP := false;
      if status.ipAddress != "" {
        addrs := AddToNodeAddresses(addrs, NodeAddress(InternalIP, status.ipAddress));
        foundInternalIP := true;
      }
      if !foundInternalIP {
        for k := 0 to |prevAddrs|
          invariant addrs == Dedup(InternalOnly(prevAddrs[..k]))
        {
          var prevAddr := prevAddrs[k];
          var seen := InternalOnly(prevAddrs[..k]);
          assert prevAddrs[..k + 1][..k] == prevAddrs[..k];
          if prevAddr.addressType == InternalIP {
            assert InternalOnly(prevAddrs[..k + 1]) == seen + [prevAddr];
            assert (seen + [prevAddr])[..|seen|] == seen;
            DedupMembers(seen);
            addrs := AddToNodeAddresses(addrs, prevAddr);
          } else {
            assert InternalOnly(prevAddrs[..k + 1]) == seen;
          }
        }
        assert prevAddrs[..|prevAddrs|] == prevAddrs;
      }
      NodeAddressesShape(status, prevAddrs);
    }

    /** Region and zone from the topology labels of the cluster-scoped Node `nodeName`. */
    function GetRegionAndZone(nodeName: string): (r: Result<(string, string), Error>)
      reads client
      ensures !zoneAndRegionEnabled ==> r == Success(("", ""))
      ensures zoneAndRegionEnabled ==> var got := client.GetNode(Key("", nodeName));
        && (got.Failure? ==> r == Failure(got.error))
        && (got.Success? ==> (r.Success?
             && r.value.0 == (if LabelTopologyRegion in got.value.meta.labels then got.value.meta.labels[LabelTopologyRegion] else "")
             && r.value.1 == (if LabelTopologyZone in got.value.meta.labels then got.value.meta.labels[LabelTopologyZone] else "")))
    {
      if !zoneAndRegionEnabled then Success(("", ""))
      else
        match client.GetNode(Key("", nodeName))
        case Failure(err) => Failure(err)
        case Success(node) =>
          var labels := node.meta.labels;
          var region := if LabelTopologyRegion in labels then labels[LabelTopologyRegion] else "";
          var zone := if LabelTopologyZone in labels then labels[LabelTopologyZone] else "";
          Success((region, zone))
    }

    method InstanceMetadata(node: Node) returns (r: Result<Metadata, Error>)
      ensures var got := Getter().GetByProviderID(node.providerID, namespace);
        && (got.Failure? ==> r == Failure(got.error))
        && (got.Success? ==> var topo := GetRegionAndZone(got.value.status.nodeName);
             && (topo.Failure? ==> r == Failure(topo.error))
             && (topo.Success? ==> r == Success(Metadata(
                  GetProviderID(got.value.meta.name),
                  NodeAddresses(got.value.status, node.addresses),
                  topo.value.0, topo.value.1))))
    {
      var got := Getter().GetByProviderID(node.providerID, namespace);
      if got.Failure? {
        return Failure(got.error);
      }
      var instance := got.value;
      var addrs := GetNodeAddresses(instance.status, node.addresses);
      var topo := GetRegionAndZone(instance.status.nodeName);
      if topo.Failure? {
        return Failure(topo.error);
      }
      var (region, zone) := topo.value;
      return Success(Metadata(GetProviderID(instance.meta.name), addrs, region, zone));
    }
  }

  /** A malformed provider ID is an error for InstanceExists, not a missing instance. */
  lemma InstanceExistsMalformed(i: InstancesV2, node: Node)
    requires !InGrammar(node.providerID)
    ensures i.InstanceExists(node) == Failure(InvalidProviderID(node.providerID))
  {
    ParseAcceptsGrammar(node.providerID);
  }

  /** InstanceShutdown reports a missing instance as an error, not as "not shut down". */
  lemma InstanceShutdownMissing(i: InstancesV2, node: Node)
    requires i.InstanceExists(node) == Success(false)
    ensures i.InstanceShutdown(node) == Failure(InstanceNotFound)
  {
  }
}
