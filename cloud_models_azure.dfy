/**
 * Azure resources. The pydantic base class AzureResource (id, name) is
 * inlined into Subscription and Vm.
 */
module AzureModels {
  import opened Strings

  datatype Subscription = Subscription(id: string, name: string)

  /** The power states of a virtual machine, a `str` enum. */
  datatype VmPowerState = Starting | Running | Stopping | Stopped | Deallocating | Deallocated
  {
    function Value(): string
    {
      match this
      case Starting => "starting"
      case Running => "running"
      case Stopping => "stopping"
      case Stopped => "stopped"
      case Deallocating => "deallocating"
      case Deallocated => "deallocated"
    }
  }

  const AllVmPowerStates: seq<VmPowerState> :=
    [Starting, Running, Stopping, Stopped, Deallocating, Deallocated]

  /** The enum is a closed set of exactly six members with six distinct values. */
  lemma VmPowerStatesClosed()
    ensures |AllVmPowerStates| == 6
    ensures forall s: VmPowerState :: s in AllVmPowerStates
    ensures forall i, j :: 0 <= i < j < |AllVmPowerStates| ==> AllVmPowerStates[i].Value() != AllVmPowerStates[j].Value()
  {
    forall s: VmPowerState ensures s in AllVmPowerStates {
      match s
      case Starting => assert AllVmPowerStates[0] == s;
      case Running => assert AllVmPowerStates[1] == s;
      case Stopping => assert AllVmPowerStates[2] == s;
      case Stopped => assert AllVmPowerStates[3] == s;
      case Deallocating => assert AllVmPowerStates[4] == s;
      case Deallocated => assert AllVmPowerStates[5] == s;
    }
  }

  /** A virtual machine: the fields of AzureResource plus its power state. */
  datatype Vm = Vm(id: string, name: string, powerState: VmPowerState)
  {
    /** `id.split("/")[4]` exists: the id has at least five `/`-separated segments. */
    predicate HasResourceGroup()
    {
      |Split(id, '/')| >= 5
    }

    /** The resource group, the segment at index 4 of the id split on `/`. */
    function Rg(): (r: string)
      requires HasResourceGroup()
      ensures '/' !in r
    {
      Split(id, '/')[4]
    }
  }

  /** The id has at least five segments exactly when it has at least four slashes. */
  lemma HasResourceGroupIffFourSlashes(vm: Vm)
    ensures vm.HasResourceGroup() <==> Count(vm.id, '/') >= 4
  {
  }

  /** `id` is `pre`, a `/`, `rg`, then `post`, with three `/` in `pre` and `post` empty or starting at a `/`. */
  predicate SegmentFourIs(id: string, pre: string, rg: string, post: string)
  {
    && id == pre + "/" + rg + post
    && Count(pre, '/') == 3
    && (post == "" || post[0] == '/')
  }

  /**
   * Where the resource group sits in the id: right after the fourth `/`,
   * running up to the fifth `/` or the end of the id.
   */
  lemma RgLocated(vm: Vm)
    requires vm.HasResourceGroup()
    ensures exists pre, post :: SegmentFourIs(vm.id, pre, vm.Rg(), post)
  {
    var segs := Split(vm.id, '/');
    var rg := vm.Rg();
    assert rg == segs[4];
    SplitJoin(vm.id, '/');
    var pre := Join("/", segs[..4]);
    CountJoin(segs[..4], '/');
    JoinAround("/", segs, 4);
    if |segs| == 5 {
      assert vm.id == pre + "/" + rg;
      assert SegmentFourIs(vm.id, pre, rg, "");
    } else {
      var post := "/" + Join("/", segs[5..]);
      assert SegmentFourIs(vm.id, pre, rg, post);
    }
  }

  /** Five pieces without `/`, the first empty, each followed by `/`: the fifth one is segment 4. */
  lemma {:induction false} FifthSegment(p1: string, p2: string, p3: string, p4: string, rest: string)
    requires '/' !in p1 && '/' !in p2 && '/' !in p3 && '/' !in p4
    ensures var segs := Split("/" + (p1 + "/" + (p2 + "/" + (p3 + "/" + (p4 + "/" + rest)))), '/');
      |segs| >= 5 && segs[4] == p4
  {
    var s4 := p4 + "/" + rest;
    var s3 := p3 + "/" + s4;
    var s2 := p2 + "/" + s3;
    var s1 := p1 + "/" + s2;
    assert "" + "/" + s1 == "/" + s1;
    SplitAfterPiece("", s1, '/');
    SplitAfterPiece(p1, s2, '/');
    SplitAfterPiece(p2, s3, '/');
    SplitAfterPiece(p3, s4, '/');
    SplitAfterPiece(p4, rest, '/');
  }

  /**
   * For an id in the documented format
   * `/subscriptions/<sub-id>/resourceGroups/<rg-name>/<rest>`, the resource
   * group is `<rg-name>`, whatever follows it; the example id
   * `/subscriptions/S/resourceGroups/RG1/providers/Microsoft.Compute/virtualMachines/VM1`
   * is the case sub = S, rg = RG1.
   */
  lemma RgOfDocumentedId(vm: Vm, sub: string, rg: string, rest: string)
    requires '/' !in sub && '/' !in rg
    requires vm.id == "/" + ("subscriptions" + "/" + (sub + "/" + ("resourceGroups" + "/" + (rg + "/" + rest))))
    ensures vm.HasResourceGroup() && vm.Rg() == rg
  {
    FifthSegment("subscriptions", sub, "resourceGroups", rg, rest);
  }
}
