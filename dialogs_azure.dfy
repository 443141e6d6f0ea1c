/**
 * The data-handling part of the Azure dialog: the numbered list of running
 * VMs, the lookup of the chosen subscription, the loop that collects every
 * page of running VMs, and the split of the VMs into cards.
 */
module AzureDialogs {
  import opened Wrappers
  import opened Strings
  import opened Pagination
  import opened AzureModels

  // ---------------------------------------------------------------------------
  // The numbered list

  predicate AllHaveResourceGroup(vms: seq<Vm>)
  {
    forall i :: 0 <= i < |vms| ==> vms[i].HasResourceGroup()
  }

  /** `f"{i+1}. {vm.name} (rg: {vm.rg})"` */
  function VmLine(i: nat, vm: Vm): string
    requires vm.HasResourceGroup()
  {
    NatToString(i + 1) + ". " + vm.name + " (rg: " + vm.Rg() + ")"
  }

  function VmLines(vms: seq<Vm>): seq<string>
    requires AllHaveResourceGroup(vms)
  {
    seq(|vms|, i requires 0 <= i < |vms| => VmLine(i, vms[i]))
  }

  /** `AzureDialogData.running_vms_string`: the numbered lines joined by blank lines. */
  function RunningVmsString(vms: seq<Vm>): string
    requires AllHaveResourceGroup(vms)
  {
    Join("\n\n", VmLines(vms))
  }

  /**
   * One more VM adds one more line, numbered by its position counted from 1,
   * after a blank line: numbering follows list order.
   */
  lemma RunningVmsStringAppend(vms: seq<Vm>, vm: Vm)
    requires AllHaveResourceGroup(vms) && vm.HasResourceGroup() && vms != []
    ensures AllHaveResourceGroup(vms + [vm])
    ensures RunningVmsString(vms + [vm]) == RunningVmsString(vms) + "\n\n" + VmLine(|vms|, vm)
  {
    assert VmLines(vms + [vm]) == VmLines(vms) + [VmLine(|vms|, vm)];
    JoinAppend("\n\n", VmLines(vms), VmLine(|vms|, vm));
  }

  /**
   * The list starts with the line of the first VM, numbered 1, and is exactly
   * that line for one VM; it is empty only without VMs.
   */
  lemma RunningVmsStringStart(vms: seq<Vm>)
    requires AllHaveResourceGroup(vms)
    ensures RunningVmsString(vms) == "" <==> vms == []
    ensures vms != [] ==> "1. " + vms[0].name + " (rg: " + vms[0].Rg() + ")" <= RunningVmsString(vms)
    ensures |vms| == 1 ==> RunningVmsString(vms) == VmLine(0, vms[0])
  {
    if vms != [] {
      JoinStartsWithFirst("\n\n", VmLines(vms));
      assert NatToString(1) == "1";
    }
  }

  // ---------------------------------------------------------------------------
  // The subscription lookup

  /** The first subscription called `name`, if any. */
  function FirstByName(subs: seq<Subscription>, name: string): Option<Subscription>
  {
    if subs == [] then None
    else if subs[0].name == name then Some(subs[0])
    else FirstByName(subs[1..], name)
  }

  /** FirstByName finds the earliest subscription with that name, and None only when none has it. */
  lemma {:induction false} FirstByNameIsFirstMatch(subs: seq<Subscription>, name: string)
    ensures FirstByName(subs, name).None? <==> forall i :: 0 <= i < |subs| ==> subs[i].name != name
    ensures FirstByName(subs, name).Some? ==>
      exists i :: 0 <= i < |subs| && subs[i] == FirstByName(subs, name).value
        && subs[i].name == name && forall j :: 0 <= j < i ==> subs[j].name != name
  {
    if subs != [] {
      FirstByNameIsFirstMatch(subs[1..], name);
      assert forall i :: 1 <= i < |subs| ==> subs[i] == subs[1..][i - 1];
      if subs[0].name != name && FirstByName(subs, name).Some? {
        var i :| 0 <= i < |subs[1..]| && subs[1..][i] == FirstByName(subs, name).value
          && subs[1..][i].name == name && forall j :: 0 <= j < i ==> subs[1..][j].name != name;
        assert subs[i + 1] == subs[1..][i];
      }
    }
  }

  // ---------------------------------------------------------------------------
  // Cards

  /** A call `get_azure_vms_card(vms=..., start_idx=...)`, recorded by its arguments. */
  datatype VmCard = VmCard(vms: seq<Vm>, startIdx: int)

  function Min(a: int, b: int): int
  {
    if a <= b then a else b
  }

  /** The VMs of all cards, in card order. */
  function CardsVms(cards: seq<VmCard>): seq<Vm>
  {
    if cards == [] then [] else CardsVms(cards[..|cards| - 1]) + cards[|cards| - 1].vms
  }

  /** Card `k` of a chunking of `vms` into cards of `maxVms`: the k-th slice, numbered from `k*maxVms + 1`. */
  predicate IsVmChunk(card: VmCard, vms: seq<Vm>, k: nat, maxVms: nat)
  {
    && k * maxVms < |vms|
    && card.vms == vms[k * maxVms .. Min(k * maxVms + maxVms, |vms|)]
    && card.startIdx == k * maxVms + 1
  }

  /**
   * `cards` splits `vms` into consecutive chunks of `maxVms`, the last one
   * possibly shorter: there are ceil(|vms| / maxVms) of them, card k holds
   * `vms[k*maxVms : (k+1)*maxVms]` and starts numbering at `k*maxVms + 1`,
   * and together they hold exactly `vms`.
   */
  predicate IsVmCardChunking(cards: seq<VmCard>, vms: seq<Vm>, maxVms: nat)
  {
    && (|cards| - 1) * maxVms < |vms| <= |cards| * maxVms
    && (forall k :: 0 <= k < |cards| ==> IsVmChunk(cards[k], vms, k, maxVms))
    && CardsVms(cards) == vms
  }

  /** The first `|cards|` chunks of `vms`, covering `vms[..i]`. */
  predicate IsVmChunkPrefix(cards: seq<VmCard>, vms: seq<Vm>, maxVms: nat, i: nat)
  {
    && i == |cards| * maxVms
    && (|cards| > 0 ==> (|cards| - 1) * maxVms < |vms|)
    && (forall k :: 0 <= k < |cards| ==> IsVmChunk(cards[k], vms, k, maxVms))
    && CardsVms(cards) == vms[..Min(i, |vms|)]
  }

  lemma CardsVmsAppend(cards: seq<VmCard>, card: VmCard)
    ensures CardsVms(cards + [card]) == CardsVms(cards) + card.vms
  {
    assert (cards + [card])[..|cards|] == cards;
  }

  lemma VmChunksAppend(cards: seq<VmCard>, card: VmCard, vms: seq<Vm>, maxVms: nat)
    requires forall k :: 0 <= k < |cards| ==> IsVmChunk(cards[k], vms, k, maxVms)
    requires IsVmChunk(card, vms, |cards|, maxVms)
    ensures forall k :: 0 <= k < |cards + [card]| ==> IsVmChunk((cards + [card])[k], vms, k, maxVms)
  {
    forall k | 0 <= k < |cards + [card]|
      ensures IsVmChunk((cards + [card])[k], vms, k, maxVms)
    {
      if k < |cards| {
        assert (cards + [card])[k] == cards[k];
      }
    }
  }

  lemma MulSucc(n: nat, m: nat)
    ensures (n + 1) * m == n * m + m
  {
  }

  /** Appending the chunk that starts at `i` extends a chunk prefix by one card. */
  lemma VmChunkPrefixStep(cards: seq<VmCard>, vms: seq<Vm>, maxVms: nat, i: nat)
    requires maxVms > 0 && i < |vms|
    requires IsVmChunkPrefix(cards, vms, maxVms, i)
    ensures IsVmChunkPrefix(cards + [VmCard(vms[i .. Min(i + maxVms, |vms|)], i + 1)], vms, maxVms, i + maxVms)
  {
    var card := VmCard(vms[i .. Min(i + maxVms, |vms|)], i + 1);
    VmChunksAppend(cards, card, vms, maxVms);
    CardsVmsAppend(cards, card);
    assert vms[..i] + vms[i .. Min(i + maxVms, |vms|)] == vms[..Min(i + maxVms, |vms|)];
    MulSucc(|cards|, maxVms);
  }

  /** The card loop of `list_running_vms_step`: one card per `range(0, len(vms), maxVms)` step. */
  method BuildVmCards(vms: seq<Vm>, maxVms: nat) returns (cards: seq<VmCard>)
    requires maxVms > 0
    ensures IsVmCardChunking(cards, vms, maxVms)
  {
    cards := [];
    var i := 0;
    while i < |vms|
      invariant IsVmChunkPrefix(cards, vms, maxVms, i)
    {
      VmChunkPrefixStep(cards, vms, maxVms, i);
      cards := cards + [VmCard(vms[i .. Min(i + maxVms, |vms|)], i + 1)];
      i := i + maxVms;
    }
    assert vms[..Min(i, |vms|)] == vms;
  }

  // ---------------------------------------------------------------------------
  // The step

  const NoSuchOptionText: string := "Can't find such option. Please try again."

  function CheckingText(subscriptionName: string): string
  {
    "OK! Let's check for running VMs in " + subscriptionName + "..."
  }

  function NoRunningVmsText(subscriptionName: string): string
  {
    "Looks like there are no running VMs in " + subscriptionName
  }

  /** What the step sends to the chat. */
  datatype Message = Text(text: string) | Attachments(cards: seq<VmCard>)

  /** The pages of running VMs of one subscription, as a function of the `next_link` passed. */
  function VmPages(listAllRunningVms: (Subscription, Option<string>) -> Page<Vm>, sub: Subscription): Option<string> -> Page<Vm>
  {
    nextLink => listAllRunningVms(sub, nextLink)
  }

  class AzureDialogData {
    var subscriptions: seq<Subscription>
    var runningVms: seq<Vm>

    constructor ()
      ensures subscriptions == [] && runningVms == []
    {
      subscriptions := [];
      runningVms := [];
    }

    /** `get_subscription_by_name`: a linear search that returns at the first match. */
    method GetSubscriptionByName(name: string) returns (r: Option<Subscription>)
      ensures r == FirstByName(subscriptions, name)
    {
      for i := 0 to |subscriptions|
        invariant FirstByName(subscriptions, name) == FirstByName(subscriptions[i..], name)
      {
        assert subscriptions[i..][1..] == subscriptions[i + 1..];
        if subscriptions[i].name == name {
          return Some(subscriptions[i]);
        }
      }
      return None;
    }
  }

  class AzureDialog {
    const data: AzureDialogData

    constructor ()
      ensures fresh(data) && data.subscriptions == [] && data.runningVms == []
    {
      data := new AzureDialogData();
    }

    /**
     * The `while True` loop of `list_running_vms_step`: call the lister first
     * with no link and then with each truthy link it returns, collecting every
     * page into `data.runningVms`; `requests` are the links passed, in call
     * order.
     */
    method CollectRunningVms(sub: Subscription, listAllRunningVms: (Subscription, Option<string>) -> Page<Vm>, ghost bound: nat)
      returns (requests: seq<Option<string>>)
      requires EndsWithin(VmPages(listAllRunningVms, sub), None, bound)
      modifies data
      ensures data.subscriptions == old(data.subscriptions)
      ensures data.runningVms == Drain(VmPages(listAllRunningVms, sub), None, bound)
      ensures requests == Requests(VmPages(listAllRunningVms, sub), None, bound)
    {
      ghost var pages := VmPages(listAllRunningVms, sub);
      ghost var fuel := bound;
      var nextLink: Option<string> := None;
      data.runningVms := [];
      requests := [];
      while true
        invariant EndsWithin(pages, nextLink, fuel)
        invariant data.runningVms + Drain(pages, nextLink, fuel) == Drain(pages, None, bound)
        invariant requests + Requests(pages, nextLink, fuel) == Requests(pages, None, bound)
        invariant data.subscriptions == old(data.subscriptions)
        decreases fuel
      {
        var page := listAllRunningVms(sub, nextLink);
        assert page == pages(nextLink);
        if !Truthy(page.next) {
          DrainFinish(pages, nextLink, fuel, data.runningVms, requests, Drain(pages, None, bound), Requests(pages, None, bound));
        } else {
          DrainAdvance(pages, nextLink, fuel, data.runningVms, requests, Drain(pages, None, bound), Requests(pages, None, bound));
        }
        requests := requests + [nextLink];
        nextLink := page.next;
        data.runningVms := data.runningVms + page.items;
        if !Truthy(nextLink) {
          // no more VMs
          break;
        }
        fuel := fuel - 1;
      }
    }

    /**
     * `list_running_vms_step` without the chat framework: find the chosen
     * subscription (or report that there is none, without listing), collect
     * every page of its running VMs, and send either the cards or the text
     * saying there are none.
     */
    method ListRunningVmsStep(
      chosenName: string,
      listAllRunningVms: (Subscription, Option<string>) -> Page<Vm>,
      maxVms: nat,
      ghost bound: nat)
      returns (sent: seq<Message>, requests: seq<Option<string>>)
      requires maxVms > 0
      requires FirstByName(data.subscriptions, chosenName).Some? ==>
        EndsWithin(VmPages(listAllRunningVms, FirstByName(data.subscriptions, chosenName).value), None, bound)
      modifies data
      ensures data.subscriptions == old(data.subscriptions)
      ensures FirstByName(data.subscriptions, chosenName).None? ==>
        && sent == [Text(NoSuchOptionText)]
        && requests == []
        && data.runningVms == old(data.runningVms)
      ensures FirstByName(data.subscriptions, chosenName).Some? ==>
        var sub := FirstByName(data.subscriptions, chosenName).value;
        && data.runningVms == Drain(VmPages(listAllRunningVms, sub), None, bound)
        && requests == Requests(VmPages(listAllRunningVms, sub), None, bound)
        && |sent| == 2
        && sent[0] == Text(CheckingText(sub.name))
        && (data.runningVms == [] ==> sent[1] == Text(NoRunningVmsText(sub.name)))
        && (data.runningVms != [] ==> sent[1].Attachments? && IsVmCardChunking(sent[1].cards, data.runningVms, maxVms))
    {
      var found := data.GetSubscriptionByName(chosenName);
      if found.None? {
        sent := [Text(NoSuchOptionText)];
        requests := [];
        return;
      }
      var sub := found.value;
      sent := [Text(CheckingText(sub.name))];
      requests := CollectRunningVms(sub, listAllRunningVms, bound);
      if data.runningVms != [] {
        var cards := BuildVmCards(data.runningVms, maxVms);
        sent := sent + [Attachments(cards)];
      } else {
        sent := sent + [Text(NoRunningVmsText(sub.name))];
      }
    }
  }
}
