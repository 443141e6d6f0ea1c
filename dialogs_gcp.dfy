/**
 * The data-handling part of the GCP dialog: the numbered list of running
 * instances and the step that installs the token and collects every page of
 * running instances of the one supported project and zone.
 */
module GcpDialogs {
  import opened Wrappers
  import opened Strings
  import opened Pagination
  import opened GcpModels
  import GcpClients

  /** The only project and zone the step lists. */
  const GcpProjectId: string := "flex-gcp-kdp"
  const GcpZone: string := "us-central1-c"

  /** `f"{i+1}. {instance.name} (project: {instance.project}, zone: {instance.zone})"` */
  function InstanceLine(i: nat, instance: Instance): string
  {
    NatToString(i + 1) + ". " + instance.name + " (project: " + instance.project + ", zone: " + instance.zone + ")"
  }

  function InstanceLines(instances: seq<Instance>): seq<string>
  {
    seq(|instances|, i requires 0 <= i < |instances| => InstanceLine(i, instances[i]))
  }

  /** `GcpDialogData.running_instances_string`: the numbered lines joined by blank lines. */
  function RunningInstancesString(instances: seq<Instance>): string
  {
    Join("\n\n", InstanceLines(instances))
  }

  /** One more instance adds one more line, numbered by its position counted from 1, after a blank line. */
  lemma RunningInstancesStringAppend(instances: seq<Instance>, instance: Instance)
    requires instances != []
    ensures RunningInstancesString(instances + [instance])
         == RunningInstancesString(instances) + "\n\n" + InstanceLine(|instances|, instance)
  {
    assert InstanceLines(instances + [instance]) == InstanceLines(instances) + [InstanceLine(|instances|, instance)];
    JoinAppend("\n\n", InstanceLines(instances), InstanceLine(|instances|, instance));
  }

  /**
   * The list starts with the line of the first instance, numbered 1, and is
   * exactly that line for one instance; it is empty only without instances.
   */
  lemma RunningInstancesStringStart(instances: seq<Instance>)
    ensures RunningInstancesString(instances) == "" <==> instances == []
    ensures instances != [] ==>
      "1. " + instances[0].name + " (project: " + instances[0].project + ", zone: " + instances[0].zone + ")"
        <= RunningInstancesString(instances)
    ensures |instances| == 1 ==> RunningInstancesString(instances) == InstanceLine(0, instances[0])
  {
    if instances != [] {
      JoinStartsWithFirst("\n\n", InstanceLines(instances));
      assert NatToString(1) == "1";
    }
  }

  const LoginFailedText: string := "Login was not successful please try again."
  const CheckingText: string := "OK! Let's check for running instances in GCP..."
  const NoRunningInstancesText: string := "Looks like there are no running instances in GCP"

  /**
   * The pages of running instances of the supported project and zone, as a
   * function of the page token passed: every call of the lister names that
   * project and zone.
   */
  function InstancePages(listAllRunningInstances: (string, string, Option<string>) -> Page<Instance>): Option<string> -> Page<Instance>
  {
    token => listAllRunningInstances(GcpProjectId, GcpZone, token)
  }

  class GcpDialogData {
    var runningInstances: seq<Instance>

    constructor ()
      ensures runningInstances == []
    {
      runningInstances := [];
    }
  }

  class GcpDialog {
    const gclient: GcpClients.Client
    const data: GcpDialogData

    constructor ()
      ensures fresh(data) && data.runningInstances == []
      ensures gclient.Valid()
      ensures gclient.computeClient.host == GcpClients.DefaultComputeHost
      ensures gclient.cloudResourceManagerClient.host == GcpClients.DefaultCloudResourceManagerHost
    {
      gclient := new GcpClients.Client(
        GcpClients.DefaultComputeHost, GcpClients.DefaultCloudResourceManagerHost,
        GcpClients.DefaultPort, GcpClients.DefaultScheme, "");
      data := new GcpDialogData();
    }

    /**
     * The `while True` loop of `list_running_vms_step`: call the lister for
     * the supported project and zone, first with no token and then with each
     * truthy token it returns, collecting every page into
     * `data.runningInstances`; `requests` are the tokens passed, in order.
     */
    method CollectRunningInstances(listAllRunningInstances: (string, string, Option<string>) -> Page<Instance>, ghost bound: nat)
      returns (requests: seq<Option<string>>)
      requires EndsWithin(InstancePages(listAllRunningInstances), None, bound)
      modifies data
      ensures data.runningInstances == Drain(InstancePages(listAllRunningInstances), None, bound)
      ensures requests == Requests(InstancePages(listAllRunningInstances), None, bound)
    {
      ghost var pages := InstancePages(listAllRunningInstances);
      ghost var fuel := bound;
      var nextPageToken: Option<string> := None;
      data.runningInstances := [];
      requests := [];
      while true
        invariant EndsWithin(pages, nextPageToken, fuel)
        invariant data.runningInstances + Drain(pages, nextPageToken, fuel) == Drain(pages, None, bound)
        invariant requests + Requests(pages, nextPageToken, fuel) == Requests(pages, None, bound)
        decreases fuel
      {
        var page := listAllRunningInstances(GcpProjectId, GcpZone, nextPageToken);
        assert page == pages(nextPageToken);
        if !Truthy(page.next) {
          DrainFinish(pages, nextPageToken, fuel, data.runningInstances, requests, Drain(pages, None, bound), Requests(pages, None, bound));
        } else {
          DrainAdvance(pages, nextPageToken, fuel, data.runningInstances, requests, Drain(pages, None, bound), Requests(pages, None, bound));
        }
        requests := requests + [nextPageToken];
        nextPageToken := page.next;
        data.runningInstances := data.runningInstances + page.items;
        if !Truthy(nextPageToken) {
          // no more instances
          break;
        }
        fuel := fuel - 1;
      }
    }

    /**
     * `list_running_vms_step` without the chat framework: with a falsy token,
     * only the failure text is sent; otherwise the token is installed on the
     * GCP client, every page of running instances is collected, and the
     * numbered list (or the text saying there are none) is sent.
     */
    method ListRunningVmsStep(
      token: Option<string>,
      listAllRunningInstances: (string, string, Option<string>) -> Page<Instance>,
      ghost bound: nat)
      returns (sent: seq<string>, requests: seq<Option<string>>)
      requires gclient.Valid()
      requires Truthy(token) ==> EndsWithin(InstancePages(listAllRunningInstances), None, bound)
      modifies data, gclient.cloudResourceManagerClient, gclient.computeClient
      ensures gclient.Valid()
      ensures !Truthy(token) ==>
        && sent == [LoginFailedText]
        && requests == []
        && unchanged(data, gclient.cloudResourceManagerClient, gclient.computeClient)
      ensures Truthy(token) ==>
        && gclient.cloudResourceManagerClient.authToken == token
        && gclient.computeClient.authToken == token
        && data.runningInstances == Drain(InstancePages(listAllRunningInstances), None, bound)
        && requests == Requests(InstancePages(listAllRunningInstances), None, bound)
        && sent == [CheckingText, if data.runningInstances == [] then NoRunningInstancesText
                                  else RunningInstancesString(data.runningInstances)]
    {
      if !Truthy(token) {
        sent := [LoginFailedText];
        requests := [];
        return;
      }
      gclient.SetAuthToken(token.value);
      sent := [CheckingText];
      requests := CollectRunningInstances(listAllRunningInstances, bound);
      if data.runningInstances != [] {
        sent := sent + [RunningInstancesString(data.runningInstances)];
      } else {
        sent := sent + [NoRunningInstancesText];
      }
    }
  }
}
