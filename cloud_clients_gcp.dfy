/**
 * The GCP REST clients: listing projects (keeping the active ones), probing
 * whether the Compute Engine API is enabled for a project, listing one page
 * of running instances, and installing the bearer token on both HTTP clients.
 */
module GcpClients {
  import opened Wrappers
  import opened Http
  import opened Pagination
  import opened GcpModels

  const ListProjectsPath: string := "v1/projects"

  /** `compute/v1/projects/{project}` */
  function ComputeProbePath(projectId: string): string
  {
    "compute/v1/projects/" + projectId
  }

  /** `compute/beta/projects/{project}/zones/{zone}/instances` */
  function InstancesPath(project: string, zone: string): string
  {
    "compute/beta/projects/" + project + "/zones/" + zone + "/instances"
  }

  /** The server-side filter asking for running instances only. */
  const RunningFilter: string := "status = " + Running.Value()

  /** The query of one instances-page request. */
  function ListRunningQuery(nextPageToken: Option<string>): (q: map<string, string>)
    ensures "filter" in q
    ensures "pageToken" in q <==> Truthy(nextPageToken)
    ensures Truthy(nextPageToken) ==> q["pageToken"] == nextPageToken.value
    ensures q.Keys <= {"filter", "pageToken"}
  {
    if Truthy(nextPageToken) then map["filter" := RunningFilter, "pageToken" := nextPageToken.value]
    else map["filter" := RunningFilter]
  }

  // ---------------------------------------------------------------------------
  // Projects

  predicate IsActive(entry: Fields)
  {
    "lifecycleState" in entry && entry["lifecycleState"] == "ACTIVE"
  }

  /** An entry the project loop reads without a KeyError. */
  predicate ProjectEntryReadable(entry: Fields)
  {
    "lifecycleState" in entry && (entry["lifecycleState"] == "ACTIVE" ==> "projectId" in entry && "name" in entry)
  }

  /**
   * What the loop over the `projects` entries returns: the active entries as
   * Projects, or the KeyError of the first entry without `lifecycleState`, or
   * of the first active entry without `projectId` or `name`.
   */
  function ActiveProjects(entries: seq<Fields>): Result<seq<Project>, Error>
  {
    if entries == [] then Success([])
    else
      var entry := entries[0];
      match Field(entry, "lifecycleState")
      case Failure(e) => Failure(e)
      case Success(state) =>
        if state != "ACTIVE" then ActiveProjects(entries[1..])
        else
          match Field(entry, "projectId")
          case Failure(e) => Failure(e)
          case Success(id) =>
            match Field(entry, "name")
            case Failure(e) => Failure(e)
            case Success(name) => PrependTo([Project(id, name)], ActiveProjects(entries[1..]))
  }

  /** The active entries, in input order. */
  function ActiveEntries(entries: seq<Fields>): (r: seq<Fields>)
    ensures forall k :: 0 <= k < |r| ==> IsActive(r[k]) && r[k] in entries
  {
    if entries == [] then []
    else if IsActive(entries[0]) then [entries[0]] + ActiveEntries(entries[1..])
    else ActiveEntries(entries[1..])
  }

  /** The project loop fails exactly when some entry is unreadable. */
  lemma {:induction false} ActiveProjectsSucceedsIff(entries: seq<Fields>)
    ensures ActiveProjects(entries).Success? <==> forall i :: 0 <= i < |entries| ==> ProjectEntryReadable(entries[i])
  {
    if entries != [] {
      ActiveProjectsSucceedsIff(entries[1..]);
      assert forall i :: 1 <= i < |entries| ==> entries[i] == entries[1..][i - 1];
    }
  }

  /** One entry of a successful project loop: an active entry contributes its Project, any other nothing. */
  lemma ActiveProjectsStep(entries: seq<Fields>)
    requires entries != [] && ActiveProjects(entries).Success?
    ensures ActiveProjects(entries[1..]).Success?
    ensures !IsActive(entries[0]) ==> ActiveProjects(entries) == ActiveProjects(entries[1..])
    ensures IsActive(entries[0]) ==>
      && "projectId" in entries[0] && "name" in entries[0]
      && ActiveProjects(entries).value
         == [Project(entries[0]["projectId"], entries[0]["name"])] + ActiveProjects(entries[1..]).value
  {
  }

  /** Project k is built from entry k: `id` from `projectId`, `name` from `name`. */
  predicate ProjectsFromEntries(projects: seq<Project>, entries: seq<Fields>)
  {
    && |projects| == |entries|
    && forall k :: 0 <= k < |entries| ==>
         "projectId" in entries[k] && "name" in entries[k]
         && projects[k] == Project(entries[k]["projectId"], entries[k]["name"])
  }

  lemma ProjectsFromEntriesCons(projects: seq<Project>, entries: seq<Fields>, entry: Fields)
    requires ProjectsFromEntries(projects, entries)
    requires "projectId" in entry && "name" in entry
    ensures ProjectsFromEntries([Project(entry["projectId"], entry["name"])] + projects, [entry] + entries)
  {
    var projects' := [Project(entry["projectId"], entry["name"])] + projects;
    var entries' := [entry] + entries;
    assert forall k :: 1 <= k < |entries'| ==> entries'[k] == entries[k - 1] && projects'[k] == projects[k - 1];
  }

  /**
   * When the project loop succeeds it returns one Project per active entry,
   * in input order, with `id` taken from `projectId` and `name` from `name`.
   */
  lemma {:induction false} ActiveProjectsContents(entries: seq<Fields>)
    requires ActiveProjects(entries).Success?
    ensures ProjectsFromEntries(ActiveProjects(entries).value, ActiveEntries(entries))
  {
    if entries != [] {
      var rest := entries[1..];
      ActiveProjectsStep(entries);
      ActiveProjectsContents(rest);
      if IsActive(entries[0]) {
        ProjectsFromEntriesCons(ActiveProjects(rest).value, ActiveEntries(rest), entries[0]);
      }
    }
  }

  /** A response without a `projects` member lists no projects. */
  lemma NoProjectsMember(body: Body)
    requires "projects" !in body.arrays
    ensures ActiveProjects(GetArray(body, "projects")) == Success([])
  {
  }

  /** Entries ACTIVE, DELETE_REQUESTED, ACTIVE give the two active projects, in order. */
  lemma ActiveProjectsExample()
    ensures ActiveProjects([
        map["projectId" := "p1", "name" := "one", "lifecycleState" := "ACTIVE"],
        map["projectId" := "p2", "name" := "two", "lifecycleState" := "DELETE_REQUESTED"],
        map["projectId" := "p3", "name" := "three", "lifecycleState" := "ACTIVE"]])
      == Success([Project("p1", "one"), Project("p3", "three")])
  {
    var e1 := map["projectId" := "p1", "name" := "one", "lifecycleState" := "ACTIVE"];
    var e2 := map["projectId" := "p2", "name" := "two", "lifecycleState" := "DELETE_REQUESTED"];
    var e3 := map["projectId" := "p3", "name" := "three", "lifecycleState" := "ACTIVE"];
    assert [e1, e2, e3][1..] == [e2, e3];
    assert [e2, e3][1..] == [e3];
    assert [e3][1..] == [];
    assert Field(e3, "lifecycleState") == Success("ACTIVE");
    assert Field(e3, "projectId") == Success("p3");
    assert Field(e3, "name") == Success("three");
    assert ActiveProjects([]) == Success([]);
    assert [Project("p3", "three")] + [] == [Project("p3", "three")];
    assert [Project("p1", "one")] + [Project("p3", "three")] == [Project("p1", "one"), Project("p3", "three")];
    assert ActiveProjects([e3]) == Success([Project("p3", "three")]);
    assert ActiveProjects([e2, e3]) == Success([Project("p3", "three")]);
  }

  // ---------------------------------------------------------------------------
  // Instances

  /** The message of the ValueError raised for an item that is not running. */
  function NotRunningMessage(status: string): string
  {
    "Got an instance that is not in RUNNING state. instance_state=" + status
  }

  /** An item the instance loop accepts. */
  predicate RunningItem(item: Fields)
  {
    "status" in item && item["status"] == Running.Value() && "id" in item && "name" in item
  }

  /**
   * What the loop over the `items` of one page returns: one RUNNING Instance
   * per item, or the error of the first item that is missing a key or is not
   * running.
   */
  function RunningInstances(items: seq<Fields>, project: string, zone: string): Result<seq<Instance>, Error>
  {
    if items == [] then Success([])
    else
      var item := items[0];
      match Field(item, "status")
      case Failure(e) => Failure(e)
      case Success(status) =>
        if status != Running.Value() then Failure(ValueError(NotRunningMessage(status)))
        else
          match Field(item, "id")
          case Failure(e) => Failure(e)
          case Success(id) =>
            match Field(item, "name")
            case Failure(e) => Failure(e)
            case Success(name) =>
              // the raw status equals Running.Value(), which the model converts to Running
              PrependTo([Instance(id, name, zone, project, Running)], RunningInstances(items[1..], project, zone))
  }

  /** A page is accepted exactly when every item is a readable running item. */
  lemma {:induction false} RunningInstancesSucceedsIff(items: seq<Fields>, project: string, zone: string)
    ensures RunningInstances(items, project, zone).Success? <==> forall i :: 0 <= i < |items| ==> RunningItem(items[i])
  {
    if items != [] {
      RunningInstancesSucceedsIff(items[1..], project, zone);
      assert forall i :: 1 <= i < |items| ==> items[i] == items[1..][i - 1];
    }
  }

  /**
   * Instance k is built from item k: a running item, its id and name, the
   * requested zone and project, and the state its raw status names.
   */
  predicate InstancesFromItems(instances: seq<Instance>, items: seq<Fields>, project: string, zone: string)
  {
    && |instances| == |items|
    && forall k :: 0 <= k < |items| ==>
         && RunningItem(items[k])
         && instances[k] == Instance(items[k]["id"], items[k]["name"], zone, project, Running)
         && ParseInstanceState(items[k]["status"]) == Some(instances[k].state)
  }

  lemma InstancesFromItemsCons(instances: seq<Instance>, items: seq<Fields>, item: Fields, project: string, zone: string)
    requires InstancesFromItems(instances, items, project, zone)
    requires RunningItem(item)
    ensures InstancesFromItems([Instance(item["id"], item["name"], zone, project, Running)] + instances, [item] + items, project, zone)
  {
    var instances' := [Instance(item["id"], item["name"], zone, project, Running)] + instances;
    var items' := [item] + items;
    InstanceStatesClosed();
    assert forall k :: 1 <= k < |items'| ==> items'[k] == items[k - 1] && instances'[k] == instances[k - 1];
  }

  /**
   * An accepted page holds one Instance per item, in order, carrying the
   * requested zone and project, the item's id and name, and the state the
   * item's raw status names, which is RUNNING.
   */
  lemma {:induction false} RunningInstancesContents(items: seq<Fields>, project: string, zone: string)
    requires RunningInstances(items, project, zone).Success?
    ensures InstancesFromItems(RunningInstances(items, project, zone).value, items, project, zone)
  {
    if items != [] {
      var rest := items[1..];
      assert RunningItem(items[0]);
      assert RunningInstances(rest, project, zone).Success?;
      RunningInstancesContents(rest, project, zone);
      InstancesFromItemsCons(RunningInstances(rest, project, zone).value, rest, items[0], project, zone);
      assert [items[0]] + rest == items;
    }
  }

  /**
   * An item that is not running, after items that are all accepted, makes the
   * whole page fail with the ValueError naming its status: no partial page.
   */
  lemma {:induction false} NotRunningItemFails(items: seq<Fields>, project: string, zone: string, k: nat)
    requires k < |items|
    requires forall j :: 0 <= j < k ==> RunningItem(items[j])
    requires "status" in items[k] && items[k]["status"] != Running.Value()
    ensures RunningInstances(items, project, zone) == Failure(ValueError(NotRunningMessage(items[k]["status"])))
  {
    if k > 0 {
      NotRunningItemFails(items[1..], project, zone, k - 1);
    }
  }

  /** The result of one page request, given its response. */
  function PageOf(response: Result<Body, Error>, project: string, zone: string): Result<Page<Instance>, Error>
  {
    match response
    case Failure(e) => Failure(e)
    case Success(body) =>
      match RunningInstances(GetArray(body, "items"), project, zone)
      case Failure(e) => Failure(e)
      case Success(instances) => Success(Page(instances, GetString(body, "nextPageToken")))
  }

  class Projects {
    const resourceManagerClient: HttpClient
    const computeClient: HttpClient

    constructor (resourceManagerClient: HttpClient, computeClient: HttpClient)
      ensures this.resourceManagerClient == resourceManagerClient && this.computeClient == computeClient
    {
      this.resourceManagerClient := resourceManagerClient;
      this.computeClient := computeClient;
    }

    /** `Projects.list`: one GET of `v1/projects`, then the loop that keeps active projects. */
    method List(get: Transport) returns (r: Result<seq<Project>, Error>)
      ensures match get(resourceManagerClient.RequestFor(ListProjectsPath, map[]))
        case Failure(e) => r == Failure(e)
        case Success(body) => r == ActiveProjects(GetArray(body, "projects"))
    {
      var response := get(resourceManagerClient.RequestFor(ListProjectsPath, map[]));
      if response.Failure? {
        return Failure(response.error);
      }
      var entries := GetArray(response.value, "projects");
      var projects: seq<Project> := [];
      var i := 0;
      assert entries[i..] == entries;
      PrependToNothing(ActiveProjects(entries));
      while i < |entries|
        invariant 0 <= i <= |entries|
        invariant ActiveProjects(entries) == PrependTo(projects, ActiveProjects(entries[i..]))
      {
        var entry := entries[i];
        assert entries[i..][1..] == entries[i + 1..];
        if "lifecycleState" !in entry {
          return Failure(KeyError("lifecycleState"));
        }
        if entry["lifecycleState"] != "ACTIVE" {
          // skip projects that are not active
          i := i + 1;
          continue;
        }
        if "projectId" !in entry {
          return Failure(KeyError("projectId"));
        }
        if "name" !in entry {
          return Failure(KeyError("name"));
        }
        var project := Project(entry["projectId"], entry["name"]);
        PrependToTwice(projects, [project], ActiveProjects(entries[i + 1..]));
        projects := projects + [project];
        i := i + 1;
      }
      assert entries[i..] == [];
      assert projects + [] == projects;
      return Success(projects);
    }

    /**
     * `validate_compute_engine_api_available`: the project when the probe
     * succeeds, None when it is refused with 403, and any other error raised
     * again.
     */
    method ValidateComputeEngineApiAvailable(get: Transport, project: Project) returns (r: Result<Option<Project>, Error>)
      ensures var response := get(computeClient.RequestFor(ComputeProbePath(project.id), map[]));
        && (response.Success? ==> r == Success(Some(project)))
        && (response == Failure(HttpError(Forbidden)) ==> r == Success(None))
        && (response.Failure? && response.error != HttpError(Forbidden) ==> r == Failure(response.error))
    {
      var response := get(computeClient.RequestFor(ComputeProbePath(project.id), map[]));
      if response.Failure? {
        if response.error.HttpError? && response.error.status == Forbidden {
          return Success(None);
        }
        return Failure(response.error);
      }
      return Success(Some(project));
    }
  }

  class Instances {
    const client: HttpClient

    constructor (client: HttpClient)
      ensures this.client == client
    {
      this.client := client;
    }

    /**
     * `Instances.list_running`: one GET of the instances of `project` in
     * `zone`, filtered to running ones and continuing from `nextPageToken`
     * when it is truthy; returns the page and the `nextPageToken` of the
     * response.
     */
    method ListRunning(get: Transport, project: string, zone: string, nextPageToken: Option<string>)
      returns (r: Result<Page<Instance>, Error>)
      ensures r == PageOf(get(client.RequestFor(InstancesPath(project, zone), ListRunningQuery(nextPageToken))), project, zone)
    {
      var response := get(client.RequestFor(InstancesPath(project, zone), ListRunningQuery(nextPageToken)));
      if response.Failure? {
        return Failure(response.error);
      }
      var items := GetArray(response.value, "items");
      var runningInstances: seq<Instance> := [];
      var i := 0;
      assert items[i..] == items;
      PrependToNothing(RunningInstances(items, project, zone));
      while i < |items|
        invariant 0 <= i <= |items|
        invariant RunningInstances(items, project, zone)
               == PrependTo(runningInstances, RunningInstances(items[i..], project, zone))
      {
        var item := items[i];
        assert items[i..][1..] == items[i + 1..];
        if "status" !in item {
          return Failure(KeyError("status"));
        }
        var status := item["status"];
        if status != Running.Value() {
          return Failure(ValueError(NotRunningMessage(status)));
        }
        if "id" !in item {
          return Failure(KeyError("id"));
        }
        if "name" !in item {
          return Failure(KeyError("name"));
        }
        var instance := Instance(item["id"], item["name"], zone, project, Running);
        PrependToTwice(runningInstances, [instance], RunningInstances(items[i + 1..], project, zone));
        runningInstances := runningInstances + [instance];
        i := i + 1;
      }
      assert items[i..] == [];
      assert runningInstances + [] == runningInstances;
      return Success(Page(runningInstances, GetString(response.value, "nextPageToken")));
    }
  }

  const DefaultComputeHost: string := "compute.googleapis.com"
  const DefaultCloudResourceManagerHost: string := "cloudresourcemanager.googleapis.com"
  const DefaultPort: int := 443
  const DefaultScheme: string := "https"

  /** The GCP client: one HTTP client per API host, shared by Projects and Instances. */
  class Client {
    const cloudResourceManagerClient: HttpClient
    const computeClient: HttpClient
    const projects: Projects
    const instances: Instances

    /** Projects talks to both HTTP clients and Instances to the compute one; the two are distinct. */
    ghost predicate Valid()
    {
      && projects.resourceManagerClient == cloudResourceManagerClient
      && projects.computeClient == computeClient
      && instances.client == computeClient
      && cloudResourceManagerClient != computeClient
    }

    constructor (computeHost: string, cloudResourceManagerHost: string, port: int, scheme: string, apiBase: string)
      ensures Valid()
      ensures fresh(cloudResourceManagerClient) && fresh(computeClient)
      ensures cloudResourceManagerClient.host == cloudResourceManagerHost && computeClient.host == computeHost
      ensures cloudResourceManagerClient.port == port && computeClient.port == port
      ensures cloudResourceManagerClient.scheme == scheme && computeClient.scheme == scheme
      ensures cloudResourceManagerClient.apiBase == apiBase && computeClient.apiBase == apiBase
      ensures cloudResourceManagerClient.authToken == None && computeClient.authToken == None
    {
      var rm := new HttpClient(cloudResourceManagerHost, port, scheme, apiBase);
      var compute := new HttpClient(computeHost, port, scheme, apiBase);
      cloudResourceManagerClient := rm;
      computeClient := compute;
      projects := new Projects(rm, compute);
      instances := new Instances(compute);
    }

    /** `set_auth_token`: the same token on the resource-manager client and the compute client. */
    method SetAuthToken(token: string)
      requires Valid()
      modifies cloudResourceManagerClient, computeClient
      ensures Valid()
      ensures cloudResourceManagerClient.authToken == Some(token)
      ensures computeClient.authToken == Some(token)
    {
      cloudResourceManagerClient.SetAuthToken(token);
      computeClient.SetAuthToken(token);
    }
  }
}
