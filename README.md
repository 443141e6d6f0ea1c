# Felix cloud listing core, in Dafny

Felix is a chat bot. It signs a user in to Azure or GCP, lists their
subscriptions or projects, and pages through the running virtual machines
(Azure) or Compute Engine instances (GCP). It then answers with a numbered
list or with Adaptive Cards. This project models the part of Felix that
processes and aggregates the listing responses, and proves properties of it:

- **The GCP REST clients** (`GcpClients`, after `cloud_clients/gcp.py`):
  - `Projects.list` keeps the `ACTIVE` projects.
  - The Compute Engine probe turns a 403 into "not available".
  - `Instances.list_running` maps one page of instances and fails hard on an
    item that is not `RUNNING`.
  - `set_auth_token` puts the token on both HTTP clients.
- **The Azure client** (`AzureClients`, after `cloud_clients/azure.py`): the
  subscriptions request and its mapping, and `set_auth_token`.
- **The resource models** (`GcpModels`, `AzureModels`): the two state enums,
  the `Instance`, `Project`, `Subscription` and `Vm` records, and the
  resource group `Vm.rg`, which is segment 4 of the id split on `/`.
- **The dialogs** (`AzureDialogs`, `GcpDialogs`):
  - the numbered list strings;
  - the lookup of a subscription by name;
  - the `while True` loops that call a page lister until it returns a falsy
    token;
  - the split of the running VMs into cards.
- **The GCP instances card** (`GcpCards`, after `cards/gcp.py`): the
  text-block builders, and the loop that fills the three data columns.

Shared modules:
- `Wrappers`: `Option` and `Result`.
- `Strings`: Python's `join`, `split` and `f"{n}"`.
- `Http`: a request, a decoded JSON body, the errors that reach the core, and
  an HTTP client object that holds a bearer token.
- `Pagination`: the specification of a token-driven page loop.

The HTTP calls are the function value `Http.Transport`, from a request to a
body or an error. A request carries the client's current token, so a token
that `set_auth_token` installs shows up in the requests that follow.

The two page listers the dialogs call, `list_all_running_vms` and
`list_all_running_instances`, are not defined anywhere in the repository.
They are parameters here. The Azure one takes the subscription and a link,
and the GCP one takes the project, the zone and a token; each returns a
`Pagination.Page`. `AzureDialogs.VmPages` and `GcpDialogs.InstancePages` fix
the subscription, or the project and zone, to give a function of the token
alone.

Each loop is proved against `Pagination.Drain` and `Pagination.Requests`.
These follow the chain of tokens from `None`, and the loop's result is:
- the concatenation of every page in call order;
- the tokens passed to each call.

The source has no cap on the number of pages. The chain therefore carries a
ghost bound only to make it a finite object. The lemmas prove the result does
not depend on that bound.

Three choices follow the code as written:
- `Project` is a plain record compared field by field. It is built at
  `cloud_clients/gcp.py:26` and has no custom equality.
- `VmPowerState` has exactly its six values.
- The first header block of the GCP card has no `isSubtle` key. The model
  says so with `None`; it does not assume a default value.

## Model

| member | source | states |
|---|---|---|
| GcpModels.ParseInstanceState | cloud_models/gcp.py:12-23 | a raw status converts to the enum member whose value it is, and to nothing when no member has that value |
| GcpModels.InstanceStatesClosed | cloud_models/gcp.py:12-19 | InstanceState has exactly seven members with seven distinct values, and each value converts back to its own member |
| AzureModels.VmPowerStatesClosed | cloud_models/azure.py:14-21 | VmPowerState has exactly six members with six distinct values, so there is no sentinel state |
| AzureModels.Vm.Rg | cloud_models/azure.py:27-34 | the resource group never contains a `/` |
| AzureModels.HasResourceGroupIffFourSlashes | cloud_models/azure.py:34 | index 4 of the split exists exactly when the id holds at least four slashes |
| AzureModels.RgLocated | cloud_models/azure.py:34 | the id is three-slash prefix, `/`, the resource group, then nothing or a part that starts with `/` |
| AzureModels.FifthSegment | cloud_models/azure.py:34 | in a string `/p1/p2/p3/p4/...` whose p's hold no slash, segment 4 of the split is p4 |
| AzureModels.RgOfDocumentedId | cloud_models/azure.py:29-34 | for an id `/subscriptions/<sub>/resourceGroups/<rg>/...` (such as the documented example) `rg` is defined and equals `<rg>` |
| Strings.SplitJoin | cloud_models/azure.py:34 | splitting on a character and joining back with it gives the string back |
| Strings.NatToStringRoundTrip | dialogs/azure_dialog.py:30 | the decimal text of a line number reads back as that number |
| Strings.IntToStringInjective | cards/gcp.py:91 | two ints with the same `f"{i}"` text are equal |
| GcpClients.ListRunningQuery | cloud_clients/gcp.py:56-58 | the query always holds `filter`; it holds `pageToken` exactly when the incoming token is truthy, with that token as value; it holds no other key |
| GcpClients.ActiveProjectsSucceedsIff | cloud_clients/gcp.py:22-26 | the project loop raises exactly when some entry lacks `lifecycleState`, or is active and lacks `projectId` or `name` |
| GcpClients.ActiveProjectsContents | cloud_clients/gcp.py:22-27 | a successful project loop returns one Project per ACTIVE entry, in input order, with `id` from `projectId` and `name` from `name` |
| GcpClients.NoProjectsMember | cloud_clients/gcp.py:19-22 | a response without a `projects` member lists no projects |
| GcpClients.ActiveProjectsExample | cloud_clients/gcp.py:22-27 | entries ACTIVE, DELETE_REQUESTED, ACTIVE give exactly the first and third projects, in order |
| GcpClients.RunningInstancesSucceedsIff | cloud_clients/gcp.py:66-80 | a page is accepted exactly when every item has `status` RUNNING, an `id` and a `name` |
| GcpClients.RunningInstancesContents | cloud_clients/gcp.py:66-80 | an accepted page holds one Instance per item, in order, with the item's id and name, the requested zone and project, and the RUNNING state its raw status names |
| GcpClients.NotRunningItemFails | cloud_clients/gcp.py:67-71 | an item that is not RUNNING, after accepted items, fails the whole page with the ValueError naming its status; no partial page is returned |
| GcpClients.Projects.List | cloud_clients/gcp.py:15-27 | one GET of `v1/projects` on the resource-manager client; a transport error passes through, otherwise the result is the project loop over `projects` (or over nothing when it is absent) |
| GcpClients.Projects.ValidateComputeEngineApiAvailable | cloud_clients/gcp.py:29-40 | probing `compute/v1/projects/<id>` gives the project on success, None on HTTP 403, and re-raises every other error |
| GcpClients.Instances.ListRunning | cloud_clients/gcp.py:48-82 | one GET of the instances path of project and zone with the running filter (and the page token when truthy); the result is the accepted page and the response's `nextPageToken` or None, or the first error |
| GcpClients.Client.constructor | cloud_clients/gcp.py:85-104 | two distinct HTTP clients on the given hosts, port, scheme and base, with no token; Projects uses both and Instances uses the compute one |
| GcpClients.Client.SetAuthToken | cloud_clients/gcp.py:106-109 | the same token ends up on the resource-manager client and on the compute client |
| AzureClients.SubscriptionsOfCharacterized | cloud_clients/azure.py:20 | the mapping fails exactly when an entry lacks `id` or `displayName`; otherwise it gives one Subscription per entry, in order, with `id` from `id` and `name` from `displayName` |
| AzureClients.MissingValueIsKeyError | cloud_clients/azure.py:20 | a response without `value` raises KeyError and is not an empty list |
| AzureClients.Subscriptions.List | cloud_clients/azure.py:11-20 | one GET of `subscriptions` with `api-version=2020-01-01`; a transport error passes through, otherwise the result is the mapping of the body |
| AzureClients.Client.SetAuthToken | cloud_clients/azure.py:35-36 | the token ends up on the subscriptions' HTTP client |
| Pagination.RequestsChain | dialogs/azure_dialog.py:104-114 | the loop makes one call per page: the first with the starting token, each later one with the truthy token the previous page returned, and only the last page returns a falsy token |
| Pagination.DrainIsConcatenation | dialogs/azure_dialog.py:104-114 | the collected items are the concatenation, in call order, of the pages of the calls made |
| Pagination.DrainFuelIrrelevant | dialogs/gcp_dialog.py:76-87 | the items collected and the calls made do not depend on the bound used to show the chain ends |
| Pagination.EndsWithinMonotone | dialogs/gcp_dialog.py:76-87 | a chain that ends within a bound also ends within any larger bound |
| Pagination.EmptyTokenEnds | dialogs/gcp_dialog.py:85-87 | a page returning the empty string as token is the last one, as a page returning None is |
| AzureDialogs.RunningVmsStringAppend | dialogs/azure_dialog.py:28-30 | one more VM adds, after a blank line, the line `"<n>. <name> (rg: <rg>)"` numbered by its 1-based position |
| AzureDialogs.RunningVmsStringStart | dialogs/azure_dialog.py:28-30 | the string is empty exactly when there are no VMs, otherwise starts with the first VM's line numbered 1, and for one VM is exactly that line (with the Append lemma, this fixes the whole `"\n\n"`-join) |
| AzureDialogs.FirstByNameIsFirstMatch | dialogs/azure_dialog.py:32-36 | the lookup gives None exactly when no subscription has the name, and otherwise the earliest subscription that has it |
| AzureDialogs.AzureDialogData.GetSubscriptionByName | dialogs/azure_dialog.py:32-36 | the linear search with early return gives the first subscription with that name, or None |
| AzureDialogs.BuildVmCards | dialogs/azure_dialog.py:116-121 | ceil(n / max) cards; card k holds `vms[k*max:(k+1)*max]` and starts numbering at `k*max + 1`; the cards together hold exactly the VMs, in order |
| AzureDialogs.AzureDialog.CollectRunningVms | dialogs/azure_dialog.py:104-114 | starting from no link, the running VMs end up as the concatenation of every page of the chosen subscription in call order; the links passed are the token chain; the subscriptions are untouched |
| AzureDialogs.AzureDialog.ListRunningVmsStep | dialogs/azure_dialog.py:95-130 | an unknown name sends only the "can't find" text and calls no lister; otherwise the checking text, then either the cards chunking all collected VMs or the "no running VMs" text when there are none |
| GcpDialogs.RunningInstancesStringAppend | dialogs/gcp_dialog.py:20-27 | one more instance adds, after a blank line, the line `"<n>. <name> (project: <p>, zone: <z>)"` numbered by its 1-based position |
| GcpDialogs.RunningInstancesStringStart | dialogs/gcp_dialog.py:20-27 | the string is empty exactly when there are no instances, otherwise starts with the first instance's line numbered 1, and for one instance is exactly that line (with the Append lemma, this fixes the whole `"\n\n"`-join) |
| GcpDialogs.GcpDialog.constructor | dialogs/gcp_dialog.py:31-35 | a GCP client on the default hosts with no running instances yet |
| GcpDialogs.GcpDialog.CollectRunningInstances | dialogs/gcp_dialog.py:76-87 | every call names project `flex-gcp-kdp` and zone `us-central1-c`; starting from no token, the running instances end up as the concatenation of every page in call order |
| GcpDialogs.GcpDialog.ListRunningVmsStep | dialogs/gcp_dialog.py:65-95 | a falsy token sends only the failure text and changes nothing; otherwise the token goes on both GCP clients, every page is collected, and the checking text is followed by the numbered list or the "no running instances" text |
| GcpCards.InstanceIdxDictInjective | cards/gcp.py:90-91 | different indices get different labels |
| GcpCards.IndexCellsAt | cards/gcp.py:90-91 | index cell k is the subtle, unwrapped label `"<start+k>."` |
| GcpCards.NameCellsAt | cards/gcp.py:94-95 | name cell k is instance k's name, unwrapped and not subtle |
| GcpCards.ProjectCellsAt | cards/gcp.py:98-99 | project cell k is instance k's project, unwrapped and not subtle |
| GcpCards.CellsHoldInstances | cards/gcp.py:105-108 | the three columns each have one cell per instance, and cell k of each column belongs to instance k |
| GcpCards.FillInstanceColumns | cards/gcp.py:105-108 | the loop appends to each column exactly the cells of the instances, in order |
| GcpCards.GetGcpInstancesCard | cards/gcp.py:102-109 | the card keeps the template's schema, version, header row and column widths; its three data columns hold exactly one label (from `start_idx`), name and project per instance, in order |

## Left out

- HTTP transport and `async`: `AsyncHTTPClient` is a foreign library, so a GET is the function value `Http.Transport` and an HTTP error is `HttpError(status)`. The awaited calls run one at a time, so they are modelled as sequential code.
- Page listers: `list_all_running_vms` and `list_all_running_instances` are called but not defined in the repository, so they are parameters (functions from a token to a page). Any failure inside them is not modelled.
- Page count: the source has no cap. Termination is shown for a chain that ends within a ghost bound, which each loop takes as a precondition. A lister that never returns a falsy token is outside the model.
- Chat framework: the OAuth and choice prompts, the waterfall wiring, `send_activity` and `end_dialog` are not modelled, and neither is `choose_subscription_step`. The dialog steps return the messages they would send. `AzureDialogData` starts with empty lists where the source has `None`.
- Fan-out over projects and zones, parallel capability probes, parsing Azure power states from the instance view, and taking `nextLink` URLs apart: none of these exist in the code, so they are not modelled.
- `cards/azure.py` and `get_azure_vms_card`: `get_azure_vms_card` and `AZURE_VMS_CARD_MAX_VMS` are not defined in the repository. A card is recorded by its arguments (`VmCard(vms, startIdx)`), and the chunk size is a positive parameter.
- `json.loads` of the card template and `CardFactory.adaptive_card` are library calls. The card starts from the parsed template (`GcpCards.Template`), and the result is that structure, not an `Attachment`. The constant `GCP_INSTANCES_CARD_MAX_INSTANCES` (50) is declared but not used by any shown caller, so nothing bounds the card's length.
- GcpClients.ListRunningQuery: states only that `filter` is present, not its exact text. An f-string over a `str` enum prints differently across Python versions.
- GcpClients.Client.SetAuthToken: takes a string. `str(token)` of a non-string token is not modelled, and the same holds for AzureClients.Client.SetAuthToken.
- pydantic validation: records are plain datatypes. The instance loop compares the raw status with `Running.Value()` and builds the `Running` member directly; `GcpModels.ParseInstanceState` is used only in `GcpClients.InstancesFromItems`, to state that this member is the one the raw status names. No other field coercion is modelled.
- AzureModels.Vm.Rg: requires at least five segments. The IndexError that Python raises on a shorter id is not modelled as a result.
- AzureModels.RgOfDocumentedId: the id is stated with its concatenations grouped from the right. The example id of the docstring is the instance sub = `S`, rg = `RG1`; the literal string itself is not stated as a separate lemma.
- Response bodies: a body is its array members (of string-valued objects) plus its string members. Any other JSON shape, such as a number where a string is expected, is not modelled.
- `config.py` only reads environment variables, and `clients/azure.py` is an older wrapper replaced by `cloud_clients/azure.py`. Neither is part of this model, and neither are the package re-exports.
