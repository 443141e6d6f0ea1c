/**
 * The Azure management-plane client: listing subscriptions and installing
 * the bearer token.
 */
module AzureClients {
  import opened Wrappers
  import opened Http
  import opened AzureModels

  const SubscriptionsPath: string := "subscriptions"
  const SubscriptionsApiVersion: string := "2020-01-01"

  /** The query of the subscriptions request. */
  function SubscriptionsQuery(): map<string, string>
  {
    map["api-version" := SubscriptionsApiVersion]
  }

  /** An entry the comprehension reads without a KeyError. */
  predicate SubscriptionEntryReadable(entry: Fields)
  {
    "id" in entry && "displayName" in entry
  }

  /**
   * The comprehension over the `value` entries: one Subscription per entry,
   * or the KeyError of the first entry without `id` or `displayName`.
   */
  function SubscriptionsOf(entries: seq<Fields>): Result<seq<Subscription>, Error>
  {
    if entries == [] then Success([])
    else
      match Field(entries[0], "id")
      case Failure(e) => Failure(e)
      case Success(id) =>
        match Field(entries[0], "displayName")
        case Failure(e) => Failure(e)
        case Success(name) => PrependTo([Subscription(id, name)], SubscriptionsOf(entries[1..]))
  }

  /** `[Subscription(...) for sub in data["value"]]`: a body without `value` raises KeyError. */
  function SubscriptionsFromBody(body: Body): Result<seq<Subscription>, Error>
  {
    match IndexArray(body, "value")
    case Failure(e) => Failure(e)
    case Success(entries) => SubscriptionsOf(entries)
  }

  /**
   * The mapping fails exactly when some entry lacks a key; otherwise it gives
   * one Subscription per entry, in order, with `id` from `id` and `name` from
   * `displayName`.
   */
  lemma {:induction false} SubscriptionsOfCharacterized(entries: seq<Fields>)
    ensures SubscriptionsOf(entries).Success? <==> forall i :: 0 <= i < |entries| ==> SubscriptionEntryReadable(entries[i])
    ensures SubscriptionsOf(entries).Success? ==>
      var subs := SubscriptionsOf(entries).value;
      && |subs| == |entries|
      && forall k :: 0 <= k < |entries| ==> subs[k] == Subscription(entries[k]["id"], entries[k]["displayName"])
  {
    if entries != [] {
      SubscriptionsOfCharacterized(entries[1..]);
      assert forall i :: 1 <= i < |entries| ==> entries[i] == entries[1..][i - 1];
    }
  }

  /** A response without a `value` member is an error, not an empty list. */
  lemma MissingValueIsKeyError(body: Body)
    requires "value" !in body.arrays
    ensures SubscriptionsFromBody(body) == Failure(KeyError("value"))
  {
  }

  class Subscriptions {
    const client: HttpClient

    constructor (client: HttpClient)
      ensures this.client == client
    {
      this.client := client;
    }

    /** `Subscriptions.list`: one GET of `subscriptions?api-version=2020-01-01`, then the mapping. */
    method List(get: Transport) returns (r: Result<seq<Subscription>, Error>)
      ensures var request := client.RequestFor(SubscriptionsPath, SubscriptionsQuery());
        && (get(request).Failure? ==> r == Failure(get(request).error))
        && (get(request).Success? ==> r == SubscriptionsFromBody(get(request).value))
    {
      var response := get(client.RequestFor(SubscriptionsPath, SubscriptionsQuery()));
      match response
      case Failure(e) => r := Failure(e);
      case Success(body) => r := SubscriptionsFromBody(body);
    }
  }

  const DefaultHost: string := "management.azure.com"
  const DefaultPort: int := 443
  const DefaultScheme: string := "https"

  class Client {
    const subscriptions: Subscriptions

    constructor (host: string, port: int, scheme: string, apiBase: string)
      ensures fresh(subscriptions.client)
      ensures subscriptions.client.host == host && subscriptions.client.port == port
      ensures subscriptions.client.scheme == scheme && subscriptions.client.apiBase == apiBase
      ensures subscriptions.client.authToken == None
    {
      var http := new HttpClient(host, port, scheme, apiBase);
      subscriptions := new Subscriptions(http);
    }

    /** `set_auth_token`: the token goes to the subscriptions' HTTP client. */
    method SetAuthToken(token: string)
      modifies subscriptions.client
      ensures subscriptions.client.authToken == Some(token)
    {
      subscriptions.client.SetAuthToken(token);
    }
  }
}
