/**
 * Continuation-token pagination: a listing call returns one page of items and
 * an optional token, and the caller repeats the call with that token until
 * the token is falsy. The specification functions here follow that chain of
 * calls from a starting token; a fuel `n` bounds the chain so that it is a
 * finite object, and the lemmas show the result does not depend on the fuel.
 */
module Pagination {
  import opened Wrappers

  /** What one listing call returns: `(items, next_token)`. */
  datatype Page<T> = Page(items: seq<T>, next: Option<string>)

  /** Python truthiness of an `Optional[str]`: not None and not empty. */
  predicate Truthy(token: Option<string>)
  {
    token.Some? && token.value != ""
  }

  /** Following tokens from `token`, some call within the first `n` returns a falsy token. */
  predicate EndsWithin<T>(fetch: Option<string> -> Page<T>, token: Option<string>, n: nat)
    decreases n
  {
    n > 0 && (Truthy(fetch(token).next) ==> EndsWithin(fetch, fetch(token).next, n - 1))
  }

  /** Every item of every page, in call order, starting with the call for `token`. */
  function Drain<T>(fetch: Option<string> -> Page<T>, token: Option<string>, n: nat): seq<T>
    requires EndsWithin(fetch, token, n)
    decreases n
  {
    var page := fetch(token);
    if Truthy(page.next) then page.items + Drain(fetch, page.next, n - 1) else page.items
  }

  /** The token passed to each call, in call order, starting with `token`. */
  function Requests<T>(fetch: Option<string> -> Page<T>, token: Option<string>, n: nat): seq<Option<string>>
    requires EndsWithin(fetch, token, n)
    decreases n
  {
    var page := fetch(token);
    [token] + if Truthy(page.next) then Requests(fetch, page.next, n - 1) else []
  }

  /** The items of the pages fetched for `tokens`, concatenated in order. */
  function ItemsOf<T>(fetch: Option<string> -> Page<T>, tokens: seq<Option<string>>): seq<T>
  {
    if tokens == [] then [] else fetch(tokens[0]).items + ItemsOf(fetch, tokens[1..])
  }

  /**
   * One call of a loop that keeps `collected + Drain(...)` and
   * `requested + Requests(...)` equal to the whole: when the page returns a
   * truthy token, appending its items and its token keeps them equal with the
   * returned token and one less fuel.
   */
  lemma DrainAdvance<T>(fetch: Option<string> -> Page<T>, token: Option<string>, n: nat,
                        collected: seq<T>, requested: seq<Option<string>>, all: seq<T>, allRequests: seq<Option<string>>)
    requires EndsWithin(fetch, token, n)
    requires collected + Drain(fetch, token, n) == all
    requires requested + Requests(fetch, token, n) == allRequests
    requires Truthy(fetch(token).next)
    ensures n > 1 && EndsWithin(fetch, fetch(token).next, n - 1)
    ensures (collected + fetch(token).items) + Drain(fetch, fetch(token).next, n - 1) == all
    ensures (requested + [token]) + Requests(fetch, fetch(token).next, n - 1) == allRequests
  {
    var next := fetch(token).next;
    assert Drain(fetch, token, n) == fetch(token).items + Drain(fetch, next, n - 1);
    assert Requests(fetch, token, n) == [token] + Requests(fetch, next, n - 1);
  }

  /**
   * The same loop at its last call: when the page returns a falsy token,
   * appending its items and its token completes the whole.
   */
  lemma DrainFinish<T>(fetch: Option<string> -> Page<T>, token: Option<string>, n: nat,
                       collected: seq<T>, requested: seq<Option<string>>, all: seq<T>, allRequests: seq<Option<string>>)
    requires EndsWithin(fetch, token, n)
    requires collected + Drain(fetch, token, n) == all
    requires requested + Requests(fetch, token, n) == allRequests
    requires !Truthy(fetch(token).next)
    ensures collected + fetch(token).items == all
    ensures requested + [token] == allRequests
  {
  }

  /** More fuel does not stop a chain that already ends. */
  lemma {:induction false} EndsWithinMonotone<T>(fetch: Option<string> -> Page<T>, token: Option<string>, n: nat, m: nat)
    requires EndsWithin(fetch, token, n) && n <= m
    ensures EndsWithin(fetch, token, m)
    decreases n
  {
    if Truthy(fetch(token).next) {
      EndsWithinMonotone(fetch, fetch(token).next, n - 1, m - 1);
    }
  }

  /** The items collected and the calls made are the same whatever fuel lets the chain end. */
  lemma {:induction false} DrainFuelIrrelevant<T>(fetch: Option<string> -> Page<T>, token: Option<string>, n: nat, m: nat)
    requires EndsWithin(fetch, token, n) && EndsWithin(fetch, token, m)
    ensures Drain(fetch, token, n) == Drain(fetch, token, m)
    ensures Requests(fetch, token, n) == Requests(fetch, token, m)
    decreases n
  {
    if Truthy(fetch(token).next) {
      DrainFuelIrrelevant(fetch, fetch(token).next, n - 1, m - 1);
    }
  }

  /**
   * The calls form a chain: the first is made with `token`, each later one
   * with the truthy token the previous page returned, and only the last page
   * returns a falsy token. So there is exactly one call per page.
   */
  lemma {:induction false} RequestsChain<T>(fetch: Option<string> -> Page<T>, token: Option<string>, n: nat)
    requires EndsWithin(fetch, token, n)
    ensures var rs := Requests(fetch, token, n);
      && 1 <= |rs| <= n
      && rs[0] == token
      && (forall k :: 0 < k < |rs| ==> Truthy(rs[k]))
      && (forall k :: 0 <= k < |rs| - 1 ==> fetch(rs[k]).next == rs[k + 1])
      && !Truthy(fetch(rs[|rs| - 1]).next)
    decreases n
  {
    var page := fetch(token);
    if Truthy(page.next) {
      RequestsChain(fetch, page.next, n - 1);
      var rest := Requests(fetch, page.next, n - 1);
      var rs := Requests(fetch, token, n);
      assert rs == [token] + rest;
      assert forall k :: 0 < k < |rs| ==> rs[k] == rest[k - 1];
    }
  }

  /** The collected items are exactly the concatenation of the pages of the calls made, in call order. */
  lemma {:induction false} DrainIsConcatenation<T>(fetch: Option<string> -> Page<T>, token: Option<string>, n: nat)
    requires EndsWithin(fetch, token, n)
    ensures Drain(fetch, token, n) == ItemsOf(fetch, Requests(fetch, token, n))
    decreases n
  {
    var page := fetch(token);
    var rs := Requests(fetch, token, n);
    assert rs[0] == token;
    if Truthy(page.next) {
      DrainIsConcatenation(fetch, page.next, n - 1);
      assert rs[1..] == Requests(fetch, page.next, n - 1);
    } else {
      assert rs[1..] == [];
    }
  }

  /** A page whose token is the empty string is the last one, as one with no token is. */
  lemma EmptyTokenEnds<T>(fetch: Option<string> -> Page<T>, token: Option<string>, n: nat)
    requires EndsWithin(fetch, token, n)
    requires fetch(token).next == Some("")
    ensures Drain(fetch, token, n) == fetch(token).items
    ensures Requests(fetch, token, n) == [token]
  {
  }
}
