/** Request deduplication (src/lib/requestDedup.ts): at most one in-flight request per key;
    a caller that finds its key pending joins the pending request instead of fetching.
    A request is an opaque handle standing for its promise; its settlement, on success or
    on failure, is the explicit event `Settle`. */
module RequestDedup {

  /** Identifies one in-flight promise. */
  type Handle = nat

  /** The module-level `pendingRequests` map. */
  class PendingRequests {
    var pending: map<string, Handle>

    constructor()
      ensures pending == map[]
    {
      pending := map[];
    }

    /** `deduplicatedFetch(key, fetcher)`: `started` is the handle the fetcher returns if it is
        called; `invoked` says whether it was. A pending key yields the registered handle and
        the fetcher is not called; otherwise the fetcher is called once and its handle registered. */
    method DeduplicatedFetch(key: string, started: Handle) returns (h: Handle, invoked: bool)
      modifies this
      ensures invoked <==> key !in old(pending)
      ensures key in old(pending) ==> h == old(pending)[key] && pending == old(pending)
      ensures key !in old(pending) ==> h == started && pending == old(pending)[key := started]
    {
      if key in pending {
        return pending[key], false;
      }
      pending := pending[key := started];
      h, invoked := started, true;
    }

    /** The `finally` of a request for `key`: deletes whatever is registered under the key,
        whether or not it is the request that settled. */
    method Settle(key: string)
      modifies this
      ensures pending == old(pending) - {key}
      ensures key !in pending
    {
      pending := pending - {key};
    }

    function IsRequestPending(key: string): (b: bool)
      reads this
      ensures b <==> key in pending.Keys
    {
      key in pending
    }

    function GetPendingRequestCount(): (n: nat)
      reads this
      ensures n == |pending.Keys|
      ensures n == 0 <==> pending == map[]
    {
      |pending|
    }

    method ClearPendingRequests()
      modifies this
      ensures pending == map[]
    {
      pending := map[];
    }
  }

  /** Two overlapping calls for one key share one fetch: the second joins the first's handle,
      and the fetcher runs once. After the request settles, a third call fetches anew. */
  method ConcurrentCallsShareOneFetch(key: string, first: Handle, second: Handle, third: Handle)
    returns (h1: Handle, h2: Handle, h3: Handle, fetches: nat)
    ensures h1 == h2 == first && h3 == third
    ensures fetches == 2
  {
    var requests := new PendingRequests();
    var invoked1, invoked2, invoked3;
    h1, invoked1 := requests.DeduplicatedFetch(key, first);
    h2, invoked2 := requests.DeduplicatedFetch(key, second);
    requests.Settle(key);
    h3, invoked3 := requests.DeduplicatedFetch(key, third);
    fetches := (if invoked1 then 1 else 0) + (if invoked2 then 1 else 0) + (if invoked3 then 1 else 0);
  }

  /** A settlement deletes by key alone: a request begun before `clearPendingRequests` that
      settles after a new request for the same key was registered removes the new registration,
      so a later caller starts a third fetch instead of joining the second. */
  method StaleSettlementDropsNewerRequest(key: string, old1: Handle, new2: Handle, later: Handle)
    returns (pendingAfter: bool, joined: Handle, refetched: bool)
    ensures !pendingAfter
    ensures refetched && joined == later
  {
    var requests := new PendingRequests();
    var _, _ := requests.DeduplicatedFetch(key, old1);
    requests.ClearPendingRequests();
    var _, _ := requests.DeduplicatedFetch(key, new2);
    requests.Settle(key);
    pendingAfter := requests.IsRequestPending(key);
    joined, refetched := requests.DeduplicatedFetch(key, later);
  }
}
