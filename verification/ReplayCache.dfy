/**
 * Single use of signed intents: the cache of `packages/loop-deploy/src/replay-cache.ts`
 * behind the freshness check of `packages/loop-deploy/src/auth.ts`, as the mutating routes
 * of `apps/loop-server/src/main.ts` pair them. A route reads the clock for the check, and
 * again for the cache once the signer has been recovered. Times are whole unix seconds.
 */
module ReplayCache {
  import opened Wrappers

  type Signature = string

  type Entries = map<Signature, int>

  type Seconds = s: int | s > 0 witness 1

  const MAX_AGE_SECONDS: Seconds := 300
  const MAX_SKEW_SECONDS: int := 60

  // `assertFreshIntent` passes.
  predicate Fresh(signedAt: int, now: int) {
    now - signedAt <= MAX_AGE_SECONDS && now - signedAt >= -MAX_SKEW_SECONDS
  }

  datatype Error = Replayed | StaleIntent

  function Unexpired(entries: Entries, now: int): Entries {
    map signature | signature in entries && entries[signature] > now :: entries[signature]
  }

  class ReplayCache {
    var entries: Entries
    const ttlSeconds: Seconds

    // A time to live that is not positive is refused; its type says so here.
    constructor (ttlSeconds: Seconds)
      ensures entries == map[] && this.ttlSeconds == ttlSeconds
    {
      entries, this.ttlSeconds := map[], ttlSeconds;
    }

    // The loop over the map, deleting what has expired.
    method EvictExpired(now: int)
      modifies this
      ensures entries == Unexpired(old(entries), now)
    {
      var rest := entries.Keys;
      while rest != {}
        invariant forall s :: s in entries <==> s in old(entries) && (s in rest || old(entries)[s] > now)
        invariant forall s | s in entries :: entries[s] == old(entries)[s]
        invariant rest <= old(entries).Keys
        decreases |rest|
      {
        var signature :| signature in rest;
        if entries[signature] <= now {
          entries := entries - {signature};
        }
        rest := rest - {signature};
      }
    }

    /** Insert if new; every entry left expires after now. */
    method Observe(signature: Signature, now: int) returns (r: Result<(), Error>)
      modifies this
      ensures entries == Observed(old(entries), signature, now, ttlSeconds)
      ensures r.Failure? <==> signature in Unexpired(old(entries), now)
      ensures forall s | s in entries :: entries[s] > now
    {
      EvictExpired(now);
      if signature in entries {
        return Failure(Replayed);
      }
      entries := entries[signature := now + ttlSeconds];
      return Success(());
    }
  }

  function Observed(entries: Entries, signature: Signature, now: int, ttlSeconds: Seconds): Entries {
    var live := Unexpired(entries, now);
    if signature in live then live else live[signature := now + ttlSeconds]
  }

  // ---------------------------------------------------------------- a run of requests

  // A signed intent at a route, with the two readings of the clock; the signature fixes
  // the time it was signed at.
  datatype Request = Request(signature: Signature, signedAt: int, checkedAt: int, observedAt: int) {
    function Lag(): int {
      observedAt - checkedAt
    }
  }

  predicate Accepts(entries: Entries, request: Request) {
    Fresh(request.signedAt, request.checkedAt) && request.signature !in Unexpired(entries, request.observedAt)
  }

  // The cache sees only what passed the freshness check.
  function After(entries: Entries, request: Request, ttlSeconds: Seconds): Entries {
    if Fresh(request.signedAt, request.checkedAt) then
      Observed(entries, request.signature, request.observedAt, ttlSeconds)
    else entries
  }

  // Requests stand in the order in which they reach the cache.
  function Cache(requests: seq<Request>, ttlSeconds: Seconds): Entries {
    if requests == [] then map[]
    else After(Cache(requests[..|requests| - 1], ttlSeconds), requests[|requests| - 1], ttlSeconds)
  }

  // The i-th request of a run got through.
  predicate Accepted(requests: seq<Request>, ttlSeconds: Seconds, i: nat)
    requires i < |requests|
  {
    Accepts(Cache(requests[..i], ttlSeconds), requests[i])
  }

  // The guard of a mutating route.
  method Admit(cache: ReplayCache, request: Request) returns (r: Result<(), Error>)
    modifies cache
    ensures cache.entries == After(old(cache.entries), request, cache.ttlSeconds)
    ensures r.Success? <==> Accepts(old(cache.entries), request)
  {
    if !Fresh(request.signedAt, request.checkedAt) {
      return Failure(StaleIntent);
    }
    r := cache.Observe(request.signature, request.observedAt);
  }

  /** A server's life: which requests a fresh cache lets through. */
  method Serve(requests: seq<Request>, ttlSeconds: Seconds) returns (accepted: seq<bool>)
    ensures |accepted| == |requests|
    ensures forall i | 0 <= i < |requests| :: accepted[i] == Accepted(requests, ttlSeconds, i)
  {
    var cache := new ReplayCache(ttlSeconds);
    accepted := [];
    for i := 0 to |requests|
      invariant cache.ttlSeconds == ttlSeconds && cache.entries == Cache(requests[..i], ttlSeconds)
      invariant |accepted| == i
      invariant forall k | 0 <= k < i :: accepted[k] == Accepted(requests, ttlSeconds, k)
    {
      assert requests[..i + 1][..i] == requests[..i];
      var r := Admit(cache, requests[i]);
      accepted := accepted + [r.Success?];
    }
  }

  // The clock never goes back: not from one observation to the next, nor between the two
  // readings of one request.
  ghost predicate ClockForward(requests: seq<Request>) {
    && (forall i, j | 0 <= i < j < |requests| :: requests[i].observedAt <= requests[j].observedAt)
    && (forall i | 0 <= i < |requests| :: requests[i].checkedAt <= requests[i].observedAt)
  }

  ghost predicate SignedOnce(requests: seq<Request>) {
    forall i, j | 0 <= i < |requests| && 0 <= j < |requests| && requests[i].signature == requests[j].signature ::
      requests[i].signedAt == requests[j].signedAt
  }

  // ---------------------------------------------------------------- what the cache remembers

  // An accepted signature stays on file, with the same expiry, until that has passed.
  lemma {:induction false} AcceptedIsRemembered(requests: seq<Request>, ttlSeconds: Seconds, i: nat, j: nat)
    requires i < j <= |requests| && ClockForward(requests)
    requires Accepted(requests, ttlSeconds, i)
    requires forall k | i < k < j :: requests[k].observedAt < requests[i].observedAt + ttlSeconds
    ensures var entries := Cache(requests[..j], ttlSeconds);
            requests[i].signature in entries && entries[requests[i].signature] == requests[i].observedAt + ttlSeconds
    decreases j
  {
    var front := requests[..j];
    assert front[..j - 1] == requests[..j - 1] && front[j - 1] == requests[j - 1];
    if i < j - 1 {
      AcceptedIsRemembered(requests, ttlSeconds, i, j - 1);
    }
  }

  // Whatever is on file was put there by an accepted request, and expires when it says.
  lemma {:induction false} OnFileWasAccepted(requests: seq<Request>, ttlSeconds: Seconds, j: nat, signature: Signature)
    returns (i: nat)
    requires j <= |requests| && signature in Cache(requests[..j], ttlSeconds)
    ensures i < j && requests[i].signature == signature && Accepted(requests, ttlSeconds, i)
    ensures Cache(requests[..j], ttlSeconds)[signature] == requests[i].observedAt + ttlSeconds
    decreases j
  {
    var front := requests[..j];
    assert j > 0;
    assert front[..j - 1] == requests[..j - 1] && front[j - 1] == requests[j - 1];
    var before, last := Cache(requests[..j - 1], ttlSeconds), requests[j - 1];
    if Accepts(before, last) && last.signature == signature {
      i := j - 1;
    } else {
      i := OnFileWasAccepted(requests, ttlSeconds, j - 1, signature);
    }
  }

  // A request is accepted exactly when it was signed no more than 300 seconds before its
  // check and no more than 60 after it, and no request with its signature was accepted
  // within the time to live before it is observed.
  lemma AcceptedExactly(requests: seq<Request>, ttlSeconds: Seconds, j: nat)
    requires j < |requests| && ClockForward(requests)
    ensures Accepted(requests, ttlSeconds, j) <==>
              && requests[j].checkedAt - 300 <= requests[j].signedAt <= requests[j].checkedAt + 60
              && (forall i | 0 <= i < j && requests[i].signature == requests[j].signature
                             && requests[j].observedAt < requests[i].observedAt + ttlSeconds ::
                    !Accepted(requests, ttlSeconds, i))
  {
    var request, entries := requests[j], Cache(requests[..j], ttlSeconds);
    forall i | 0 <= i < j && requests[i].signature == request.signature
               && request.observedAt < requests[i].observedAt + ttlSeconds && Accepted(requests, ttlSeconds, i)
      ensures request.signature in Unexpired(entries, request.observedAt)
    {
      assert forall k | i < k < j :: requests[k].observedAt <= request.observedAt;
      AcceptedIsRemembered(requests, ttlSeconds, i, j);
    }
    if request.signature in Unexpired(entries, request.observedAt) {
      var i := OnFileWasAccepted(requests, ttlSeconds, j, request.signature);
    }
  }

  // A repeat gets through only when it waits at least as long between its two readings as
  // the first acceptance came after the signing: it must pass the check before it is
  // stale, and reach the cache after the entry has expired.
  lemma RepeatNeedsLag(requests: seq<Request>, i: nat, j: nat)
    requires ClockForward(requests) && SignedOnce(requests)
    requires i < j < |requests| && requests[i].signature == requests[j].signature
    requires Accepted(requests, MAX_AGE_SECONDS, i) && Accepted(requests, MAX_AGE_SECONDS, j)
    ensures requests[j].Lag() >= requests[i].observedAt - requests[i].signedAt
  {
    if requests[j].observedAt < requests[i].observedAt + MAX_AGE_SECONDS {
      assert forall k | i < k < j :: requests[k].observedAt <= requests[j].observedAt;
      AcceptedIsRemembered(requests, MAX_AGE_SECONDS, i, j);
    }
  }

  // Single use: where no request takes longer than `lag` between its two readings, a
  // signature accepted later than `lag` after its signing is never accepted again.
  lemma SingleUse(requests: seq<Request>, lag: nat, i: nat, j: nat)
    requires ClockForward(requests) && SignedOnce(requests)
    requires forall k | 0 <= k < |requests| :: requests[k].Lag() <= lag
    requires i < j < |requests| && requests[i].signature == requests[j].signature
    requires Accepted(requests, MAX_AGE_SECONDS, i) && requests[i].observedAt > requests[i].signedAt + lag
    ensures !Accepted(requests, MAX_AGE_SECONDS, j)
  {
    if Accepted(requests, MAX_AGE_SECONDS, j) {
      RepeatNeedsLag(requests, i, j);
    }
  }

  // The repeat that comes last: checked in its last fresh second if it can wait that long,
  // observed as the entry of the first expires.
  function LastRepeat(first: Request): Request {
    var expiry := first.observedAt + MAX_AGE_SECONDS;
    var stale := first.signedAt + MAX_AGE_SECONDS;
    Request(first.signature, first.signedAt, if expiry <= stale then expiry else stale, expiry)
  }

  // A run of two requests, neither slower than `lag`, in which a signature works twice.
  ghost predicate WorksTwice(first: Request, second: Request, lag: nat) {
    var requests := [first, second];
    && ClockForward(requests) && SignedOnce(requests) && first.Lag() <= lag && second.Lag() <= lag
    && first.signature == second.signature
    && Accepted(requests, MAX_AGE_SECONDS, 0) && Accepted(requests, MAX_AGE_SECONDS, 1)
  }

  lemma FirstIsOnFile(first: Request, second: Request)
    requires Fresh(first.signedAt, first.checkedAt)
    ensures var requests := [first, second];
            && Accepted(requests, MAX_AGE_SECONDS, 0)
            && Cache(requests[..1], MAX_AGE_SECONDS) == map[first.signature := first.observedAt + MAX_AGE_SECONDS]
  {
    var requests := [first, second];
    assert requests[..0] == [];
    assert requests[..1] == [first] && [first][..0] == [];
    assert Cache([], MAX_AGE_SECONDS) == map[];
    assert Unexpired(map[], first.observedAt) == map[];
  }

  // The bound is sharp for every first acceptance and every lag: some repeat no slower
  // than `lag` is accepted too exactly when the first came no later than `lag` after the
  // signing. Without any lag that leaves the intents accepted at or before their own
  // signing second, which the skew allowance lets in.
  lemma SecondUseExactlyWithinLag(first: Request, lag: nat)
    requires Fresh(first.signedAt, first.checkedAt) && 0 <= first.Lag() <= lag
    ensures (exists second :: WorksTwice(first, second, lag)) <==> first.observedAt <= first.signedAt + lag
  {
    if first.observedAt <= first.signedAt + lag {
      FirstIsOnFile(first, LastRepeat(first));
      assert WorksTwice(first, LastRepeat(first), lag);
    }
    forall second | WorksTwice(first, second, lag) ensures first.observedAt <= first.signedAt + lag {
      RepeatNeedsLag([first, second], 0, 1);
    }
  }
}
