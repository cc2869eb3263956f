/** The common base of the generative-AI services: a ring of API keys, and
    the retry loop that runs an operation on the current key, backs off
    between failed attempts, and moves on to the next key after a
    rate-limit error or after the last attempt. The operation itself, the
    parsing of a retry delay out of an error message, and the clock are
    oracles; the pauses are recorded instead of slept. */
module GenAIBaseService {
  import opened Wrappers
  import opened Strings

  /** The constructor accepts one key or a list of keys. */
  datatype ApiKeys = SingleKey(key: string) | KeyList(keys: seq<string>)

  function KeyRing(k: ApiKeys): seq<string> {
    match k
    case SingleKey(key) => [key]
    case KeyList(keys) => keys
  }

  /** An error is a rate-limit error when its lower-cased text mentions a
      rate limit, a quota, status 429 or too many requests. */
  predicate IsRateLimitError(error: string) {
    var text := Lower(error);
    Contains(text, "rate limit") || Contains(text, "quota")
    || Contains(text, "429") || Contains(text, "too many requests")
  }

  lemma LowerCharIdempotent(c: char)
    ensures LowerChar(LowerChar(c)) == LowerChar(c)
  {
  }

  /** Lower-casing twice is lower-casing once. */
  lemma LowerIdempotent(s: string)
    ensures Lower(Lower(s)) == Lower(s)
  {
    forall i | 0 <= i < |s|
      ensures Lower(Lower(s))[i] == Lower(s)[i]
    {
      LowerCharIdempotent(s[i]);
    }
  }

  /** The test ignores case: an error and its lower-cased text are
      classified alike. */
  lemma RateLimitIgnoresCase(error: string)
    ensures IsRateLimitError(Lower(error)) == IsRateLimitError(error)
  {
    LowerIdempotent(error);
  }

  function Pow2(n: nat): (p: nat)
    ensures p >= 1
  {
    if n == 0 then 1 else 2 * Pow2(n - 1)
  }

  lemma {:induction false} Pow2AtLeast64(n: nat)
    requires n >= 6
    ensures Pow2(n) >= 64
  {
    if n > 6 {
      Pow2AtLeast64(n - 1);
    }
  }

  /** The exponential backoff min(2^attempt, 60), in seconds. */
  function CappedDoubling(attempt: nat): (d: real)
    ensures 1.0 <= d <= 60.0
  {
    if Pow2(attempt) < 60 then Pow2(attempt) as real else 60.0
  }

  /** The pause before the next attempt: the delay read from the error, or
      when none was found (the parser's 60-second default) the capped
      exponential backoff. */
  function Backoff(parsed: real, attempt: nat): real {
    if parsed == 60.0 then CappedDoubling(attempt) else parsed
  }

  /** The fallback doubles from one second and reaches the 60-second cap at
      the seventh attempt (attempt index 6); a delay found in the error is
      used as it is. */
  lemma BackoffSchedule(attempt: nat, parsed: real)
    ensures attempt < 6 ==> Backoff(60.0, attempt) == Pow2(attempt) as real
    ensures Backoff(60.0, attempt) == 60.0 <==> attempt >= 6
    ensures Backoff(60.0, attempt) <= 60.0
    ensures parsed != 60.0 ==> Backoff(parsed, attempt) == parsed
  {
    if attempt >= 6 {
      Pow2AtLeast64(attempt);
    } else {
      assert Pow2(1) == 2 && Pow2(2) == 4 && Pow2(3) == 8 && Pow2(4) == 16 && Pow2(5) == 32;
    }
  }

  /** How a pass treats failures: the retry count, the test that tells a
      rate-limit error, and the parser that reads a retry delay out of an
      error message (returning 60 when it finds none). */
  datatype Policy = Policy(maxRetries: int, rateLimited: string -> bool, parseDelay: string -> real)

  /** What one pass over a key leaves: the operation's value if an attempt
      succeeded, the number of calls made, and the pauses taken between
      them. */
  datatype Pass<T> = Pass(value: Option<T>, calls: nat, delays: seq<real>)

  /** The attempts on one key from `attempt` on, the first of them being
      call number `first` of the run. An attempt that succeeds ends the
      pass; a rate-limit error or a failure of the last attempt
      (attempt == maxRetries) gives the key up; any other failure pauses
      and tries again. A negative retry count makes no attempt at all. */
  function KeyPass<T>(key: string, policy: Policy, call: (string, nat) -> Outcome<T>,
                      first: nat, attempt: nat): Pass<T>
    decreases policy.maxRetries + 1 - attempt
  {
    if attempt > policy.maxRetries then Pass(None, 0, [])
    else
      match call(key, first)
      case Ok(v) => Pass(Some(v), 1, [])
      case Raised(e) =>
        if policy.rateLimited(e) || attempt == policy.maxRetries then Pass(None, 1, [])
        else
          var rest := KeyPass(key, policy, call, first + 1, attempt + 1);
          Pass(rest.value, rest.calls + 1, [Backoff(policy.parseDelay(e), attempt)] + rest.delays)
  }

  /** One retry: after an ordinary failure that is not the last attempt,
      the pass is that call, its backoff, and the pass from the next
      attempt on. */
  lemma KeyPassRetry<T>(key: string, policy: Policy, call: (string, nat) -> Outcome<T>, first: nat, attempt: nat)
    requires attempt < policy.maxRetries
    requires call(key, first).Raised? && !policy.rateLimited(call(key, first).error)
    ensures var rest := KeyPass(key, policy, call, first + 1, attempt + 1);
      KeyPass(key, policy, call, first, attempt)
      == Pass(rest.value, rest.calls + 1, [Backoff(policy.parseDelay(call(key, first).error), attempt)] + rest.delays)
  {
  }

  /** A pass makes at most maxRetries + 1 calls (none when the retry count
      is negative, at least one otherwise), and pauses once before every
      call but the first; the pause after call c is the backoff for the
      error that call raised. */
  lemma {:induction false} KeyPassCalls<T>(key: string, policy: Policy, call: (string, nat) -> Outcome<T>,
                                           first: nat, attempt: nat)
    ensures var p := KeyPass(key, policy, call, first, attempt);
      (p.calls == 0 <==> attempt > policy.maxRetries)
      && (attempt <= policy.maxRetries ==> p.calls <= policy.maxRetries + 1 - attempt)
      && (p.calls > 0 ==> |p.delays| == p.calls - 1)
      && (forall c: nat :: first <= c < first + |p.delays| ==>
            call(key, c).Raised?
            && p.delays[c - first] == Backoff(policy.parseDelay(call(key, c).error), attempt + (c - first)))
    decreases policy.maxRetries + 1 - attempt
  {
    if attempt <= policy.maxRetries && call(key, first).Raised?
       && !policy.rateLimited(call(key, first).error) && attempt != policy.maxRetries {
      KeyPassCalls(key, policy, call, first + 1, attempt + 1);
      var p := KeyPass(key, policy, call, first, attempt);
      var rest := KeyPass(key, policy, call, first + 1, attempt + 1);
      assert p.delays == [Backoff(policy.parseDelay(call(key, first).error), attempt)] + rest.delays;
    }
  }

  /** How a pass ends: every call but the last raised an error that was
      not a rate-limit error; the pass has a value exactly when the last
      call returned one, and that is the value; a last call that raised
      was a rate-limit error or the last allowed attempt. */
  lemma {:induction false} KeyPassStops<T>(key: string, policy: Policy, call: (string, nat) -> Outcome<T>,
                                           first: nat, attempt: nat)
    ensures var p := KeyPass(key, policy, call, first, attempt);
      (forall c: nat :: first <= c && c + 1 < first + p.calls ==>
         call(key, c).Raised? && !policy.rateLimited(call(key, c).error))
      && (p.calls == 0 ==> p.value.None?)
      && (p.calls > 0 ==>
            var last := call(key, first + p.calls - 1);
            (p.value.Some? <==> last.Ok?) && (last.Ok? ==> p.value.value == last.value)
            && (last.Raised? ==> policy.rateLimited(last.error) || attempt + p.calls - 1 == policy.maxRetries))
    decreases policy.maxRetries + 1 - attempt
  {
    if attempt <= policy.maxRetries && call(key, first).Raised?
       && !policy.rateLimited(call(key, first).error) && attempt != policy.maxRetries {
      KeyPassStops(key, policy, call, first + 1, attempt + 1);
      KeyPassCalls(key, policy, call, first + 1, attempt + 1);
    }
  }

  /** A rate-limit error leaves the key at once: after ordinary failures on
      calls first .. first + j - 1, a rate-limit error on call first + j
      ends the pass with j + 1 calls and no value, however many retries
      were left. */
  lemma {:induction false} RateLimitEndsPass<T>(key: string, policy: Policy, call: (string, nat) -> Outcome<T>,
                                                first: nat, attempt: nat, j: nat)
    requires attempt + j <= policy.maxRetries
    requires forall c: nat :: first <= c < first + j ==>
      call(key, c).Raised? && !policy.rateLimited(call(key, c).error)
    requires call(key, first + j).Raised? && policy.rateLimited(call(key, first + j).error)
    ensures var p := KeyPass(key, policy, call, first, attempt);
      p.calls == j + 1 && p.value.None?
    decreases j
  {
    if j > 0 {
      assert call(key, first).Raised? && !policy.rateLimited(call(key, first).error);
      assert first + 1 + (j - 1) == first + j;
      RateLimitEndsPass(key, policy, call, first + 1, attempt + 1, j - 1);
    }
  }

  /** The attempt loop on one key, its first call being call number
      `first` of the run. */
  method TryKey<T>(key: string, policy: Policy, call: (string, nat) -> Outcome<T>, first: nat)
    returns (p: Pass<T>)
    ensures p == KeyPass(key, policy, call, first, 0)
  {
    ghost var whole := KeyPass(key, policy, call, first, 0);
    var delays: seq<real> := [];
    var attempt: nat := 0;
    while attempt <= policy.maxRetries
      invariant var rest := KeyPass(key, policy, call, first + attempt, attempt);
        whole.value == rest.value && whole.calls == attempt + rest.calls && whole.delays == delays + rest.delays
      decreases policy.maxRetries + 1 - attempt
    {
      var result := call(key, first + attempt);
      if result.Ok? {
        return Pass(Some(result.value), attempt + 1, delays);
      }
      if policy.rateLimited(result.error) {
        return Pass(None, attempt + 1, delays);
      } else if attempt == policy.maxRetries {
        return Pass(None, attempt + 1, delays);
      } else {
        var retryDelay := policy.parseDelay(result.error);
        if retryDelay == 60.0 {
          retryDelay := CappedDoubling(attempt);
        }
        assert retryDelay == Backoff(policy.parseDelay(result.error), attempt);
        KeyPassRetry(key, policy, call, first + attempt, attempt);
        delays := delays + [retryDelay];
      }
      attempt := attempt + 1;
    }
    p := Pass(None, attempt, delays);
  }

  /** The key after `index` round a ring of n keys: (index + 1) mod n,
      which wraps from the last key to key 0 and stays in the ring. */
  function NextKey(index: nat, n: nat): (r: nat)
    requires index < n
    ensures r < n
    ensures r == if index + 1 == n then 0 else index + 1
  {
    (index + 1) % n
  }

  /** How the whole retry loop ends: with the operation's value, with the
      error raised once every key has been given up, or, in this model
      only, with the pass budget spent while keys remain to try. */
  datatype Executed<T> = Succeeded(value: T) | AllKeysFailed(message: string) | StillTrying

  /** A run of passes: how it ended, the key indices tried in order, the
      calls made, the pauses taken, and the key index it ends on. */
  datatype Run<T> = Run(outcome: Executed<T>, tried: seq<nat>, calls: nat, sleeps: seq<real>, index: nat)

  function FailureMessage(operation: string, keyCount: nat): string {
    "Failed to execute " + operation + " after trying all "
    + NatToString(keyCount) + " available API keys"
  }

  /** Passes over the keys from `index` on, at most `fuel` of them. A pass
      that yields a value ends the run. Otherwise a single key ends it with
      the error, and with several keys the run moves to the next key round
      the ring, pausing 60 seconds whenever it wraps back to key 0. */
  function RunFrom<T>(operation: string, keys: seq<string>, index: nat, policy: Policy,
                      call: (string, nat) -> Outcome<T>, first: nat, fuel: nat): Run<T>
    requires index < |keys|
    decreases fuel
  {
    if fuel == 0 then Run(StillTrying, [], 0, [], index)
    else
      var p := KeyPass(keys[index], policy, call, first, 0);
      if p.value.Some? then Run(Succeeded(p.value.value), [index], p.calls, p.delays, index)
      else if |keys| <= 1 then Run(AllKeysFailed(FailureMessage(operation, |keys|)), [index], p.calls, p.delays, index)
      else
        var next := NextKey(index, |keys|);
        var rest := RunFrom(operation, keys, next, policy, call, first + p.calls, fuel - 1);
        Run(rest.outcome, [index] + rest.tried, p.calls + rest.calls,
            p.delays + (if next == 0 then [60.0] else []) + rest.sleeps, rest.index)
  }

  /** `whole` is the run `rest` preceded by `calls` calls and `sleeps`
      sleeps: same outcome, same key left in use. */
  ghost predicate Continues<T>(whole: Run<T>, rest: Run<T>, calls: nat, sleeps: seq<real>) {
    whole.outcome == rest.outcome && whole.calls == calls + rest.calls
    && whole.sleeps == sleeps + rest.sleeps && whole.index == rest.index
  }

  lemma ContinuesChain<T>(a: Run<T>, b: Run<T>, c: Run<T>, calls1: nat, sleeps1: seq<real>,
                          calls2: nat, sleeps2: seq<real>)
    requires Continues(a, b, calls1, sleeps1) && Continues(b, c, calls2, sleeps2)
    ensures Continues(a, c, calls1 + calls2, sleeps1 + sleeps2)
  {
    assert sleeps1 + (sleeps2 + c.sleeps) == sleeps1 + sleeps2 + c.sleeps;
  }

  /** Keys are tried round-robin: the first pass uses the key in use and
      each later pass the key after the previous one, wrapping from the
      last key to key 0. A run that ends before its budget is spent has
      made at most that many passes, and one that is still trying has made
      exactly that many. */
  lemma {:induction false} RunRoundRobin<T>(operation: string, keys: seq<string>, index: nat, policy: Policy,
                                            call: (string, nat) -> Outcome<T>, first: nat, fuel: nat)
    requires index < |keys|
    ensures var run := RunFrom(operation, keys, index, policy, call, first, fuel);
      |run.tried| <= fuel
      && (run.outcome.StillTrying? ==> |run.tried| == fuel)
      && (|run.tried| > 0 ==> run.tried[0] == index)
      && (forall k :: 0 <= k < |run.tried| ==> run.tried[k] < |keys|)
      && (forall k :: 0 < k < |run.tried| ==>
            run.tried[k] == if run.tried[k - 1] + 1 == |keys| then 0 else run.tried[k - 1] + 1)
    decreases fuel
  {
    if fuel > 0 {
      var p := KeyPass(keys[index], policy, call, first, 0);
      if p.value.None? && |keys| > 1 {
        var next := NextKey(index, |keys|);
        RunRoundRobin(operation, keys, next, policy, call, first + p.calls, fuel - 1);
        var run := RunFrom(operation, keys, index, policy, call, first, fuel);
        var rest := RunFrom(operation, keys, next, policy, call, first + p.calls, fuel - 1);
        assert run.tried == [index] + rest.tried;
      }
    }
  }

  /** With a single key the loop always ends within one pass: with the
      operation's value, or with the error naming the operation and the one
      key, after at most maxRetries + 1 calls. */
  lemma SingleKeyEnds<T>(operation: string, key: string, policy: Policy,
                         call: (string, nat) -> Outcome<T>, fuel: nat)
    requires fuel >= 1
    ensures var run := RunFrom(operation, [key], 0, policy, call, 0, fuel);
      !run.outcome.StillTrying?
      && (run.outcome.AllKeysFailed? ==> run.outcome.message == FailureMessage(operation, 1))
      && run.calls <= (if policy.maxRetries < 0 then 0 else policy.maxRetries + 1)
  {
    KeyPassCalls(key, policy, call, 0, 0);
  }

  /** With several keys the loop never gives up: switching always succeeds,
      so the documented error cannot be raised and only success ends the
      loop. */
  lemma {:induction false} SeveralKeysNeverFail<T>(operation: string, keys: seq<string>, index: nat, policy: Policy,
                                                   call: (string, nat) -> Outcome<T>, first: nat, fuel: nat)
    requires 1 < |keys| && index < |keys|
    ensures !RunFrom(operation, keys, index, policy, call, first, fuel).outcome.AllKeysFailed?
    decreases fuel
  {
    if fuel > 0 {
      var p := KeyPass(keys[index], policy, call, first, 0);
      if p.value.None? {
        SeveralKeysNeverFail(operation, keys, NextKey(index, |keys|), policy, call, first + p.calls, fuel - 1);
      }
    }
  }

  /** The service's state: its key ring, the index of the key in use, the
      retry count, and the key the client was last built with. */
  class GenAIBaseService {
    var apiKeys: seq<string>
    var tokenIndex: nat
    var maxRetries: int
    var clientKey: string

    predicate Valid()
      reads this
    {
      0 < |apiKeys| && tokenIndex < |apiKeys| && clientKey == apiKeys[tokenIndex]
    }

    /** The retry policy of this service: its retry count, the rate-limit
        test above, and the given delay parser. */
    function PolicyWith(parseDelay: string -> real): Policy
      reads this
    {
      Policy(maxRetries, IsRateLimitError, parseDelay)
    }

    /** A single key becomes a one-key ring; the first key is in use. */
    constructor(keys: ApiKeys, maxRetries: int)
      requires |KeyRing(keys)| > 0
      ensures Valid()
      ensures apiKeys == KeyRing(keys) && tokenIndex == 0 && this.maxRetries == maxRetries
    {
      var ring := if keys.SingleKey? then [keys.key] else keys.keys;
      apiKeys := ring;
      tokenIndex := 0;
      this.maxRetries := maxRetries;
      clientKey := ring[0];
    }

    /** With one key there is nothing to switch to and nothing changes.
        Otherwise the next key round the ring is put in use, and wrapping
        back to key 0 calls for a 60-second pause. */
    method SwitchToNextApiKey() returns (switched: bool, pause: bool)
      requires Valid()
      modifies this
      ensures Valid() && apiKeys == old(apiKeys) && maxRetries == old(maxRetries)
      ensures switched <==> |apiKeys| > 1
      ensures !switched ==> tokenIndex == old(tokenIndex) && clientKey == old(clientKey)
      ensures switched ==> tokenIndex == NextKey(old(tokenIndex), |apiKeys|)
      ensures pause <==> switched && tokenIndex == 0
    {
      if |apiKeys| <= 1 {
        return false, false;
      }
      tokenIndex := (tokenIndex + 1) % |apiKeys|;
      var newApiKey := apiKeys[tokenIndex];
      clientKey := newApiKey;
      pause := tokenIndex == 0;
      switched := true;
    }

    /** One pass of the retry loop: the attempts with the key in use, then
        (when they give it up) the switch to the next key and the pause if
        the switch wraps round. Either the run ends here, or it goes on from
        the next key with the calls and sleeps this pass took. */
    method PassAndSwitch<T>(operation: string, policy: Policy, call: (string, nat) -> Outcome<T>,
                            first: nat, fuelLeft: nat)
      returns (done: Option<Executed<T>>, passCalls: nat, passSleeps: seq<real>)
      requires Valid() && 0 < fuelLeft
      modifies this
      ensures Valid() && apiKeys == old(apiKeys) && maxRetries == old(maxRetries)
      ensures done.Some? ==>
        Continues(RunFrom(operation, old(apiKeys), old(tokenIndex), policy, call, first, fuelLeft),
                  Run(done.value, [], 0, [], tokenIndex), passCalls, passSleeps)
      ensures done.None? ==>
        Continues(RunFrom(operation, old(apiKeys), old(tokenIndex), policy, call, first, fuelLeft),
                  RunFrom(operation, apiKeys, tokenIndex, policy, call, first + passCalls, fuelLeft - 1),
                  passCalls, passSleeps)
    {
      ghost var head := RunFrom(operation, apiKeys, tokenIndex, policy, call, first, fuelLeft);
      var p := TryKey(clientKey, policy, call, first);
      passCalls := p.calls;
      passSleeps := p.delays;
      if p.value.Some? {
        return Some(Succeeded(p.value.value)), passCalls, passSleeps;
      }
      var switched, pause := SwitchToNextApiKey();
      if !switched {
        return Some(AllKeysFailed(FailureMessage(operation, |apiKeys|))), passCalls, passSleeps;
      }
      if pause {
        passSleeps := passSleeps + [60.0];
      }
      done := None;
    }

    /** The retry loop of execute_with_retry under a given policy: passes
        over the keys until one succeeds, or, with a single key, until its
        pass gives up. Calls, sleeps and the key left in use are those of
        the run specification; `fuel` bounds the number of passes. */
    method RetryAcrossKeys<T>(operation: string, policy: Policy, call: (string, nat) -> Outcome<T>, fuel: nat)
      returns (r: Executed<T>, calls: nat, sleeps: seq<real>)
      requires Valid()
      modifies this
      ensures Valid() && apiKeys == old(apiKeys) && maxRetries == old(maxRetries)
      ensures var run := RunFrom(operation, old(apiKeys), old(tokenIndex), policy, call, 0, fuel);
        r == run.outcome && calls == run.calls && sleeps == run.sleeps && tokenIndex == run.index
    {
      ghost var whole := RunFrom(operation, apiKeys, tokenIndex, policy, call, 0, fuel);
      calls := 0;
      sleeps := [];
      var fuelLeft := fuel;
      while fuelLeft > 0
        invariant Valid() && apiKeys == old(apiKeys) && maxRetries == old(maxRetries)
        invariant Continues(whole, RunFrom(operation, apiKeys, tokenIndex, policy, call, calls, fuelLeft), calls, sleeps)
        decreases fuelLeft
      {
        ghost var head := RunFrom(operation, apiKeys, tokenIndex, policy, call, calls, fuelLeft);
        var done, passCalls, passSleeps := PassAndSwitch(operation, policy, call, calls, fuelLeft);
        if done.Some? {
          ContinuesChain(whole, head, Run(done.value, [], 0, [], tokenIndex), calls, sleeps, passCalls, passSleeps);
          return done.value, calls + passCalls, sleeps + passSleeps;
        }
        ghost var callsBefore, sleepsBefore := calls, sleeps;
        calls := calls + passCalls;
        sleeps := sleeps + passSleeps;
        fuelLeft := fuelLeft - 1;
        ContinuesChain(whole, head, RunFrom(operation, apiKeys, tokenIndex, policy, call, calls, fuelLeft),
                       callsBefore, sleepsBefore, passCalls, passSleeps);
      }
      r := StillTrying;
    }

    /** execute_with_retry: the retry loop with the service's own retry
        budget and rate-limit classifier; `parseDelay` stands for the
        retry-delay parser. */
    method ExecuteWithRetry<T>(operation: string, call: (string, nat) -> Outcome<T>,
                               parseDelay: string -> real, fuel: nat)
      returns (r: Executed<T>, calls: nat, sleeps: seq<real>)
      requires Valid()
      modifies this
      ensures Valid() && apiKeys == old(apiKeys) && maxRetries == old(maxRetries)
      ensures var run := RunFrom(operation, old(apiKeys), old(tokenIndex), Policy(old(maxRetries), IsRateLimitError, parseDelay),
                                 call, 0, fuel);
        r == run.outcome && calls == run.calls && sleeps == run.sleeps && tokenIndex == run.index
    {
      r, calls, sleeps := RetryAcrossKeys(operation, PolicyWith(parseDelay), call, fuel);
    }
  }
}
