/** The hit/miss decision of the `cacheable` wrapper (es_connector.py), as a
    step function over an abstract store. The pickle files of the cache
    directory become a map from key to stored result; the wrapped method
    becomes a function from the call's keyword arguments to its outcome. */
module Memo {
  import opened Wrappers
  import opened CacheKey

  /** The store after one wrapped call, what the caller got, and whether the
      wrapped method ran. */
  datatype Step<R> = Step(outcome: Outcome<R>, store: map<string, R>, targetCalled: bool)

  /** No entry already in `store` is removed or replaced in `store'`. */
  ghost predicate Extends<R>(store: map<string, R>, store': map<string, R>) {
    forall k :: k in store ==> k in store' && store'[k] == store[k]
  }

  /** One call through the wrapper. With caching off the target is called
      directly; otherwise an entry under the call's key is returned as it is,
      and on a miss the target runs and a returned value is stored. An
      exception from the target propagates before anything is written. */
  function Invoke<R>(cachingOn: bool, name: string, args: KwArgs, env: KeyEnv,
                     target: KwArgs -> Outcome<R>, store: map<string, R>): (s: Step<R>)
    // the caller sees the target's own outcome whenever it ran
    ensures s.targetCalled ==> s.outcome == target(args)
    // bypass: the target always runs and the store is never touched
    ensures !cachingOn ==> s.targetCalled && s.store == store
    // calls are sequential, so the store is write-once: entries are only added
    ensures Extends(store, s.store)
    ensures s.store.Keys <= store.Keys + {Key(name, args, env)}
    // a call that did not run the target was served from the store, unchanged
    ensures !s.targetCalled ==> cachingOn && Key(name, args, env) in store
                                && s.outcome == Returned(store[Key(name, args, env)])
                                && s.store == store
    // after a successful cached call the store holds what the caller got
    ensures cachingOn && s.outcome.Returned? ==>
              Key(name, args, env) in s.store && s.store[Key(name, args, env)] == s.outcome.value
    // a raising target leaves the store as it was
    ensures s.outcome.Raised? ==> s.store == store
  {
    if !cachingOn then
      Step(target(args), store, true)
    else
      var key := Key(name, args, env);
      if key in store then
        Step(Returned(store[key]), store, false)
      else
        match target(args)
        case Returned(v) => Step(Returned(v), store[key := v], true)
        case Raised(e) => Step(Raised(e), store, true)
  }

  /** Hit: a stored entry is returned, the target does not run and the store
      is unchanged, whatever the target would return now. */
  lemma HitServesStored<R>(name: string, args: KwArgs, env: KeyEnv,
                           target: KwArgs -> Outcome<R>, store: map<string, R>)
    requires Key(name, args, env) in store
    ensures Invoke(true, name, args, env, target, store)
         == Step(Returned(store[Key(name, args, env)]), store, false)
  {
  }

  /** Miss: the target runs once; what it returns is stored under the key and
      returned; an exception is passed on and nothing is stored. */
  lemma MissRunsTarget<R>(name: string, args: KwArgs, env: KeyEnv,
                          target: KwArgs -> Outcome<R>, store: map<string, R>)
    requires Key(name, args, env) !in store
    ensures var s := Invoke(true, name, args, env, target, store);
      && s.targetCalled
      && s.outcome == target(args)
      && (target(args).Returned? ==> s.store == store[Key(name, args, env) := target(args).value])
      && (target(args).Raised? ==> s.store == store)
  {
  }

  /** A second identical call after a successful first one is a hit: it
      returns the first call's value without running the target, even if the
      target would now return something else. */
  lemma SecondCallHits<R>(name: string, args: KwArgs, env: KeyEnv,
                          target1: KwArgs -> Outcome<R>, target2: KwArgs -> Outcome<R>,
                          store: map<string, R>)
    requires Invoke(true, name, args, env, target1, store).outcome.Returned?
    ensures var s1 := Invoke(true, name, args, env, target1, store);
            var s2 := Invoke(true, name, args, env, target2, s1.store);
      && !s2.targetCalled
      && s2.outcome == s1.outcome
      && s2.store == s1.store
  {
  }

  /** Calls that differ only in arguments the key ignores are served the
      same stored entry. */
  lemma EquivalentCallsShareEntry<R>(name: string, a1: KwArgs, a2: KwArgs, env: KeyEnv,
                                     target1: KwArgs -> Outcome<R>, target2: KwArgs -> Outcome<R>,
                                     store: map<string, R>)
    requires Key(name, a1, env) == Key(name, a2, env)
    requires Invoke(true, name, a1, env, target1, store).outcome.Returned?
    ensures var s1 := Invoke(true, name, a1, env, target1, store);
            var s2 := Invoke(true, name, a2, env, target2, s1.store);
      && !s2.targetCalled
      && s2.outcome == s1.outcome
  {
  }

  // ---------------------------------------------------------------------
  // Repeated calls
  // ---------------------------------------------------------------------

  /** The outcomes of a run of calls, the final store and how many times the
      wrapped method ran. */
  datatype Trace<R> = Trace(outcomes: seq<Outcome<R>>, store: map<string, R>, calls: nat)

  /** The same call made once per entry of `targets`; entry i is what the
      wrapped method would do at the time of the i-th call. */
  function Repeat<R>(cachingOn: bool, name: string, args: KwArgs, env: KeyEnv,
                     targets: seq<KwArgs -> Outcome<R>>, store: map<string, R>): (t: Trace<R>)
    ensures |t.outcomes| == |targets|
    ensures t.calls <= |targets|
    ensures Extends(store, t.store)
    decreases |targets|
  {
    if |targets| == 0 then Trace([], store, 0)
    else
      var s := Invoke(cachingOn, name, args, env, targets[0], store);
      var rest := Repeat(cachingOn, name, args, env, targets[1..], s.store);
      Trace([s.outcome] + rest.outcomes, rest.store, (if s.targetCalled then 1 else 0) + rest.calls)
  }

  /** Once an entry for the key exists, every later call returns it and the
      target never runs again. */
  lemma {:induction false} StoredEntryServesAll<R>(name: string, args: KwArgs, env: KeyEnv,
                                                   targets: seq<KwArgs -> Outcome<R>>,
                                                   store: map<string, R>)
    requires Key(name, args, env) in store
    ensures var t := Repeat(true, name, args, env, targets, store);
      && t.calls == 0
      && t.store == store
      && forall i :: 0 <= i < |targets| ==> t.outcomes[i] == Returned(store[Key(name, args, env)])
    decreases |targets|
  {
    if |targets| > 0 {
      StoredEntryServesAll(name, args, env, targets[1..], store);
    }
  }

  /** With caching on, a first call that returns runs the target, and every
      later identical call returns the same value: the target runs exactly
      once in total. */
  lemma TargetRunsOnce<R>(name: string, args: KwArgs, env: KeyEnv,
                          targets: seq<KwArgs -> Outcome<R>>, store: map<string, R>)
    requires |targets| > 0
    requires Key(name, args, env) !in store
    requires targets[0](args).Returned?
    ensures var t := Repeat(true, name, args, env, targets, store);
      && t.calls == 1
      && forall i :: 0 <= i < |targets| ==> t.outcomes[i] == targets[0](args)
  {
    var s := Invoke(true, name, args, env, targets[0], store);
    StoredEntryServesAll(name, args, env, targets[1..], s.store);
  }

  /** With caching off, every call runs the target, returns its outcome, and
      the store is never written. */
  lemma {:induction false} BypassRunsEveryCall<R>(name: string, args: KwArgs, env: KeyEnv,
                                                  targets: seq<KwArgs -> Outcome<R>>,
                                                  store: map<string, R>)
    ensures var t := Repeat(false, name, args, env, targets, store);
      && t.calls == |targets|
      && t.store == store
      && forall i :: 0 <= i < |targets| ==> t.outcomes[i] == targets[i](args)
    decreases |targets|
  {
    if |targets| > 0 {
      BypassRunsEveryCall(name, args, env, targets[1..], store);
    }
  }

  /** A raising first call caches nothing, so the next call runs the target
      again rather than being served a stale entry. */
  lemma FailureIsNotCached<R>(name: string, args: KwArgs, env: KeyEnv,
                              target1: KwArgs -> Outcome<R>, target2: KwArgs -> Outcome<R>,
                              store: map<string, R>)
    requires Key(name, args, env) !in store
    requires target1(args).Raised?
    ensures var s1 := Invoke(true, name, args, env, target1, store);
            var s2 := Invoke(true, name, args, env, target2, s1.store);
      && s1.outcome == target1(args)
      && s1.store == store
      && s2.targetCalled
      && s2.outcome == target2(args)
  {
  }
}
