/** The cached function as one caller sees it (src/cachau/decorator.py, `_wrap` and
  `CacheControl`): the store, the budget, the marker sets, the quarantine, the
  eviction ledger and the counters, updated in place by whole calls.

  The environment of a call is what it observes: two clock readings, the dependency
  fingerprints before and after the computation, what the function and the size
  estimate give, and whether the write lands.  The function, the second look at the
  dependencies and the second reading may raise instead.  `refuses(n)` says whether the `n`th
  delete ever attempted fails. */
module Control {
  import opened Dependencies
  import opened Ledgers
  import opened Policy
  import opened Wrappers
  import Protocol

  type Value(==, !new)

  datatype Entry = Entry(value: Value, created: int, expires: Option<int>, size: Option<nat>, deps: Fingerprints)

  datatype Tally = Tally(
    hits: nat, coalesced: nat, notFound: nat, expired: nat, invalidated: nat, dependencyChanged: nat,
    writes: nat, evictions: nat, oversized: nat, raceSkips: nat, sizeFailures: nat, writeErrors: nat,
    deleteErrors: nat, invalidations: nat, computes: nat)

  datatype Env = Env(
    clock: int, later: Option<int>, before: Fingerprints, after: Option<Fingerprints>,
    outcome: Option<Value>, size: Option<int>, writable: bool)

  datatype Reply = Cached(value: Value) | Computed(value: Value) | Raised

  datatype Reason = Found | Missing | Displaced | Condemned | Expired | Outdated

  /** What `explain` reports: a HIT when the reason is `Found`, else a MISS. */
  datatype Explanation = Explanation(reason: Reason, changed: seq<Label>)

  // ------------------------------------------------ deletes that may fail, on values

  /** From one store and ledger to the next, having tried to delete the evicted keys
    of `done` and remembered those whose delete failed. */
  ghost predicate Evicting(
      store: map<Key, Entry>, ledger: seq<Key>, store': map<Key, Entry>, ledger': seq<Key>, done: seq<Key>, dropped: bool)
  {
    && (forall k :: k in store' ==> k in store && store'[k] == store[k])
    && (forall k :: k in store ==> k in store' || k in done)
    && (forall k :: k in ledger' ==> k in ledger || k in done)
    && (!dropped ==> forall k :: k in ledger ==> k in ledger')
    && (!dropped ==> forall k :: k in done && k in store' ==> k in ledger')
  }

  /** The same for retried keys of the ledger: those deleted have left it. */
  ghost predicate Draining(
      store: map<Key, Entry>, ledger: seq<Key>, store': map<Key, Entry>, ledger': seq<Key>, done: seq<Key>)
  {
    && (forall k :: k in store' ==> k in store && store'[k] == store[k])
    && (forall k :: k in store ==> k in store' || (k in done && k !in ledger'))
    && (forall k :: k in ledger' ==> k in ledger)
    && (forall k :: k in ledger ==> k in ledger' || (k in done && k !in store'))
  }

  /** Every stored key is tracked with its size or in the ledger, and no key is both
    tracked and in the ledger. */
  ghost predicate Accounted(store: map<Key, Entry>, ledger: seq<Key>, slots: seq<Slot>) {
    && (forall k :: k in store ==> store[k].expires.None?)
    && (forall k :: k in store ==>
          k in ledger || (k in Sizes(slots) && store[k].size == Some(Sizes(slots)[k])))
    && (forall k :: k in ledger ==> k !in Sizes(slots))
  }

  lemma EvictionStep(
      store: map<Key, Entry>, ledger: seq<Key>, store1: map<Key, Entry>, ledger1: seq<Key>, done: seq<Key>, dropped: bool,
      key: Key, ok: bool)
    requires Evicting(store, ledger, store1, ledger1, done, dropped) && Once(ledger1)
    ensures ok ==> Evicting(store, ledger, store1 - {key}, ledger1, done + [key], dropped)
    ensures !ok ==>
      Evicting(store, ledger, store1, Remember(ledger1, key, LEDGER_CAP), done + [key],
               dropped || |Without(ledger1, key)| >= LEDGER_CAP)
  {
    RememberFacts(ledger1, key, LEDGER_CAP);
  }

  lemma DrainStep(
      store: map<Key, Entry>, ledger: seq<Key>, store1: map<Key, Entry>, ledger1: seq<Key>, done: seq<Key>, key: Key)
    requires Draining(store, ledger, store1, ledger1, done)
    ensures Draining(store, ledger, store1 - {key}, Without(ledger1, key), done + [key])
    ensures Draining(store, ledger, store1, ledger1, done + [key])
  {
    WithoutFacts(ledger1, key);
  }

  lemma CommitAccounts(
      store: map<Key, Entry>, ledger: seq<Key>, slots: seq<Slot>, key: Key, e: Entry, maxBytes: nat,
      store1: map<Key, Entry>, ledger1: seq<Key>)
    requires Distinct(slots) && Accounted(store, ledger, slots) && e.size.Some? && e.expires.None?
    requires Evicting(store[key := e], ledger, store1, ledger1, KeysOf(Evicted(slots, key, e.size.value, maxBytes)), false)
    ensures Accounted(store1, Without(ledger1, key), Admit(slots, key, e.size.value, maxBytes))
  {
    var gone := Evicted(slots, key, e.size.value, maxBytes);
    AdmitFacts(slots, key, e.size.value, maxBytes);
    WithoutFacts(ledger1, key);
    forall k ensures k in KeysOf(gone) <==> k in Sizes(gone) {
      KeysOfSizes(gone, k);
    }
  }

  lemma DrainAccounts(
      store: map<Key, Entry>, ledger: seq<Key>, slots: seq<Slot>, store1: map<Key, Entry>, ledger1: seq<Key>,
      done: seq<Key>)
    requires Accounted(store, ledger, slots) && Draining(store, ledger, store1, ledger1, done)
    ensures Accounted(store1, ledger1, slots)
  {
  }

  // -------------------------------------------------------------------- the class

  class CacheControl {
    const ttl: Option<int>
    const labels: seq<Label>
    const limit: Option<nat>
    const budget: LRUBudget
    const refuses: nat -> bool
    var store: map<Key, Entry>
    var invalidationMarkers: seq<Key>
    var evictionMarkers: seq<Key>
    var quarantine: set<Key>
    var ledger: seq<Key>
    var last: int
    var tally: Tally
    var attempts: nat
    /** Whether the ledger ever reached its cap and forgot a key. */
    ghost var dropped: bool

    ghost predicate Valid()
      reads this, budget
    {
      && budget.Valid() && Once(ledger)
      && (limit.Some? ==> budget.maxBytes == limit.value && Total(budget.Slots()) <= limit.value)
    }

    constructor (ttl: Option<int>, labels: seq<Label>, limit: Option<nat>, refuses: nat -> bool, start: int)
      ensures Valid() && fresh(budget)
      ensures store == map[] && ledger == [] && quarantine == {} && !dropped && budget.Slots() == []
      ensures this.ttl == ttl && this.labels == labels && this.limit == limit
      ensures limit.Some? && ttl.None? && labels == [] ==> Kept()
    {
      this.ttl, this.labels, this.limit, this.refuses := ttl, labels, limit, refuses;
      budget := new LRUBudget(if limit.Some? then limit.value else 0);
      store, invalidationMarkers, evictionMarkers, quarantine, ledger := map[], [], [], {}, [];
      last, attempts, dropped := start, 0, false;
      tally := Tally(0, 0, 0, 0, 0, 0, 0, 0, 0, 0, 0, 0, 0, 0, 0);
    }

    /** The entry a HIT would serve at a clock reading. */
    function Fresh(key: Key, now: int, deps: Fingerprints): Option<Entry>
      reads this
    {
      if key in quarantine || key !in store then None
      else if Protocol.IsExpired(store[key].expires, now) || (labels != [] && store[key].deps != deps) then None
      else Some(store[key])
    }

    /** Pure observation: what a call would do, and why.  `listing` is the order in
      which the labels were iterated. */
    function Explain(key: Key, clock: int, deps: Fingerprints, listing: seq<Label>): Explanation
      reads this
    {
      var now := Protocol.Clamp(last, clock);
      if key in quarantine then Explanation(Condemned, [])
      else if key !in store then
        Explanation(
          if key in invalidationMarkers then Condemned else if key in evictionMarkers then Displaced else Missing, [])
      else if Protocol.IsExpired(store[key].expires, now) then Explanation(Expired, [])
      else if labels != [] && store[key].deps != deps then
        Explanation(Outdated, ChangedLabels(listing, store[key].deps, deps))
      else Explanation(Found, [])
    }

    /** Two tallies agree on hits and on every miss reason. */
    static predicate SameClasses(a: Tally, b: Tally) {
      a.hits == b.hits && a.notFound == b.notFound && a.expired == b.expired && a.invalidated == b.invalidated
      && a.dependencyChanged == b.dependencyChanged
    }

    /** What each reason means, by the clock's reading or the last one if that is later. */
    lemma ReasonsMean(key: Key, clock: int, deps: Fingerprints, listing: seq<Label>)
      ensures var reason := Explain(key, clock, deps, listing).reason;
        var now := if clock > last then clock else last;
        var held, dead := key !in quarantine && key in store,
                          key in store && store[key].expires.Some? && store[key].expires.value <= now;
        && (reason == Found <==> held && !dead && (labels != [] ==> store[key].deps == deps))
        && (reason == Expired <==> held && dead)
        && (reason == Outdated <==> held && !dead && labels != [] && store[key].deps != deps)
        && (reason == Condemned <==> key in quarantine || (key !in store && key in invalidationMarkers))
        && (reason == Displaced <==>
              key !in quarantine && key !in store && key !in invalidationMarkers && key in evictionMarkers)
        && (reason == Missing <==>
              key !in quarantine && key !in store && key !in invalidationMarkers && key !in evictionMarkers)
    {
    }

    /** Two tallies agree on why results were not cached, and on invalidations. */
    static predicate SameSkips(a: Tally, b: Tally) {
      a.oversized == b.oversized && a.raceSkips == b.raceSkips && a.sizeFailures == b.sizeFailures
      && a.writeErrors == b.writeErrors && a.invalidations == b.invalidations
    }

    /** The labels reported changed are not empty exactly when that is the reason. */
    lemma ExplainNamesChanges(key: Key, clock: int, states: Label -> string, listing: seq<Label>)
      requires key in store && Lists(listing, store[key].deps, Fingerprint(labels, states))
      ensures var x := Explain(key, clock, Fingerprint(labels, states), listing);
        x.changed != [] <==> x.reason == Outdated
    {
      if labels != [] {
        ChangedWhenDifferent(listing, store[key].deps, labels, states);
      }
    }

    // ------------------------------------------------------------------- deletes

    method Delete(key: Key) returns (ok: bool)
      modifies this`store, this`attempts
      ensures attempts == old(attempts) + 1 && ok == !refuses(old(attempts))
      ensures store == if ok then old(store) - {key} else old(store)
    {
      ok := !refuses(attempts);
      attempts := attempts + 1;
      if ok {
        store := store - {key};
      }
    }

    method SafeDelete(key: Key)
      modifies this`store, this`attempts, this`tally
      ensures attempts == old(attempts) + 1
      ensures store == if refuses(old(attempts)) then old(store) else old(store) - {key}
      ensures tally
        == if refuses(old(attempts)) then old(tally).(deleteErrors := old(tally).deleteErrors + 1) else old(tally)
    {
      var ok := Delete(key);
      if !ok {
        tally := tally.(deleteErrors := tally.deleteErrors + 1);
      }
    }

    // -------------------------------------------------------------------- lookups

    method FreshEntry(key: Key, clock: int, deps: Fingerprints) returns (entry: Option<Entry>)
      modifies this`last
      ensures entry == old(Fresh(key, Protocol.Clamp(last, clock), deps))
      ensures last == if key in quarantine || key !in store then old(last) else Protocol.Clamp(old(last), clock)
    {
      if key in quarantine || key !in store {
        return None;
      }
      var found := store[key];
      last := Protocol.Clamp(last, clock);
      if Protocol.IsExpired(found.expires, last) || (labels != [] && found.deps != deps) {
        return None;
      }
      entry := if key in quarantine then None else Some(found);
    }

    method ServeIfFresh(key: Key, clock: int, deps: Fingerprints, coalesced: bool) returns (served: Option<Value>)
      requires Valid()
      modifies this`last, this`tally, budget
      ensures Valid()
      ensures var e := old(Fresh(key, Protocol.Clamp(last, clock), deps));
        if e.Some? then
          served == Some(e.value.value)
          && tally == old(tally).(hits := old(tally).hits + 1,
                                  coalesced := old(tally).coalesced + if coalesced then 1 else 0)
          && budget.Slots() == if limit.Some? then Touch(old(budget.Slots()), key) else old(budget.Slots())
        else served.None? && tally == old(tally) && budget.Slots() == old(budget.Slots())
      ensures last == if key in quarantine || key !in store then old(last) else Protocol.Clamp(old(last), clock)
    {
      var entry := FreshEntry(key, clock, deps);
      if entry.None? {
        return None;
      }
      if limit.Some? {
        TouchFacts(budget.Slots(), key);
        budget.TouchKey(key);
      }
      tally := tally.(hits := tally.hits + 1, coalesced := tally.coalesced + if coalesced then 1 else 0);
      served := Some(entry.value.value);
    }

    // --------------------------------------------------------------------- misses

    /** Attribute a miss: what the entry found unservable was, and its removal. */
    method Classify(key: Key, clock: int)
      requires Valid()
      modifies this`store, this`attempts, this`quarantine, this`invalidationMarkers, this`last, this`tally, budget
      ensures Valid()
      ensures var gone := (old(key in quarantine) || old(key in store)) && !refuses(old(attempts));
        && store == (if gone then old(store) - {key} else old(store))
        && quarantine == (if gone then old(quarantine) - {key} else old(quarantine))
      ensures budget.Slots()
        == if limit.Some? && (old(key in quarantine) || old(key in store)) then Forget(old(budget.Slots()), key)
           else old(budget.Slots())
      ensures tally.computes == old(tally).computes && tally.writes == old(tally).writes && SameSkips(tally, old(tally))
      ensures var tried := old(key in quarantine) || old(key in store);
        && attempts == old(attempts) + (if tried then 1 else 0)
        && tally.deleteErrors == old(tally).deleteErrors + (if tried && refuses(old(attempts)) then 1 else 0)
      ensures var now := if clock > old(last) then clock else old(last);
        var held := key !in old(quarantine) && key in old(store);
        var dead := held && old(store)[key].expires.Some? && old(store)[key].expires.value <= now;
        var marked := key in old(quarantine) || (key !in old(store) && key in old(invalidationMarkers));
        && tally.hits == old(tally).hits
        && tally.expired == old(tally).expired + (if dead then 1 else 0)
        && tally.dependencyChanged == old(tally).dependencyChanged + (if held && !dead then 1 else 0)
        && tally.invalidated == old(tally).invalidated + (if marked then 1 else 0)
        && tally.notFound == old(tally).notFound + (if !held && !marked then 1 else 0)
        && last == (if held then now else old(last))
        && invalidationMarkers
             == (if held || key in old(quarantine) then old(invalidationMarkers)
                 else Without(old(invalidationMarkers), key))
    {
      if key in quarantine {
        var ok := Delete(key);
        if ok {
          quarantine := quarantine - {key};
        } else {
          tally := tally.(deleteErrors := tally.deleteErrors + 1);
        }
        ForgetSlot(key);
        tally := tally.(invalidated := tally.invalidated + 1);
      } else if key in store {
        var entry := store[key];
        SafeDelete(key);
        ForgetSlot(key);
        last := Protocol.Clamp(last, clock);
        if Protocol.IsExpired(entry.expires, last) {
          tally := tally.(expired := tally.expired + 1);
        } else {
          tally := tally.(dependencyChanged := tally.dependencyChanged + 1);
        }
      } else {
        var marked := key in invalidationMarkers;
        invalidationMarkers := Without(invalidationMarkers, key);
        if marked {
          tally := tally.(invalidated := tally.invalidated + 1);
        } else {
          tally := tally.(notFound := tally.notFound + 1);
        }
      }
    }

    method ForgetSlot(key: Key)
      requires Valid()
      modifies budget
      ensures Valid()
      ensures budget.Slots() == if limit.Some? then Forget(old(budget.Slots()), key) else old(budget.Slots())
    {
      if limit.Some? {
        ForgetFacts(budget.Slots(), key);
        budget.ForgetKey(key);
      }
    }

    // -------------------------------------------------------------------- commits

    /** Whether every delete attempted so far since `from` went through. */
    ghost predicate AllDeleted(from: nat)
      reads this
    {
      forall n :: from <= n < attempts ==> !refuses(n)
    }

    /** How many of that many attempts from `from` on are refused. */
    ghost function Refusals(from: nat, count: nat): nat {
      if count == 0 then 0 else Refusals(from, count - 1) + if refuses(from + count - 1) then 1 else 0
    }

    /** The delete of one evicted key; a failed one is counted and remembered. */
    method EvictDelete(key: Key, ghost done: seq<Key>, ghost from: map<Key, Entry>, ghost before: seq<Key>)
      requires Once(ledger) && Evicting(from, before, store, ledger, done, dropped)
      modifies this`store, this`attempts, this`ledger, this`tally, this`dropped
      ensures Once(ledger) && Evicting(from, before, store, ledger, done + [key], dropped)
      ensures attempts == old(attempts) + 1 && (old(dropped) ==> dropped)
      ensures !refuses(old(attempts)) ==>
        ledger == old(ledger) && store == old(store) - {key} && dropped == old(dropped)
      ensures refuses(old(attempts)) ==> store == old(store) && ledger == Remember(old(ledger), key, LEDGER_CAP)
      ensures tally == old(tally).(deleteErrors := old(tally).deleteErrors + if refuses(old(attempts)) then 1 else 0)
    {
      EvictionStep(from, before, store, ledger, done, dropped, key, !refuses(attempts));
      var ok := Delete(key);
      if !ok {
        RememberFacts(ledger, key, LEDGER_CAP);
        tally := tally.(deleteErrors := tally.deleteErrors + 1);
        dropped := dropped || |Without(ledger, key)| >= LEDGER_CAP;
        ledger := Note(ledger, key, LEDGER_CAP);
      }
    }

    /** One eviction: the delete, its counter and the marker. */
    method EvictOne(key: Key, ghost done: seq<Key>, ghost from: map<Key, Entry>, ghost before: seq<Key>)
      requires Once(ledger) && Evicting(from, before, store, ledger, done, dropped)
      modifies this`store, this`attempts, this`ledger, this`tally, this`dropped, this`evictionMarkers
      ensures Once(ledger) && Evicting(from, before, store, ledger, done + [key], dropped)
      ensures attempts == old(attempts) + 1 && (old(dropped) ==> dropped)
      ensures !refuses(old(attempts)) ==>
        ledger == old(ledger) && store == old(store) - {key} && dropped == old(dropped)
      ensures refuses(old(attempts)) ==> store == old(store) && ledger == Remember(old(ledger), key, LEDGER_CAP)
      ensures evictionMarkers == Remember(old(evictionMarkers), key, MARKER_CAP)
      ensures tally == old(tally).(evictions := old(tally).evictions + 1,
                                   deleteErrors := old(tally).deleteErrors + if refuses(old(attempts)) then 1 else 0)
    {
      EvictDelete(key, done, from, before);
      tally := tally.(evictions := tally.evictions + 1);
      evictionMarkers := Note(evictionMarkers, key, MARKER_CAP);
    }

    /** Delete the evicted keys, oldest first, marking each. */
    method EvictAll(victims: seq<Key>)
      requires Once(ledger)
      modifies this`store, this`attempts, this`ledger, this`tally, this`dropped, this`evictionMarkers
      ensures Once(ledger) && Evicting(old(store), old(ledger), store, ledger, victims, dropped)
      ensures attempts == old(attempts) + |victims| && (old(dropped) ==> dropped)
      ensures AllDeleted(old(attempts)) ==> ledger == old(ledger) && dropped == old(dropped)
      ensures AllDeleted(old(attempts)) ==> store == old(store) - set k | k in victims
      ensures evictionMarkers == RememberAll(old(evictionMarkers), victims, MARKER_CAP)
      ensures SameClasses(tally, old(tally)) && SameSkips(tally, old(tally)) && tally.computes == old(tally).computes
        && tally.writes == old(tally).writes && tally.evictions == old(tally).evictions + |victims|
      ensures tally.deleteErrors == old(tally).deleteErrors + Refusals(old(attempts), |victims|)
    {
      ghost var done: seq<Key> := [];
      for i := 0 to |victims|
        invariant done == victims[..i] && Once(ledger)
        invariant Evicting(old(store), old(ledger), store, ledger, done, dropped)
        invariant attempts == old(attempts) + i && (old(dropped) ==> dropped)
        invariant AllDeleted(old(attempts)) ==> ledger == old(ledger) && dropped == old(dropped)
        invariant AllDeleted(old(attempts)) ==> store == old(store) - set k | k in done
        invariant evictionMarkers == RememberAll(old(evictionMarkers), done, MARKER_CAP)
        invariant SameClasses(tally, old(tally)) && SameSkips(tally, old(tally)) && tally.computes == old(tally).computes
          && tally.writes == old(tally).writes && tally.evictions == old(tally).evictions + i
        invariant tally.deleteErrors == old(tally).deleteErrors + Refusals(old(attempts), i)
      {
        EvictOne(victims[i], done, old(store), old(ledger));
        assert victims[..i + 1] == victims[..i] + [victims[i]];
        assert (done + [victims[i]])[..|done|] == done;
        done := done + [victims[i]];
      }
      assert done == victims;
    }

    /** Retry one delete of the ledger; a failed one stays there. */
    method DrainOne(key: Key, ghost done: seq<Key>, ghost from: map<Key, Entry>, ghost before: seq<Key>)
      requires Once(ledger) && Draining(from, before, store, ledger, done)
      modifies this`store, this`attempts, this`ledger
      ensures Once(ledger) && Draining(from, before, store, ledger, done + [key])
      ensures attempts == old(attempts) + 1
      ensures !refuses(old(attempts)) ==> ledger == Without(old(ledger), key) && store == old(store) - {key}
      ensures |ledger| <= |old(ledger)|
    {
      DrainStep(from, before, store, ledger, done, key);
      WithoutFacts(ledger, key);
      var ok := Delete(key);
      if ok {
        ledger := Without(ledger, key);
      }
    }

    /** Retry the oldest few deletes the ledger remembers. */
    method Drain(current: Key)
      requires Once(ledger)
      modifies this`store, this`attempts, this`ledger
      ensures Once(ledger) && Draining(old(store), old(ledger), store, ledger, Batch(old(ledger), current))
      ensures attempts == old(attempts) + |Batch(old(ledger), current)| && |ledger| <= |old(ledger)|
      ensures AllDeleted(old(attempts)) ==>
        && |ledger| == |old(ledger)| - |Batch(old(ledger), current)|
        && store == old(store) - set k | k in Batch(old(ledger), current)
    {
      var batch := Batch(ledger, current);
      BatchFacts(ledger, current);
      ghost var done: seq<Key> := [];
      for i := 0 to |batch|
        invariant done == batch[..i] && Once(ledger)
        invariant Draining(old(store), old(ledger), store, ledger, done)
        invariant attempts == old(attempts) + i && |ledger| <= |old(ledger)|
        invariant AllDeleted(old(attempts)) ==> |ledger| == |old(ledger)| - i && store == old(store) - set k | k in done
      {
        OnceNext(batch, i);
        WithoutFacts(ledger, batch[i]);
        assert batch[i] in ledger;
        DrainOne(batch[i], done, old(store), old(ledger));
        done := done + [batch[i]];
      }
      assert done == batch;
    }

    /** The dependencies are seen to have changed while the function ran. */
    predicate Raced(env: Env) {
      labels != [] && env.after.Some? && env.after.value != env.before
    }

    /** A commit raises: the dependencies cannot be observed again, or, when they have
      not changed, the clock cannot be read. */
    predicate CommitRaises(env: Env) {
      (labels != [] && env.after.None?) || (!Raced(env) && env.later.None?)
    }

    /** The commit reads the clock: nothing has raised, and no dependency has changed. */
    predicate Stamps(env: Env) {
      (labels != [] ==> env.after == Some(env.before)) && env.later.Some?
    }

    /** The result can be stamped and fits the limit. */
    predicate Fits(env: Env) {
      Stamps(env) && (limit.Some? ==> env.size.Some? && 0 <= env.size.value <= limit.value)
    }

    /** The result is written: it fits, and the write lands. */
    predicate Commits(env: Env) {
      Fits(env) && env.writable
    }

    /** The keys an admission of that many bytes evicts. */
    ghost function Victims(key: Key, size: Option<int>): seq<Key>
      reads this, budget
    {
      if limit.Some? && size.Some? && size.value >= 0 then
        KeysOf(Evicted(budget.Slots(), key, size.value, limit.value))
      else []
    }

    /** Every stored key is tracked or in the ledger, never both; the function has no
      TTL, no dependencies and nothing in quarantine. */
    ghost predicate Kept()
      reads this, budget
    {
      && limit.Some? && ttl.None? && labels == [] && quarantine == {}
      && Accounted(store, ledger, budget.Slots())
    }

    /** The write landed: admit the key, delete what that evicts, and forget any
      pending delete of the key itself. */
    method AdmitEntry(key: Key, e: Entry, ghost before: map<Key, Entry>)
      requires Valid() && store == before[key := e] && (limit.Some? ==> e.size.Some? && e.size.value <= limit.value)
      modifies this`store, this`attempts, this`ledger, this`tally, this`dropped, this`evictionMarkers, budget
      ensures Valid() && key in store && store[key] == e && key !in ledger
      ensures forall k :: k in store ==> k in old(store) && store[k] == old(store)[k]
      ensures forall k :: k in old(store) && k !in store ==> k in old(Victims(key, e.size))
      ensures forall k :: k in ledger ==> k in old(ledger) || k in old(Victims(key, e.size))
      ensures budget.Slots()
        == if limit.Some? then Admit(old(budget.Slots()), key, e.size.value, limit.value) else old(budget.Slots())
      ensures old(dropped) ==> dropped
      ensures limit.Some? && e.expires.None? && Accounted(before, old(ledger), old(budget.Slots())) && !dropped ==>
        Accounted(store, ledger, budget.Slots())
      ensures AllDeleted(old(attempts)) ==> |ledger| <= |old(ledger)|
      ensures attempts >= old(attempts)
      ensures evictionMarkers == RememberAll(old(evictionMarkers), old(Victims(key, e.size)), MARKER_CAP)
      ensures SameClasses(tally, old(tally)) && SameSkips(tally, old(tally)) && tally.computes == old(tally).computes
        && tally.writes == old(tally).writes && tally.evictions == old(tally).evictions + |old(Victims(key, e.size))|
    {
      WithoutFacts(ledger, key);
      ghost var victims := Victims(key, e.size);
      if limit.Some? {
        ghost var gone := Evicted(budget.Slots(), key, e.size.value, limit.value);
        AdmitFacts(budget.Slots(), key, e.size.value, limit.value);
        KeysOfSizes(gone, key);
        var evicted := budget.AdmitKey(key, e.size.value);
        assert evicted == victims;
        EvictAll(evicted);
        AdmissionAccounts(before, old(ledger), old(budget.Slots()), key, e);
      }
      WithoutFacts(ledger, key);
      ledger := Without(ledger, key);
    }

    /** With failing deletes remembered, the admission keeps account. */
    lemma AdmissionAccounts(before: map<Key, Entry>, pending: seq<Key>, slots: seq<Slot>, key: Key, e: Entry)
      requires limit.Some? && Distinct(slots) && e.size.Some?
      requires Evicting(before[key := e], pending, store, ledger, KeysOf(Evicted(slots, key, e.size.value, limit.value)),
                        dropped)
      ensures e.expires.None? && Accounted(before, pending, slots) && !dropped ==>
        Accounted(store, Without(ledger, key), Admit(slots, key, e.size.value, limit.value))
    {
      if e.expires.None? && Accounted(before, pending, slots) && !dropped {
        CommitAccounts(before, pending, slots, key, e, limit.value, store, ledger);
      }
    }

    /** A commit whose write landed, up to its record. */
    method Settle(key: Key, e: Entry, ghost before: map<Key, Entry>)
      requires Valid() && store == before[key := e] && (limit.Some? ==> e.size.Some? && e.size.value <= limit.value)
      modifies this`store, this`attempts, this`ledger, this`tally, this`dropped, this`evictionMarkers, budget
      ensures Valid() && key in store && store[key] == e && key !in ledger
      ensures forall k :: k in store ==> k in old(store) && store[k] == old(store)[k]
      ensures forall k :: k in old(store) && k !in store ==> k in old(ledger) || k in old(Victims(key, e.size))
      ensures forall k :: k in ledger ==> k in old(ledger) || k in old(Victims(key, e.size))
      ensures budget.Slots()
        == if limit.Some? then Admit(old(budget.Slots()), key, e.size.value, limit.value) else old(budget.Slots())
      ensures old(dropped) ==> dropped
      ensures limit.Some? && e.expires.None? && Accounted(before, old(ledger), old(budget.Slots())) && !dropped ==>
        Accounted(store, ledger, budget.Slots())
      ensures AllDeleted(old(attempts)) ==>
        |ledger| <= |old(ledger)| - (if |old(ledger)| < BATCH then |old(ledger)| else BATCH)
      ensures evictionMarkers == RememberAll(old(evictionMarkers), old(Victims(key, e.size)), MARKER_CAP)
      ensures SameClasses(tally, old(tally)) && SameSkips(tally, old(tally)) && tally.computes == old(tally).computes
        && tally.writes == old(tally).writes && tally.evictions == old(tally).evictions + |old(Victims(key, e.size))|
    {
      AdmitEntry(key, e, before);
      ghost var settled, pending := store, ledger;
      WithoutFacts(ledger, key);
      BatchFacts(ledger, key);
      Drain(key);
      if Accounted(settled, pending, budget.Slots()) {
        DrainAccounts(settled, pending, budget.Slots(), store, ledger, Batch(pending, key));
      }
    }

    /** Stamp and size a computed result, or decide not to cache it, or raise. */
    method Prepare(value: Value, env: Env) returns (e: Option<Entry>, raised: bool)
      requires Valid()
      modifies this`tally, this`last
      ensures Valid() && raised == CommitRaises(env)
      ensures last == if Stamps(env) && env.later.value > old(last) then env.later.value else old(last)
      ensures e
        == if Fits(env) then
             Some(Entry(value, last, if ttl.Some? then Some(last + ttl.value) else None,
                        if limit.Some? then Some(env.size.value) else None, env.before))
           else None
      ensures raised ==> tally == old(tally)
      ensures tally.raceSkips == old(tally).raceSkips + (if Raced(env) then 1 else 0)
      ensures tally.sizeFailures == old(tally).sizeFailures
        + (if Stamps(env) && limit.Some? && (env.size.None? || env.size.value < 0) then 1 else 0)
      ensures tally.oversized == old(tally).oversized
        + (if Stamps(env) && limit.Some? && env.size.Some? && env.size.value > limit.value then 1 else 0)
      ensures tally.writeErrors == old(tally).writeErrors
      ensures SameClasses(tally, old(tally)) && tally.computes == old(tally).computes
        && tally.writes == old(tally).writes && tally.evictions == old(tally).evictions
    {
      if labels != [] {
        if env.after.None? {
          return None, true;
        }
        if env.after.value != env.before {
          tally := tally.(raceSkips := tally.raceSkips + 1);
          return None, false;
        }
      }
      if env.later.None? {
        return None, true;
      }
      last := Protocol.Clamp(last, env.later.value);
      var expires := if ttl.Some? then Some(last + ttl.value) else None;
      if limit.None? {
        return Some(Entry(value, last, expires, None, env.before)), false;
      }
      if env.size.None? || env.size.value < 0 {
        tally := tally.(sizeFailures := tally.sizeFailures + 1);
        return None, false;
      }
      if !budget.Fits(env.size.value) {
        tally := tally.(oversized := tally.oversized + 1);
        return None, false;
      }
      return Some(Entry(value, last, expires, Some(env.size.value), env.before)), false;
    }

    /** A write that lands, and what follows it. */
    method Write(key: Key, e: Entry)
      requires Valid() && (limit.Some? ==> e.size.Some? && e.size.value <= limit.value)
      modifies this`store, this`attempts, this`ledger, this`tally, this`dropped, this`evictionMarkers, this`quarantine
      modifies budget
      ensures Valid() && key in store && store[key] == e && key !in ledger && quarantine == old(quarantine) - {key}
      ensures forall k :: k in store && k != key ==> k in old(store) && store[k] == old(store)[k]
      ensures forall k :: k in old(store) && k !in store ==> k in old(ledger) || k in old(Victims(key, e.size))
      ensures budget.Slots()
        == if limit.Some? then Admit(old(budget.Slots()), key, e.size.value, limit.value) else old(budget.Slots())
      ensures evictionMarkers == Without(RememberAll(old(evictionMarkers), old(Victims(key, e.size)), MARKER_CAP), key)
      ensures tally.writes == old(tally).writes + 1
        && tally.evictions == old(tally).evictions + |old(Victims(key, e.size))|
      ensures SameClasses(tally, old(tally)) && SameSkips(tally, old(tally)) && tally.computes == old(tally).computes
      ensures old(Kept()) && e.expires.None? && !dropped ==> Kept()
      ensures AllDeleted(old(attempts)) ==>
        |ledger| <= |old(ledger)| - (if |old(ledger)| < BATCH then |old(ledger)| else BATCH)
    {
      ghost var before := store;
      store := store[key := e];
      Settle(key, e, before);
      tally := tally.(writes := tally.writes + 1);
      quarantine := quarantine - {key};
      evictionMarkers := Without(evictionMarkers, key);
    }

    /** Store a computed result, or skip caching when it cannot be trusted. */
    method Commit(key: Key, value: Value, env: Env) returns (written: bool, raised: bool)
      requires Valid()
      modifies this`store, this`attempts, this`ledger, this`tally, this`dropped, this`evictionMarkers, this`quarantine
      modifies this`last, budget
      ensures Valid() && written == Commits(env) && raised == CommitRaises(env)
      ensures raised ==> tally == old(tally)
      ensures tally.raceSkips == old(tally).raceSkips + (if Raced(env) then 1 else 0)
      ensures tally.sizeFailures == old(tally).sizeFailures
        + (if Stamps(env) && limit.Some? && (env.size.None? || env.size.value < 0) then 1 else 0)
      ensures tally.oversized == old(tally).oversized
        + (if Stamps(env) && limit.Some? && env.size.Some? && env.size.value > limit.value then 1 else 0)
      ensures tally.writeErrors == old(tally).writeErrors + (if Fits(env) && !env.writable then 1 else 0)
      ensures evictionMarkers
        == if written then Without(RememberAll(old(evictionMarkers), old(Victims(key, env.size)), MARKER_CAP), key)
           else old(evictionMarkers)
      ensures last == if Stamps(env) && env.later.value > old(last) then env.later.value else old(last)
      ensures written ==>
        && key in store
        && store[key] == Entry(value, last, if ttl.Some? then Some(last + ttl.value) else None,
                               if limit.Some? then Some(env.size.value) else None, env.before)
        && key !in ledger && quarantine == old(quarantine) - {key}
        && (forall k :: k in store && k != key ==> k in old(store) && store[k] == old(store)[k])
        && (forall k :: k in old(store) && k !in store ==> k in old(ledger) || k in old(Victims(key, env.size)))
        && budget.Slots() == (if limit.Some? then Admit(old(budget.Slots()), key, store[key].size.value, limit.value)
                              else old(budget.Slots()))
      ensures !written ==>
        && store == old(store) && ledger == old(ledger) && quarantine == old(quarantine)
        && budget.Slots() == old(budget.Slots()) && dropped == old(dropped)
      ensures tally.writes == old(tally).writes + if written then 1 else 0
      ensures written ==> tally.evictions == old(tally).evictions + |old(Victims(key, env.size))|
      ensures SameClasses(tally, old(tally)) && tally.computes == old(tally).computes
      ensures old(Kept()) && !dropped ==> Kept()
      ensures written && AllDeleted(old(attempts)) ==>
        |ledger| <= |old(ledger)| - (if |old(ledger)| < BATCH then |old(ledger)| else BATCH)
    {
      var e: Option<Entry>;
      e, raised := Prepare(value, env);
      if e.None? {
        return false, raised;
      }
      if !env.writable {
        tally := tally.(writeErrors := tally.writeErrors + 1);
        return false, false;
      }
      Write(key, e.value);
      written := true;
    }

    // ---------------------------------------------------------------- whole calls

    /** A miss writes its result: the function returned, and its commit goes through. */
    predicate Writes(env: Env) {
      env.outcome.Some? && Commits(env)
    }

    /** What a miss answers with: the function's value, unless the function or the commit
      raises. */
    function Outcome(env: Env): Reply {
      if env.outcome.None? || CommitRaises(env) then Raised else Computed(env.outcome.value)
    }

    /** When a miss raises, is written, or is skipped and why, by what it observes. */
    lemma OutcomesMean(env: Env)
      ensures var returned := env.outcome.Some?;
        var same := labels == [] || env.after == Some(env.before);
        var moved := labels != [] && env.after.Some? && env.after != Some(env.before);
        var fits := limit.None? || (env.size.Some? && 0 <= env.size.value <= limit.value);
        && (Writes(env) <==> returned && same && env.later.Some? && fits && env.writable)
        && (Outcome(env).Raised? <==>
              !returned || (labels != [] && env.after.None?) || (same && env.later.None?))
        && (Raced(env) <==> moved)
        && (Fits(env) <==> same && env.later.Some? && fits)
        && (Stamps(env) <==> same && env.later.Some?)
      ensures !Outcome(env).Raised? ==> Outcome(env) == Computed(env.outcome.value)
    {
    }

    /** Results computed and not cached. */
    static function Unwritten(t: Tally): nat {
      t.raceSkips + t.sizeFailures + t.oversized + t.writeErrors
    }

    /** Run the function and commit what it returned. */
    method Run(key: Key, env: Env) returns (r: Reply)
      requires Valid()
      modifies this, budget
      ensures Valid() && r == Outcome(env)
      ensures SameClasses(tally, old(tally))
      ensures tally.computes == old(tally).computes + if env.outcome.Some? then 1 else 0
      ensures tally.writes + Unwritten(tally) == old(tally.writes + Unwritten(tally)) + if r.Computed? then 1 else 0
      ensures tally.writes == old(tally).writes + if Writes(env) then 1 else 0
      ensures last
        == if env.outcome.Some? && Stamps(env) && env.later.value > old(last) then env.later.value else old(last)
      ensures Writes(env) ==>
        && key in store && key !in ledger && quarantine == old(quarantine) - {key}
        && store[key] == Entry(env.outcome.value, last, if ttl.Some? then Some(last + ttl.value) else None,
                               if limit.Some? then Some(env.size.value) else None, env.before)
        && (forall k :: k in store && k != key ==> k in old(store) && store[k] == old(store)[k])
        && (forall k :: k in old(store) && k !in store ==> k in old(ledger) || k in old(Victims(key, env.size)))
        && budget.Slots() == if limit.Some? then Admit(old(budget.Slots()), key, env.size.value, limit.value)
                             else old(budget.Slots())
      ensures !Writes(env) ==>
        && store == old(store) && ledger == old(ledger) && quarantine == old(quarantine)
        && budget.Slots() == old(budget.Slots()) && dropped == old(dropped)
      ensures old(Kept()) && !dropped ==> Kept()
      ensures Writes(env) && AllDeleted(old(attempts)) ==>
        |ledger| <= |old(ledger)| - (if |old(ledger)| < BATCH then |old(ledger)| else BATCH)
    {
      if env.outcome.None? {
        return Raised;
      }
      tally := tally.(computes := tally.computes + 1);
      assert Victims(key, env.size) == old(Victims(key, env.size));
      assert old(Kept()) ==> Kept();
      var _, raised := Commit(key, env.outcome.value, env);
      r := if raised then Raised else Computed(env.outcome.value);
    }

    /** Classify the miss, run the function, commit what it returned. */
    method Compute(key: Key, env: Env) returns (r: Reply)
      requires Valid()
      modifies this, budget
      ensures Valid() && r == Outcome(env)
      ensures var now := if env.clock > old(last) then env.clock else old(last);
        var held := key !in old(quarantine) && key in old(store);
        var dead := held && old(store)[key].expires.Some? && old(store)[key].expires.value <= now;
        var marked := key in old(quarantine) || (key !in old(store) && key in old(invalidationMarkers));
        && tally.hits == old(tally).hits
        && tally.expired == old(tally).expired + (if dead then 1 else 0)
        && tally.dependencyChanged == old(tally).dependencyChanged + (if held && !dead then 1 else 0)
        && tally.invalidated == old(tally).invalidated + (if marked then 1 else 0)
        && tally.notFound == old(tally).notFound + (if !held && !marked then 1 else 0)
        && var looked := if held then now else old(last);
           last == if env.outcome.Some? && Stamps(env) && env.later.value > looked then env.later.value else looked
      ensures tally.computes == old(tally).computes + if env.outcome.Some? then 1 else 0
      ensures tally.writes + Unwritten(tally) == old(tally.writes + Unwritten(tally)) + if r.Computed? then 1 else 0
      ensures tally.writes == old(tally).writes + if Writes(env) then 1 else 0
      ensures Writes(env) ==>
        && key in store && key !in quarantine && key !in ledger
        && store[key] == Entry(env.outcome.value, last, if ttl.Some? then Some(last + ttl.value) else None,
                               if limit.Some? then Some(env.size.value) else None, env.before)
        && (forall k :: k in old(store) && k !in store ==> k in old(ledger) || k in old(Victims(key, env.size)))
        && budget.Slots() == if limit.Some? then Admit(old(budget.Slots()), key, env.size.value, limit.value)
                             else old(budget.Slots())
      ensures !Writes(env) ==>
        && store == (if refuses(old(attempts)) then old(store) else old(store) - {key})
        && ledger == old(ledger)
        && budget.Slots() == if limit.Some? && (key in old(quarantine) || key in old(store))
                             then Forget(old(budget.Slots()), key) else old(budget.Slots())
      ensures forall k :: k in store && k != key ==> k in old(store) && store[k] == old(store)[k]
      ensures forall k :: k != key ==> (k in quarantine <==> k in old(quarantine))
      ensures old(Kept()) && key !in old(store) && !dropped ==> Kept()
      ensures Writes(env) && AllDeleted(old(attempts)) ==>
        |ledger| <= |old(ledger)| - (if |old(ledger)| < BATCH then |old(ledger)| else BATCH)
    {
      Classify(key, env.clock);
      ForgetTwice(old(budget.Slots()), key);
      assert Victims(key, env.size) == old(Victims(key, env.size));
      assert limit.Some? && Fits(env) ==>
        Admit(budget.Slots(), key, env.size.value, limit.value)
        == Admit(old(budget.Slots()), key, env.size.value, limit.value);
      r := Run(key, env);
    }

    /** The check without the lock, and the one under it: a call alone is served by the
      first if at all. */
    method Serve(key: Key, env: Env) returns (served: Option<Value>)
      requires Valid()
      modifies this`last, this`tally, budget
      ensures Valid()
      ensures var now := if env.clock > old(last) then env.clock else old(last);
        && last == (if key !in quarantine && key in store then now else old(last))
        && (served.Some? <==>
              && key !in quarantine && key in store
              && (store[key].expires.Some? ==> now < store[key].expires.value)
              && (labels != [] ==> store[key].deps == env.before))
      ensures served.Some? ==>
        && served.value == store[key].value && tally == old(tally).(hits := old(tally).hits + 1)
        && budget.Slots() == if limit.Some? then Touch(old(budget.Slots()), key) else old(budget.Slots())
      ensures served.None? ==> tally == old(tally) && budget.Slots() == old(budget.Slots())
    {
      served := ServeIfFresh(key, env.clock, env.before, false);
      if served.None? {
        served := ServeIfFresh(key, env.clock, env.before, true);
      }
    }

    /** A call does what `explain` said at the same reading and fingerprints: it is
      served exactly when the reason is `Found`, and otherwise executes the function
      and bumps the one counter of the reason.  Without TTL, dependencies and
      quarantine the ledger keeps account of every stored key, whatever deletes fail,
      until its cap drops one; and a commit all of whose deletes go through shortens
      the ledger by a batch. */
    method Call(key: Key, env: Env, ghost listing: seq<Label>) returns (r: Reply)
      requires Valid()
      modifies this, budget
      ensures Valid()
      ensures r.Cached? <==> old(Explain(key, env.clock, env.before, listing)).reason == Found
      ensures var now := if env.clock > old(last) then env.clock else old(last);
        r.Cached? <==>
          && key !in old(quarantine) && key in old(store)
          && (old(store)[key].expires.Some? ==> now < old(store)[key].expires.value)
          && (labels != [] ==> old(store)[key].deps == env.before)
      ensures var reason := old(Explain(key, env.clock, env.before, listing)).reason;
        && tally.hits == old(tally).hits + (if reason == Found then 1 else 0)
        && tally.expired == old(tally).expired + (if reason == Expired then 1 else 0)
        && tally.dependencyChanged == old(tally).dependencyChanged + (if reason == Outdated then 1 else 0)
        && tally.invalidated == old(tally).invalidated + (if reason == Condemned then 1 else 0)
        && tally.notFound == old(tally).notFound + (if reason == Missing || reason == Displaced then 1 else 0)
      ensures r.Cached? ==>
        && r.value == old(store)[key].value && store == old(store) && ledger == old(ledger)
        && quarantine == old(quarantine) && tally.computes == old(tally).computes && tally.writes == old(tally).writes
        && budget.Slots() == if limit.Some? then Touch(old(budget.Slots()), key) else old(budget.Slots())
      ensures !r.Cached? ==>
        && r == Outcome(env)
        && tally.computes == old(tally).computes + (if env.outcome.Some? then 1 else 0)
        && tally.writes == old(tally).writes + (if Writes(env) then 1 else 0)
      ensures !r.Cached? && Writes(env) ==>
        && key in store && key !in quarantine && key !in ledger
        && store[key] == Entry(env.outcome.value, last, if ttl.Some? then Some(last + ttl.value) else None,
                               if limit.Some? then Some(env.size.value) else None, env.before)
        && last >= env.later.value && last >= old(last)
        && (forall k :: k in old(store) && k !in store ==> k in old(ledger) || k in old(Victims(key, env.size)))
        && budget.Slots() == if limit.Some? then Admit(old(budget.Slots()), key, env.size.value, limit.value)
                             else old(budget.Slots())
      ensures !r.Cached? && !Writes(env) ==>
        && store == (if refuses(old(attempts)) then old(store) else old(store) - {key})
        && ledger == old(ledger)
        && budget.Slots() == if limit.Some? && (key in old(quarantine) || key in old(store))
                             then Forget(old(budget.Slots()), key) else old(budget.Slots())
      ensures forall k :: k in store && k != key ==> k in old(store) && store[k] == old(store)[k]
      ensures tally.writes + Unwritten(tally) == old(tally.writes + Unwritten(tally)) + if r.Computed? then 1 else 0
      ensures forall k :: k != key ==> (k in quarantine <==> k in old(quarantine))
      ensures old(Kept()) && !dropped ==> Kept()
      ensures !r.Cached? && Writes(env) && AllDeleted(old(attempts)) ==>
        |ledger| <= |old(ledger)| - (if |old(ledger)| < BATCH then |old(ledger)| else BATCH)
    {
      ReasonsMean(key, env.clock, env.before, listing);
      var served := Serve(key, env);
      if served.Some? {
        TouchFacts(old(budget.Slots()), key);
        return Cached(served.value);
      }
      assert Victims(key, env.size) == old(Victims(key, env.size));
      assert old(Kept()) ==> Kept();
      r := Compute(key, env);
    }

    /** Whatever becomes of the delete, the next call recomputes and says why. */
    method Invalidate(key: Key)
      requires Valid()
      modifies this, budget
      ensures Valid()
      ensures forall clock, deps, listing :: Explain(key, clock, deps, listing).reason == Condemned
      ensures !refuses(old(attempts)) ==>
        && store == old(store) - {key} && quarantine == old(quarantine)
        && invalidationMarkers == Remember(old(invalidationMarkers), key, MARKER_CAP)
      ensures refuses(old(attempts)) ==>
        && store == old(store) && quarantine == old(quarantine) + {key}
        && invalidationMarkers == old(invalidationMarkers)
      ensures ledger == old(ledger) && attempts == old(attempts) + 1
      ensures budget.Slots() == if limit.Some? then Forget(old(budget.Slots()), key) else old(budget.Slots())
      ensures tally.invalidations == old(tally).invalidations + 1 && SameClasses(tally, old(tally))
      ensures tally.deleteErrors == old(tally).deleteErrors + if refuses(old(attempts)) then 1 else 0
    {
      var ok := Delete(key);
      if !ok {
        tally := tally.(deleteErrors := tally.deleteErrors + 1);
        quarantine := quarantine + {key};
      } else {
        RememberMarker(key);
      }
      ForgetSlot(key);
      tally := tally.(invalidations := tally.invalidations + 1);
    }

    method RememberMarker(key: Key)
      modifies this`invalidationMarkers
      ensures invalidationMarkers == Remember(old(invalidationMarkers), key, MARKER_CAP) && key in invalidationMarkers
    {
      var markers := Note(invalidationMarkers, key, MARKER_CAP);
      assert key in Without(invalidationMarkers, key) + [key];
      invalidationMarkers := markers;
      assert markers[|markers| - 1] == key;
    }

    /** Forget every stored result. */
    method Clear()
      requires Valid()
      modifies this, budget
      ensures Valid() && store == map[] && ledger == [] && quarantine == {}
      ensures limit.Some? ==> budget.Slots() == []
      ensures forall key, clock, deps, listing :: Explain(key, clock, deps, listing).reason == Missing
    {
      store := map[];
      if limit.Some? {
        budget.Reset();
      }
      invalidationMarkers, quarantine, evictionMarkers, ledger := [], {}, [], [];
    }
  }

  /** With every stored key accounted for, the stored bytes are within `max_memory`
    plus those the ledger still has to delete. */
  lemma OverrunIsLedgered(control: CacheControl, keys: seq<Key>)
    requires control.Valid() && control.Kept()
    requires Once(keys) && forall k :: k in keys ==> k in control.store
    ensures var sizes := map k | k in control.store && control.store[k].size.Some? :: control.store[k].size.value;
      Bytes(sizes, keys) <= control.limit.value + Bytes(sizes, control.ledger)
  {
    var sizes := map k | k in control.store && control.store[k].size.Some? :: control.store[k].size.value;
    AccountedBytes(sizes, control.budget.Slots(), control.ledger, keys);
  }
}
