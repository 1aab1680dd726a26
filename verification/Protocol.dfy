/** The call, commit, evict and invalidate protocol of one process
  (src/cachau/decorator.py, the functions inside `_wrap` and `CacheControl.invalidate`)
  as a step machine: any number of threads, each with a program counter, where one
  backend operation, one guarded section or one read of shared state is one step.

  The per-key flight lock is taken as a mutex here; module Flight shows that the
  refcounted registry provides one.  `past` holds history variables: nothing reads
  them but the claims. */
module Protocol {
  import opened Ledgers
  import opened Policy
  import opened Wrappers

  type Tid = nat
  type Value(==, !new)
  type Dep(==, !new)

  /** `tracked`: dependencies are declared.  `processes`: `coalesce="processes"`. */
  datatype Config = Config(maxBytes: Option<nat>, ttl: Option<int>, tracked: bool, processes: bool)

  /** A stored entry; `created` is the clock reading of its commit, `stamp` numbers the
    commits. */
  datatype Entry = Entry(value: Value, dep: Dep, created: int, expires: Option<int>, size: nat, stamp: nat)

  /** Which freshness check a call is in: the lock-free one, the one of a `verify=`
    call, the re-check under the lock, or a probe while joining a process flight. */
  datatype Stage = Fast | Verify | Locked | Probe

  /** One call: its key, its dependency snapshot, whether the dependencies have moved
    since, the last clock reading it judged by, and (history) its number, the
    barriers of its key when it started and when its current check started. */
  datatype Call = Call(key: Key, start: Dep, torn: bool, stage: Stage, at: int, id: nat, since: nat, floor: nat)

  datatype Result = Served(entry: Entry) | Returned(value: Value) | Raised

  datatype After = AfterPurge | AfterStale(entry: Entry) | AfterMismatch(value: Value)

  datatype Miss = NotFound | Expired | Invalidated | DependencyChanged

  /** Where a call is. */
  datatype Point =
    // _fresh_entry
    | FirstLook
    | Get
    | Judge(e: Entry)
    | SecondLook(e: Entry)
    // serve_if_fresh
    | Touching(e: Entry)
    | Counting(e: Entry)
    // _classify_and_compute
    | Classify
    | Purge
    | Unquarantine
    | Reget
    | DropStale(e: Entry)
    | Forgetting(after: After)
    | Attribute(e: Entry)
    | PopMarker
    | CountMiss(miss: Miss)
    // _run_and_time
    | Calling(cached: Option<Entry>)
    | Running(cached: Option<Entry>)
    | Ran(cached: Option<Entry>, v: Value)
    // _verify_flight
    | Comparing(e: Entry, v: Value)
    | Unverified(v: Value)
    // _commit_result
    | Recheck(v: Value)
    | Stamping(v: Value)
    | Sizing(v: Value, committed: int)
    | Skipping(v: Value)
    | Setting(e: Entry)
    | Admitting(e: Entry)
    | Evicting(e: Entry, victims: seq<Key>)
    | Ledgering(e: Entry, victims: seq<Key>)
    | Unledgering(e: Entry)
    | Snapshotting(e: Entry)
    | Draining(e: Entry, batch: seq<Key>)
    | Drained(e: Entry, batch: seq<Key>)
    | Recording(e: Entry)
    | Discarding(e: Entry)
    | Leaving(r: Result)

  datatype InvPoint = InvDelete | InvQuarantine | InvForget | InvCount | InvLeaving

  /** A thread is idle, waits for a flight lock, or is somewhere in a call or in
    `invalidate`. */
  datatype Pc =
    | Idle
    | Queued(c: Call)
    | In(c: Call, at: Point)
    | InvQueued(key: Key)
    | Inv(key: Key, point: InvPoint)

  datatype Tally = Tally(
    hits: nat, notFound: nat, expired: nat, invalidated: nat, dependencyChanged: nat, missVerification: nat,
    writes: nat, skipped: nat, computes: nat, verifications: nat, verificationFailures: nat, invalidations: nat)

  /** History: commits so far; per key, how many commits preceded its last
    invalidation; the keys executed since anything broke their entry; calls started;
    calls that raised before they were a hit or a miss, misses whose function raised
    and misses that raised after it returned; comparisons that could not be made and
    comparisons that raised; whether a delete has failed or another process has
    committed. */
  datatype Past = Past(
    stamp: nat, barrier: map<Key, nat>, armed: set<Key>,
    started: nat, unclassified: nat, raised: nat, abandoned: nat, uncompared: nat, unjudged: nat,
    deleteFailed: bool, foreign: bool)

  datatype State = State(
    store: map<Key, Entry>,
    budget: seq<Slot>,
    quarantine: set<Key>,
    ledger: seq<Key>,
    holder: map<Key, Tid>,
    threads: map<Tid, Pc>,
    last: int,
    dep: Dep,
    tally: Tally,
    past: Past)

  datatype Verdict = Uncomparable | Matching | Mismatching

  /** What the environment decides in a step: whether a backend operation succeeds (or
    the function returns), whether what the step asks of other code raises where no
    handler is (the backend's read, the clock, making a process lock, a dependency's
    fingerprint, the comparison of a verification, its warning made an error), the
    clock, the size estimate, the value a run that overlapped a dependency change
    returns, the comparison, and whether a process-flight waiter probes again. */
  datatype Choice = Choice(
    ok: bool, raises: bool, reading: int, size: Option<int>, value: Value, verdict: Verdict, again: bool)

  datatype Step =
    | Start(t: Tid, key: Key, verify: bool)
    | StartInvalidate(t: Tid, key: Key)
    | Go(t: Tid, choice: Choice)
    | ChangeDep(dep: Dep)
    | Vanish(key: Key)                    // an entry removed from outside
    | ForeignCommit(key: Key, e: Entry)   // an entry committed by another process

  type Function = (Key, Dep) -> Value

  // ------------------------------------------------- effects on the shared state

  datatype Score =
    | Hit | Missed(miss: Miss) | Skip(key: Key) | Computed | NoVerdict | GoodVerdict | BadVerdict | Wrote | Invalidation

  /** What an exception that leaves a call cuts short: a call not yet a hit or a miss,
    the comparison of such a call, an execution on a miss, or what follows an execution
    (with the key that is left without the commit it was to have). */
  datatype Exit = Early | Comparison | Execution(key: Key) | Afterwards(uncommitted: Option<Key>)

  /** What one step does to the state threads share. */
  datatype Effect =
    | Nothing
    | Lock(key: Key)
    | End(unlock: Option<Key>)
    | EndInvalidate(key: Key)
    | Tick(now: int, broken: Option<Key>)
    | Remove(key: Key)
    | RemoveInvalid(key: Key)
    | Refuse
    | Write(key: Key, e: Entry)
    | Condemn(key: Key)
    | Absolve(key: Key)
    | Use(key: Key)
    | Drop(key: Key)
    | Enter(key: Key, size: nat)
    | Relist(ledger: seq<Key>)
    | Execute(key: Key)
    | Fail(exit: Exit)
    | Bump(score: Score)

  /** How many commits preceded the key's last invalidation. */
  function Barrier(past: Past, key: Key): nat {
    if key in past.barrier then past.barrier[key] else 0
  }

  /** The entry of a key stopped being servable. */
  function Broken(past: Past, key: Key): Past {
    past.(armed := past.armed - {key})
  }

  function Removed(s: State, key: Key): State {
    if key in s.store then s.(store := s.store - {key}, past := Broken(s.past, key)) else s
  }

  function Invalid(past: Past, key: Key): Past {
    past.(barrier := past.barrier[key := past.stamp])
  }

  function Scored(y: Tally, score: Score): Tally {
    match score
    case Hit => y.(hits := y.hits + 1)
    case Missed(NotFound) => y.(notFound := y.notFound + 1)
    case Missed(Expired) => y.(expired := y.expired + 1)
    case Missed(Invalidated) => y.(invalidated := y.invalidated + 1)
    case Missed(DependencyChanged) => y.(dependencyChanged := y.dependencyChanged + 1)
    case Skip(_) => y.(skipped := y.skipped + 1)
    case Computed => y.(computes := y.computes + 1)
    case NoVerdict => y.(hits := y.hits + 1)
    case GoodVerdict => y.(hits := y.hits + 1, verifications := y.verifications + 1)
    case BadVerdict =>
      y.(verifications := y.verifications + 1, verificationFailures := y.verificationFailures + 1,
         missVerification := y.missVerification + 1)
    case Wrote => y.(writes := y.writes + 1)
    case Invalidation => y.(invalidations := y.invalidations + 1)
  }

  function ScoredPast(past: Past, score: Score): Past {
    match score
    case Skip(key) => Broken(past, key)
    case NoVerdict => past.(uncompared := past.uncompared + 1)
    case _ => past
  }

  function Failed(past: Past, exit: Exit): Past {
    match exit
    case Early => past.(unclassified := past.unclassified + 1)
    case Comparison => past.(unclassified := past.unclassified + 1, unjudged := past.unjudged + 1)
    case Execution(key) => Broken(past, key).(raised := past.raised + 1)
    case Afterwards(uncommitted) =>
      (if uncommitted.Some? then Broken(past, uncommitted.value) else past).(abandoned := past.abandoned + 1)
  }

  function Enact(cfg: Config, s: State, t: Tid, effect: Effect): State {
    match effect
    case Nothing => s
    case Lock(key) => s.(holder := s.holder[key := t])
    case End(unlock) =>
      s.(holder := if unlock.Some? then s.holder - {unlock.value} else s.holder)
    case EndInvalidate(key) => s.(holder := s.holder - {key})
    case Tick(now, broken) => s.(last := now, past := if broken.Some? then Broken(s.past, broken.value) else s.past)
    case Remove(key) => Removed(s, key)
    case RemoveInvalid(key) => var r := Removed(s, key); r.(past := Invalid(r.past, key))
    case Refuse => s.(past := s.past.(deleteFailed := true))
    case Write(key, e) => s.(store := s.store[key := e], past := s.past.(stamp := s.past.stamp + 1))
    case Condemn(key) => s.(quarantine := s.quarantine + {key}, past := Invalid(Broken(s.past, key), key))
    case Absolve(key) => s.(quarantine := s.quarantine - {key})
    case Use(key) => if cfg.maxBytes.Some? then s.(budget := Touch(s.budget, key)) else s
    case Drop(key) => if cfg.maxBytes.Some? then s.(budget := Forget(s.budget, key)) else s
    case Enter(key, size) =>
      if cfg.maxBytes.Some? then s.(budget := Admit(s.budget, key, size, cfg.maxBytes.value)) else s
    case Relist(ledger) => s.(ledger := ledger)
    case Execute(key) => s.(past := s.past.(armed := s.past.armed + {key}))
    case Fail(exit) => s.(past := Failed(s.past, exit))
    case Bump(score) => s.(tally := Scored(s.tally, score), past := ScoredPast(s.past, score))
  }

  // ------------------------------------------------------------- the moves of a call

  datatype Move = Move(effect: Effect, pc: Pc)

  predicate IsExpired(expires: Option<int>, now: int) {
    expires.Some? && now >= expires.value
  }

  /** What the freshness check asks of an entry. */
  predicate IsFresh(cfg: Config, c: Call, e: Entry, now: int) {
    !IsExpired(e.expires, now) && (cfg.tracked ==> e.dep == c.start)
  }

  /** The clamped clock: a reading never goes back. */
  function Clamp(last: int, reading: int): (now: int)
    ensures now >= last && now >= reading && (now == last || now == reading)
  {
    if reading > last then reading else last
  }

  /** Where a check that serves nothing goes. */
  function NotServed(cfg: Config, c: Call, again: bool): Pc {
    match c.stage
    case Fast => Queued(c.(stage := Locked))
    case Verify => In(c.(stage := Locked), FirstLook)
    case Locked => if cfg.processes then In(c.(stage := Probe), FirstLook) else In(c, Classify)
    case Probe => if again then In(c, FirstLook) else In(c, Classify)
  }

  /** An exception leaves the call. */
  function Escape(c: Call, exit: Exit): Move {
    Move(Fail(exit), In(c, Leaving(Raised)))
  }

  predicate Looks(p: Point) {
    p.FirstLook? || p.Get? || p.Judge? || p.SecondLook?
  }

  /** `_fresh_entry`: quarantine, store, clock and dependencies, quarantine again. */
  function LookMove(cfg: Config, s: State, c: Call, p: Point, ch: Choice): Move
    requires Looks(p)
  {
    match p
    case FirstLook =>
      if ch.raises && c.stage == Probe then Escape(c, Early)
      else
        var d := c.(floor := Barrier(s.past, c.key));
        Move(Nothing, if c.key in s.quarantine then NotServed(cfg, d, ch.again) else In(d, Get))
    case Get =>
      if ch.raises then Escape(c, Early)
      else Move(Nothing, if c.key in s.store then In(c, Judge(s.store[c.key])) else NotServed(cfg, c, ch.again))
    case Judge(e) =>
      if ch.raises then Escape(c, Early)
      else
        var now := Clamp(s.last, ch.reading);
        var d := c.(at := now);
        if IsFresh(cfg, c, e, now) then Move(Tick(now, None), In(d, SecondLook(e)))
        else Move(Tick(now, if c.stage == Fast then None else Some(c.key)), NotServed(cfg, d, ch.again))
    case SecondLook(e) =>
      Move(Nothing,
        if c.key in s.quarantine then NotServed(cfg, c, ch.again)
        else if c.stage == Verify then In(c, Calling(Some(e)))
        else if c.stage == Probe then In(c, Counting(e))
        else In(c, Touching(e)))
  }

  predicate Serves(p: Point) {
    p.Touching? || p.Counting? || p.Leaving?
  }

  function ServeMove(c: Call, p: Point): Move
    requires Serves(p)
  {
    match p
    case Touching(e) =>
      Move(Use(c.key), In(c, if c.stage == Probe || c.stage == Verify then Leaving(Served(e)) else Counting(e)))
    case Counting(e) => Move(Bump(Hit), In(c, if c.stage == Probe then Touching(e) else Leaving(Served(e))))
    case Leaving(_) => Move(End(if c.stage == Fast then None else Some(c.key)), Idle)
  }

  predicate Classifies(p: Point) {
    p.Classify? || p.Purge? || p.Unquarantine? || p.Reget? || p.DropStale? || p.Forgetting? || p.Attribute?
    || p.PopMarker? || p.CountMiss?
  }

  /** `_classify_and_compute` up to the call of the function. */
  function ClassifyMove(s: State, c: Call, p: Point, ch: Choice): Move
    requires Classifies(p)
  {
    match p
    case Classify => Move(Nothing, In(c, if c.key in s.quarantine then Purge else Reget))
    case Purge => if ch.ok then Move(Remove(c.key), In(c, Unquarantine)) else Move(Refuse, In(c, Forgetting(AfterPurge)))
    case Unquarantine => Move(Absolve(c.key), In(c, Forgetting(AfterPurge)))
    case Reget =>
      if ch.raises then Escape(c, Early)
      else Move(Nothing, In(c, if c.key in s.store then DropStale(s.store[c.key]) else PopMarker))
    case DropStale(e) => Move(if ch.ok then Remove(c.key) else Refuse, In(c, Forgetting(AfterStale(e))))
    case Forgetting(after) =>
      Move(Drop(c.key), In(c,
        match after
        case AfterPurge => CountMiss(Invalidated)
        case AfterStale(e) => Attribute(e)
        case AfterMismatch(v) => Recheck(v)))
    case Attribute(e) =>
      if ch.raises then Escape(c, Early)
      else
        var now := Clamp(s.last, ch.reading);
        Move(Tick(now, None), In(c, CountMiss(if IsExpired(e.expires, now) then Expired else DependencyChanged)))
    case PopMarker => Move(Nothing, In(c, CountMiss(if ch.ok then Invalidated else NotFound)))
    case CountMiss(miss) => Move(Bump(Missed(miss)), In(c, Calling(None)))
  }

  predicate Computes(p: Point) {
    p.Calling? || p.Running? || p.Ran? || p.Comparing? || p.Unverified?
  }

  /** Running the function, and comparing the result in a verification. */
  function ComputeMove(f: Function, c: Call, p: Point, ch: Choice): Move
    requires Computes(p)
  {
    match p
    case Calling(cached) => Move(if cached.Some? then Nothing else Execute(c.key), In(c, Running(cached)))
    case Running(cached) =>
      if ch.ok then Move(Nothing, In(c, Ran(cached, if c.torn then ch.value else f(c.key, c.start))))
      else Escape(c, if cached.Some? then Early else Execution(c.key))
    case Ran(cached, v) => Move(Bump(Computed), In(c, if cached.Some? then Comparing(cached.value, v) else Recheck(v)))
    case Comparing(e, v) =>
      if ch.raises then Escape(c, Comparison)
      else (
        match ch.verdict
        case Uncomparable => Move(Bump(NoVerdict), In(c, Touching(e)))
        case Matching => Move(Bump(GoodVerdict), In(c, Touching(e)))
        case Mismatching => Move(Bump(BadVerdict), In(c, Unverified(v))))
    case Unverified(v) =>
      if ch.raises then Escape(c, Afterwards(None))
      else Move(if ch.ok then Remove(c.key) else Refuse, In(c, Forgetting(AfterMismatch(v))))
  }

  predicate Prepares(p: Point) {
    p.Recheck? || p.Stamping? || p.Sizing? || p.Skipping? || p.Setting? || p.Admitting?
  }

  /** `_commit_result` up to the admission: re-observe, stamp, size, write, admit. */
  function PrepareMove(cfg: Config, s: State, c: Call, p: Point, ch: Choice): Move
    requires Prepares(p)
  {
    match p
    case Recheck(v) =>
      if cfg.tracked && ch.raises then Escape(c, Afterwards(Some(c.key)))
      else Move(Nothing, In(c, if cfg.tracked && s.dep != c.start then Skipping(v) else Stamping(v)))
    case Stamping(v) =>
      if ch.raises then Escape(c, Afterwards(Some(c.key)))
      else
        var now := Clamp(s.last, ch.reading);
        Move(Tick(now, None), In(c, Sizing(v, now)))
    case Sizing(v, committed) =>
      var expires := if cfg.ttl.Some? then Some(committed + cfg.ttl.value) else None;
      Move(Nothing, In(c,
        if cfg.maxBytes.None? then Setting(Entry(v, c.start, committed, expires, 0, 0))
        else if ch.size.None? || ch.size.value < 0 || ch.size.value > cfg.maxBytes.value then Skipping(v)
        else Setting(Entry(v, c.start, committed, expires, ch.size.value, 0))))
    case Skipping(v) => Move(Bump(Skip(c.key)), In(c, Leaving(Returned(v))))
    case Setting(e) =>
      var stamped := e.(stamp := s.past.stamp);
      if ch.ok then Move(Write(c.key, stamped), In(c, Admitting(stamped))) else Move(Nothing, In(c, Skipping(e.value)))
    case Admitting(e) =>
      Move(Enter(c.key, e.size),
        In(c, Evicting(e, if cfg.maxBytes.None? then []
                          else KeysOf(Evicted(s.budget, c.key, e.size, cfg.maxBytes.value)))))
  }

  predicate Finishes(p: Point) {
    p.Evicting? || p.Ledgering? || p.Unledgering? || p.Snapshotting? || p.Draining? || p.Drained? || p.Recording?
    || p.Discarding?
  }

  /** `_commit_result` after the admission: delete the evicted, drain, record. */
  function FinishMove(s: State, c: Call, p: Point, ch: Choice): Move
    requires Finishes(p)
  {
    match p
    case Evicting(e, victims) =>
      if victims == [] then Move(Nothing, In(c, Unledgering(e)))
      else if ch.ok then Move(Remove(victims[0]), In(c, Evicting(e, victims[1..])))
      else Move(Refuse, In(c, Ledgering(e, victims)))
    case Ledgering(e, victims) =>
      if victims == [] then Move(Nothing, In(c, Unledgering(e)))
      else Move(Relist(Remember(s.ledger, victims[0], LEDGER_CAP)), In(c, Evicting(e, victims[1..])))
    case Unledgering(e) => Move(Relist(Without(s.ledger, c.key)), In(c, Snapshotting(e)))
    case Snapshotting(e) => Move(Nothing, In(c, Draining(e, Batch(s.ledger, c.key))))
    case Draining(e, batch) =>
      if batch == [] then Move(Nothing, In(c, Recording(e)))
      else if ch.ok then Move(Remove(batch[0]), In(c, Drained(e, batch)))
      else Move(Refuse, In(c, Draining(e, batch[1..])))
    case Drained(e, batch) =>
      if batch == [] then Move(Nothing, In(c, Recording(e)))
      else Move(Relist(Without(s.ledger, batch[0])), In(c, Draining(e, batch[1..])))
    case Recording(e) => Move(Bump(Wrote), In(c, Discarding(e)))
    case Discarding(e) => Move(Absolve(c.key), In(c, Leaving(Returned(e.value))))
  }

  function CallMove(cfg: Config, f: Function, s: State, c: Call, p: Point, ch: Choice): Move {
    if Looks(p) then LookMove(cfg, s, c, p, ch)
    else if Serves(p) then ServeMove(c, p)
    else if Classifies(p) then ClassifyMove(s, c, p, ch)
    else if Computes(p) then ComputeMove(f, c, p, ch)
    else if Prepares(p) then PrepareMove(cfg, s, c, p, ch)
    else FinishMove(s, c, p, ch)
  }

  function InvalidateMove(key: Key, p: InvPoint, ch: Choice): Move {
    match p
    case InvDelete =>
      if ch.ok then Move(RemoveInvalid(key), Inv(key, InvForget)) else Move(Refuse, Inv(key, InvQuarantine))
    case InvQuarantine => Move(Condemn(key), Inv(key, InvForget))
    case InvForget => Move(Drop(key), Inv(key, InvCount))
    case InvCount => Move(Bump(Invalidation), Inv(key, InvLeaving))
    case InvLeaving => Move(EndInvalidate(key), Idle)
  }

  function ThreadMove(cfg: Config, f: Function, s: State, pc: Pc, ch: Choice): Move {
    match pc
    case Idle => Move(Nothing, Idle)
    case Queued(c) => Move(Lock(c.key), In(c, FirstLook))
    case In(c, p) => CallMove(cfg, f, s, c, p, ch)
    case InvQueued(key) => Move(Lock(key), Inv(key, InvDelete))
    case Inv(key, p) => InvalidateMove(key, p, ch)
  }

  // ----------------------------------------------------------------- the machine

  function HeldKey(pc: Pc): Option<Key> {
    match pc
    case In(c, _) => if c.stage == Fast then None else Some(c.key)
    case Inv(key, _) => Some(key)
    case _ => None
  }

  predicate HasCall(pc: Pc) {
    pc.Queued? || pc.In?
  }

  /** The call has started and not yet re-observed its dependencies or been served. */
  predicate Exposed(pc: Pc) {
    pc.Queued?
    || (pc.In? && (Looks(pc.at) || Classifies(pc.at) || Computes(pc.at) || pc.at.Recheck?))
  }

  predicate CanLock(s: State, pc: Pc) {
    match pc
    case Queued(c) => c.key !in s.holder
    case InvQueued(key) => key !in s.holder
    case _ => true
  }

  predicate Enabled(cfg: Config, s: State, step: Step) {
    match step
    case Start(t, _, _) => t in s.threads && s.threads[t] == Idle
    case StartInvalidate(t, _) => t in s.threads && s.threads[t] == Idle
    case Go(t, _) => t in s.threads && s.threads[t] != Idle && CanLock(s, s.threads[t])
    case ChangeDep(dep) =>
      // never back to a call's snapshot once it was left
      cfg.tracked
      && forall t :: t in s.threads && Exposed(s.threads[t]) && s.dep != s.threads[t].c.start ==>
        dep != s.threads[t].c.start
    case Vanish(_) => true
    case ForeignCommit(_, _) => true
  }

  function Tear(pc: Pc): Pc {
    match pc
    case Queued(c) => Queued(c.(torn := true))
    case In(c, p) => In(c.(torn := true), p)
    case _ => pc
  }

  function NewCall(s: State, key: Key, verify: bool): Call {
    var stage := if verify then Verify else Fast;
    Call(key, s.dep, false, stage, s.last, s.past.started, Barrier(s.past, key), Barrier(s.past, key))
  }

  function Place(s: State, t: Tid, pc: Pc): State {
    s.(threads := s.threads[t := pc])
  }

  function Next(cfg: Config, f: Function, s: State, step: Step): State
    requires Enabled(cfg, s, step)
  {
    match step
    case Start(t, key, verify) =>
      var c := NewCall(s, key, verify);
      Place(s.(past := s.past.(started := s.past.started + 1)), t, if verify then Queued(c) else In(c, FirstLook))
    case StartInvalidate(t, key) => Place(s, t, InvQueued(key))
    case Go(t, ch) =>
      var move := ThreadMove(cfg, f, s, s.threads[t], ch);
      Place(Enact(cfg, s, t, move.effect), t, move.pc)
    case ChangeDep(dep) =>
      if dep == s.dep then s else s.(dep := dep, threads := map t | t in s.threads :: Tear(s.threads[t]))
    case Vanish(key) => Removed(s, key)
    case ForeignCommit(key, e) =>
      s.(store := s.store[key := e.(stamp := s.past.stamp)],
         past := s.past.(stamp := s.past.stamp + 1, foreign := true))
  }

  ghost predicate Behavior(cfg: Config, f: Function, trace: seq<State>, steps: seq<Step>) {
    && |trace| == |steps| + 1
    && forall i {:trigger Enabled(cfg, trace[i], steps[i])} :: 0 <= i < |steps| ==>
         Enabled(cfg, trace[i], steps[i]) && trace[i + 1] == Next(cfg, f, trace[i], steps[i])
  }

  predicate Quiescent(s: State) {
    forall t :: t in s.threads ==> s.threads[t] == Idle
  }

  // ---------------------------------------------------------------- lock discipline

  /** A thread inside a critical section of a key is the registered holder of its
    lock, and a registered holder is inside. */
  predicate Locks(s: State) {
    && (forall t :: t in s.threads && HeldKey(s.threads[t]).Some? ==>
          HeldKey(s.threads[t]).value in s.holder && s.holder[HeldKey(s.threads[t]).value] == t)
    && (forall key :: key in s.holder ==> s.holder[key] in s.threads && HeldKey(s.threads[s.holder[key]]) == Some(key))
  }

  /** The points past the lock are never reached without it. */
  predicate Staged(pc: Pc) {
    match pc
    case Queued(c) => c.stage == Locked || c.stage == Verify
    case In(c, p) =>
      (Classifies(p) || Computes(p) || Prepares(p) || Finishes(p) || (p.Leaving? && p.r.Returned?)) ==> c.stage != Fast
    case _ => true
  }

  predicate AllStaged(s: State) {
    forall t :: t in s.threads ==> Staged(s.threads[t])
  }

  /** The holder map after a move of thread `t` from `was` to `now`. */
  predicate HolderMoves(s: State, after: State, t: Tid, was: Pc, now: Pc) {
    var a, b := HeldKey(was), HeldKey(now);
    if a == b then after.holder == s.holder
    else if a.None? then b.value !in s.holder && after.holder == s.holder[b.value := t]
    else b.None? && after.holder == s.holder - {a.value}
  }

  /** A move locks, unlocks, or keeps what it holds, as its effect says. */
  predicate HoldsLike(effect: Effect, was: Pc, now: Pc) {
    match effect
    case Lock(key) => HeldKey(was).None? && HeldKey(now) == Some(key)
    case End(unlock) => HeldKey(was) == unlock && HeldKey(now).None?
    case EndInvalidate(key) => HeldKey(was) == Some(key) && HeldKey(now).None?
    case _ => HeldKey(now) == HeldKey(was)
  }

  lemma LookHolds(cfg: Config, f: Function, s: State, c: Call, p: Point, ch: Choice)
    requires Staged(In(c, p)) && (Looks(p) || Serves(p))
    ensures var move := CallMove(cfg, f, s, c, p, ch); Staged(move.pc) && HoldsLike(move.effect, In(c, p), move.pc)
  {
  }

  lemma ClassifyHolds(cfg: Config, f: Function, s: State, c: Call, p: Point, ch: Choice)
    requires Staged(In(c, p)) && Classifies(p)
    ensures var move := CallMove(cfg, f, s, c, p, ch); Staged(move.pc) && HoldsLike(move.effect, In(c, p), move.pc)
  {
  }

  lemma ComputeHolds(cfg: Config, f: Function, s: State, c: Call, p: Point, ch: Choice)
    requires Staged(In(c, p)) && Computes(p)
    ensures var move := CallMove(cfg, f, s, c, p, ch); Staged(move.pc) && HoldsLike(move.effect, In(c, p), move.pc)
  {
  }

  lemma PrepareHolds(cfg: Config, f: Function, s: State, c: Call, p: Point, ch: Choice)
    requires Staged(In(c, p)) && Prepares(p)
    ensures var move := CallMove(cfg, f, s, c, p, ch); Staged(move.pc) && HoldsLike(move.effect, In(c, p), move.pc)
  {
  }

  lemma FinishHolds(cfg: Config, f: Function, s: State, c: Call, p: Point, ch: Choice)
    requires Staged(In(c, p)) && Finishes(p)
    ensures var move := CallMove(cfg, f, s, c, p, ch); Staged(move.pc) && HoldsLike(move.effect, In(c, p), move.pc)
  {
  }

  lemma CallHolds(cfg: Config, f: Function, s: State, c: Call, p: Point, ch: Choice)
    requires Staged(In(c, p))
    ensures var move := CallMove(cfg, f, s, c, p, ch); Staged(move.pc) && HoldsLike(move.effect, In(c, p), move.pc)
  {
    if Looks(p) || Serves(p) {
      LookHolds(cfg, f, s, c, p, ch);
    } else if Classifies(p) {
      ClassifyHolds(cfg, f, s, c, p, ch);
    } else if Computes(p) {
      ComputeHolds(cfg, f, s, c, p, ch);
    } else if Prepares(p) {
      PrepareHolds(cfg, f, s, c, p, ch);
    } else {
      FinishHolds(cfg, f, s, c, p, ch);
    }
  }

  lemma EnactHolder(cfg: Config, s: State, t: Tid, effect: Effect, was: Pc, now: Pc)
    requires HoldsLike(effect, was, now)
    requires effect.Lock? ==> effect.key !in s.holder
    ensures HolderMoves(s, Enact(cfg, s, t, effect), t, was, now)
    ensures Enact(cfg, s, t, effect).threads == s.threads
  {
  }

  lemma MoveHolds(cfg: Config, f: Function, s: State, t: Tid, pc: Pc, ch: Choice)
    requires CanLock(s, pc) && Staged(pc)
    ensures var move := ThreadMove(cfg, f, s, pc, ch);
      && Staged(move.pc)
      && HolderMoves(s, Enact(cfg, s, t, move.effect), t, pc, move.pc)
      && Enact(cfg, s, t, move.effect).threads == s.threads
  {
    var move := ThreadMove(cfg, f, s, pc, ch);
    if pc.In? {
      CallHolds(cfg, f, s, pc.c, pc.at, ch);
      assert !move.effect.Lock?;
    }
    EnactHolder(cfg, s, t, move.effect, pc, move.pc);
  }

  lemma HolderKeepsLocks(s: State, after: State, t: Tid, pc: Pc)
    requires Locks(s) && t in s.threads && HolderMoves(s, after, t, s.threads[t], pc)
    requires after.threads == s.threads
    ensures Locks(Place(after, t, pc))
  {
  }

  lemma TearLocks(s: State, dep: Dep)
    requires Locks(s) && AllStaged(s)
    ensures var after := s.(dep := dep, threads := map t | t in s.threads :: Tear(s.threads[t]));
      Locks(after) && AllStaged(after)
  {
    var after := s.(dep := dep, threads := map t | t in s.threads :: Tear(s.threads[t]));
    forall t | t in s.threads ensures HeldKey(after.threads[t]) == HeldKey(s.threads[t]) && Staged(after.threads[t]) {
      assert Staged(s.threads[t]);
    }
  }

  lemma LocksKept(cfg: Config, f: Function, s: State, step: Step)
    requires Locks(s) && AllStaged(s) && Enabled(cfg, s, step)
    ensures Locks(Next(cfg, f, s, step)) && AllStaged(Next(cfg, f, s, step))
  {
    match step {
      case Go(t, ch) =>
        var move := ThreadMove(cfg, f, s, s.threads[t], ch);
        MoveHolds(cfg, f, s, t, s.threads[t], ch);
        HolderKeepsLocks(s, Enact(cfg, s, t, move.effect), t, move.pc);
      case Start(t, key, verify) =>
        var c := NewCall(s, key, verify);
        HolderKeepsLocks(s, s.(past := s.past.(started := s.past.started + 1)), t,
                         if verify then Queued(c) else In(c, FirstLook));
      case StartInvalidate(t, key) => HolderKeepsLocks(s, s, t, InvQueued(key));
      case ChangeDep(dep) => TearLocks(s, dep);
      case _ =>
    }
  }

  lemma {:induction false} LocksHold(cfg: Config, f: Function, trace: seq<State>, steps: seq<Step>, n: nat)
    requires Behavior(cfg, f, trace, steps) && n < |trace|
    requires Locks(trace[0]) && AllStaged(trace[0])
    ensures Locks(trace[n]) && AllStaged(trace[n])
  {
    if n > 0 {
      LocksHold(cfg, f, trace, steps, n - 1);
      LocksKept(cfg, f, trace[n - 1], steps[n - 1]);
    }
  }

  /** No two threads are ever inside the critical section of one key. */
  lemma OnePerKey(cfg: Config, f: Function, trace: seq<State>, steps: seq<Step>, n: nat, t: Tid, u: Tid)
    requires Behavior(cfg, f, trace, steps) && n < |trace|
    requires Quiescent(trace[0]) && trace[0].holder == map[]
    requires t in trace[n].threads && u in trace[n].threads
    requires HeldKey(trace[n].threads[t]).Some? && HeldKey(trace[n].threads[t]) == HeldKey(trace[n].threads[u])
    ensures t == u
  {
    LocksHold(cfg, f, trace, steps, n);
  }
}
