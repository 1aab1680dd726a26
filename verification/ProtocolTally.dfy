/** Conservation of the tallies: over every run of the protocol machine the counters
  account for every call, every miss and every execution, whatever the interleaving. */
module ProtocolTally {
  import opened Protocol

  function Those(threads: map<Tid, Pc>, at: Pc -> bool): set<Tid> {
    set t | t in threads && at(threads[t])
  }

  /** How many threads are at a place of interest. */
  function Number(threads: map<Tid, Pc>, at: Pc -> bool): nat {
    |Those(threads, at)|
  }

  function One(b: bool): nat {
    if b then 1 else 0
  }

  lemma NumberMoves(threads: map<Tid, Pc>, at: Pc -> bool, t: Tid, pc: Pc)
    requires t in threads
    ensures Number(threads[t := pc], at) + One(at(threads[t])) == Number(threads, at) + One(at(pc))
  {
    var was, now := Those(threads, at), Those(threads[t := pc], at);
    var others := was - {t};
    assert now == if at(pc) then others + {t} else others;
    assert was == if at(threads[t]) then others + {t} else others;
  }

  lemma NumberSame(threads: map<Tid, Pc>, others: map<Tid, Pc>, at: Pc -> bool)
    requires threads.Keys == others.Keys && forall t :: t in threads ==> at(threads[t]) == at(others[t])
    ensures Number(threads, at) == Number(others, at)
  {
    assert Those(threads, at) == Those(others, at);
  }

  lemma NumberNone(threads: map<Tid, Pc>, at: Pc -> bool)
    requires forall t :: t in threads ==> !at(threads[t])
    ensures Number(threads, at) == 0
  {
    assert Those(threads, at) == {};
  }

  // ------------------------------------------------------------------ the places

  /** A miss whose function has not returned yet, or whose return is not yet counted. */
  predicate Awaiting(pc: Pc) {
    pc.In? && ((pc.at.Calling? && pc.at.cached.None?) || (pc.at.Running? && pc.at.cached.None?)
               || (pc.at.Ran? && pc.at.cached.None?))
  }

  /** The delete of a mismatching entry is done. */
  predicate Replacing(p: Point) {
    p.Forgetting? && p.after.AfterMismatch?
  }

  /** A call not yet counted as a hit or a miss. */
  predicate Unclassified(pc: Pc) {
    pc.Queued?
    || (pc.In?
        && (Looks(pc.at) || pc.at.Counting?
            || (pc.at.Touching? && (pc.c.stage == Fast || pc.c.stage == Locked))
            || (Classifies(pc.at) && !Replacing(pc.at))
            || (Computes(pc.at) && !pc.at.Unverified? && !Awaiting(pc))))
  }

  /** A miss whose commit is in flight: neither written, skipped nor raised yet. */
  predicate Committing(pc: Pc) {
    Awaiting(pc)
    || (pc.In? && (pc.at.Unverified? || Replacing(pc.at) || Prepares(pc.at)
                   || (Finishes(pc.at) && !pc.at.Discarding?)))
  }

  /** A verification whose recompute is counted and whose verdict is not. */
  predicate Judging(pc: Pc) {
    pc.In? && pc.at.Comparing?
  }

  function Misses(y: Tally): nat {
    y.notFound + y.expired + y.invalidated + y.dependencyChanged + y.missVerification
  }

  /** Every call is a hit, a miss, raised before it was either, or is still neither. */
  predicate CallsBalance(y: Tally, past: Past, unclassified: nat) {
    y.hits + Misses(y) + past.unclassified + unclassified == past.started
  }

  /** Every miss was written or skipped, its function raised, something raised behind
    its function, or it is still being committed. */
  predicate MissesBalance(y: Tally, past: Past, committing: nat) {
    Misses(y) == y.writes + y.skipped + past.raised + past.abandoned + committing
  }

  /** Every execution that returned was a miss's or a verification's. */
  predicate ComputesBalance(y: Tally, past: Past, awaiting: nat, judging: nat) {
    y.computes + past.raised + awaiting
      == (Misses(y) - y.missVerification) + y.verifications + past.uncompared + past.unjudged + judging
  }

  predicate FailuresAgree(y: Tally) {
    y.verificationFailures == y.missVerification && y.verificationFailures <= y.verifications
  }

  ghost predicate Balanced(s: State) {
    && CallsBalance(s.tally, s.past, Number(s.threads, Unclassified))
    && MissesBalance(s.tally, s.past, Number(s.threads, Committing))
    && ComputesBalance(s.tally, s.past, Number(s.threads, Awaiting), Number(s.threads, Judging))
    && FailuresAgree(s.tally)
  }

  // ------------------------------------------------------------ one thread's move

  /** The three books: calls classified, misses whose outcome is open, and executions
    owed by misses less those whose verdict is. */
  datatype Books = Books(classified: int, open: int, owed: int)

  function BooksOf(y: Tally, past: Past): Books {
    Books(y.hits + Misses(y) + past.unclassified,
          Misses(y) - y.writes - y.skipped - past.raised - past.abandoned,
          (Misses(y) - y.missVerification) + y.verifications + past.uncompared + past.unjudged - y.computes - past.raised)
  }

  /** What an effect enters in the books. */
  function Entered(effect: Effect): Books {
    match effect
    case Fail(Early) => Books(1, 0, 0)
    case Fail(Comparison) => Books(1, 0, 1)
    case Fail(Execution(_)) => Books(0, -1, -1)
    case Fail(Afterwards(_)) => Books(0, -1, 0)
    case Bump(Hit) => Books(1, 0, 0)
    case Bump(Missed(_)) => Books(1, 1, 1)
    case Bump(Skip(_)) => Books(0, -1, 0)
    case Bump(Wrote) => Books(0, -1, 0)
    case Bump(Computed) => Books(0, 0, -1)
    case Bump(NoVerdict) => Books(1, 0, 1)
    case Bump(GoodVerdict) => Books(1, 0, 1)
    case Bump(BadVerdict) => Books(1, 1, 1)
    case _ => Books(0, 0, 0)
  }

  /** What is entered is what the move takes from the threads' places. */
  predicate Squares(entered: Books, was: Pc, now: Pc) {
    && entered.classified == One(Unclassified(was)) - One(Unclassified(now))
    && entered.open == One(Committing(now)) - One(Committing(was))
    && entered.owed == (One(Awaiting(now)) - One(Judging(now))) - (One(Awaiting(was)) - One(Judging(was)))
  }

  function Add(a: Books, b: Books): Books {
    Books(a.classified + b.classified, a.open + b.open, a.owed + b.owed)
  }

  lemma ScoreEnters(y: Tally, past: Past, score: Score)
    requires FailuresAgree(y)
    ensures BooksOf(Scored(y, score), ScoredPast(past, score)) == Add(BooksOf(y, past), Entered(Bump(score)))
    ensures FailuresAgree(Scored(y, score)) && ScoredPast(past, score).started == past.started
  {
    match score {
      case Missed(miss) =>
        match miss {
          case NotFound =>
          case Expired =>
          case Invalidated =>
          case DependencyChanged =>
        }
      case _ =>
    }
  }

  lemma ExitEnters(y: Tally, past: Past, exit: Exit)
    ensures BooksOf(y, Failed(past, exit)) == Add(BooksOf(y, past), Entered(Fail(exit)))
    ensures Failed(past, exit).started == past.started
  {
  }

  predicate SameCounts(a: Past, b: Past) {
    && a.started == b.started && a.unclassified == b.unclassified && a.raised == b.raised && a.abandoned == b.abandoned
    && a.uncompared == b.uncompared && a.unjudged == b.unjudged
  }

  lemma OtherEnters(cfg: Config, s: State, t: Tid, effect: Effect)
    requires !effect.Fail? && !effect.Bump?
    ensures Enact(cfg, s, t, effect).tally == s.tally && SameCounts(Enact(cfg, s, t, effect).past, s.past)
  {
  }

  lemma EnactThreads(cfg: Config, s: State, t: Tid, effect: Effect)
    ensures Enact(cfg, s, t, effect).threads == s.threads
  {
  }

  lemma EnactEnters(cfg: Config, s: State, t: Tid, effect: Effect)
    requires FailuresAgree(s.tally)
    ensures var after := Enact(cfg, s, t, effect);
      && BooksOf(after.tally, after.past) == Add(BooksOf(s.tally, s.past), Entered(effect))
      && FailuresAgree(after.tally) && after.past.started == s.past.started
  {
    match effect {
      case Bump(score) => ScoreEnters(s.tally, s.past, score);
      case Fail(exit) => ExitEnters(s.tally, s.past, exit);
      case _ => OtherEnters(cfg, s, t, effect);
    }
  }

  lemma LookSquares(cfg: Config, s: State, c: Call, p: Point, ch: Choice)
    requires Looks(p)
    ensures var move := LookMove(cfg, s, c, p, ch); Squares(Entered(move.effect), In(c, p), move.pc)
  {
  }

  lemma ServeSquares(c: Call, p: Point)
    requires Serves(p) && Verifying(In(c, p))
    ensures var move := ServeMove(c, p); Squares(Entered(move.effect), In(c, p), move.pc)
  {
  }

  lemma PurgeSquares(s: State, c: Call, p: Point, ch: Choice)
    requires p.Classify? || p.Purge? || p.Unquarantine?
    ensures var move := ClassifyMove(s, c, p, ch); Squares(Entered(move.effect), In(c, p), move.pc)
  {
  }

  lemma DropSquares(s: State, c: Call, p: Point, ch: Choice)
    requires p.Reget? || p.DropStale?
    ensures var move := ClassifyMove(s, c, p, ch); Squares(Entered(move.effect), In(c, p), move.pc)
  {
  }

  lemma ForgetSquares(s: State, c: Call, p: Point, ch: Choice)
    requires p.Forgetting? || p.PopMarker?
    ensures var move := ClassifyMove(s, c, p, ch); Squares(Entered(move.effect), In(c, p), move.pc)
  {
  }

  lemma AttributeSquares(s: State, c: Call, p: Point, ch: Choice)
    requires p.Attribute? || p.CountMiss?
    ensures var move := ClassifyMove(s, c, p, ch); Squares(Entered(move.effect), In(c, p), move.pc)
  {
  }

  lemma RunSquares(f: Function, c: Call, p: Point, ch: Choice)
    requires (p.Calling? || p.Running? || p.Ran?) && Verifying(In(c, p))
    ensures var move := ComputeMove(f, c, p, ch); Squares(Entered(move.effect), In(c, p), move.pc)
  {
  }

  lemma CompareSquares(f: Function, c: Call, p: Point, ch: Choice)
    requires (p.Comparing? || p.Unverified?) && Verifying(In(c, p))
    ensures var move := ComputeMove(f, c, p, ch); Squares(Entered(move.effect), In(c, p), move.pc)
  {
  }

  lemma StampSquares(cfg: Config, s: State, c: Call, p: Point, ch: Choice)
    requires p.Recheck? || p.Stamping? || p.Sizing?
    ensures var move := PrepareMove(cfg, s, c, p, ch); Squares(Entered(move.effect), In(c, p), move.pc)
  {
  }

  lemma WriteSquares(cfg: Config, s: State, c: Call, p: Point, ch: Choice)
    requires p.Skipping? || p.Setting? || p.Admitting?
    ensures var move := PrepareMove(cfg, s, c, p, ch); Squares(Entered(move.effect), In(c, p), move.pc)
  {
  }

  lemma EvictSquares(s: State, c: Call, p: Point, ch: Choice)
    requires p.Evicting? || p.Ledgering? || p.Unledgering? || p.Snapshotting?
    ensures var move := FinishMove(s, c, p, ch); Squares(Entered(move.effect), In(c, p), move.pc)
  {
  }

  lemma RecordSquares(s: State, c: Call, p: Point, ch: Choice)
    requires p.Draining? || p.Drained? || p.Recording? || p.Discarding?
    ensures var move := FinishMove(s, c, p, ch); Squares(Entered(move.effect), In(c, p), move.pc)
  {
  }

  /** Only a `verify=` call holds an entry to compare with; a probe's hit is counted
    before its recency is refreshed. */
  predicate Verifying(pc: Pc) {
    pc.In? ==>
      match pc.at
      case Counting(_) => pc.c.stage != Verify
      case Calling(cached) => cached.Some? ==> pc.c.stage == Verify
      case Running(cached) => cached.Some? ==> pc.c.stage == Verify
      case Ran(cached, _) => cached.Some? ==> pc.c.stage == Verify
      case Comparing(_, _) => pc.c.stage == Verify
      case _ => true
  }

  lemma VerifyingMove(cfg: Config, f: Function, s: State, pc: Pc, ch: Choice)
    requires Verifying(pc)
    ensures Verifying(ThreadMove(cfg, f, s, pc, ch).pc)
  {
    if pc.In? {
      var p := pc.at;
      if Looks(p) {
      } else if Serves(p) {
      } else if Classifies(p) {
      } else if Computes(p) {
      } else if Prepares(p) {
      } else {
      }
    }
  }

  lemma CallSquares(cfg: Config, f: Function, s: State, c: Call, p: Point, ch: Choice)
    requires Verifying(In(c, p))
    ensures var move := CallMove(cfg, f, s, c, p, ch); Squares(Entered(move.effect), In(c, p), move.pc)
  {
    if Looks(p) {
      LookSquares(cfg, s, c, p, ch);
    } else if Serves(p) {
      ServeSquares(c, p);
    } else if Classifies(p) {
      ClassifySquares(s, c, p, ch);
    } else if p.Comparing? || p.Unverified? {
      CompareSquares(f, c, p, ch);
    } else if Computes(p) {
      RunSquares(f, c, p, ch);
    } else if p.Skipping? || p.Setting? || p.Admitting? {
      WriteSquares(cfg, s, c, p, ch);
    } else if Prepares(p) {
      StampSquares(cfg, s, c, p, ch);
    } else if p.Evicting? || p.Ledgering? || p.Unledgering? || p.Snapshotting? {
      EvictSquares(s, c, p, ch);
    } else {
      RecordSquares(s, c, p, ch);
    }
  }

  lemma ClassifySquares(s: State, c: Call, p: Point, ch: Choice)
    requires Classifies(p)
    ensures var move := ClassifyMove(s, c, p, ch); Squares(Entered(move.effect), In(c, p), move.pc)
  {
    if p.Classify? || p.Purge? || p.Unquarantine? {
      PurgeSquares(s, c, p, ch);
    } else if p.Reget? || p.DropStale? {
      DropSquares(s, c, p, ch);
    } else if p.Forgetting? || p.PopMarker? {
      ForgetSquares(s, c, p, ch);
    } else {
      AttributeSquares(s, c, p, ch);
    }
  }

  lemma MoveSquares(cfg: Config, f: Function, s: State, pc: Pc, ch: Choice)
    requires Verifying(pc)
    ensures var move := ThreadMove(cfg, f, s, pc, ch); Squares(Entered(move.effect), pc, move.pc)
  {
    if pc.In? {
      CallSquares(cfg, f, s, pc.c, pc.at, ch);
    }
  }

  /** Between two states the books change by what a thread at `was` and now at `now`
    no longer has in flight. */
  predicate Moves(y: Tally, past: Past, y': Tally, past': Past, was: Pc, now: Pc) {
    && Squares(Add(BooksOf(y', past'), Negated(BooksOf(y, past))), was, now)
    && FailuresAgree(y') && past'.started == past.started
  }

  function Negated(a: Books): Books {
    Books(-a.classified, -a.open, -a.owed)
  }

  /** Each move of a call, exceptions included, adds to the counters exactly what it
    takes from the calls in flight. */
  lemma MoveCounts(cfg: Config, f: Function, s: State, t: Tid, pc: Pc, ch: Choice)
    requires Verifying(pc) && FailuresAgree(s.tally)
    ensures var move := ThreadMove(cfg, f, s, pc, ch); var after := Enact(cfg, s, t, move.effect);
      Moves(s.tally, s.past, after.tally, after.past, pc, move.pc)
  {
    MoveSquares(cfg, f, s, pc, ch);
    EnactEnters(cfg, s, t, ThreadMove(cfg, f, s, pc, ch).effect);
  }

  // ------------------------------------------------------------------- every run

  lemma PlaceBalances(s: State, after: State, t: Tid, pc: Pc)
    requires Balanced(s) && t in s.threads && after.threads == s.threads
    requires Moves(s.tally, s.past, after.tally, after.past, s.threads[t], pc)
    ensures Balanced(Place(after, t, pc))
  {
    NumberMoves(s.threads, Unclassified, t, pc);
    NumberMoves(s.threads, Committing, t, pc);
    NumberMoves(s.threads, Awaiting, t, pc);
    NumberMoves(s.threads, Judging, t, pc);
  }

  lemma StartBalances(s: State, t: Tid, pc: Pc)
    requires Balanced(s) && t in s.threads && s.threads[t] == Idle
    requires Unclassified(pc) && !Committing(pc) && !Judging(pc)
    ensures Balanced(Place(s.(past := s.past.(started := s.past.started + 1)), t, pc))
  {
    NumberMoves(s.threads, Unclassified, t, pc);
    NumberMoves(s.threads, Committing, t, pc);
    NumberMoves(s.threads, Awaiting, t, pc);
    NumberMoves(s.threads, Judging, t, pc);
  }

  lemma TearSame(pc: Pc)
    ensures Unclassified(Tear(pc)) == Unclassified(pc) && Committing(Tear(pc)) == Committing(pc)
    ensures Awaiting(Tear(pc)) == Awaiting(pc) && Judging(Tear(pc)) == Judging(pc)
  {
  }

  lemma TearBalances(s: State, dep: Dep)
    requires Balanced(s)
    ensures Balanced(s.(dep := dep, threads := map t | t in s.threads :: Tear(s.threads[t])))
  {
    var threads := map t | t in s.threads :: Tear(s.threads[t]);
    forall t | t in s.threads
      ensures Unclassified(threads[t]) == Unclassified(s.threads[t])
        && Committing(threads[t]) == Committing(s.threads[t])
        && Awaiting(threads[t]) == Awaiting(s.threads[t]) && Judging(threads[t]) == Judging(s.threads[t])
    {
      TearSame(s.threads[t]);
    }
    NumberSame(s.threads, threads, Unclassified);
    NumberSame(s.threads, threads, Committing);
    NumberSame(s.threads, threads, Awaiting);
    NumberSame(s.threads, threads, Judging);
  }

  lemma GoBalances(cfg: Config, f: Function, s: State, t: Tid, ch: Choice)
    requires Balanced(s) && Enabled(cfg, s, Go(t, ch)) && Verifying(s.threads[t])
    ensures Balanced(Next(cfg, f, s, Go(t, ch)))
  {
    var move := ThreadMove(cfg, f, s, s.threads[t], ch);
    MoveCounts(cfg, f, s, t, s.threads[t], ch);
    EnactThreads(cfg, s, t, move.effect);
    PlaceBalances(s, Enact(cfg, s, t, move.effect), t, move.pc);
  }

  lemma SameBooks(s: State, after: State)
    requires Balanced(s) && after.tally == s.tally && after.threads == s.threads && SameCounts(s.past, after.past)
    ensures Balanced(after)
  {
  }

  lemma BalancedKept(cfg: Config, f: Function, s: State, step: Step)
    requires Balanced(s) && Enabled(cfg, s, step) && (step.Go? ==> Verifying(s.threads[step.t]))
    ensures Balanced(Next(cfg, f, s, step))
  {
    match step {
      case Go(t, ch) => GoBalances(cfg, f, s, t, ch);
      case Start(t, key, verify) =>
        var c := NewCall(s, key, verify);
        StartBalances(s, t, if verify then Queued(c) else In(c, FirstLook));
      case StartInvalidate(t, key) => PlaceBalances(s, s, t, InvQueued(key));
      case ChangeDep(dep) => TearBalances(s, dep);
      case Vanish(key) => SameBooks(s, Removed(s, key));
      case ForeignCommit(_, _) => SameBooks(s, Next(cfg, f, s, step));
    }
  }

  lemma BalancedStep(cfg: Config, f: Function, s: State, step: Step, after: State)
    requires Balanced(s) && Enabled(cfg, s, step) && (step.Go? ==> Verifying(s.threads[step.t]))
    requires after == Next(cfg, f, s, step)
    ensures Balanced(after)
  {
    BalancedKept(cfg, f, s, step);
  }

  lemma VerifyingKept(cfg: Config, f: Function, s: State, step: Step, t: Tid)
    requires Enabled(cfg, s, step) && (t in s.threads ==> Verifying(s.threads[t]))
    ensures t in Next(cfg, f, s, step).threads ==> Verifying(Next(cfg, f, s, step).threads[t])
  {
    if step.Go? {
      if step.t == t {
        VerifyingMove(cfg, f, s, s.threads[t], step.choice);
      }
      EnactThreads(cfg, s, step.t, ThreadMove(cfg, f, s, s.threads[step.t], step.choice).effect);
    }
  }

  predicate ZeroCounts(y: Tally, past: Past) {
    && y.hits == 0 && Misses(y) == 0 && y.missVerification == 0 && y.writes == 0 && y.skipped == 0 && y.computes == 0
    && y.verifications == 0 && y.verificationFailures == 0
    && past.started == 0 && past.unclassified == 0 && past.raised == 0 && past.abandoned == 0 && past.uncompared == 0
    && past.unjudged == 0
  }

  /** No call has started and every counter is zero. */
  predicate Untouched(s: State) {
    Quiescent(s) && ZeroCounts(s.tally, s.past)
  }

  lemma ZeroesBalance(y: Tally, past: Past)
    requires ZeroCounts(y, past)
    ensures CallsBalance(y, past, 0) && MissesBalance(y, past, 0) && ComputesBalance(y, past, 0, 0) && FailuresAgree(y)
  {
  }

  lemma QuietNumbers(s: State)
    requires Quiescent(s)
    ensures Number(s.threads, Unclassified) == 0 && Number(s.threads, Committing) == 0
    ensures Number(s.threads, Awaiting) == 0 && Number(s.threads, Judging) == 0
  {
    NumberNone(s.threads, Unclassified);
    NumberNone(s.threads, Committing);
    NumberNone(s.threads, Awaiting);
    NumberNone(s.threads, Judging);
  }

  lemma UntouchedBalances(s: State)
    requires Untouched(s)
    ensures Balanced(s)
  {
    QuietNumbers(s);
    ZeroesBalance(s.tally, s.past);
  }

  lemma {:induction false} VerifyingHolds(cfg: Config, f: Function, trace: seq<State>, steps: seq<Step>, n: nat, t: Tid)
    requires Behavior(cfg, f, trace, steps) && n < |trace| && Quiescent(trace[0])
    ensures t in trace[n].threads ==> Verifying(trace[n].threads[t])
  {
    if n > 0 {
      VerifyingHolds(cfg, f, trace, steps, n - 1, t);
      VerifyingKept(cfg, f, trace[n - 1], steps[n - 1], t);
    }
  }

  /** In every state of every run: hits, misses and calls that raised before they were
    either are the calls classified so far; writes, skipped writes, misses whose
    function raised, misses abandoned behind it and commits in flight are the misses;
    executions that returned are the misses that returned and the verifications, with
    and without a verdict; and failed verifications are the misses they became. */
  lemma {:induction false} TalliesConserve(cfg: Config, f: Function, trace: seq<State>, steps: seq<Step>, n: nat)
    requires Behavior(cfg, f, trace, steps) && n < |trace| && Untouched(trace[0])
    ensures Balanced(trace[n])
  {
    if n == 0 {
      UntouchedBalances(trace[0]);
    } else {
      TalliesConserve(cfg, f, trace, steps, n - 1);
      if steps[n - 1].Go? {
        VerifyingHolds(cfg, f, trace, steps, n - 1, steps[n - 1].t);
      }
      BalancedStep(cfg, f, trace[n - 1], steps[n - 1], trace[n]);
    }
  }

  /** Once every call has returned, the books close: each call is a hit or a miss
    unless it raised before, each miss was written or skipped unless it raised, and
    each execution that returned was a miss's or a verification's. */
  lemma TalliesClose(cfg: Config, f: Function, trace: seq<State>, steps: seq<Step>, n: nat)
    requires Behavior(cfg, f, trace, steps) && n < |trace| && Untouched(trace[0]) && Quiescent(trace[n])
    ensures var y, past := trace[n].tally, trace[n].past;
      && y.hits + Misses(y) + past.unclassified == past.started
      && Misses(y) == y.writes + y.skipped + past.raised + past.abandoned
      && y.computes + past.raised
           == Misses(y) + (y.verifications - y.verificationFailures) + past.uncompared + past.unjudged
  {
    TalliesConserve(cfg, f, trace, steps, n);
    QuietNumbers(trace[n]);
  }

  /** A miss raises behind its function: at the verification's warning, in the
    re-observation of the dependencies or at the clock of the commit. */
  predicate Abandons(cfg: Config, s: State, step: Step) {
    step.Go? && step.t in s.threads && s.threads[step.t].In? && step.choice.raises
    && var p := s.threads[step.t].at; p.Unverified? || (p.Recheck? && cfg.tracked) || p.Stamping?
  }

  /** The comparison of a verification raises. */
  predicate Misjudges(s: State, step: Step) {
    step.Go? && step.t in s.threads && s.threads[step.t].In? && step.choice.raises && s.threads[step.t].at.Comparing?
  }

  /** In the first `n` steps no miss raised behind its function. */
  ghost predicate NoneAbandoned(cfg: Config, trace: seq<State>, steps: seq<Step>, n: nat)
    requires n <= |steps| && n < |trace|
  {
    forall i :: 0 <= i < n ==> !Abandons(cfg, trace[i], steps[i])
  }

  /** Nor did a comparison raise. */
  ghost predicate NoneMisjudged(trace: seq<State>, steps: seq<Step>, n: nat)
    requires n <= |steps| && n < |trace|
  {
    forall i :: 0 <= i < n ==> !Misjudges(trace[i], steps[i])
  }

  predicate ExitsAs(effect: Effect, abandons: bool, misjudges: bool) {
    && (abandons <==> effect.Fail? && effect.exit.Afterwards?)
    && (misjudges <==> effect.Fail? && effect.exit.Comparison?)
  }

  lemma MoveExits(cfg: Config, f: Function, s: State, t: Tid, ch: Choice)
    requires t in s.threads
    ensures ExitsAs(ThreadMove(cfg, f, s, s.threads[t], ch).effect,
                    Abandons(cfg, s, Go(t, ch)), Misjudges(s, Go(t, ch)))
  {
    var pc := s.threads[t];
    if pc.In? {
      if Looks(pc.at) {
      } else if Serves(pc.at) {
      } else if Classifies(pc.at) {
      } else if Computes(pc.at) {
      } else if Prepares(pc.at) {
      } else {
      }
    }
  }

  lemma EnactExits(cfg: Config, s: State, t: Tid, effect: Effect, abandons: bool, misjudges: bool)
    requires ExitsAs(effect, abandons, misjudges)
    ensures var after := Enact(cfg, s, t, effect);
      && after.past.abandoned == s.past.abandoned + One(abandons)
      && after.past.unjudged == s.past.unjudged + One(misjudges)
  {
  }

  lemma ExitStep(cfg: Config, f: Function, s: State, step: Step, after: State)
    requires Enabled(cfg, s, step) && after == Next(cfg, f, s, step)
    ensures after.past.abandoned == s.past.abandoned + One(Abandons(cfg, s, step))
    ensures after.past.unjudged == s.past.unjudged + One(Misjudges(s, step))
  {
    if step.Go? {
      MoveExits(cfg, f, s, step.t, step.choice);
      EnactExits(cfg, s, step.t, ThreadMove(cfg, f, s, s.threads[step.t], step.choice).effect,
                 Abandons(cfg, s, step), Misjudges(s, step));
    }
  }

  lemma {:induction false} ExitsCounted(cfg: Config, f: Function, trace: seq<State>, steps: seq<Step>, n: nat)
    requires Behavior(cfg, f, trace, steps) && n < |trace|
    requires trace[0].past.abandoned == 0 && trace[0].past.unjudged == 0
    ensures trace[n].past.abandoned == 0 <==> NoneAbandoned(cfg, trace, steps, n)
    ensures trace[n].past.unjudged == 0 <==> NoneMisjudged(trace, steps, n)
  {
    if n > 0 {
      ExitsCounted(cfg, f, trace, steps, n - 1);
      ExitStep(cfg, f, trace[n - 1], steps[n - 1], trace[n]);
    }
  }

  /** Every miss ends as a write, a skipped write or an exception of the function
    exactly when no miss raised behind its function; and every execution that returned
    is a miss's or a verification's, with a verdict or found incomparable, exactly when
    no comparison raised. */
  lemma TalliesCloseExactly(cfg: Config, f: Function, trace: seq<State>, steps: seq<Step>, n: nat)
    requires Behavior(cfg, f, trace, steps) && n < |trace| && Untouched(trace[0]) && Quiescent(trace[n])
    ensures var y, past := trace[n].tally, trace[n].past;
      Misses(y) == y.writes + y.skipped + past.raised <==> NoneAbandoned(cfg, trace, steps, n)
    ensures var y, past := trace[n].tally, trace[n].past;
      y.computes + past.raised == Misses(y) + (y.verifications - y.verificationFailures) + past.uncompared
      <==> NoneMisjudged(trace, steps, n)
  {
    TalliesClose(cfg, f, trace, steps, n);
    ExitsCounted(cfg, f, trace, steps, n);
  }
}
