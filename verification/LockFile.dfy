/** The cross-process lock file (src/cachau/interprocess.py, `ProcessLock`).

  A directory entry names at most one inode; an inode carries its content (empty
  until the creator writes its token) and its modification time.  Creating the
  file and writing the token are separate steps, and so are looking at the age
  and unlinking, and reading the content and unlinking.  Any number of lock
  objects take steps in any order; each may crash at any point, any unlink or
  write may fail, and a foreign program may delete the file. */
module LockFile {
  import opened Wrappers

  type Proc = nat
  type Inode = nat

  datatype File = File(owner: Proc, written: bool, mtime: int)

  /** Where one lock object is.  `Created` to `Held` own the inode they created;
    `Looked` has seen a stale age once, `Condemned` twice and is about to unlink;
    `Releasing` is about to compare the content, `Unlinking` about to unlink;
    `Alone` computes without the lock, having timed out or found that no lock can be
    made. */
  datatype Pc =
    | Idle
    | Created(inode: Inode)
    | Held(inode: Inode)
    | Aborting(inode: Inode)
    | Looked
    | Condemned
    | Releasing(inode: Inode)
    | Unlinking(inode: Inode)
    | Alone
    | Done
    | Crashed

  /** `unlinked` counts the unlink steps by others that removed a live owner's inode,
    `alone` the processes that went on to compute without the lock. */
  datatype State = State(
    path: Option<Inode>,
    files: map<Inode, File>,
    nextInode: Inode,
    pcs: map<Proc, Pc>,
    now: int,
    staleAfter: int,
    unlinked: nat,
    alone: nat)

  datatype Step =
    | Create(p: Proc, ok: bool)       // open with O_CREAT | O_EXCL; not ok: no file can be created at all
    | WriteToken(p: Proc, ok: bool)   // a failed write is followed by Abort
    | Abort(p: Proc, ok: bool)        // the unlink after the failed write
    | Serve(p: Proc)                  // another process committed while this one waited
    | TimeOut(p: Proc)                // the deadline passed: compute without the lock
    | Finish(p: Proc)                 // the end of such a computation
    | Look(p: Proc)                   // the age test in `coordinate`
    | LookAgain(p: Proc)              // the age test in `break_stale`
    | Break(p: Proc, ok: bool)        // the unlink in `break_stale`
    | Beat(p: Proc)                   // os.utime on whatever is at the path
    | StartRelease(p: Proc)
    | Compare(p: Proc)                // read the content, compare with the token
    | Unlink(p: Proc, ok: bool)       // the unlink in `release`
    | Crash(p: Proc)
    | ForeignDelete
    | Clock(now: int)

  /** The process owns the inode it created and has not stopped: it computes, or
    is about to. */
  predicate Owns(pc: Pc) {
    pc.Created? || pc.Held?
  }

  predicate Live(s: State, p: Proc) {
    p in s.pcs && Owns(s.pcs[p])
  }

  function Age(s: State, inode: Inode): int
    requires inode in s.files
  {
    if s.now - s.files[inode].mtime > 0 then s.now - s.files[inode].mtime else 0
  }

  predicate PathIsStale(s: State) {
    s.path.Some? && s.path.value in s.files && Age(s, s.path.value) > s.staleAfter
  }

  /** The file at the path is the live inode of some other process. */
  predicate RemovesLive(s: State, remover: Option<Proc>) {
    exists p :: p in s.pcs && Live(s, p) && remover != Some(p) && s.path == Some(s.pcs[p].inode)
  }

  function UnlinkPath(s: State, remover: Option<Proc>): State {
    s.(path := None, unlinked := if RemovesLive(s, remover) then s.unlinked + 1 else s.unlinked)
  }

  function Goto(s: State, p: Proc, pc: Pc): State {
    s.(pcs := s.pcs[p := pc])
  }

  function GoAlone(s: State, p: Proc): State {
    s.(pcs := s.pcs[p := Alone], alone := s.alone + 1)
  }

  predicate Enabled(s: State, step: Step) {
    match step
    case Create(p, _) => p in s.pcs && s.pcs[p] == Idle
    case WriteToken(p, _) => p in s.pcs && s.pcs[p].Created? && s.pcs[p].inode in s.files
    case Abort(p, _) => p in s.pcs && s.pcs[p].Aborting?
    case Serve(p) => p in s.pcs && s.pcs[p] == Idle
    case TimeOut(p) => p in s.pcs && s.pcs[p] == Idle
    case Finish(p) => p in s.pcs && s.pcs[p] == Alone
    case Look(p) => p in s.pcs && s.pcs[p] == Idle
    case LookAgain(p) => p in s.pcs && s.pcs[p] == Looked
    case Break(p, _) => p in s.pcs && s.pcs[p] == Condemned
    case Beat(p) => p in s.pcs && (s.pcs[p].Held? || s.pcs[p].Releasing? || s.pcs[p].Unlinking?)
    case StartRelease(p) => p in s.pcs && s.pcs[p].Held?
    case Compare(p) => p in s.pcs && s.pcs[p].Releasing?
    case Unlink(p, _) => p in s.pcs && s.pcs[p].Unlinking?
    case Crash(p) => p in s.pcs
    case ForeignDelete => s.path.Some?
    case Clock(_) => true
  }

  /** The content at the path is this process's own token. */
  predicate HoldsToken(s: State, p: Proc) {
    s.path.Some? && s.path.value in s.files && s.files[s.path.value].written && s.files[s.path.value].owner == p
  }

  function Apply(s: State, step: Step): State
    requires Enabled(s, step)
  {
    match step
    case Create(p, ok) =>
      if !ok then GoAlone(s, p)
      else if s.path.Some? then s
      else
        Goto(s.(path := Some(s.nextInode),
                files := s.files[s.nextInode := File(p, false, s.now)],
                nextInode := s.nextInode + 1), p, Created(s.nextInode))
    case WriteToken(p, ok) =>
      var i := s.pcs[p].inode;
      if ok then Goto(s.(files := s.files[i := File(s.files[i].owner, true, s.now)]), p, Held(i))
      else Goto(s, p, Aborting(i))
    case Abort(p, ok) => GoAlone(if ok then UnlinkPath(s, Some(p)) else s, p)
    case Serve(p) => Goto(s, p, Done)
    case TimeOut(p) => GoAlone(s, p)
    case Finish(p) => Goto(s, p, Done)
    case Look(p) => if PathIsStale(s) then Goto(s, p, Looked) else s
    case LookAgain(p) => Goto(s, p, if PathIsStale(s) then Condemned else Idle)
    case Break(p, ok) => Goto(if ok then UnlinkPath(s, Some(p)) else s, p, Idle)
    case Beat(p) =>
      if s.path.Some? && s.path.value in s.files then
        s.(files := s.files[s.path.value := s.files[s.path.value].(mtime := s.now)])
      else s
    case StartRelease(p) => Goto(s, p, Releasing(s.pcs[p].inode))
    case Compare(p) => Goto(s, p, if HoldsToken(s, p) then Unlinking(s.pcs[p].inode) else Done)
    case Unlink(p, ok) => Goto(if ok then UnlinkPath(s, Some(p)) else s, p, Done)
    case Crash(p) => Goto(s, p, Crashed)
    case ForeignDelete => UnlinkPath(s, None)
    case Clock(now) => s.(now := now)
  }

  /** Nobody has started; the path may hold a file left by an earlier crash. */
  predicate Init(s: State) {
    && (forall p :: p in s.pcs ==> s.pcs[p] == Idle)
    && (forall i :: i in s.files ==> i < s.nextInode && s.files[i].owner !in s.pcs)
    && (s.path.Some? ==> s.path.value in s.files)
    && s.unlinked == 0 && s.alone == 0
  }

  ghost predicate Behavior(trace: seq<State>, steps: seq<Step>) {
    && |trace| == |steps| + 1
    && Init(trace[0])
    && forall i :: 0 <= i < |steps| ==> Enabled(trace[i], steps[i]) && trace[i + 1] == Apply(trace[i], steps[i])
  }

  // ------------------------------------------------------------- the invariant

  /** The processes computing (or about to) under the lock. */
  function LiveSet(s: State): set<Proc> {
    set p | p in s.pcs && Owns(s.pcs[p])
  }

  /** The processes computing without it. */
  function AloneSet(s: State): set<Proc> {
    set p | p in s.pcs && s.pcs[p] == Alone
  }

  /** Every process that computes the value guarded by this lock path. */
  function Computing(s: State): set<Proc> {
    LiveSet(s) + AloneSet(s)
  }

  /** The live owners whose inode is no longer the one at the path. */
  function Displaced(s: State): set<Proc> {
    set p | p in s.pcs && Owns(s.pcs[p]) && s.path != Some(s.pcs[p].inode)
  }

  function InodeOf(pc: Pc): Option<Inode> {
    match pc
    case Created(i) => Some(i)
    case Held(i) => Some(i)
    case Aborting(i) => Some(i)
    case Releasing(i) => Some(i)
    case Unlinking(i) => Some(i)
    case _ => None
  }

  /** Who created what: a process past creation owns exactly its inode, one that
    has not created owns none. */
  predicate Ownership(s: State) {
    && (forall i :: i in s.files ==> i < s.nextInode)
    && (s.path.Some? ==> s.path.value in s.files)
    && (forall p :: p in s.pcs && InodeOf(s.pcs[p]).Some? ==>
          InodeOf(s.pcs[p]).value in s.files && s.files[InodeOf(s.pcs[p]).value].owner == p)
    && (forall i :: i in s.files && s.files[i].owner in s.pcs ==>
          var pc := s.pcs[s.files[i].owner];
          pc == Alone || pc == Done || pc == Crashed || InodeOf(pc) == Some(i))
  }

  predicate Counted(s: State) {
    |Displaced(s)| <= s.unlinked
  }

  lemma CreateKeepsOwnership(s: State, p: Proc, ok: bool)
    requires Ownership(s) && Enabled(s, Create(p, ok))
    ensures Ownership(Apply(s, Create(p, ok)))
  {
  }

  lemma WriteKeepsOwnership(s: State, p: Proc, ok: bool)
    requires Ownership(s) && Enabled(s, WriteToken(p, ok))
    ensures Ownership(Apply(s, WriteToken(p, ok)))
  {
  }

  lemma BeatKeepsOwnership(s: State, p: Proc)
    requires Ownership(s) && Enabled(s, Beat(p))
    ensures Ownership(Apply(s, Beat(p)))
  {
  }

  lemma WaitersKeepOwnership(s: State, step: Step)
    requires Ownership(s) && Enabled(s, step)
    requires step.Serve? || step.TimeOut? || step.Finish? || step.Look? || step.LookAgain? || step.Break?
    ensures Ownership(Apply(s, step))
  {
  }

  lemma OthersKeepOwnership(s: State, step: Step)
    requires Ownership(s) && Enabled(s, step)
    requires step.Abort? || step.StartRelease? || step.Compare? || step.Unlink? || step.Crash? || step.ForeignDelete?
      || step.Clock?
    ensures Ownership(Apply(s, step))
  {
  }

  lemma OwnershipKept(s: State, step: Step)
    requires Ownership(s) && Enabled(s, step)
    ensures Ownership(Apply(s, step))
  {
    match step {
      case Create(p, ok) => CreateKeepsOwnership(s, p, ok);
      case WriteToken(p, ok) => WriteKeepsOwnership(s, p, ok);
      case Beat(p) => BeatKeepsOwnership(s, p);
      case _ =>
        if step.Serve? || step.TimeOut? || step.Finish? || step.Look? || step.LookAgain? || step.Break? {
          WaitersKeepOwnership(s, step);
        } else {
          OthersKeepOwnership(s, step);
        }
    }
  }

  lemma SubsetSize<T>(a: set<T>, b: set<T>)
    requires a <= b
    ensures |a| <= |b|
  {
    assert b == a + (b - a);
  }

  lemma OneMore<T>(a: set<T>, b: set<T>, x: T)
    requires a <= b + {x}
    ensures |a| <= |b| + 1
  {
    SubsetSize(a, b + {x});
  }

  /** Removing what is at the path displaces at most the owner of that inode, and
    then it is counted, unless the remover is that owner. */
  lemma UnlinkCounts(s: State, remover: Option<Proc>)
    requires Ownership(s) && Counted(s)
    requires remover.Some? ==> remover.value in s.pcs && !Owns(s.pcs[remover.value])
    ensures Counted(UnlinkPath(s, remover))
  {
    var after := UnlinkPath(s, remover);
    if s.path.Some? {
      var owner := s.files[s.path.value].owner;
      assert Displaced(after) <= Displaced(s) + {owner};
      if RemovesLive(s, remover) {
        OneMore(Displaced(after), Displaced(s), owner);
      } else {
        forall p | p in Displaced(after) ensures p in Displaced(s) {
          assert Live(s, p) && remover != Some(p);
        }
        SubsetSize(Displaced(after), Displaced(s));
      }
    } else {
      assert Displaced(after) == Displaced(s);
    }
  }

  lemma CountedKept(s: State, step: Step)
    requires Ownership(s) && Counted(s) && Enabled(s, step)
    ensures Counted(Apply(s, step))
  {
    var after := Apply(s, step);
    var mid :=
      match step
      case Abort(p, ok) => if ok then UnlinkPath(s, Some(p)) else s
      case Break(p, ok) => if ok then UnlinkPath(s, Some(p)) else s
      case Unlink(p, ok) => if ok then UnlinkPath(s, Some(p)) else s
      case ForeignDelete => UnlinkPath(s, None)
      case _ => s;
    match step {
      case Abort(p, ok) => UnlinkCounts(s, Some(p));
      case Break(p, ok) => UnlinkCounts(s, Some(p));
      case Unlink(p, ok) => UnlinkCounts(s, Some(p));
      case ForeignDelete => UnlinkCounts(s, None);
      case _ =>
    }
    assert Displaced(after) <= Displaced(mid);
    SubsetSize(Displaced(after), Displaced(mid));
  }

  lemma AloneKept(s: State, step: Step)
    requires |AloneSet(s)| <= s.alone && Enabled(s, step)
    ensures |AloneSet(Apply(s, step))| <= Apply(s, step).alone
  {
    var after := Apply(s, step);
    if after.alone == s.alone {
      SubsetSize(AloneSet(after), AloneSet(s));
    } else {
      OneMore(AloneSet(after), AloneSet(s), step.p);
    }
  }

  lemma {:induction false} InvariantHolds(trace: seq<State>, steps: seq<Step>, n: nat)
    requires Behavior(trace, steps) && n < |trace|
    ensures Ownership(trace[n]) && Counted(trace[n]) && |AloneSet(trace[n])| <= trace[n].alone
  {
    if n == 0 {
      assert Displaced(trace[0]) == {};
      assert AloneSet(trace[0]) == {};
    } else {
      InvariantHolds(trace, steps, n - 1);
      OwnershipKept(trace[n - 1], steps[n - 1]);
      CountedKept(trace[n - 1], steps[n - 1]);
      AloneKept(trace[n - 1], steps[n - 1]);
    }
  }

  lemma HoldersCounted(s: State)
    requires Ownership(s) && Counted(s)
    ensures |LiveSet(s)| <= 1 + s.unlinked
  {
    if s.path.Some? {
      var owner := s.files[s.path.value].owner;
      assert LiveSet(s) <= Displaced(s) + {owner};
      OneMore(LiveSet(s), Displaced(s), owner);
    } else {
      assert LiveSet(s) == Displaced(s);
    }
  }

  /** The counting form of mutual exclusion, through every interleaving of creation,
    writes, looks, breaks, timeouts, releases, crashes and foreign deletions: the
    processes computing, with the lock or without, number at most one more than the
    unlink steps by others that removed a live owner's inode and the processes that
    gave the lock up. */
  lemma AtMostOnePlusUnlinked(trace: seq<State>, steps: seq<Step>, n: nat)
    requires Behavior(trace, steps) && n < |trace|
    ensures |LiveSet(trace[n])| <= 1 + trace[n].unlinked
    ensures |Computing(trace[n])| <= 1 + trace[n].unlinked + trace[n].alone
  {
    InvariantHolds(trace, steps, n);
    HoldersCounted(trace[n]);
  }

  // ------------------------------------------------- exclusion without breaking

  /** The run never finds a stale lock when it looks, and nothing outside deletes
    the file: what prompt heartbeats buy. */
  ghost predicate Prompt(trace: seq<State>, steps: seq<Step>) {
    |trace| == |steps| + 1
    && forall i :: 0 <= i < |steps| ==>
      && (steps[i].Look? || steps[i].LookAgain? ==> !PathIsStale(trace[i]))
      && !steps[i].ForeignDelete?
  }

  /** While nobody breaks, whoever has created and not finished has its inode at
    the path, and nobody is about to break. */
  predicate Undisturbed(s: State) {
    && s.unlinked == 0
    && forall p :: p in s.pcs ==>
         && s.pcs[p] != Looked && s.pcs[p] != Condemned
         && (InodeOf(s.pcs[p]).Some? ==> s.path == InodeOf(s.pcs[p]))
  }

  /** Removing one's own inode is not counted. */
  lemma OwnUnlinkIsFree(s: State, p: Proc)
    requires Ownership(s) && p in s.pcs && InodeOf(s.pcs[p]).Some? && s.path == InodeOf(s.pcs[p])
    requires Undisturbed(s)
    ensures UnlinkPath(s, Some(p)).unlinked == 0
    ensures forall q :: q in s.pcs && InodeOf(s.pcs[q]).Some? ==> q == p
  {
    forall q | q in s.pcs && InodeOf(s.pcs[q]).Some? ensures q == p {
      assert s.files[InodeOf(s.pcs[q]).value].owner == q;
    }
  }

  lemma UndisturbedKept(s: State, step: Step)
    requires Ownership(s) && Undisturbed(s) && Enabled(s, step)
    requires step.Look? || step.LookAgain? ==> !PathIsStale(s)
    requires !step.ForeignDelete?
    ensures Undisturbed(Apply(s, step))
  {
    match step {
      case Abort(p, ok) => OwnUnlinkIsFree(s, p);
      case Unlink(p, ok) => OwnUnlinkIsFree(s, p);
      case _ =>
    }
  }

  lemma {:induction false} PromptIsUndisturbed(trace: seq<State>, steps: seq<Step>, n: nat)
    requires Behavior(trace, steps) && Prompt(trace, steps) && n < |trace|
    ensures Undisturbed(trace[n])
  {
    if n > 0 {
      PromptIsUndisturbed(trace, steps, n - 1);
      InvariantHolds(trace, steps, n - 1);
      UndisturbedKept(trace[n - 1], steps[n - 1]);
    }
  }

  /** When no look ever finds the lock stale and nothing outside deletes it, at most
    one process computes under the lock at any time, crashes and failing writes
    included, and all others that compute have given the lock up. */
  lemma PromptRunsExclude(trace: seq<State>, steps: seq<Step>, n: nat)
    requires Behavior(trace, steps) && Prompt(trace, steps) && n < |trace|
    ensures |LiveSet(trace[n])| <= 1
    ensures |Computing(trace[n])| <= 1 + trace[n].alone
  {
    PromptIsUndisturbed(trace, steps, n);
    AtMostOnePlusUnlinked(trace, steps, n);
  }

  // ------------------------------------------------------ why looks are never stale

  /** A process leaves no file behind: it does not crash between creating its file and
    removing it, its removals succeed, and nothing outside deletes the file. */
  predicate Tidy(s: State, step: Step) {
    match step
    case Crash(p) => p in s.pcs ==> InodeOf(s.pcs[p]).None?
    case Abort(_, ok) => ok
    case Unlink(_, ok) => ok
    case ForeignDelete => false
    case _ => true
  }

  /** The steps by which a process marks its file: creating it, writing its token and
    beating. */
  predicate Signs(step: Step, p: Proc) {
    step == Beat(p) || step == WriteToken(p, true) || (step.Create? && step.p == p)
  }

  /** The clock at the process's last such step. */
  ghost function LastSign(trace: seq<State>, steps: seq<Step>, n: nat, p: Proc): int
    requires n <= |steps| && n < |trace|
  {
    if n == 0 then trace[0].now
    else if Signs(steps[n - 1], p) then trace[n - 1].now
    else LastSign(trace, steps, n - 1, p)
  }

  /** The clock stays within the threshold of the last sign of each process with a file. */
  ghost predicate Punctual(trace: seq<State>, steps: seq<Step>, n: nat)
    requires n <= |steps| && n < |trace|
  {
    forall p :: p in trace[n].pcs && InodeOf(trace[n].pcs[p]).Some? ==>
      trace[n].now - LastSign(trace, steps, n, p) <= trace[n].staleAfter
  }

  /** A run from an empty path with timely signs and no leftovers. */
  ghost predicate Attentive(trace: seq<State>, steps: seq<Step>) {
    && |trace| == |steps| + 1
    && trace[0].path == None
    && (forall i :: 0 <= i < |steps| ==> Tidy(trace[i], steps[i]))
    && (forall i :: 0 <= i < |trace| ==> Punctual(trace, steps, i))
  }

  /** A beat makes whatever file is at the path new. */
  lemma BeatsRenew(s: State, p: Proc)
    requires Ownership(s) && Enabled(s, Beat(p)) && s.path.Some?
    ensures Apply(s, Beat(p)).path == s.path && Age(Apply(s, Beat(p)), s.path.value) == 0
  {
  }

  /** Whoever has its file written has written it. */
  predicate TokensWritten(s: State) {
    forall p :: p in s.pcs && (s.pcs[p].Held? || s.pcs[p].Releasing? || s.pcs[p].Unlinking?) ==>
      s.pcs[p].inode in s.files && s.files[s.pcs[p].inode].written
  }

  /** The file at the path is that of a process between its creation and its removal. */
  predicate Occupied(s: State) {
    s.path.Some? ==>
      && s.path.value in s.files
      && s.files[s.path.value].owner in s.pcs
      && InodeOf(s.pcs[s.files[s.path.value].owner]) == s.path
  }

  lemma TokensKept(s: State, step: Step)
    requires Ownership(s) && TokensWritten(s) && Enabled(s, step)
    ensures TokensWritten(Apply(s, step))
  {
  }

  lemma OccupiedKept(s: State, step: Step)
    requires Ownership(s) && TokensWritten(s) && Occupied(s) && Enabled(s, step) && Tidy(s, step)
    ensures Occupied(Apply(s, step))
  {
  }

  /** The file of each process that has one is as old as its last sign. */
  ghost predicate Signed(trace: seq<State>, steps: seq<Step>, n: nat)
    requires n <= |steps| && n < |trace|
  {
    forall p :: p in trace[n].pcs && InodeOf(trace[n].pcs[p]).Some? ==>
      && InodeOf(trace[n].pcs[p]).value in trace[n].files
      && trace[n].files[InodeOf(trace[n].pcs[p]).value].mtime == LastSign(trace, steps, n, p)
  }

  /** Who has a file has the one at the path. */
  predicate AloneAtPath(s: State) {
    forall p :: p in s.pcs && InodeOf(s.pcs[p]).Some? ==> s.path == InodeOf(s.pcs[p])
  }

  lemma SignedKept(trace: seq<State>, steps: seq<Step>, n: nat)
    requires n < |steps| && n + 1 < |trace| && Ownership(trace[n]) && AloneAtPath(trace[n]) && Signed(trace, steps, n)
    requires Enabled(trace[n], steps[n]) && trace[n + 1] == Apply(trace[n], steps[n])
    ensures Signed(trace, steps, n + 1)
  {
    var s, after := trace[n], trace[n + 1];
    forall p | p in after.pcs && InodeOf(after.pcs[p]).Some?
      ensures InodeOf(after.pcs[p]).value in after.files
        && after.files[InodeOf(after.pcs[p]).value].mtime == LastSign(trace, steps, n + 1, p)
    {
      SignKept(s, steps[n], p);
    }
  }

  /** A step renews the file of the process that signs, and no other process's. */
  lemma SignKept(s: State, step: Step, p: Proc)
    requires Ownership(s) && AloneAtPath(s) && Enabled(s, step)
    requires p in Apply(s, step).pcs && InodeOf(Apply(s, step).pcs[p]).Some?
    ensures var after := Apply(s, step); var i := InodeOf(after.pcs[p]).value;
      && i in after.files
      && (Signs(step, p) ==> after.files[i].mtime == s.now)
      && (!Signs(step, p) ==>
            p in s.pcs && InodeOf(s.pcs[p]) == Some(i) && i in s.files && after.files[i].mtime == s.files[i].mtime)
  {
    match step {
      case Beat(q) => OwnerIsUnique(s, p, q);
      case WriteToken(q, ok) => OwnerIsUnique(s, p, q);
      case _ =>
    }
  }

  lemma OwnerIsUnique(s: State, p: Proc, q: Proc)
    requires Ownership(s) && AloneAtPath(s) && p in s.pcs && q in s.pcs
    ensures InodeOf(s.pcs[p]).Some? && InodeOf(s.pcs[q]).Some? ==> p == q
  {
    if InodeOf(s.pcs[p]).Some? && InodeOf(s.pcs[q]).Some? {
      assert s.files[InodeOf(s.pcs[p]).value].owner == p && s.files[InodeOf(s.pcs[q]).value].owner == q;
    }
  }

  lemma PunctualIsNotStale(trace: seq<State>, steps: seq<Step>, n: nat)
    requires n <= |steps| && n < |trace| && Occupied(trace[n]) && Signed(trace, steps, n) && Punctual(trace, steps, n)
    requires trace[n].staleAfter >= 0
    ensures !PathIsStale(trace[n])
  {
  }

  lemma {:induction false} StaysFresh(trace: seq<State>, steps: seq<Step>, n: nat)
    requires Behavior(trace, steps) && Attentive(trace, steps) && n < |trace| && trace[0].staleAfter >= 0
    ensures TokensWritten(trace[n]) && Occupied(trace[n]) && Undisturbed(trace[n]) && Signed(trace, steps, n)
    ensures trace[n].staleAfter == trace[0].staleAfter && !PathIsStale(trace[n])
  {
    if n > 0 {
      StaysFresh(trace, steps, n - 1);
      InvariantHolds(trace, steps, n - 1);
      assert Tidy(trace[n - 1], steps[n - 1]);
      TokensKept(trace[n - 1], steps[n - 1]);
      OccupiedKept(trace[n - 1], steps[n - 1]);
      UndisturbedKept(trace[n - 1], steps[n - 1]);
      SignedKept(trace, steps, n - 1);
    }
    PunctualIsNotStale(trace, steps, n);
  }

  /** While each process beats in time and nobody leaves a file behind, no look is ever
    stale, so at most one process computes under the lock. */
  lemma BeatsExclude(trace: seq<State>, steps: seq<Step>, n: nat)
    requires Behavior(trace, steps) && Attentive(trace, steps) && n < |trace| && trace[0].staleAfter >= 0
    ensures Prompt(trace, steps)
    ensures |LiveSet(trace[n])| <= 1
    ensures |Computing(trace[n])| <= 1 + trace[n].alone
  {
    forall i | 0 <= i < |steps| ensures !PathIsStale(trace[i]) && !steps[i].ForeignDelete? {
      StaysFresh(trace, steps, i);
      assert Tidy(trace[i], steps[i]);
    }
    PromptRunsExclude(trace, steps, n);
  }

  /** Release compares tokens: it goes on to unlink only when the inode at the path
    is the releasing process's own. */
  lemma ReleaseComparesTokens(trace: seq<State>, steps: seq<Step>, n: nat, p: Proc)
    requires Behavior(trace, steps) && n < |steps|
    requires steps[n] == Compare(p) && trace[n + 1].pcs[p].Unlinking?
    ensures trace[n].path == Some(trace[n].pcs[p].inode)
  {
    InvariantHolds(trace, steps, n);
  }

  // ------------------------------------------------------------ what the lock is for

  /** A creation takes the lock exactly when nothing is at the path; a lock that is taken
    is waited for, and one that cannot be made is given up. */
  lemma CreationTakes(s: State, p: Proc, ok: bool)
    requires Enabled(s, Create(p, ok))
    ensures var after := Apply(s, Create(p, ok));
      && (after.pcs[p].Created? <==> ok && s.path == None)
      && (after.pcs[p].Created? ==> after.path == Some(after.pcs[p].inode) && after.pcs[p].inode == s.nextInode)
      && (ok && s.path.Some? ==> after == s)
      && (!ok ==> after.pcs[p] == Alone && after.path == s.path)
  {
  }

  /** A waiter goes on to break exactly a lock whose file has gone unsigned for longer
    than the threshold, at two looks in a row. */
  lemma LooksMeasure(s: State, p: Proc, i: Inode)
    requires s.path == Some(i) && i in s.files && s.staleAfter >= 0
    ensures Enabled(s, Look(p)) ==>
      (Apply(s, Look(p)).pcs[p] == Looked <==> s.now - s.files[i].mtime > s.staleAfter)
    ensures Enabled(s, LookAgain(p)) ==>
      (Apply(s, LookAgain(p)).pcs[p] == Condemned <==> s.now - s.files[i].mtime > s.staleAfter)
  {
  }

  /** Breaking and releasing clear the path, so that the next creation takes the lock. */
  lemma BreakClears(s: State, p: Proc)
    requires Enabled(s, Break(p, true))
    ensures var after := Apply(s, Break(p, true));
      && after.path == None && after.pcs[p] == Idle
      && Enabled(after, Create(p, true)) && Apply(after, Create(p, true)).pcs[p].Created?
  {
  }

  /** An owner whose file is still at the path releases it in three steps. */
  lemma ReleaseClears(s: State, p: Proc)
    requires Ownership(s) && TokensWritten(s) && p in s.pcs && s.pcs[p].Held? && s.path == Some(s.pcs[p].inode)
    ensures Enabled(s, StartRelease(p))
    ensures var s1 := Apply(s, StartRelease(p));
      && Enabled(s1, Compare(p))
      && var s2 := Apply(s1, Compare(p));
         && Enabled(s2, Unlink(p, true))
         && var s3 := Apply(s2, Unlink(p, true));
            s3.path == None && s3.pcs[p] == Done && s3.pcs == s.pcs[p := Done]
  {
    var s1 := Apply(s, StartRelease(p));
    assert HoldsToken(s1, p);
  }

  /** The race: the lock of crashed process 9 is old, waiters 1 and 2 both condemn it
    before either breaks it, and waiter 3 times out. */
  function RaceState(n: int): State {
    var dead := map[0 := File(9, true, 0)];
    var files :=
      if n < 6 then dead
      else if n == 6 then dead[1 := File(1, false, 10)]
      else if n < 9 then dead[1 := File(1, true, 10)]
      else dead[1 := File(1, true, 10)][2 := File(2, false, 10)];
    var path := if n < 5 then Some(0) else if n == 5 || n == 8 then None else if n < 8 then Some(1) else Some(2);
    var one := if n == 0 || n == 5 then Idle else if n == 1 then Looked else if n < 5 then Condemned
               else if n == 6 then Created(1) else Held(1);
    var two := if n < 3 || n == 8 then Idle else if n == 3 then Looked else if n < 8 then Condemned else Created(2);
    var three := if n < 10 then Idle else Alone;
    var next := if n < 6 then 1 else if n < 9 then 2 else 3;
    State(path, files, next, map[1 := one, 2 := two, 3 := three], 10, 5,
          if n < 8 then 0 else 1, if n < 10 then 0 else 1)
  }

  function RaceStep(n: int): Step {
    if n == 0 then Look(1) else if n == 1 then LookAgain(1) else if n == 2 then Look(2)
    else if n == 3 then LookAgain(2) else if n == 4 then Break(1, true) else if n == 5 then Create(1, true)
    else if n == 6 then WriteToken(1, true) else if n == 7 then Break(2, true) else if n == 8 then Create(2, true)
    else TimeOut(3)
  }

  lemma RaceRuns(n: int)
    requires 0 <= n < 10
    ensures Enabled(RaceState(n), RaceStep(n)) && Apply(RaceState(n), RaceStep(n)) == RaceState(n + 1)
  {
    var s, t := Apply(RaceState(n), RaceStep(n)), RaceState(n + 1);
    if n == 7 {
      assert Live(RaceState(7), 1) && RemovesLive(RaceState(7), Some(2));
    }
    assert s.pcs == t.pcs;
    assert s.files == t.files;
  }

  function RaceTrace(): (r: seq<State>)
    ensures |r| == 11 && forall i :: 0 <= i < 11 ==> r[i] == RaceState(i)
  {
    seq(11, i => RaceState(i))
  }

  function RaceSteps(): (r: seq<Step>)
    ensures |r| == 10 && forall i :: 0 <= i < 10 ==> r[i] == RaceStep(i)
  {
    seq(10, i => RaceStep(i))
  }

  lemma RaceBehaves()
    ensures Behavior(RaceTrace(), RaceSteps())
  {
    var trace, steps := RaceTrace(), RaceSteps();
    forall i | 0 <= i < |steps| ensures Enabled(trace[i], steps[i]) && trace[i + 1] == Apply(trace[i], steps[i]) {
      RaceRuns(i);
    }
  }

  predicate AtTheBound(s: State) {
    s.unlinked == 1 && s.alone == 1
    && |LiveSet(s)| == 1 + s.unlinked && |Computing(s)| == 1 + s.unlinked + s.alone
  }

  lemma RaceEnds()
    ensures AtTheBound(RaceState(10))
  {
    assert LiveSet(RaceState(10)) == {1, 2} && Computing(RaceState(10)) == {1, 2, 3};
  }

  /** The bound is reached: the faster waiter breaks the dead lock and creates a fresh
    one, which the slower one then removes; the third gives up. */
  lemma BoundIsReached()
    ensures exists trace: seq<State>, steps: seq<Step> :: Behavior(trace, steps) && AtTheBound(trace[|steps|])
  {
    RaceBehaves();
    RaceEnds();
    assert AtTheBound(RaceTrace()[|RaceSteps()|]);
  }
}
