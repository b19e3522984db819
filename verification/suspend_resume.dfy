/**
 The life of one deque: run by a worker, suspended, put into a pool or left free, made resumable by
 whoever fulfils the future it waits for, drained or mugged by thieves, and run again, any number of times.

 Accesses made without a lock are steps of their own; a section under one worker's lock is one step, unless
 somebody can see inside it, as in deque_pool_remove, whose two stores a resumer can fall between.
 Other deques matter only because their owners and thieves hold locks: `busy` is any set of them.
 */
module SuspendResume {

  type Worker = nat

  datatype Option = None | Some(worker: Worker)

  datatype Place = Active | Invalid | Pooled

  /** The worker that runs the deque, or is suspending it. */
  datatype Owner =
    | Running(w: Worker)
    | Announced(w: Worker)        // the deque is on its future's list, or marked resumable
    | Fibered(w: Worker)          // d->fiber is set, the worker runs another deque
    | Freeing(w: Worker)          // d->self is invalid, d->worker not cleared yet
    | Leaving(w: Worker)          // placed; still on the fiber it is leaving
    | Away

  /** Whoever holds the right to resume the deque: make_resumable, or resume_suspended if `take`. */
  datatype Resumer =
    | NoRight
    | Right                       // not called yet
    | Spinning(take: bool)
    | Spun(take: bool)
    | Saw(take: bool, victim: Option)
    | Unowned(take: bool)         // in no pool, as far as the resumer knows
    | Marked
    | Assigned(v: Worker)
    | TakeMarked(w: Worker)
    | TakeUnmarked(w: Worker)

  /** A thief, or a worker about to suspend another deque (`own`), that took the deque from a resumable pool. */
  datatype Mugger =
    | Nobody
    | Mugging(w: Worker)          // spinning on the fiber
    | Cleared(w: Worker)
    | Own(w: Worker)
    | OwnUnmarked(w: Worker)
    | OwnActive(w: Worker)        // already its active deque, spinning on the fiber

  datatype State = State(
    fiber: bool,                  // d->fiber != NULL
    ready: bool,                  // that fiber's resumable flag
    self: Place,
    worker: Option,               // d->worker
    resumable: bool,
    stealable: bool,              // head != tail
    caller: Worker,               // d->call_stack->worker
    suspended: set<Worker>,       // the workers in whose suspended pool it is
    resumables: set<Worker>,      // and in whose resumable pool
    owner: Owner, resumer: Resumer, mugger: Mugger,
    draining: Option,             // a drain that has cleared self but not worker: whose lock it holds
    stamping: map<Worker, Worker>, // drains about to store call_stack->worker: lock held -> drainer
    checking: set<Worker>,        // drains about to assert !d->resumable: lock held
    busy: set<Worker>,            // locks held by threads that work on other deques
    entered: nat)                 // times it entered a resumable pool since it was last run

  datatype Suspending = Work(stealable: bool) | Announce | AnnounceResumable | SetFiber(stealable: bool)
                      | Pool(v: Worker) | Invalidate | Unown | SwitchFibers
  datatype Resuming = Call(take: bool) | SpinEnds | ReadWorker | LockVictim | TakeNone
                    | Mark | Assign(v: Worker) | AddAssigned | TakeMark(w: Worker) | TakeUnmark | TakeSwitch
  datatype Thieving = StealFrom(v: Worker, stealable: bool) | Drain(v: Worker) | ClearWorker(w: Worker)
                    | Stamp(v: Worker) | Check(v: Worker)
                    | Mug(v: Worker, w: Worker) | MugClears | MugSwitches | MugOwn(w: Worker) | OwnUnmarks | OwnSwitches | OwnResumes
                    | Grab(v: Worker) | Release(v: Worker)

  datatype Step = Suspend(s: Suspending) | Resume(r: Resuming) | Thieve(t: Thieving)

  predicate LockFree(s: State, v: Worker) {
    s.draining != Some(v) && v !in s.stamping && v !in s.checking && v !in s.busy
  }

  // ---------------------------------------------------------------- deque_suspend and the fiber switch

  predicate CanSuspend(s: State, st: Suspending) {
    match st
    case Work(_) => s.owner.Running?
    case Announce => s.owner.Running? && s.resumer.NoRight?
    case AnnounceResumable => s.owner.Running? && s.resumer.NoRight?
    case SetFiber(more) => s.owner.Announced? && LockFree(s, s.owner.w) && (more ==> s.stealable)
    case Pool(v) => s.owner.Fibered? && (s.resumable || s.stealable) && LockFree(s, v)
    case Invalidate => s.owner.Fibered? && !(s.resumable || s.stealable)
    case Unown => s.owner.Freeing?
    case SwitchFibers => s.owner.Leaving?
  }

  function DoSuspend(s: State, st: Suspending): State
    requires CanSuspend(s, st)
  {
    match st
    case Work(more) => s.(stealable := more)
    case Announce => s.(owner := Announced(s.owner.w), resumer := Right)
    case AnnounceResumable => s.(owner := Announced(s.owner.w), resumable := true)
    case SetFiber(more) => s.(fiber := true, stealable := more, owner := Fibered(s.owner.w))
    case Pool(v) =>
      if s.resumable then
        s.(self := Pooled, worker := Some(v), resumables := s.resumables + {v}, entered := s.entered + 1, owner := Leaving(s.owner.w))
      else
        s.(self := Pooled, worker := Some(v), suspended := s.suspended + {v}, owner := Leaving(s.owner.w))
    case Invalidate => s.(self := Invalid, owner := Freeing(s.owner.w))
    case Unown => s.(worker := None, owner := Leaving(s.owner.w))
    case SwitchFibers => s.(ready := true, owner := Away)
  }

  // ---------------------------------------------------------------- make_resumable and resume_suspended

  predicate CanResume(s: State, st: Resuming) {
    match st
    case Call(_) => s.resumer.Right?
    case SpinEnds => s.resumer.Spinning? && s.fiber && s.ready
    case ReadWorker => s.resumer.Spun?
    case LockVictim => s.resumer.Saw? && s.resumer.victim.Some? && LockFree(s, s.resumer.victim.worker)
    case TakeNone => s.resumer.Saw? && s.resumer.victim.None?
    case Mark => s.resumer.Unowned? && !s.resumer.take
    case Assign(v) => s.resumer.Marked?
    case AddAssigned => s.resumer.Assigned? && LockFree(s, s.resumer.v)
    case TakeMark(w) => s.resumer.Unowned? && s.resumer.take
    case TakeUnmark => s.resumer.TakeMarked?
    case TakeSwitch => s.resumer.TakeUnmarked? && LockFree(s, s.resumer.w)
  }

  function DoResume(s: State, st: Resuming): State
    requires CanResume(s, st)
  {
    match st
    case Call(take) => s.(resumer := Spinning(take))
    case SpinEnds => s.(resumer := Spun(s.resumer.take))
    case ReadWorker => s.(resumer := Saw(s.resumer.take, s.worker))
    case LockVictim =>
      var v := s.resumer.victim.worker;
      if s.worker.None? then s.(resumer := Unowned(s.resumer.take))
      else if s.resumer.take then
        s.(self := Invalid, worker := None, suspended := s.suspended - {v}, resumer := Unowned(true))
      else
        s.(self := Pooled, worker := Some(v), suspended := s.suspended - {v}, resumables := s.resumables + {v},
           resumable := true, entered := s.entered + 1, resumer := NoRight)
    case TakeNone => s.(resumer := Unowned(s.resumer.take))
    case Mark => s.(resumable := true, resumer := Marked)
    case Assign(v) => s.(worker := Some(v), resumer := Assigned(v))
    case AddAssigned =>
      var v := s.resumer.v;
      s.(self := Pooled, worker := Some(v), resumables := s.resumables + {v}, entered := s.entered + 1, resumer := NoRight)
    case TakeMark(w) => s.(resumable := true, caller := w, resumer := TakeMarked(w))
    case TakeUnmark => s.(resumable := false, resumer := TakeUnmarked(s.resumer.w))
    case TakeSwitch =>
      var w := s.resumer.w;
      s.(worker := Some(w), self := Active, fiber := false, ready := false, owner := Running(w), resumer := NoRight,
         entered := 0)
  }

  // ---------------------------------------------------------------- thieves

  predicate CanThieve(s: State, st: Thieving) {
    match st
    case StealFrom(v, more) => v in s.suspended && LockFree(s, v) && (more ==> s.stealable)
    case Drain(v) => v in s.suspended && LockFree(s, v) && !s.stealable
    case ClearWorker(_) => s.draining.Some?
    case Stamp(v) => v in s.stamping
    case Check(v) => v in s.checking
    case Mug(v, _) => v in s.resumables && LockFree(s, v)
    case MugClears => s.mugger.Mugging? && s.ready
    case MugSwitches => s.mugger.Cleared? && LockFree(s, s.mugger.w)
    case MugOwn(w) => w in s.resumables && LockFree(s, w)
    case OwnUnmarks => s.mugger.Own?
    case OwnSwitches => s.mugger.OwnUnmarked? && LockFree(s, s.mugger.w)
    case OwnResumes => s.mugger.OwnActive? && s.fiber && s.ready
    case Grab(v) => LockFree(s, v)
    case Release(v) => v in s.busy
  }

  function DoThieve(s: State, st: Thieving): State
    requires CanThieve(s, st)
  {
    match st
    case StealFrom(v, more) => s.(stealable := more)
    case Drain(v) => s.(suspended := s.suspended - {v}, self := Invalid, draining := Some(v))
    case ClearWorker(w) => s.(worker := None, draining := None, stamping := s.stamping[s.draining.worker := w])
    case Stamp(v) =>
      s.(caller := s.stamping[v], stamping := s.stamping - {v}, checking := s.checking + {v})
    case Check(v) => s.(checking := s.checking - {v})
    case Mug(v, w) => s.(self := Invalid, worker := None, resumables := s.resumables - {v}, caller := w, mugger := Mugging(w))
    case MugClears => s.(fiber := false, resumable := false, mugger := Cleared(s.mugger.w))
    case MugSwitches =>
      var w := s.mugger.w;
      s.(worker := Some(w), self := Active, ready := false, owner := Running(w), mugger := Nobody, entered := 0)
    case MugOwn(w) => s.(self := Invalid, worker := None, resumables := s.resumables - {w}, caller := w, mugger := Own(w))
    case OwnUnmarks => s.(resumable := false, mugger := OwnUnmarked(s.mugger.w))
    case OwnSwitches => s.(worker := Some(s.mugger.w), self := Active, mugger := OwnActive(s.mugger.w))
    case OwnResumes => s.(fiber := false, ready := false, owner := Running(s.mugger.w), mugger := Nobody, entered := 0)
    case Grab(v) => s.(busy := s.busy + {v})
    case Release(v) => s.(busy := s.busy - {v})
  }

  predicate Enabled(s: State, st: Step) {
    match st
    case Suspend(x) => CanSuspend(s, x)
    case Resume(x) => CanResume(s, x)
    case Thieve(x) => CanThieve(s, x)
  }

  function Do(s: State, st: Step): State
    requires Enabled(s, st)
  {
    match st
    case Suspend(x) => DoSuspend(s, x)
    case Resume(x) => DoResume(s, x)
    case Thieve(x) => DoThieve(s, x)
  }

  /** The worker that has taken the deque to run it, if any. */
  function Taker(s: State): Option {
    if !s.mugger.Nobody? then Some(s.mugger.w)
    else if s.resumer.TakeMarked? || s.resumer.TakeUnmarked? then Some(s.resumer.w)
    else if s.owner.Leaving? || s.owner.Away? then None
    else Some(s.owner.w)
  }

  /** A worker runs the deque for the first time. */
  predicate Init(s: State) {
    && s.owner.Running? && s.worker == Some(s.owner.w) && s.self == Active && s.caller == s.owner.w
    && !s.fiber && !s.ready && !s.resumable && s.suspended == {} && s.resumables == {}
    && s.resumer.NoRight? && s.mugger.Nobody? && s.draining.None? && s.stamping == map[] && s.checking == {}
    && s.busy == {} && s.entered == 0
  }

  // ---------------------------------------------------------------- the invariant

  /** Where a deque that nobody runs is, once its worker has left it. */
  datatype Home =
    | InSuspended(v: Worker) | InDrain(v: Worker) | Free | Claimed | InResumable(v: Worker) | InMug(m: Mugger) | WithOwner

  function HomeOf(s: State): Home {
    if !s.mugger.Nobody? then InMug(s.mugger)
    else if s.owner.Running? || s.owner.Announced? || s.owner.Fibered? || s.owner.Freeing? then WithOwner
    else if s.resumer.Marked? || s.resumer.Assigned? || s.resumer.TakeMarked? || s.resumer.TakeUnmarked? then Claimed
    else if s.draining.Some? then InDrain(s.draining.worker)
    else if s.resumable then (match s.worker case Some(v) => InResumable(v) case None => Free)
    else match s.worker case Some(v) => InSuspended(v) case None => Free
  }

  /** What the deque's fields say, by where it is. */
  predicate Fields(s: State) {
    match HomeOf(s)
    case WithOwner =>
      && s.suspended == {} && s.resumables == {} && s.draining.None?
      && (if s.owner.Freeing? then s.self.Invalid? else s.self.Active?) && s.worker == Some(s.owner.w)
      && s.fiber == (s.owner.Fibered? || s.owner.Freeing?) && !s.ready && s.entered == 0
    case InMug(m) =>
      && s.suspended == {} && s.resumables == {} && s.draining.None?
      && (m.OwnActive? ==> s.self.Active? && s.worker == Some(m.w)) && (!m.OwnActive? ==> s.self.Invalid? && s.worker.None?)
      && (s.fiber == !m.Cleared?) && (s.resumable <==> m.Mugging? || m.Own?) && s.entered == 1
    case InSuspended(v) =>
      && s.suspended == {v} && s.resumables == {} && s.self.Pooled? && s.fiber && s.entered == 0
    case InDrain(v) =>
      && s.suspended == {} && s.resumables == {} && s.self.Invalid? && s.worker == Some(v) && s.fiber && !s.resumable && s.entered == 0
    case Free =>
      && s.suspended == {} && s.resumables == {} && s.self.Invalid? && s.worker.None? && s.fiber && !s.resumable && s.entered == 0
    case Claimed =>
      && s.suspended == {} && s.resumables == {} && s.self.Invalid? && s.draining.None? && s.fiber && s.entered == 0
      && s.worker == (if s.resumer.Assigned? then Some(s.resumer.v) else None) && s.resumable == !s.resumer.TakeUnmarked?
    case InResumable(v) =>
      && s.suspended == {} && s.resumables == {v} && s.self.Pooled? && s.fiber && s.entered == 1
  }

  /** Who may be where: the right to resume is there exactly while the deque waits for it. */
  predicate Roles(s: State) {
    && (!s.mugger.Nobody? ==> s.resumer.NoRight? && (s.owner.Away? || (s.owner.Leaving? && !s.mugger.Cleared?)))
    && (s.owner.Running? ==> s.resumer.NoRight? && !s.resumable)
    && ((s.owner.Announced? || s.owner.Fibered? || s.owner.Freeing?) ==>
          (s.resumable <==> s.resumer.NoRight?) && (s.resumer.NoRight? || s.resumer.Right? || s.resumer.Spinning?))
    && (s.owner.Freeing? ==> !s.resumable)
    && (s.owner.Leaving? ==> s.resumer.NoRight? || s.resumer.Right? || s.resumer.Spinning?)
    && (s.ready <==> s.owner.Away?)
    && (s.resumer.NoRight? && s.mugger.Nobody? && (s.owner.Leaving? || s.owner.Away?) ==> HomeOf(s).InResumable?)
    && (s.draining.Some? ==> HomeOf(s).InDrain?)
    && (s.resumer.Right? || s.resumer.Spinning? || s.resumer.Spun? || s.resumer.Saw? || s.resumer.Unowned? ==> !s.resumable)
    && (s.resumer.Unowned? ==> HomeOf(s).Free?)
    && (s.resumer.Saw? ==> match s.resumer.victim
          case None => HomeOf(s).Free?
          case Some(v) => HomeOf(s) == InSuspended(v) || HomeOf(s) == InDrain(v) || HomeOf(s).Free?)
  }

  predicate Inv(s: State) {
    Fields(s) && Roles(s)
  }

  /** Any worker can be the first to run it. */
  lemma AnyStart(w: Worker, stealable: bool) returns (s: State)
    ensures Init(s) && s.owner == Running(w) && s.stealable == stealable
  {
    s := State(false, false, Active, Some(w), false, stealable, w, {}, {}, Running(w), NoRight, Nobody, None, map[], {}, {}, 0);
  }

  lemma InitInv(s: State)
    requires Init(s)
    ensures Inv(s)
  {
  }

  lemma SuspendKeepsInv(s: State, st: Suspending)
    requires Inv(s) && CanSuspend(s, st)
    ensures Inv(DoSuspend(s, st))
  {
  }

  lemma ResumeKeepsInv(s: State, st: Resuming)
    requires Inv(s) && CanResume(s, st)
    ensures Inv(DoResume(s, st))
  {
  }

  predicate Draining(st: Thieving) {
    st.StealFrom? || st.Drain? || st.ClearWorker? || st.Stamp? || st.Check?
  }

  lemma DrainKeepsInv(s: State, st: Thieving)
    requires Inv(s) && CanThieve(s, st) && Draining(st)
    ensures Inv(DoThieve(s, st))
  {
  }

  lemma MugKeepsInv(s: State, st: Thieving)
    requires Inv(s) && CanThieve(s, st) && !Draining(st)
    ensures Inv(DoThieve(s, st))
  {
    hide Inv, CanThieve, DoThieve;
    if st.Mug? || st.MugClears? || st.MugSwitches? {
      OthersMugKeepsInv(s, st);
    } else {
      OwnMugKeepsInv(s, st);
    }
  }

  lemma OthersMugKeepsInv(s: State, st: Thieving)
    requires Inv(s) && CanThieve(s, st) && (st.Mug? || st.MugClears? || st.MugSwitches?)
    ensures Inv(DoThieve(s, st))
  {
  }

  lemma OwnMugKeepsInv(s: State, st: Thieving)
    requires Inv(s) && CanThieve(s, st) && !Draining(st) && !st.Mug? && !st.MugClears? && !st.MugSwitches?
    ensures Inv(DoThieve(s, st))
  {
  }

  lemma ThieveKeepsInv(s: State, st: Thieving)
    requires Inv(s) && CanThieve(s, st)
    ensures Inv(DoThieve(s, st))
  {
    hide Inv, CanThieve, DoThieve;
    if Draining(st) {
      DrainKeepsInv(s, st);
    } else {
      MugKeepsInv(s, st);
    }
  }

  lemma StepKeepsInv(s: State, st: Step)
    requires Inv(s) && Enabled(s, st)
    ensures Inv(Do(s, st))
  {
    hide Inv, DoSuspend, DoResume, DoThieve;
    match st
    case Suspend(x) => SuspendKeepsInv(s, x);
    case Resume(x) => ResumeKeepsInv(s, x);
    case Thieve(x) => ThieveKeepsInv(s, x);
  }

  // ---------------------------------------------------------------- every run

  ghost predicate Follows(s: State, s': State) {
    exists st :: Enabled(s, st) && s' == Do(s, st)
  }

  /** Any interleaving of owners, resumers and thieves, over any number of suspensions. */
  ghost predicate Run(run: seq<State>) {
    && |run| > 0 && Init(run[0])
    && forall i :: 0 < i < |run| ==> Follows(run[i - 1], run[i])
  }

  lemma {:induction false} RunKeepsInv(run: seq<State>)
    requires Run(run)
    ensures Inv(run[|run| - 1])
    decreases |run|
  {
    if |run| == 1 {
      InitInv(run[0]);
    } else {
      var init := run[..|run| - 1];
      assert Run(init) by {
        forall i | 0 < i < |init| ensures Follows(init[i - 1], init[i]) {
          assert Follows(run[i - 1], run[i]);
        }
      }
      RunKeepsInv(init);
      var s := run[|run| - 2];
      assert Follows(s, run[|run| - 1]);
      var st :| Enabled(s, st) && run[|run| - 1] == Do(s, st);
      StepKeepsInv(s, st);
    }
  }

  /** Once the spin has ended, the worker that suspended the deque is done with it: it is in one suspended
      pool, or being drained out of one, or free, and it stays so until the resumer acts. */
  lemma AfterSpin(run: seq<State>)
    requires Run(run) && var r := run[|run| - 1].resumer; r.Spun? || r.Saw? || r.Unowned?
    ensures var s := run[|run| - 1];
      && s.owner.Away? && s.mugger.Nobody? && s.resumables == {} && !s.resumable && s.fiber && s.ready && s.entered == 0
      && match s.self
         case Pooled => s.worker.Some? && s.suspended == {s.worker.worker}
         case Invalid => s.suspended == {} && (s.worker.Some? <==> s.draining.Some?)
         case Active => false
  {
    RunKeepsInv(run);
  }

  /** What make_resumable and resume_suspended assert holds: nobody has made the deque resumable when they
      are called; under the victim's lock it is in that victim's suspended pool or in none; and
      outside it is in none. */
  lemma ResumerAsserts(run: seq<State>)
    requires Run(run)
    ensures var s := run[|run| - 1];
      && (s.resumer.Right? ==> !s.resumable)
      && (s.resumer.Saw? && s.resumer.victim.Some? && LockFree(s, s.resumer.victim.worker) && s.worker.Some? ==>
            s.worker == s.resumer.victim && s.self.Pooled? && s.suspended == {s.worker.worker})
      && (s.resumer.Unowned? || s.resumer.Marked? || s.resumer.Assigned? || s.resumer.TakeMarked? || s.resumer.TakeUnmarked? ==>
            s.self.Invalid? && s.suspended == {} && s.resumables == {})
  {
    RunKeepsInv(run);
  }

  /** The deque is in at most one pool, the pool's kind is what the flag says, its owner is d->worker, and
      only a deque in no pool is run or free. */
  lemma OnePoolAtATime(run: seq<State>, v: Worker)
    requires Run(run)
    ensures var s := run[|run| - 1];
      && |s.suspended| + |s.resumables| <= 1
      && (v in s.suspended ==> s.worker == Some(v) && s.self.Pooled? && !s.resumable)
      && (v in s.resumables ==> s.worker == Some(v) && s.self.Pooled? && s.resumable)
      && (s.self.Pooled? <==> s.suspended != {} || s.resumables != {})
  {
    RunKeepsInv(run);
  }

  /** However the thieves interfere, the deque enters a resumable pool at most once between two runs; when the
      resumer is done without having taken it over, it has entered exactly one, and it is still there,
      flagged resumable, or taken from there by one mugger. */
  lemma EntersExactlyOnce(run: seq<State>)
    requires Run(run)
    ensures var s := run[|run| - 1];
      && s.entered <= 1
      && (s.resumer.NoRight? && (s.owner.Leaving? || s.owner.Away?) ==>
            s.entered == 1 && (if s.mugger.Nobody? then s.resumable && s.worker.Some? && s.resumables == {s.worker.worker}
                               else s.resumables == {} && s.suspended == {}))
      && (s.resumer != NoRight ==> s.entered == 0)
  {
    RunKeepsInv(run);
  }

  /** What jump_to_suspended_fiber asserts of a deque in a resumable pool, and deque_suspend of the one that
      is running. */
  lemma MuggerAndOwnerAsserts(run: seq<State>, v: Worker)
    requires Run(run)
    ensures var s := run[|run| - 1];
      && (v in s.resumables ==> s.worker == Some(v) && s.fiber && s.resumable && s.mugger.Nobody? && !s.owner.Running?)
      && (s.owner.Running? || s.owner.Announced? ==> s.self.Active? && !s.fiber && s.worker == Some(s.owner.w))
  {
    RunKeepsInv(run);
  }

  /** Nobody runs the deque's fiber while its worker is still on it. */
  lemma FiberLeftBeforeResumed(run: seq<State>)
    requires Run(run)
    ensures var s := run[|run| - 1];
      s.owner.Leaving? ==> !CanThieve(s, MugClears) && !CanThieve(s, MugSwitches) && !CanThieve(s, OwnResumes)
                           && !CanResume(s, SpinEnds) && !CanResume(s, TakeSwitch)
  {
    RunKeepsInv(run);
  }

  lemma RunsOn(run: seq<State>) returns (st: Step)
    requires Run(run) && |run| > 1
    ensures Run(run[..|run| - 1]) && Enabled(run[|run| - 2], st) && run[|run| - 1] == Do(run[|run| - 2], st)
  {
    var init := run[..|run| - 1];
    forall i | 0 < i < |init| ensures Follows(init[i - 1], init[i]) {
      assert Follows(run[i - 1], run[i]);
    }
    assert Follows(run[|run| - 2], run[|run| - 1]);
    st :| Enabled(run[|run| - 2], st) && run[|run| - 1] == Do(run[|run| - 2], st);
  }

  /** Pools change only under their worker's lock, and make_resumable moves a suspended deque to its own victim's
      resumable pool. */
  lemma PoolsChangeUnderTheirLock(run: seq<State>, v: Worker)
    requires Run(run) && |run| > 1
    ensures var s, s' := run[|run| - 2], run[|run| - 1];
      && ((v in s.suspended) != (v in s'.suspended) || (v in s.resumables) != (v in s'.resumables) ==> LockFree(s, v))
      && (v in s.suspended && s'.resumables != {} ==> s'.resumables == {v} && s'.worker == Some(v))
  {
    var st := RunsOn(run);
    RunKeepsInv(run[..|run| - 1]);
    hide Inv, DoSuspend, DoResume, DoThieve;
    match st
    case Suspend(x) => SuspendMoves(run[|run| - 2], x, v);
    case Resume(x) => ResumeMoves(run[|run| - 2], x, v);
    case Thieve(x) => ThieveMoves(run[|run| - 2], x, v);
  }

  lemma SuspendMoves(s: State, st: Suspending, v: Worker)
    requires Inv(s) && CanSuspend(s, st)
    ensures var s' := DoSuspend(s, st);
      && ((v in s.suspended) != (v in s'.suspended) || (v in s.resumables) != (v in s'.resumables) ==> LockFree(s, v))
      && (v in s.suspended && s'.resumables != {} ==> s'.resumables == {v} && s'.worker == Some(v))
  {
  }

  lemma ResumeMoves(s: State, st: Resuming, v: Worker)
    requires Inv(s) && CanResume(s, st)
    ensures var s' := DoResume(s, st);
      && ((v in s.suspended) != (v in s'.suspended) || (v in s.resumables) != (v in s'.resumables) ==> LockFree(s, v))
      && (v in s.suspended && s'.resumables != {} ==> s'.resumables == {v} && s'.worker == Some(v))
  {
  }

  lemma ThieveMoves(s: State, st: Thieving, v: Worker)
    requires Inv(s) && CanThieve(s, st)
    ensures var s' := DoThieve(s, st);
      && ((v in s.suspended) != (v in s'.suspended) || (v in s.resumables) != (v in s'.resumables) ==> LockFree(s, v))
      && (v in s.suspended && s'.resumables != {} ==> s'.resumables == {v} && s'.worker == Some(v))
  {
  }

  /** Whoever has the deque keeps it until it leaves it suspended; nobody has it without having taken it out of a resumable
      pool, or free by its resumer. */
  predicate PassedOn(s: State, s': State) {
    && (Taker(s).Some? ==> Taker(s') == Taker(s) || (Taker(s').None? && s'.owner == Leaving(Taker(s).worker)))
    && (Taker(s).None? && Taker(s').Some? ==> !s'.owner.Running? && s'.resumables == {} && (s.resumables != {} || s.resumer.Unowned?))
  }

  /** So whoever takes the deque is who runs it. */
  lemma TakerRunsIt(run: seq<State>)
    requires Run(run) && |run| > 1
    ensures PassedOn(run[|run| - 2], run[|run| - 1])
  {
    hide Inv, CanSuspend, CanResume, CanThieve, DoSuspend, DoResume, DoThieve, PassedOn;
    var st := RunsOn(run);
    var s := run[|run| - 2];
    RunKeepsInv(run[..|run| - 1]);
    match st
    case Suspend(x) => SuspendTaker(s, x);
    case Resume(x) => ResumeTaker(s, x);
    case Thieve(x) => ThieveTaker(s, x);
  }

  lemma SuspendTaker(s: State, st: Suspending)
    requires Inv(s) && CanSuspend(s, st)
    ensures PassedOn(s, DoSuspend(s, st))
  {
  }

  lemma ResumeTaker(s: State, st: Resuming)
    requires Inv(s) && CanResume(s, st)
    ensures PassedOn(s, DoResume(s, st))
  {
  }

  lemma ThieveTaker(s: State, st: Thieving)
    requires Inv(s) && CanThieve(s, st)
    ensures PassedOn(s, DoThieve(s, st))
  {
  }

  /** Whether whoever resumes the deque is to run it itself. */
  function Wants(r: Resumer): (take: set<bool>) {
    match r
    case NoRight => {}
    case Right => {}
    case Marked => {false}
    case Assigned(_) => {false}
    case TakeMarked(_) => {true}
    case TakeUnmarked(_) => {true}
    case _ => {r.take}
  }

  /** It gets what it called for, either way: make_resumable ends with the deque in a resumable pool, resume_suspended with the
      deque running on the resumer. */
  predicate AsCalled(s: State, s': State) {
    && (Wants(s.resumer) != {} ==>
          || Wants(s'.resumer) == Wants(s.resumer)
          || (s'.resumer.NoRight? && if true in Wants(s.resumer) then s'.owner.Running? else s'.resumables != {} && !s'.owner.Running?))
    && (s.resumer.Right? && !s'.resumer.Right? ==> s'.resumer.Spinning?)
  }

  lemma ResumerGetsWhatItCalledFor(run: seq<State>)
    requires Run(run) && |run| > 1
    ensures AsCalled(run[|run| - 2], run[|run| - 1]) && EitherCall(run[|run| - 1])
  {
    hide Inv, CanSuspend, CanResume, CanThieve, DoSuspend, DoResume, DoThieve, AsCalled, EitherCall;
    var st := RunsOn(run);
    var s := run[|run| - 2];
    RunKeepsInv(run[..|run| - 1]);
    BothCalls(run[|run| - 1]);
    match st
    case Suspend(x) => SuspendAsCalled(s, x);
    case Resume(x) => ResumeAsCalled(s, x);
    case Thieve(x) => ThieveAsCalled(s, x);
  }

  /** Whoever has the right may call either function. */
  predicate EitherCall(s: State) {
    s.resumer.Right? ==> forall take :: CanResume(s, Call(take)) && Wants(DoResume(s, Call(take)).resumer) == {take}
  }

  lemma BothCalls(s: State)
    ensures EitherCall(s)
  {
  }

  lemma SuspendAsCalled(s: State, st: Suspending)
    requires Inv(s) && CanSuspend(s, st)
    ensures AsCalled(s, DoSuspend(s, st))
  {
  }

  lemma ResumeAsCalled(s: State, st: Resuming)
    requires Inv(s) && CanResume(s, st)
    ensures AsCalled(s, DoResume(s, st))
  {
  }

  lemma ThieveAsCalled(s: State, st: Thieving)
    requires Inv(s) && CanThieve(s, st)
    ensures AsCalled(s, DoThieve(s, st))
  {
  }

  ghost predicate OwnerCanMove(s: State) {
    exists st :: CanSuspend(s, st)
  }

  ghost predicate ResumerCanMove(s: State) {
    exists st :: CanResume(s, st)
  }

  ghost predicate MuggerCanMove(s: State) {
    exists st: Thieving :: Mugs(st) && CanThieve(s, st)
  }

  predicate Mugs(st: Thieving) {
    st.MugClears? || st.MugSwitches? || st.OwnUnmarks? || st.OwnSwitches? || st.OwnResumes?
  }

  /** The lock an owner, a resumer or a mugger is about to take. */
  function OwnersLock(o: Owner): Option {
    if o.Announced? then Some(o.w) else None
  }

  function ResumersLock(r: Resumer): Option {
    match r
    case Saw(_, victim) => victim
    case Assigned(v) => Some(v)
    case TakeUnmarked(w) => Some(w)
    case _ => None
  }

  function MuggersLock(m: Mugger): Option {
    if m.Cleared? || m.OwnUnmarked? then Some(m.w) else None
  }

  predicate Open(s: State, lock: Option) {
    lock.Some? ==> LockFree(s, lock.worker)
  }

  /** About to pool the deque with some worker, whose lock is taken as it is chosen. */
  predicate Pooling(s: State) {
    s.owner.Fibered? && (s.resumable || s.stealable)
  }

  /** Everybody waits for one lock at most, and a resumer or mugger for the fiber to be left; nothing else that happens to
      the deque stops any of them. */
  lemma OnlyLocksAndTheFiberBlock(run: seq<State>, v: Worker)
    requires Run(run)
    ensures var s := run[|run| - 1];
      && (Pooling(s) ==> (CanSuspend(s, Pool(v)) <==> LockFree(s, v)))
      && (!Pooling(s) ==> (OwnerCanMove(s) <==> !s.owner.Away? && Open(s, OwnersLock(s.owner))))
      && (ResumerCanMove(s) <==> !s.resumer.NoRight? && Open(s, ResumersLock(s.resumer)) && (s.resumer.Spinning? ==> s.owner.Away?))
      && (MuggerCanMove(s) <==> !s.mugger.Nobody? && Open(s, MuggersLock(s.mugger)) && (s.mugger.Mugging? || s.mugger.OwnActive? ==> s.owner.Away?))
      && (v in s.resumables ==> forall w :: CanThieve(s, Mug(v, w)) <==> LockFree(s, v))
      && (v in s.suspended ==> (CanThieve(s, StealFrom(v, false)) <==> LockFree(s, v)) && (CanThieve(s, Drain(v)) <==> LockFree(s, v) && !s.stealable))
  {
    RunKeepsInv(run);
    var s := run[|run| - 1];
    OwnerWaits(s);
    ResumerWaitsFor(s);
    MuggerWaits(s);
  }

  /** What the rest of the program may do at any time: the running strand goes on, with frames to steal or without, waits for a
      future or gives way to another deque; frames are stolen up to the moment the fiber is set; any lock is held for other
      deques; and a worker mugs from its own pool or from another's. */
  lemma OthersAreFree(run: seq<State>, v: Worker, w: Worker, more: bool)
    requires Run(run)
    ensures var s := run[|run| - 1];
      && (s.owner.Running? ==>
            && CanSuspend(s, Announce) && CanSuspend(s, AnnounceResumable)
            && CanSuspend(s, Work(more)) && DoSuspend(s, Work(more)) == s.(stealable := more))
      && (s.owner.Announced? && LockFree(s, s.owner.w) && (more ==> s.stealable) ==>
            CanSuspend(s, SetFiber(more)) && DoSuspend(s, SetFiber(more)).stealable == more)
      && (LockFree(s, v) ==> CanThieve(s, Grab(v)) && !LockFree(DoThieve(s, Grab(v)), v))
      // a drain is never held up between its stores
      && (s.draining.Some? ==> CanThieve(s, ClearWorker(w)) && DoThieve(s, ClearWorker(w)).stamping == s.stamping[s.draining.worker := w])
      && (v in s.stamping ==> CanThieve(s, Stamp(v))) && (v in s.checking ==> CanThieve(s, Check(v)))
      && (v in s.busy ==> CanThieve(s, Release(v)) && v !in DoThieve(s, Release(v)).busy)
      && (v in s.resumables && LockFree(s, v) ==>
            && CanThieve(s, MugOwn(v)) && Taker(DoThieve(s, MugOwn(v))) == Some(v)
            && CanThieve(s, Mug(v, w)) && Taker(DoThieve(s, Mug(v, w))) == Some(w))
  {
    RunKeepsInv(run);
    var s := run[|run| - 1];
    if s.owner.Running? {
      RunnersChoice(s, more);
    }
    hide Inv;
  }

  lemma RunnersChoice(s: State, more: bool)
    requires Inv(s) && s.owner.Running?
    ensures CanSuspend(s, Announce) && CanSuspend(s, AnnounceResumable)
    ensures CanSuspend(s, Work(more)) && DoSuspend(s, Work(more)) == s.(stealable := more)
  {
  }

  lemma OwnerWaits(s: State)
    requires Inv(s)
    ensures !Pooling(s) ==> (OwnerCanMove(s) <==> !s.owner.Away? && Open(s, OwnersLock(s.owner)))
  {
    hide LockFree;
    var st := match s.owner
      case Running(_) => Work(false)
      case Announced(_) => SetFiber(false)
      case Fibered(_) => Invalidate
      case Freeing(_) => Unown
      case _ => SwitchFibers;
    if !s.owner.Away? && Open(s, OwnersLock(s.owner)) && !Pooling(s) {
      assert CanSuspend(s, st);
    }
  }

  lemma ResumerWaitsFor(s: State)
    requires Inv(s)
    ensures ResumerCanMove(s) <==> !s.resumer.NoRight? && Open(s, ResumersLock(s.resumer)) && (s.resumer.Spinning? ==> s.owner.Away?)
  {
    hide LockFree;
    var st := match s.resumer
      case NoRight => Mark
      case Right => Call(false)
      case Spinning(_) => SpinEnds
      case Spun(_) => ReadWorker
      case Saw(_, victim) => if victim.Some? then LockVictim else TakeNone
      case Unowned(take) => if take then TakeMark(0) else Mark
      case Marked => Assign(0)
      case Assigned(_) => AddAssigned
      case TakeMarked(_) => TakeUnmark
      case TakeUnmarked(_) => TakeSwitch;
    if !s.resumer.NoRight? && Open(s, ResumersLock(s.resumer)) && (s.resumer.Spinning? ==> s.owner.Away?) {
      assert CanResume(s, st);
    }
  }

  lemma MuggerWaits(s: State)
    requires Inv(s)
    ensures MuggerCanMove(s) <==> !s.mugger.Nobody? && Open(s, MuggersLock(s.mugger)) && (s.mugger.Mugging? || s.mugger.OwnActive? ==> s.owner.Away?)
  {
    hide LockFree;
    var st := match s.mugger
      case Mugging(_) => MugClears
      case Cleared(_) => MugSwitches
      case Own(_) => OwnUnmarks
      case OwnUnmarked(_) => OwnSwitches
      case _ => OwnResumes;
    if !s.mugger.Nobody? && Open(s, MuggersLock(s.mugger)) && (s.mugger.Mugging? || s.mugger.OwnActive? ==> s.owner.Away?) {
      assert Mugs(st) && CanThieve(s, st);
    }
  }

  // ---------------------------------------------------------------- it always goes on

  /** The next thing somebody will do with a deque that is not running, when no lock is held. */
  function NextMove(s: State): Step {
    if s.owner.Announced? then Suspend(SetFiber(false))
    else if s.owner.Fibered? then (if s.resumable || s.stealable then Suspend(Pool(s.owner.w)) else Suspend(Invalidate))
    else if s.owner.Freeing? then Suspend(Unown)
    else if s.owner.Leaving? then Suspend(SwitchFibers)
    else match s.resumer
      case Right => Resume(Call(false))
      case Spinning(_) => Resume(SpinEnds)
      case Spun(_) => Resume(ReadWorker)
      case Saw(_, victim) => if victim.Some? then Resume(LockVictim) else Resume(TakeNone)
      case Unowned(take) => if take then Resume(TakeMark(0)) else Resume(Mark)
      case Marked => Resume(Assign(0))
      case Assigned(_) => Resume(AddAssigned)
      case TakeMarked(_) => Resume(TakeUnmark)
      case TakeUnmarked(_) => Resume(TakeSwitch)
      case NoRight => match s.mugger
        case Nobody => Thieve(Mug(if s.worker.Some? then s.worker.worker else 0, 0))
        case Mugging(_) => Thieve(MugClears)
        case Cleared(_) => Thieve(MugSwitches)
        case Own(_) => Thieve(OwnUnmarks)
        case OwnUnmarked(_) => Thieve(OwnSwitches)
        case OwnActive(_) => Thieve(OwnResumes)
  }

  /** How many such moves it takes at most, counted with room to spare. */
  function Distance(s: State): nat {
    (match s.owner
     case Running(_) => 0
     case Announced(_) => 500
     case Fibered(_) => 400
     case Freeing(_) => 300
     case Leaving(_) => 200
     case Away => 100)
    + (match s.resumer
       case NoRight => 0
       case Right => 90
       case Spinning(_) => 80
       case Spun(_) => 70
       case Saw(_, _) => 60
       case Unowned(_) => 50
       case Marked => 40
       case Assigned(_) => 30
       case TakeMarked(_) => 20
       case TakeUnmarked(_) => 10)
    + (match s.mugger
       case Nobody => 9
       case Own(_) => 8
       case OwnUnmarked(_) => 7
       case OwnActive(_) => 6
       case Mugging(_) => 5
       case Cleared(_) => 4)
  }

  /** No suspended deque is ever lost: with the locks free, there is always a next move, and it takes the deque
      nearer to running again. */
  lemma NeverLost(run: seq<State>)
    requires Run(run) && var s := run[|run| - 1]; !s.owner.Running? && s.draining.None? && s.stamping == map[] && s.checking == {} && s.busy == {}
    ensures var s := run[|run| - 1];
      Enabled(s, NextMove(s)) && Distance(Do(s, NextMove(s))) < Distance(s)
  {
    RunKeepsInv(run);
  }

  // ---------------------------------------------------------------- two things that can go wrong

  lemma Extend(run: seq<State>, st: Step) returns (longer: seq<State>)
    requires Run(run) && Enabled(run[|run| - 1], st)
    ensures Run(longer) && longer == run + [Do(run[|run| - 1], st)]
  {
    longer := run + [Do(run[|run| - 1], st)];
    forall i | 0 < i < |longer| ensures Follows(longer[i - 1], longer[i]) {
      if i < |run| {
        assert Follows(run[i - 1], run[i]);
      }
    }
  }

  /** Suspend a deque with frames into v's pool, steal the frames, and drain it as far as the two stores of
      deque_pool_remove, with the resumer waiting. */
  lemma Drained(s: State, v: Worker, thief: Worker) returns (run: seq<State>)
    requires Init(s) && s.stealable
    ensures Run(run) && run[0] == s
    ensures run[|run| - 1] == s.(fiber := true, ready := true, self := Invalid, worker := None, stealable := false,
                                 owner := Away, resumer := Spun(false), stamping := map[v := thief])
  {
    run := [s];
    run := Extend(run, Suspend(Announce));
    run := Extend(run, Suspend(SetFiber(true)));
    run := Extend(run, Suspend(Pool(v)));
    run := Extend(run, Suspend(SwitchFibers));
    run := Extend(run, Resume(Call(false)));
    run := Extend(run, Resume(SpinEnds));
    run := Extend(run, Thieve(StealFrom(v, false)));
    run := Extend(run, Thieve(Drain(v)));
    run := Extend(run, Thieve(ClearWorker(thief)));
    assert run[|run| - 1].stamping == map[v := thief];
    assert run[|run| - 1].suspended == {};
  }

  /** random_steal asserts that the deque it drained is not resumable.  The resumer does not wait for the
      drain's lock once d->worker is cleared, so the assertion can fail. */
  lemma DrainAssertionCanFail(s: State, v: Worker, thief: Worker) returns (run: seq<State>)
    requires Init(s) && s.stealable
    ensures Run(run) && run[0] == s
    ensures v in run[|run| - 1].checking && run[|run| - 1].resumable
  {
    run := Drained(s, v, thief);
    run := Extend(run, Thieve(Stamp(v)));
    run := Extend(run, Resume(ReadWorker));
    run := Extend(run, Resume(TakeNone));
    run := Extend(run, Resume(Mark));
  }

  /** Some step other than the end of v's drain. */
  ghost predicate FollowsBut(s: State, s': State, v: Worker) {
    exists st :: Enabled(s, st) && st != Thieve(Check(v)) && s' == Do(s, st)
  }

  /** `more` goes on from `run`, as far as v's drain takes at most. */
  ghost predicate WhileDraining(more: seq<State>, run: seq<State>, v: Worker) {
    && 0 < |run| <= |more| && more[..|run|] == run
    && forall i :: |run| <= i < |more| ==> FollowsBut(more[i - 1], more[i], v)
  }

  /** Whatever anybody does, v's drain will find its assertion true. */
  ghost predicate WillPass(run: seq<State>, v: Worker) {
    forall more: seq<State> :: WhileDraining(more, run, v) && v in more[|more| - 1].checking ==> !more[|more| - 1].resumable
  }

  /** The drain holds the lock the resumer waits for. */
  predicate Blocked(s: State, v: Worker) {
    && s.resumer.Saw? && s.resumer.victim == Some(v)
    && (s.draining == Some(v) || v in s.stamping || v in s.checking)
  }

  lemma StaysBlocked(s: State, st: Step, v: Worker)
    requires s.draining.Some? ==> s.suspended == {}
    requires Blocked(s, v) && Enabled(s, st) && st != Thieve(Check(v))
    ensures Blocked(Do(s, st), v)
  {
    hide DoSuspend, DoResume, DoThieve, Blocked;
    match st
    case Suspend(x) => SuspendKeepsBlocked(s, x, v);
    case Resume(x) => ResumerWaits(s, x, v);
    case Thieve(x) => ThieveKeepsBlocked(s, x, v);
  }

  lemma SuspendKeepsBlocked(s: State, st: Suspending, v: Worker)
    requires Blocked(s, v) && CanSuspend(s, st)
    ensures Blocked(DoSuspend(s, st), v)
  {
  }

  lemma ResumerWaits(s: State, st: Resuming, v: Worker)
    requires Blocked(s, v)
    ensures !CanResume(s, st)
  {
  }

  lemma ThieveKeepsBlocked(s: State, st: Thieving, v: Worker)
    requires s.draining.Some? ==> s.suspended == {}
    requires Blocked(s, v) && CanThieve(s, st) && st != Check(v)
    ensures Blocked(DoThieve(s, st), v)
  {
    if Draining(st) {
    } else {
      assert DoThieve(s, st).draining == s.draining && DoThieve(s, st).stamping == s.stamping && DoThieve(s, st).checking == s.checking;
    }
  }

  lemma DrainedIsOut(s: State)
    requires Inv(s)
    ensures s.draining.Some? ==> s.suspended == {}
    ensures s.resumer.Saw? ==> !s.resumable
  {
  }

  lemma {:induction false} BlockedThroughout(more: seq<State>, run: seq<State>, v: Worker)
    requires Run(run) && WhileDraining(more, run, v) && Blocked(run[|run| - 1], v)
    ensures Inv(more[|more| - 1]) && Blocked(more[|more| - 1], v)
    decreases |more|
  {
    hide Inv, Blocked, Enabled, Do;
    if |more| == |run| {
      assert more == run;
      RunKeepsInv(run);
    } else {
      var n := |more| - 1;
      var init := more[..n];
      assert WhileDraining(init, run, v) by {
        assert init[..|run|] == run;
        forall i | |run| <= i < n ensures FollowsBut(init[i - 1], init[i], v) {
          assert FollowsBut(more[i - 1], more[i], v);
        }
      }
      BlockedThroughout(init, run, v);
      assert FollowsBut(more[n - 1], more[n], v);
      var st :| Enabled(more[n - 1], st) && st != Thieve(Check(v)) && more[n] == Do(more[n - 1], st);
      DrainedIsOut(more[n - 1]);
      StaysBlocked(more[n - 1], st, v);
      StepKeepsInv(more[n - 1], st);
    }
  }

  lemma GoOn(more: seq<State>, run: seq<State>, v: Worker, st: Step) returns (longer: seq<State>)
    requires WhileDraining(more, run, v) && Enabled(more[|more| - 1], st) && st != Thieve(Check(v))
    ensures WhileDraining(longer, run, v) && longer == more + [Do(more[|more| - 1], st)]
  {
    longer := more + [Do(more[|more| - 1], st)];
    assert longer[..|run|] == run;
    forall i | |run| <= i < |longer| ensures FollowsBut(longer[i - 1], longer[i], v) {
      if i < |more| {
        assert FollowsBut(more[i - 1], more[i], v);
      }
    }
  }

  /** A resumer that has not read d->worker yet finds it cleared and does not wait. */
  lemma Overtake(run: seq<State>, v: Worker) returns (more: seq<State>)
    requires Run(run) && v in run[|run| - 1].stamping && HomeOf(run[|run| - 1]).Free?
    requires var r := run[|run| - 1].resumer; r.Right? || r.Spinning? || r.Spun?
    ensures WhileDraining(more, run, v) && v in more[|more| - 1].checking && more[|more| - 1].resumable
  {
    more := SpinOn(run, v);
    more := GoOn(more, run, v, Resume(ReadWorker));
    more := GoOn(more, run, v, Resume(TakeNone));
    more := GoOn(more, run, v, Resume(if more[|more| - 1].resumer.take then TakeMark(0) else Mark));
  }

  lemma SpinOn(run: seq<State>, v: Worker) returns (more: seq<State>)
    requires Run(run) && v in run[|run| - 1].stamping && HomeOf(run[|run| - 1]).Free?
    requires var r := run[|run| - 1].resumer; r.Right? || r.Spinning? || r.Spun?
    ensures WhileDraining(more, run, v)
    ensures var s := more[|more| - 1]; v in s.checking && s.resumer.Spun? && s.worker.None?
  {
    RunKeepsInv(run);
    more := GoOn(run, run, v, Thieve(Stamp(v)));
    if more[|more| - 1].owner.Leaving? {
      more := GoOn(more, run, v, Suspend(SwitchFibers));
    }
    if more[|more| - 1].resumer.Right? {
      more := GoOn(more, run, v, Resume(Call(false)));
    }
    if more[|more| - 1].resumer.Spinning? {
      more := GoOn(more, run, v, Resume(SpinEnds));
    }
  }

  /** The drain can rely on its assertion if and only if, when it clears d->worker, the resumer has read it already:
      then the resumer waits for the lock the drain holds. */
  lemma DrainAssertionHolds(run: seq<State>, v: Worker, thief: Worker)
    requires Run(run) && run[|run| - 1].draining == Some(v)
    ensures WillPass(run + [Do(run[|run| - 1], Thieve(ClearWorker(thief)))], v) <==> run[|run| - 1].resumer.Saw?
  {
    RunKeepsInv(run);
    var s := run[|run| - 1];
    var cleared := Extend(run, Thieve(ClearWorker(thief)));
    var s' := cleared[|cleared| - 1];
    if s.resumer.Saw? {
      forall more: seq<State> | WhileDraining(more, cleared, v) && v in more[|more| - 1].checking ensures !more[|more| - 1].resumable {
        BlockedThroughout(more, cleared, v);
        DrainedIsOut(more[|more| - 1]);
      }
    } else {
      assert HomeOf(s').Free?;
      var more := Overtake(cleared, v);
    }
  }

  /** A drain stores call_stack->worker after it has let the deque go, so the store can come when another
      worker already runs the deque. */
  lemma FrameCanNameTheWrongWorker(s: State, v: Worker, thief: Worker, v': Worker, w: Worker) returns (run: seq<State>)
    requires Init(s) && s.stealable && v != v' && w != v && thief != w
    ensures Run(run) && run[0] == s
    ensures run[|run| - 1].owner == Running(w) && run[|run| - 1].caller == thief
  {
    run := Drained(s, v, thief);
    run := Extend(run, Resume(ReadWorker));
    run := Extend(run, Resume(TakeNone));
    run := Extend(run, Resume(Mark));
    run := Extend(run, Resume(Assign(v')));
    run := Extend(run, Resume(AddAssigned));
    run := Extend(run, Thieve(Mug(v', w)));
    run := Extend(run, Thieve(MugClears));
    run := Extend(run, Thieve(MugSwitches));
    run := Extend(run, Thieve(Stamp(v)));
  }

  /** A worker takes the deque to run it. */
  predicate Takes(st: Step, w: Worker) {
    st == Resume(TakeMark(w)) || (st.Thieve? && ((st.t.Mug? && st.t.w == w) || st.t == MugOwn(w)))
  }

  /** `more` goes on from `run` for as long as w keeps the deque. */
  ghost predicate WhileTaken(more: seq<State>, run: seq<State>, w: Worker) {
    && 0 < |run| <= |more| && more[..|run|] == run
    && (forall i :: |run| <= i < |more| ==> Follows(more[i - 1], more[i]))
    && (forall i :: |run| <= i < |more| ==> Taker(more[i]) == Some(w))
  }

  /** Until w lets go of it again, the frame names w. */
  ghost predicate WillName(run: seq<State>, w: Worker) {
    forall more: seq<State> :: WhileTaken(more, run, w) ==> more[|more| - 1].caller == w
  }

  /** No drain that is not through yet will store another worker. */
  predicate OnlyOwnStamps(s: State, w: Worker) {
    forall v :: v in s.stamping ==> s.stamping[v] == w
  }

  /** A deque that somebody has is in no pool, and nobody else can take it. */
  predicate Held(s: State) {
    s.draining.None? && s.suspended == {} && s.resumables == {} && !s.resumer.Unowned?
  }

  lemma TakenIsHeld(s: State)
    requires Inv(s) && Taker(s).Some?
    ensures Held(s)
  {
  }

  lemma StaysNamed(s: State, st: Step, w: Worker)
    requires Held(s) && s.caller == w && OnlyOwnStamps(s, w) && Enabled(s, st)
    ensures Do(s, st).caller == w && OnlyOwnStamps(Do(s, st), w)
  {
    hide DoSuspend, DoResume, DoThieve, OnlyOwnStamps;
    match st
    case Suspend(x) => SuspendKeepsNamed(s, x, w);
    case Resume(x) => ResumeKeepsNamed(s, x, w);
    case Thieve(x) => ThieveKeepsNamed(s, x, w);
  }

  lemma SuspendKeepsNamed(s: State, st: Suspending, w: Worker)
    requires s.caller == w && OnlyOwnStamps(s, w) && CanSuspend(s, st)
    ensures DoSuspend(s, st).caller == w && OnlyOwnStamps(DoSuspend(s, st), w)
  {
  }

  lemma ResumeKeepsNamed(s: State, st: Resuming, w: Worker)
    requires Held(s) && s.caller == w && OnlyOwnStamps(s, w) && CanResume(s, st)
    ensures DoResume(s, st).caller == w && OnlyOwnStamps(DoResume(s, st), w)
  {
  }

  lemma ThieveKeepsNamed(s: State, st: Thieving, w: Worker)
    requires Held(s) && s.caller == w && OnlyOwnStamps(s, w) && CanThieve(s, st)
    ensures DoThieve(s, st).caller == w && OnlyOwnStamps(DoThieve(s, st), w)
  {
  }

  lemma {:induction false} NamedThroughout(more: seq<State>, run: seq<State>, w: Worker)
    requires Run(run) && WhileTaken(more, run, w)
    requires var s := run[|run| - 1]; Taker(s) == Some(w) && s.caller == w && OnlyOwnStamps(s, w)
    ensures var s := more[|more| - 1]; Inv(s) && Taker(s) == Some(w) && s.caller == w && OnlyOwnStamps(s, w)
    decreases |more|
  {
    hide Inv, Enabled, Do, OnlyOwnStamps, Taker;
    if |more| == |run| {
      assert more == run;
      RunKeepsInv(run);
    } else {
      var n := |more| - 1;
      var init := more[..n];
      assert WhileTaken(init, run, w) by {
        assert init[..|run|] == run;
        forall i | |run| <= i < n ensures Follows(init[i - 1], init[i]) && Taker(init[i]) == Some(w) {
          assert Follows(more[i - 1], more[i]) && Taker(more[i]) == Some(w);
        }
      }
      NamedThroughout(init, run, w);
      assert Follows(more[n - 1], more[n]);
      var st :| Enabled(more[n - 1], st) && more[n] == Do(more[n - 1], st);
      assert Taker(more[n]) == Some(w);
      TakenIsHeld(more[n - 1]);
      StaysNamed(more[n - 1], st, w);
      StepKeepsInv(more[n - 1], st);
    }
  }

  lemma TakeNames(s: State, st: Step, w: Worker)
    requires Enabled(s, st) && Takes(st, w)
    ensures var s' := Do(s, st); s'.caller == w && s'.stamping == s.stamping
  {
  }

  lemma TakerTakes(s: State, st: Step, w: Worker)
    requires Inv(s) && Enabled(s, st) && Takes(st, w)
    ensures Taker(Do(s, st)) == Some(w)
  {
  }

  /** When w takes the deque, its frame will name w for as long as w has it if and only if no other worker's drain
      still has its last store to make. */
  lemma FrameNamesItsWorker(run: seq<State>, st: Step, w: Worker)
    requires Run(run) && Enabled(run[|run| - 1], st) && Takes(st, w)
    ensures WillName(run + [Do(run[|run| - 1], st)], w) <==> OnlyOwnStamps(run[|run| - 1], w)
  {
    RunKeepsInv(run);
    var s := run[|run| - 1];
    var taken := Extend(run, st);
    var s' := taken[|taken| - 1];
    TakeNames(s, st, w);
    TakerTakes(s, st, w);
    hide Inv, Takes;
    if OnlyOwnStamps(s, w) {
      forall more: seq<State> | WhileTaken(more, taken, w) ensures more[|more| - 1].caller == w {
        NamedThroughout(more, taken, w);
      }
    } else {
      var v :| v in s.stamping && s.stamping[v] != w;
      var late := Do(s', Thieve(Stamp(v)));
      var more := taken + [late];
      assert Enabled(s', Thieve(Stamp(v))) && Follows(s', late);
      assert WhileTaken(more, taken, w) && more[|more| - 1].caller != w;
    }
  }
}
