/**
 The work-stealing deque of one worker: the THE protocol on stack frames
 (deque.c, cilk-abi.c, scheduler.c) together with the deque of future fibers
 that has no synchronisation of its own (cilk_future_fiber_deque.cpp).

 One owner and any number of thieves run interleaved.  Every load or store of a
 field that both sides can touch is a step of its own; steps are sequentially
 consistent.  Thieves only act while they hold the worker lock, so one thief
 program counter, with the thief's identity kept in the lock, covers all of them.
 */
module TheProtocol {

  type Fiber = nat

  /** A parent frame on the deque.  A future parent carries the fiber its future runs on and the
      fiber to return to; the thief's code reads neither. */
  datatype Frame =
    | Plain(id: nat)
    | FutureParent(id: nat, fiber: Fiber, from: Fiber)

  datatype Lock = Free | ByOwner | ByThief(thief: nat)

  datatype Owner =
    | Work                                  // running user code
    | EnqStore(f: Fiber)                    // about to store *fiber_tail
    | EnqBump(f: Fiber)                     // about to advance fiber_tail
    | Overrun(f: Fiber)                     // stored past the end of the fiber buffer: nothing is known from here
    | Enqueued(f: Fiber, from: Fiber)       // switched to the new fiber, parent frame not pushed yet
    | PushBump(fr: Frame)                   // frame stored at *tail, tail not advanced yet
    | PopCheck                              // tail decremented, exc not read yet
    | Won(fr: Frame)                        // the parent was not stolen
    | FiberPop(running: Fiber)              // switching back from a future
    | FiberRead(running: Fiber)
    | SlowWait                              // saw tail < exc: waiting for the lock
    | SlowReset | SlowDecide                // holding the lock
    | SlowWon(fr: Frame) | SlowLost
    | ThrowWait | ThrowPop | ThrowLost      // returning with an exception: the pop is made under the lock
    | LostHead | LostTail | Lost            // clearing the fiber deque after a steal
    | RestartTail | RestartHead | RestartExc | RestartDone     // setting up the next frame, lock held

  datatype Thief =
    | Idle | Probe | Announce | Test | Retract
    | Take | Load(h: int) | FiberHead(fr: Frame) | FiberLoad(stolen: Frame, fh: int) | Leave

  datatype FrameDeque = FrameDeque(ltq: seq<Frame>, head: int, tail: int, exc: int)
  datatype FiberDeque = FiberDeque(buf: seq<Fiber>, head: int, tail: int)

  /** What only the owner touches: the fiber its oldest frame started on, the fiber it runs on, and
      the worker's cache of future fibers. */
  datatype Local = Local(base: Fiber, cur: Fiber, cache: seq<Fiber>)

  datatype Claimer = Popped | Stolen(thief: nat)
  datatype Claim = Claim(frame: Frame, taker: Claimer)
  datatype Gift = Gift(frame: Frame, fiber: Fiber)

  /** Every frame ever published, who took each, and the fiber each thief gave the child of a stolen
      future parent; where the fiber deque started when the owner's current frame did, and whether an exception was
      returned to a stolen parent since the fiber deque was last cleared. */
  datatype History = History(pushed: seq<Frame>, claims: seq<Claim>, gifts: seq<Gift>, offset: int, threw: bool)

  datatype State = State(d: FrameDeque, f: FiberDeque, lock: Lock, owner: Owner, thief: Thief,
                         own: Local, past: History)

  /** The number of fibers a worker caches for its next futures. */
  const CACHE_MAX: nat := 128

  datatype Spawning = StartFuture(fiber: Fiber) | StoreFiber | BumpFiber | PushPlain | PushFuture | BumpFrame
  datatype Returning = Decrement | ReadExc | ReturnPlain | ReturnFuture | DecrementFiber | ReadFiber
  datatype Slow = TakeLock | ResetExc | Decide | DropLock | ClearHead | ClearTail
                | Throw | LockToPop | PopTail | Stall
  datatype Restart = LockAgain | ResetTail | ResetHead | ResetExcAgain | UnlockAgain(fiber: Fiber)
  datatype Probing = ThiefLock(t: nat) | CheckFirst | IncrementExc | CheckAgain | DecrementExc | ThiefUnlock
  datatype Stealing = AdvanceHead | LoadFrame | AdvanceFiberHead | LoadFiber

  datatype Step =
    | Spawn(spawn: Spawning) | Return(ret: Returning) | SlowPath(slow: Slow) | Next(restart: Restart)
    | Thieve(probe: Probing) | Steal(steal: Stealing)

  // ---------------------------------------------------------------- the steps

  function FiberOf(fr: Frame): (r: seq<Fiber>) {
    if fr.FutureParent? then [fr.fiber] else []
  }

  /** The fibers of the future parents among frames lo..hi, oldest first. */
  function Fibers(fs: seq<Frame>, lo: int, hi: int): (r: seq<Fiber>)
    requires 0 <= lo <= |fs| && hi <= |fs|
    ensures lo <= hi ==> |r| <= hi - lo
    decreases hi - lo
  {
    if hi <= lo then [] else Fibers(fs, lo, hi - 1) + FiberOf(fs[hi - 1])
  }

  /** The fibers the owner must not pick for a new future. */
  function InUse(s: State): seq<Fiber> {
    [s.own.base] + (if s.d.tail <= |s.d.ltq| then Fibers(s.d.ltq, 0, s.d.tail) else []) + s.own.cache
  }

  function Claimed(h: History, fr: Frame, c: Claimer): History {
    h.(claims := h.claims + [Claim(fr, c)])
  }

  /** Buffer accesses; `InBounds` below shows that no step of any run uses the out-of-range case. */
  function Store<T>(buf: seq<T>, i: int, v: T): seq<T> {
    if 0 <= i < |buf| then buf[i := v] else buf
  }

  function Fetch<T>(buf: seq<T>, i: int, wild: T): T {
    if 0 <= i < |buf| then buf[i] else wild
  }

  const WILD: Frame := Plain(0)

  // Pushing: __cilkrts_switch_fibers, __cilkrts_enqueue_future_fiber, __cilkrts_detach.

  predicate CanSpawn(s: State, st: Spawning) {
    match st
    // the fiber is the cached one, or one that is not in use
    case StartFuture(f) =>
      && s.owner.Work?
      && (if |s.own.cache| > 0 then f == s.own.cache[|s.own.cache| - 1] else f !in InUse(s))
    case StoreFiber => s.owner.EnqStore?
    case BumpFiber => s.owner.EnqBump?
    // __cilkrts_detach asserts that there is room for the frame; nothing did for the fiber
    case PushPlain => s.owner.Work? && s.d.tail < |s.d.ltq|
    case PushFuture => s.owner.Enqueued? && s.d.tail < |s.d.ltq|
    case BumpFrame => s.owner.PushBump?
  }

  function DoSpawn(s: State, st: Spawning): State
    requires CanSpawn(s, st)
  {
    match st
    case StartFuture(f) =>
      var rest := if |s.own.cache| > 0 then s.own.cache[..|s.own.cache| - 1] else s.own.cache;
      s.(owner := EnqStore(f), own := s.own.(cache := rest))
    case StoreFiber =>
      if s.f.tail < |s.f.buf| then s.(f := s.f.(buf := Store(s.f.buf, s.f.tail, s.owner.f)), owner := EnqBump(s.owner.f))
      else s.(owner := Overrun(s.owner.f))
    case BumpFiber =>
      s.(f := s.f.(tail := s.f.tail + 1), owner := Enqueued(s.owner.f, s.own.cur), own := s.own.(cur := s.owner.f))
    case PushPlain =>
      var fr := Plain(|s.past.pushed|);
      s.(d := s.d.(ltq := Store(s.d.ltq, s.d.tail, fr)), owner := PushBump(fr))
    case PushFuture =>
      var fr := FutureParent(|s.past.pushed|, s.owner.f, s.owner.from);
      s.(d := s.d.(ltq := Store(s.d.ltq, s.d.tail, fr)), owner := PushBump(fr))
    case BumpFrame =>
      s.(d := s.d.(tail := s.d.tail + 1), owner := Work, past := s.past.(pushed := s.past.pushed + [s.owner.fr]))
  }

  // Popping: __cilkrts_undo_detach, __cilkrts_leave_frame, __cilkrts_switch_fibers_back.

  predicate CanReturn(s: State, st: Returning) {
    match st
    case Decrement => s.owner.Work?
    case ReadExc => s.owner.PopCheck?
    case ReturnPlain => s.owner.Won? && s.owner.fr.Plain?
    case ReturnFuture => s.owner.Won? && s.owner.fr.FutureParent?
    case DecrementFiber => s.owner.FiberPop?
    case ReadFiber => s.owner.FiberRead?
  }

  function DoReturn(s: State, st: Returning): State
    requires CanReturn(s, st)
  {
    match st
    case Decrement => s.(d := s.d.(tail := s.d.tail - 1), owner := PopCheck)
    case ReadExc =>
      if s.d.tail < s.d.exc then s.(owner := SlowWait)
      else
        var fr := Fetch(s.d.ltq, s.d.tail, WILD);
        s.(owner := Won(fr), past := Claimed(s.past, fr, Popped))
    case ReturnPlain => s.(owner := Work)
    case ReturnFuture =>
      var cache := if |s.own.cache| < CACHE_MAX then s.own.cache + [s.own.cur] else s.own.cache;
      s.(owner := FiberPop(s.own.cur), own := s.own.(cur := s.owner.fr.from, cache := cache))
    case DecrementFiber => s.(f := s.f.(tail := s.f.tail - 1), owner := FiberRead(s.owner.running))
    case ReadFiber => s.(owner := Work)
  }

  // The slow path: __cilkrts_c_THE_exception_check, __cilkrts_reset_future_fiber_deque; the return of a spawned
  // child with an exception: __cilkrts_return_exception, __cilkrts_pop_tail, __cilkrts_exception_from_spawn; and a
  // frame that stalls at its sync, or returns to its caller's full frame: __cilkrts_c_sync, __cilkrts_return.

  predicate CanSlow(s: State, st: Slow) {
    match st
    case TakeLock => s.owner.SlowWait? && s.lock.Free?
    case ResetExc => s.owner.SlowReset?
    case Decide => s.owner.SlowDecide?
    case DropLock => s.owner.SlowWon? || s.owner.SlowLost? || s.owner.ThrowLost?
    // no exception leaves the function of a future
    case Throw => s.owner.Work? && !(0 < s.d.tail <= |s.d.ltq| && s.d.ltq[s.d.tail - 1].FutureParent?)
    case LockToPop => s.owner.ThrowWait? && s.lock.Free?
    case PopTail => s.owner.ThrowPop?
    // a frame that is still here at its sync has lost nothing since it was set up
    case Stall => s.owner.Work? && s.d.head == s.d.tail == 0
    case ClearHead => s.owner.LostHead?
    case ClearTail => s.owner.LostTail?
  }

  function DoSlow(s: State, st: Slow): State
    requires CanSlow(s, st)
  {
    match st
    case TakeLock => s.(lock := ByOwner, owner := SlowReset)
    case ResetExc => s.(d := s.d.(exc := s.d.head), owner := SlowDecide)
    case Decide =>
      if s.d.head < s.d.tail + 1 then
        var fr := Fetch(s.d.ltq, s.d.tail, WILD);
        s.(owner := SlowWon(fr), past := Claimed(s.past, fr, Popped))
      else s.(d := s.d.(tail := s.d.tail + 1), owner := SlowLost)
    case DropLock =>
      s.(lock := Free, owner := if s.owner.SlowWon? then Won(s.owner.fr) else if s.owner.SlowLost? then LostHead else Lost)
    case ClearHead => s.(f := s.f.(head := 0), owner := LostTail)
    case ClearTail => s.(f := s.f.(tail := 0), owner := Lost, past := s.past.(threw := false))
    case Throw => s.(owner := ThrowWait)
    case LockToPop => s.(lock := ByOwner, owner := ThrowPop)
    case PopTail =>
      if s.d.head < s.d.tail then
        var fr := Fetch(s.d.ltq, s.d.tail - 1, WILD);
        s.(d := s.d.(tail := s.d.tail - 1), owner := SlowWon(fr), past := Claimed(s.past, fr, Popped))
      else s.(owner := ThrowLost, past := s.past.(threw := true))
    case Stall => s.(owner := Lost)
  }

  // The owner picks up its next frame: setup_for_execution, with the lock held.

  predicate CanRestart(s: State, st: Restart) {
    match st
    case LockAgain => s.owner.Lost? && s.lock.Free?
    case ResetTail => s.owner.RestartTail?
    case ResetHead => s.owner.RestartHead?
    case ResetExcAgain => s.owner.RestartExc?
    case UnlockAgain(f) => s.owner.RestartDone? && f !in s.own.cache
  }

  function DoRestart(s: State, st: Restart): State
    requires CanRestart(s, st)
  {
    match st
    case LockAgain => s.(lock := ByOwner, owner := RestartTail)
    case ResetTail => s.(d := s.d.(tail := 0), owner := RestartHead)
    case ResetHead => s.(d := s.d.(head := 0), owner := RestartExc)
    case ResetExcAgain => s.(d := s.d.(exc := s.d.head), owner := RestartDone)
    case UnlockAgain(f) =>
      s.(lock := Free, owner := Work, own := s.own.(base := f, cur := f), past := s.past.(offset := s.f.head))
  }

  // A thief: random_steal, dekker_protocol, detach_for_steal, __cilkrts_pop_head_future_fiber.

  predicate CanStealFrom(d: FrameDeque) {
    d.head < d.tail && d.head < |d.ltq|
  }

  predicate CanThieve(s: State, st: Probing) {
    match st
    case ThiefLock(t) => s.lock.Free?
    case CheckFirst => s.thief.Probe?
    case IncrementExc => s.thief.Announce?
    case CheckAgain => s.thief.Test?
    case DecrementExc => s.thief.Retract?
    case ThiefUnlock => s.thief.Leave?
  }

  function DoThieve(s: State, st: Probing): State
    requires CanThieve(s, st)
  {
    match st
    case ThiefLock(t) => s.(lock := ByThief(t), thief := Probe)
    case CheckFirst => s.(thief := if CanStealFrom(s.d) then Announce else Leave)
    case IncrementExc => s.(d := s.d.(exc := s.d.exc + 1), thief := Test)
    case CheckAgain => s.(thief := if CanStealFrom(s.d) then Take else Retract)
    case DecrementExc => s.(d := s.d.(exc := s.d.exc - 1), thief := Leave)
    case ThiefUnlock => s.(lock := Free, thief := Idle)
  }

  predicate CanSteal(s: State, st: Stealing) {
    s.lock.ByThief? &&
    match st
    case AdvanceHead => s.thief.Take?
    case LoadFrame => s.thief.Load?
    case AdvanceFiberHead => s.thief.FiberHead?
    case LoadFiber => s.thief.FiberLoad?
  }

  function DoSteal(s: State, st: Stealing): State
    requires CanSteal(s, st)
  {
    match st
    case AdvanceHead => s.(d := s.d.(head := s.d.head + 1), thief := Load(s.d.head))
    case LoadFrame =>
      var fr := Fetch(s.d.ltq, s.thief.h, WILD);
      s.(thief := if fr.FutureParent? then FiberHead(fr) else Leave, past := Claimed(s.past, fr, Stolen(s.lock.thief)))
    case AdvanceFiberHead => s.(f := s.f.(head := s.f.head + 1), thief := FiberLoad(s.thief.fr, s.f.head))
    case LoadFiber =>
      var g := Gift(s.thief.stolen, Fetch(s.f.buf, s.thief.fh, 0));
      s.(thief := Leave, past := s.past.(gifts := s.past.gifts + [g]))
  }

  predicate Enabled(s: State, st: Step) {
    match st
    case Spawn(x) => CanSpawn(s, x)
    case Return(x) => CanReturn(s, x)
    case SlowPath(x) => CanSlow(s, x)
    case Next(x) => CanRestart(s, x)
    case Thieve(x) => CanThieve(s, x)
    case Steal(x) => CanSteal(s, x)
  }

  function Do(s: State, st: Step): State
    requires Enabled(s, st)
  {
    match st
    case Spawn(x) => DoSpawn(s, x)
    case Return(x) => DoReturn(s, x)
    case SlowPath(x) => DoSlow(s, x)
    case Next(x) => DoRestart(s, x)
    case Thieve(x) => DoThieve(s, x)
    case Steal(x) => DoSteal(s, x)
  }

  ghost predicate Init(s: State) {
    && |s.d.ltq| == |s.f.buf|
    && s.d.head == s.d.tail == s.d.exc == s.f.head == s.f.tail == 0
    && s.lock.Free? && s.owner.Work? && s.thief.Idle?
    && s.own.cur == s.own.base && s.own.cache == []
    && s.past == History([], [], [], 0, false)
  }

  // ---------------------------------------------------------------- the invariant

  /** The owner has given up tail's frame but does not know yet whether it was stolen. */
  predicate Pending(o: Owner) {
    o.PopCheck? || o.SlowWait? || o.SlowReset? || o.SlowDecide?
  }

  /** The owner found its parent stolen and has not set up its next frame. */
  predicate Losing(o: Owner) {
    o.SlowLost? || o.ThrowLost? || o.LostHead? || o.LostTail? || o.Lost? || Restarting(o)
  }

  predicate Restarting(o: Owner) {
    o.RestartTail? || o.RestartHead? || o.RestartExc? || o.RestartDone?
  }

  predicate Announced(t: Thief) {
    t.Test? || t.Retract? || t.Take?
  }

  function Hi(d: FrameDeque, o: Owner): int {
    if Pending(o) then d.tail + 1 else d.tail
  }

  /** Frames from here up have not been read by a thief. */
  function Lo(d: FrameDeque, t: Thief): int {
    if t.Load? then d.head - 1 else d.head
  }

  /** Frames from here up still have their fiber in the fiber deque. */
  function FLo(d: FrameDeque, t: Thief): int {
    if t.Load? || t.FiberHead? then d.head - 1 else d.head
  }

  predicate Locks(l: Lock, o: Owner, t: Thief) {
    && (l.ByOwner? <==> o.SlowReset? || o.SlowDecide? || o.SlowWon? || o.SlowLost? || o.ThrowPop? || o.ThrowLost? || Restarting(o))
    && (l.ByThief? <==> !t.Idle?)
    && (Losing(o) ==> !t.Take? && !t.Load? && !t.FiberHead? && !t.FiberLoad?)
  }

  predicate Indices(d: FrameDeque, o: Owner, t: Thief) {
    && 0 <= d.head
    && Hi(d, o) <= |d.ltq|
    && (if o.RestartExc? then 0 <= d.exc else d.exc == if Announced(t) then d.head + 1 else d.head)
    && (if Losing(o) then if o.RestartHead? then d.tail == 0 else d.head == d.tail else d.head <= Hi(d, o))
    && (o.RestartExc? || o.RestartDone? ==> d.head == 0)
    && (t.Take? ==> d.head < Hi(d, o))
    && (t.Load? || t.FiberHead? || t.FiberLoad? ==> 0 < d.head)
    && (t.Load? ==> t.h == d.head - 1)
    && (o.PushBump? ==> d.tail < |d.ltq| && d.ltq[d.tail] == o.fr)
  }

  /** The fiber at the owner's end of the fiber deque whose frame is not on the frame deque. */
  function InTransit(o: Owner): seq<Fiber> {
    match o
    case Enqueued(f, _) => [f]
    case PushBump(fr) => FiberOf(fr)
    case SlowWon(fr) => FiberOf(fr)
    case Won(fr) => FiberOf(fr)
    case FiberPop(f) => [f]
    case _ => []
  }

  /** The fiber deque holds, in order, the fibers of the future parents among frames flo..hi, and after
      them those in transit. */
  predicate Match(f: FiberDeque, ltq: seq<Frame>, flo: int, hi: int, transit: seq<Fiber>) {
    && 0 <= flo <= |ltq| && hi <= |ltq|
    && 0 <= f.head <= f.tail <= |f.buf|
    && f.buf[f.head..f.tail] == Fibers(ltq, flo, hi) + transit
  }

  /** The frames still on the frame deque are matched, and at most one fiber is in transit. */
  predicate Matched(d: FrameDeque, f: FiberDeque, o: Owner, t: Thief)
  {
    Match(f, d.ltq, FLo(d, t), Hi(d, o), InTransit(o))
  }

  predicate OwnerFiber(f: FiberDeque, o: Owner) {
    && (o.EnqBump? ==> 0 <= f.tail < |f.buf| && f.buf[f.tail] == o.f)
    && (o.FiberRead? ==> 0 <= f.tail < |f.buf| && f.buf[f.tail] == o.running)
    && (o.Overrun? ==> f.tail == |f.buf|)
  }

  predicate ThiefFiber(d: FrameDeque, f: FiberDeque, t: Thief)
  {
    && (t.FiberHead? ==> 0 < d.head <= |d.ltq| && d.ltq[d.head - 1] == t.fr && t.fr.FutureParent?)
    && (t.FiberLoad? ==> 0 <= t.fh < f.head && t.fh < |f.buf|
                         && t.stolen.FutureParent? && f.buf[t.fh] == t.stolen.fiber)
  }

  predicate LockStep(d: FrameDeque, f: FiberDeque, o: Owner, t: Thief)
    requires Indices(d, o, t)
  {
    && |d.ltq| == |f.buf|
    && OwnerFiber(f, o)
    && ThiefFiber(d, f, t)
    && match o
       case LostTail => f.head == 0 <= f.tail
       case _ => if Losing(o) then 0 <= f.head == f.tail <= |f.buf| else Matched(d, f, o, t)
  }

  ghost predicate Control(s: State) {
    && Locks(s.lock, s.owner, s.thief)
    && Indices(s.d, s.owner, s.thief)
    && LockStep(s.d, s.f, s.owner, s.thief)
  }

  // ---------------------------------------------------------------- it is kept

  lemma {:induction false} FibersCons(fs: seq<Frame>, lo: int, hi: int)
    requires 0 <= lo < hi <= |fs|
    ensures Fibers(fs, lo, hi) == FiberOf(fs[lo]) + Fibers(fs, lo + 1, hi)
    decreases hi - lo
  {
    hide FiberOf;
    if lo + 1 == hi {
      assert Fibers(fs, lo, lo) == [];
    } else {
      FibersCons(fs, lo, hi - 1);
      Regroup(FiberOf(fs[lo]), Fibers(fs, lo + 1, hi - 1), FiberOf(fs[hi - 1]));
    }
  }

  lemma FibersLast(fs: seq<Frame>, lo: int, hi: int)
    requires 0 <= lo < hi <= |fs|
    ensures Fibers(fs, lo, hi) == Fibers(fs, lo, hi - 1) + FiberOf(fs[hi - 1])
  {
  }

  lemma Regroup<T>(a: seq<T>, b: seq<T>, c: seq<T>)
    ensures (a + b) + c == a + (b + c)
  {
  }

  /** Only the frames inside the window matter. */
  lemma {:induction false} FibersFrame(fs: seq<Frame>, gs: seq<Frame>, lo: int, hi: int)
    requires 0 <= lo <= |fs| && lo <= |gs| && hi <= |fs| && hi <= |gs|
    requires forall i :: lo <= i < hi ==> fs[i] == gs[i]
    ensures Fibers(fs, lo, hi) == Fibers(gs, lo, hi)
    decreases hi - lo
  {
    if lo < hi {
      FibersFrame(fs, gs, lo, hi - 1);
    }
  }

  ghost predicate InStep(s: State) {
    Indices(s.d, s.owner, s.thief) && LockStep(s.d, s.f, s.owner, s.thief)
  }

  ghost predicate Ordered(s: State) {
    Locks(s.lock, s.owner, s.thief) && Indices(s.d, s.owner, s.thief)
  }

  lemma SpawnKeepsOrder(s: State, st: Spawning)
    requires Ordered(s) && CanSpawn(s, st)
    ensures Ordered(DoSpawn(s, st))
  {
  }

  lemma ReturnKeepsOrder(s: State, st: Returning)
    requires Ordered(s) && CanReturn(s, st)
    ensures Ordered(DoReturn(s, st))
  {
  }

  lemma SlowKeepsOrder(s: State, st: Slow)
    requires Ordered(s) && CanSlow(s, st)
    ensures Ordered(DoSlow(s, st))
  {
  }

  lemma StealKeepsOrder(s: State, st: Stealing)
    requires Ordered(s) && CanSteal(s, st)
    ensures Ordered(DoSteal(s, st))
  {
  }

  // What the steps do to two matched deques.

  lemma MatchPush(f: FiberDeque, ltq: seq<Frame>, flo: int, hi: int, transit: seq<Fiber>, fr: Frame)
    requires Match(f, ltq, flo, hi, transit) && flo <= hi < |ltq|
    ensures Match(f, ltq[hi := fr], flo, hi, transit)
  {
    FibersFrame(ltq, ltq[hi := fr], flo, hi);
  }

  /** Publishing a frame moves its fiber from in transit to matched; a pop moves it back. */
  lemma MatchPublish(f: FiberDeque, ltq: seq<Frame>, flo: int, hi: int)
    requires 0 <= flo <= hi < |ltq|
    ensures Match(f, ltq, flo, hi, FiberOf(ltq[hi])) <==> Match(f, ltq, flo, hi + 1, [])
  {
    FibersLast(ltq, flo, hi + 1);
  }

  lemma MatchStore(f: FiberDeque, ltq: seq<Frame>, flo: int, hi: int, x: Fiber)
    requires Match(f, ltq, flo, hi, []) && f.tail < |f.buf|
    ensures Match(f.(buf := f.buf[f.tail := x]), ltq, flo, hi, [])
  {
    assert f.buf[f.tail := x][f.head..f.tail] == f.buf[f.head..f.tail];
  }

  lemma MatchEnqueue(f: FiberDeque, ltq: seq<Frame>, flo: int, hi: int, x: Fiber)
    requires Match(f, ltq, flo, hi, []) && f.tail < |f.buf| && f.buf[f.tail] == x
    ensures Match(f.(tail := f.tail + 1), ltq, flo, hi, [x])
  {
    assert f.buf[f.head..f.tail + 1] == f.buf[f.head..f.tail] + [x];
  }

  lemma MatchPopTail(f: FiberDeque, ltq: seq<Frame>, flo: int, hi: int, x: Fiber)
    requires Match(f, ltq, flo, hi, [x])
    ensures 0 <= f.head < f.tail <= |f.buf| && f.buf[f.tail - 1] == x
    ensures Match(f.(tail := f.tail - 1), ltq, flo, hi, [])
  {
    LastOf(f.buf, f.head, f.tail, Fibers(ltq, flo, hi), x);
  }

  lemma LastOf(buf: seq<Fiber>, lo: int, hi: int, first: seq<Fiber>, x: Fiber)
    requires 0 <= lo <= hi <= |buf| && buf[lo..hi] == first + [x]
    ensures lo < hi && buf[hi - 1] == x && buf[lo..hi - 1] == first
  {
    var whole := buf[lo..hi];
    assert |whole| == hi - lo == |first| + 1;
    assert whole[hi - lo - 1] == x;
    forall i | 0 <= i < |first| ensures buf[lo + i] == first[i] {
      assert whole[i] == first[i];
    }
  }

  /** A stolen plain frame leaves the fiber deque alone; the fiber at the head belongs to a stolen future parent. */
  lemma MatchSteal(f: FiberDeque, ltq: seq<Frame>, flo: int, hi: int, transit: seq<Fiber>)
    requires Match(f, ltq, flo, hi, transit) && flo < hi
    ensures ltq[flo].Plain? ==> Match(f, ltq, flo + 1, hi, transit)
    ensures ltq[flo].FutureParent? ==>
      && f.head < f.tail && f.buf[f.head] == ltq[flo].fiber
      && Match(f.(head := f.head + 1), ltq, flo + 1, hi, transit)
  {
    FibersCons(ltq, flo, hi);
    if ltq[flo].FutureParent? {
      FirstOf(f.buf, f.head, f.tail, ltq[flo].fiber, Fibers(ltq, flo + 1, hi), transit);
    }
  }

  lemma FirstOf(buf: seq<Fiber>, lo: int, hi: int, x: Fiber, rest: seq<Fiber>, last: seq<Fiber>)
    requires 0 <= lo <= hi <= |buf| && buf[lo..hi] == [x] + rest + last
    ensures lo < hi && buf[lo] == x && buf[lo + 1..hi] == rest + last
  {
    assert buf[lo..hi][0] == x;
    assert buf[lo + 1..hi] == buf[lo..hi][1..];
  }

  lemma MatchEmpty(f: FiberDeque, ltq: seq<Frame>, flo: int, hi: int)
    requires Match(f, ltq, flo, hi, []) && hi <= flo
    ensures 0 <= f.head == f.tail <= |f.buf|
  {
  }

  lemma MatchBounds(f: FiberDeque, ltq: seq<Frame>, flo: int, hi: int, transit: seq<Fiber>)
    requires Match(f, ltq, flo, hi, transit)
    ensures 0 <= f.head <= f.tail <= |f.buf|
  {
  }

  lemma EnqueueKeepsStep(s: State, st: Spawning)
    requires Control(s) && CanSpawn(s, st) && (st.StartFuture? || st.StoreFiber? || st.BumpFiber?)
    ensures InStep(DoSpawn(s, st))
  {
    hide Match, Fibers, FiberOf, Locks;
    SpawnKeepsOrder(s, st);
    MatchBounds(s.f, s.d.ltq, FLo(s.d, s.thief), s.d.tail, []);
    if st.BumpFiber? {
      MatchEnqueue(s.f, s.d.ltq, FLo(s.d, s.thief), s.d.tail, s.owner.f);
    } else if st.StoreFiber? && s.f.tail < |s.f.buf| {
      MatchStore(s.f, s.d.ltq, FLo(s.d, s.thief), s.d.tail, s.owner.f);
    }
  }

  lemma PushKeepsStep(s: State, st: Spawning)
    requires Control(s) && CanSpawn(s, st) && (st.PushPlain? || st.PushFuture?)
    ensures InStep(DoSpawn(s, st))
  {
    hide Match, Fibers, FiberOf, Locks;
    SpawnKeepsOrder(s, st);
    var fr := DoSpawn(s, st).owner.fr;
    MatchPush(s.f, s.d.ltq, FLo(s.d, s.thief), s.d.tail, InTransit(s.owner), fr);
    if st.PushPlain? {
      NotFuture(fr);
    } else {
      AFuture(fr);
    }
  }

  lemma PublishKeepsStep(s: State)
    requires Control(s) && CanSpawn(s, BumpFrame)
    ensures InStep(DoSpawn(s, BumpFrame))
  {
    hide Match, Fibers, FiberOf, Locks;
    SpawnKeepsOrder(s, BumpFrame);
    MatchPublish(s.f, s.d.ltq, FLo(s.d, s.thief), s.d.tail);
  }

  lemma NotFuture(fr: Frame)
    requires fr.Plain?
    ensures FiberOf(fr) == []
  {
  }

  lemma AFuture(fr: Frame)
    requires fr.FutureParent?
    ensures FiberOf(fr) == [fr.fiber]
  {
  }

  lemma ReturnKeepsStep(s: State, st: Returning)
    requires Control(s) && CanReturn(s, st)
    requires st.ReturnFuture? ==> s.own.cur == s.owner.fr.fiber
    ensures InStep(DoReturn(s, st))
  {
    hide Match, Fibers, FiberOf, Locks;
    ReturnKeepsOrder(s, st);
    var flo := FLo(s.d, s.thief);
    match st
    case ReadExc =>
      if s.d.tail >= s.d.exc {
        MatchPublish(s.f, s.d.ltq, flo, s.d.tail);
      }
    case DecrementFiber => MatchPopTail(s.f, s.d.ltq, flo, s.d.tail, s.owner.running);
    case ReturnPlain => NotFuture(s.owner.fr);
    case ReturnFuture => AFuture(s.owner.fr);
    case _ =>
  }

  lemma SlowKeepsStep(s: State, st: Slow)
    requires Control(s) && CanSlow(s, st) && !Throwing(st)
    ensures InStep(DoSlow(s, st))
  {
    hide Match, Fibers, FiberOf;
    SlowKeepsOrder(s, st);
    var flo := FLo(s.d, s.thief);
    if st.Decide? && s.d.head < s.d.tail + 1 {
      MatchPublish(s.f, s.d.ltq, flo, s.d.tail);
    } else if st.Decide? {
      MatchEmpty(s.f, s.d.ltq, flo, Hi(s.d, s.owner));
    }
  }

  lemma ThrowKeepsStep(s: State, st: Slow)
    requires Control(s) && CanSlow(s, st) && Throwing(st)
    ensures InStep(DoSlow(s, st))
  {
    hide Match, Fibers, FiberOf;
    SlowKeepsOrder(s, st);
    var flo := FLo(s.d, s.thief);
    if st.PopTail? && s.d.head < s.d.tail {
      MatchPublish(s.f, s.d.ltq, flo, s.d.tail - 1);
    } else if st.PopTail? || st.Stall? {
      MatchEmpty(s.f, s.d.ltq, flo, s.d.tail);
    }
  }

  predicate Throwing(st: Slow) {
    st.Throw? || st.LockToPop? || st.PopTail? || st.Stall?
  }

  lemma StealKeepsStep(s: State, st: Stealing)
    requires Control(s) && CanSteal(s, st)
    ensures InStep(DoSteal(s, st))
  {
    hide Match, Fibers, FiberOf;
    StealKeepsOrder(s, st);
    if st.LoadFrame? || st.AdvanceFiberHead? {
      MatchBounds(s.f, s.d.ltq, FLo(s.d, s.thief), Hi(s.d, s.owner), InTransit(s.owner));
      MatchSteal(s.f, s.d.ltq, s.d.head - 1, Hi(s.d, s.owner), InTransit(s.owner));
    }
  }

  lemma RestartKeepsControl(s: State, st: Restart)
    requires Control(s) && CanRestart(s, st)
    ensures Control(DoRestart(s, st))
  {
  }

  lemma ThieveKeepsControl(s: State, st: Probing)
    requires Control(s) && CanThieve(s, st)
    ensures Control(DoThieve(s, st))
  {
    hide Match, InTransit;
  }

  // ---------------------------------------------------------------- which fiber the owner runs on

  /** The fiber that runs once the first n frames of the stack are in place. */
  function Running(base: Fiber, fs: seq<Frame>, n: int): Fiber
    decreases n
  {
    if n <= 0 || n > |fs| then base
    else if fs[n - 1].FutureParent? then fs[n - 1].fiber
    else Running(base, fs, n - 1)
  }

  lemma {:induction false} RunningFrame(base: Fiber, fs: seq<Frame>, gs: seq<Frame>, n: int)
    requires n <= |fs| && n <= |gs|
    requires forall i :: 0 <= i < n ==> fs[i] == gs[i]
    ensures Running(base, fs, n) == Running(base, gs, n)
    decreases n
  {
    if 0 < n {
      RunningFrame(base, fs, gs, n - 1);
    }
  }

  /** A frame about to go on, or just taken off, a stack of n frames. */
  ghost predicate Fits(own: Local, fs: seq<Frame>, n: int, fr: Frame) {
    if fr.FutureParent? then own.cur == fr.fiber && fr.from == Running(own.base, fs, n)
    else own.cur == Running(own.base, fs, n)
  }

  /** Every future parent remembers the fiber below it, and the owner runs on the topmost fiber. */
  ghost predicate Stacked(s: State) {
    && Indices(s.d, s.owner, s.thief)
    && (!Losing(s.owner) ==>
      var n := Hi(s.d, s.owner);
      && (forall i :: 0 <= i < n && s.d.ltq[i].FutureParent? ==> s.d.ltq[i].from == Running(s.own.base, s.d.ltq, i))
      && match s.owner
         case Enqueued(f, from) => s.own.cur == f && from == Running(s.own.base, s.d.ltq, n)
         case PushBump(fr) => Fits(s.own, s.d.ltq, n, fr)
         case Won(fr) => Fits(s.own, s.d.ltq, n, fr)
         case SlowWon(fr) => Fits(s.own, s.d.ltq, n, fr)
         case _ => s.own.cur == Running(s.own.base, s.d.ltq, n))
  }

  lemma SpawnKeepsStacked(s: State, st: Spawning)
    requires Control(s) && Stacked(s) && CanSpawn(s, st)
    ensures Stacked(DoSpawn(s, st))
  {
    hide LockStep;
    SpawnKeepsOrder(s, st);
    var s' := DoSpawn(s, st);
    forall i | 0 <= i <= s.d.tail ensures Running(s.own.base, s.d.ltq, i) == Running(s.own.base, s'.d.ltq, i) {
      RunningFrame(s.own.base, s.d.ltq, s'.d.ltq, i);
    }
  }

  lemma ReturnKeepsStacked(s: State, st: Returning)
    requires Control(s) && Stacked(s) && CanReturn(s, st)
    ensures Stacked(DoReturn(s, st))
  {
    hide LockStep;
    ReturnKeepsOrder(s, st);
  }

  lemma SlowKeepsStacked(s: State, st: Slow)
    requires Control(s) && Stacked(s) && CanSlow(s, st)
    ensures Stacked(DoSlow(s, st))
  {
    hide LockStep;
    SlowKeepsOrder(s, st);
  }

  lemma OthersKeepStacked(s: State, st: Step)
    requires Control(s) && Stacked(s) && Enabled(s, st) && (st.Next? || st.Thieve? || st.Steal?)
    ensures Stacked(Do(s, st))
  {
    hide LockStep;
    match st
    case Next(x) => RestartKeepsControl(s, x);
    case Thieve(x) => ThieveKeepsControl(s, x);
    case Steal(x) => StealKeepsOrder(s, x);
    case _ =>
  }

  // ---------------------------------------------------------------- no fiber in two places

  function One(b: bool): nat {
    if b then 1 else 0
  }

  /** How often x occurs in xs. */
  function Times<T(==)>(xs: seq<T>, x: T): (n: nat)
    ensures n > 0 <==> x in xs
  {
    if xs == [] then 0 else Times(xs[..|xs| - 1], x) + One(xs[|xs| - 1] == x)
  }

  lemma TimesSnoc<T>(xs: seq<T>, y: T, x: T)
    ensures Times(xs + [y], x) == Times(xs, x) + One(y == x)
  {
    assert (xs + [y])[..|xs|] == xs;
  }

  predicate On(fr: Frame, f: Fiber) {
    fr.FutureParent? && fr.fiber == f
  }

  /** How often f is the fiber of a future parent among frames 0..n. */
  function OnStack(fs: seq<Frame>, n: int, f: Fiber): nat
    requires n <= |fs|
    decreases n
  {
    if n <= 0 then 0 else OnStack(fs, n - 1, f) + One(On(fs[n - 1], f))
  }

  lemma {:induction false} OnStackFrame(fs: seq<Frame>, gs: seq<Frame>, n: int, f: Fiber)
    requires n <= |fs| && n <= |gs|
    requires forall i :: 0 <= i < n ==> fs[i] == gs[i]
    ensures OnStack(fs, n, f) == OnStack(gs, n, f)
    decreases n
  {
    if 0 < n {
      OnStackFrame(fs, gs, n - 1, f);
    }
  }

  lemma {:induction false} OnStackInFibers(fs: seq<Frame>, n: int, f: Fiber)
    requires n <= |fs|
    ensures OnStack(fs, n, f) > 0 <==> f in Fibers(fs, 0, n)
    decreases n
  {
    if 0 < n {
      OnStackInFibers(fs, n - 1, f);
    }
  }

  function InHand(o: Owner, f: Fiber): nat {
    match o
    case EnqStore(g) => One(f == g)
    case EnqBump(g) => One(f == g)
    case Overrun(g) => One(f == g)
    case Enqueued(g, _) => One(f == g)
    case PushBump(fr) => One(On(fr, f))
    case Won(fr) => One(On(fr, f))
    case SlowWon(fr) => One(On(fr, f))
    case _ => 0
  }

  /** How often the owner has f: under its stack, in hand, and cached. */
  function Uses(s: State, f: Fiber): nat
    requires Hi(s.d, s.owner) <= |s.d.ltq|
  {
    Times(s.own.cache, f)
    + if Losing(s.owner) then 0
      else One(s.own.base == f) + OnStack(s.d.ltq, Hi(s.d, s.owner), f) + InHand(s.owner, f)
  }

  /** No fiber is in two of these places, nor in one of them twice. */
  ghost predicate Tidy(s: State) {
    Hi(s.d, s.owner) <= |s.d.ltq| && forall f: Fiber :: Uses(s, f) <= 1
  }

  lemma StartUses(s: State, g: Fiber, f: Fiber)
    requires Hi(s.d, s.owner) <= |s.d.ltq| && CanSpawn(s, StartFuture(g))
    ensures Uses(DoSpawn(s, StartFuture(g)), f) == Uses(s, f) + One(s.own.cache == [] && f == g)
  {
    hide OnStack;
    var s' := DoSpawn(s, StartFuture(g));
    if s.own.cache != [] {
      assert Times(s.own.cache, f) == Times(s'.own.cache, f) + One(f == g);
    }
  }

  lemma SpawnUses(s: State, st: Spawning, f: Fiber)
    requires Ordered(s) && CanSpawn(s, st) && Ordered(DoSpawn(s, st)) && !st.StartFuture?
    ensures Uses(DoSpawn(s, st), f) == Uses(s, f)
  {
    var s' := DoSpawn(s, st);
    assert s.d.tail <= |s.d.ltq| == |s'.d.ltq|;
    if st.BumpFrame? {
      assert s.d.tail < |s.d.ltq| && s.d.ltq[s.d.tail] == s.owner.fr;
      PushedOnStack(s.d.ltq, s.d.tail, f);
    } else {
      assert forall i :: 0 <= i < s.d.tail ==> s.d.ltq[i] == s'.d.ltq[i];
      OnStackFrame(s.d.ltq, s'.d.ltq, s.d.tail, f);
    }
    hide OnStack, Locks, Indices, Ordered, On, Times;
  }

  lemma PushedOnStack(fs: seq<Frame>, n: int, f: Fiber)
    requires 0 <= n < |fs|
    ensures OnStack(fs, n + 1, f) == OnStack(fs, n, f) + One(On(fs[n], f))
  {
  }

  lemma FreshIsUnused(s: State, f: Fiber)
    requires Ordered(s) && s.owner.Work? && f !in InUse(s)
    ensures Uses(s, f) == 0
  {
    OnStackInFibers(s.d.ltq, s.d.tail, f);
  }

  lemma SpawnKeepsTidy(s: State, st: Spawning)
    requires Control(s) && Tidy(s) && CanSpawn(s, st)
    ensures Tidy(DoSpawn(s, st))
  {
    hide LockStep, Uses;
    SpawnKeepsOrder(s, st);
    forall f: Fiber ensures Uses(DoSpawn(s, st), f) <= 1 {
      if st.StartFuture? {
        StartUses(s, st.fiber, f);
        if s.own.cache == [] && f == st.fiber {
          FreshIsUnused(s, f);
        }
      } else {
        SpawnUses(s, st, f);
      }
    }
  }

  lemma ReturnUses(s: State, st: Returning, f: Fiber)
    requires Ordered(s) && CanReturn(s, st) && !st.ReturnFuture? && Ordered(DoReturn(s, st))
    ensures Uses(DoReturn(s, st), f) == Uses(s, f)
  {
  }

  /** Switching back from a future moves its fiber from in hand to the cache, or gives it up. */
  lemma ReturnFutureUses(s: State, f: Fiber)
    requires s.d.tail <= |s.d.ltq| && CanReturn(s, ReturnFuture) && s.own.cur == s.owner.fr.fiber
    ensures Uses(DoReturn(s, ReturnFuture), f) <= Uses(s, f)
  {
    var s' := DoReturn(s, ReturnFuture);
    assert Times(s'.own.cache, f) <= Times(s.own.cache, f) + One(s.own.cur == f) by {
      TimesSnoc(s.own.cache, s.own.cur, f);
    }
    assert InHand(s.owner, f) == One(s.own.cur == f);
    assert InHand(s'.owner, f) == 0;
  }

  lemma ReturnKeepsTidy(s: State, st: Returning)
    requires Control(s) && Stacked(s) && Tidy(s) && CanReturn(s, st)
    ensures Tidy(DoReturn(s, st))
  {
    hide LockStep;
    ReturnKeepsOrder(s, st);
    forall f: Fiber ensures Uses(DoReturn(s, st), f) <= 1 {
      if st.ReturnFuture? {
        ReturnFutureUses(s, f);
      } else {
        ReturnUses(s, st, f);
      }
    }
  }

  lemma SlowUses(s: State, st: Slow, f: Fiber)
    requires Ordered(s) && CanSlow(s, st) && Ordered(DoSlow(s, st))
    ensures Uses(DoSlow(s, st), f) <= Uses(s, f)
  {
  }

  lemma SlowKeepsTidy(s: State, st: Slow)
    requires Control(s) && Tidy(s) && CanSlow(s, st)
    ensures Tidy(DoSlow(s, st))
  {
    hide LockStep, Uses;
    SlowKeepsOrder(s, st);
    forall f: Fiber ensures Uses(DoSlow(s, st), f) <= 1 {
      SlowUses(s, st, f);
    }
  }

  lemma RestartKeepsTidy(s: State, st: Restart)
    requires Control(s) && Tidy(s) && CanRestart(s, st)
    ensures Tidy(DoRestart(s, st))
  {
    RestartKeepsControl(s, st);
    forall f: Fiber ensures Uses(DoRestart(s, st), f) <= 1 {
      assert Uses(s, f) <= 1;
    }
  }

  lemma ThievesKeepTidy(s: State, st: Step)
    requires Tidy(s) && Enabled(s, st) && (st.Thieve? || st.Steal?)
    ensures Tidy(Do(s, st))
  {
    forall f: Fiber ensures Uses(Do(s, st), f) <= 1 {
      assert Uses(s, f) <= 1;
    }
  }

  // ---------------------------------------------------------------- every frame exactly once

  /** How often fr occurs among frames lo..hi. */
  function Among(fs: seq<Frame>, lo: int, hi: int, fr: Frame): nat
    requires 0 <= lo && hi <= |fs|
    decreases hi - lo
  {
    if hi <= lo then 0 else Among(fs, lo, hi - 1, fr) + One(fs[hi - 1] == fr)
  }

  lemma {:induction false} AmongCons(fs: seq<Frame>, lo: int, hi: int, fr: Frame)
    requires 0 <= lo < hi <= |fs|
    ensures Among(fs, lo, hi, fr) == One(fs[lo] == fr) + Among(fs, lo + 1, hi, fr)
    decreases hi - lo
  {
    if lo + 1 < hi {
      AmongCons(fs, lo, hi - 1, fr);
    }
  }

  lemma {:induction false} AmongFrame(fs: seq<Frame>, gs: seq<Frame>, lo: int, hi: int, fr: Frame)
    requires 0 <= lo && hi <= |fs| && hi <= |gs|
    requires forall i :: lo <= i < hi ==> fs[i] == gs[i]
    ensures Among(fs, lo, hi, fr) == Among(gs, lo, hi, fr)
    decreases hi - lo
  {
    if lo < hi {
      AmongFrame(fs, gs, lo, hi - 1, fr);
    }
  }

  lemma {:induction false} AmongSome(fs: seq<Frame>, lo: int, hi: int, fr: Frame)
    requires 0 <= lo && hi <= |fs|
    ensures Among(fs, lo, hi, fr) > 0 <==> exists i :: lo <= i < hi && fs[i] == fr
    decreases hi - lo
  {
    if lo < hi {
      AmongSome(fs, lo, hi - 1, fr);
    }
  }

  /** How often fr was claimed. */
  function Taken(cs: seq<Claim>, fr: Frame): nat {
    if cs == [] then 0 else Taken(cs[..|cs| - 1], fr) + One(cs[|cs| - 1].frame == fr)
  }

  lemma TakenSnoc(cs: seq<Claim>, c: Claim, fr: Frame)
    ensures Taken(cs + [c], fr) == Taken(cs, fr) + One(c.frame == fr)
  {
    assert (cs + [c])[..|cs|] == cs;
  }

  /** How often fr is on the deque with nobody having taken it. */
  function Unclaimed(d: FrameDeque, o: Owner, t: Thief, fr: Frame): nat
    requires Indices(d, o, t)
  {
    if Losing(o) then 0 else Among(d.ltq, Lo(d, t), Hi(d, o), fr)
  }

  /** Every frame was published as often as it was claimed or is still there. */
  ghost predicate Conserved(s: State) {
    && Indices(s.d, s.owner, s.thief)
    && (forall fr: Frame :: Times(s.past.pushed, fr) == Taken(s.past.claims, fr) + Unclaimed(s.d, s.owner, s.thief, fr))
    && (forall i :: 0 <= i < |s.past.pushed| ==> s.past.pushed[i].id == i)
    && (s.owner.PushBump? ==> s.owner.fr.id == |s.past.pushed|)
  }

  lemma SpawnCounts(s: State, st: Spawning, fr: Frame)
    requires Ordered(s) && CanSpawn(s, st) && Ordered(DoSpawn(s, st))
    ensures Unclaimed(DoSpawn(s, st).d, DoSpawn(s, st).owner, s.thief, fr)
         == Unclaimed(s.d, s.owner, s.thief, fr) + One(st.BumpFrame? && s.owner.fr == fr)
  {
    var s' := DoSpawn(s, st);
    assert 0 <= Lo(s.d, s.thief) <= s.d.tail <= |s.d.ltq| == |s'.d.ltq|;
    if st.BumpFrame? {
      assert s.d.tail < |s.d.ltq| && s.d.ltq[s.d.tail] == s.owner.fr;
      OneMoreAmong(s.d.ltq, Lo(s.d, s.thief), s.d.tail, fr);
    } else {
      assert forall i :: 0 <= i < s.d.tail ==> s.d.ltq[i] == s'.d.ltq[i];
      AmongFrame(s.d.ltq, s'.d.ltq, Lo(s.d, s.thief), s.d.tail, fr);
    }
    hide Among, Locks, Indices, Ordered;
  }

  lemma OneMoreAmong(fs: seq<Frame>, lo: int, hi: int, fr: Frame)
    requires 0 <= lo <= hi < |fs|
    ensures Among(fs, lo, hi + 1, fr) == Among(fs, lo, hi, fr) + One(fs[hi] == fr)
  {
  }

  lemma SpawnKeepsConserved(s: State, st: Spawning)
    requires Control(s) && Conserved(s) && CanSpawn(s, st)
    ensures Conserved(DoSpawn(s, st))
  {
    SpawnKeepsOrder(s, st);
    var s' := DoSpawn(s, st);
    forall fr: Frame ensures Times(s'.past.pushed, fr) == Taken(s.past.claims, fr) + Unclaimed(s'.d, s'.owner, s.thief, fr) {
      SpawnCounts(s, st, fr);
      if st.BumpFrame? {
        TimesSnoc(s.past.pushed, s.owner.fr, fr);
      }
    }
  }

  lemma ReturnCounts(s: State, st: Returning, fr: Frame)
    requires Ordered(s) && CanReturn(s, st) && Ordered(DoReturn(s, st))
    ensures Taken(DoReturn(s, st).past.claims, fr) + Unclaimed(DoReturn(s, st).d, DoReturn(s, st).owner, s.thief, fr)
         == Taken(s.past.claims, fr) + Unclaimed(s.d, s.owner, s.thief, fr)
  {
    if st.ReadExc? && s.d.tail >= s.d.exc {
      TakenSnoc(s.past.claims, Claim(s.d.ltq[s.d.tail], Popped), fr);
    }
  }

  lemma ReturnKeepsConserved(s: State, st: Returning)
    requires Control(s) && Conserved(s) && CanReturn(s, st)
    ensures Conserved(DoReturn(s, st))
  {
    hide LockStep, Taken, Times, Unclaimed;
    ReturnKeepsOrder(s, st);
    var s' := DoReturn(s, st);
    forall fr: Frame ensures Times(s.past.pushed, fr) == Taken(s'.past.claims, fr) + Unclaimed(s'.d, s'.owner, s.thief, fr) {
      ReturnCounts(s, st, fr);
    }
  }

  lemma SlowCounts(s: State, st: Slow, fr: Frame)
    requires Ordered(s) && CanSlow(s, st) && Ordered(DoSlow(s, st))
    ensures Taken(DoSlow(s, st).past.claims, fr) + Unclaimed(DoSlow(s, st).d, DoSlow(s, st).owner, s.thief, fr)
         == Taken(s.past.claims, fr) + Unclaimed(s.d, s.owner, s.thief, fr)
  {
    if st.Decide? && s.d.head < s.d.tail + 1 {
      TakenSnoc(s.past.claims, Claim(s.d.ltq[s.d.tail], Popped), fr);
    }
  }

  lemma SlowKeepsConserved(s: State, st: Slow)
    requires Control(s) && Conserved(s) && CanSlow(s, st)
    ensures Conserved(DoSlow(s, st))
  {
    hide LockStep, Taken, Times, Unclaimed;
    SlowKeepsOrder(s, st);
    var s' := DoSlow(s, st);
    forall fr: Frame ensures Times(s.past.pushed, fr) == Taken(s'.past.claims, fr) + Unclaimed(s'.d, s'.owner, s.thief, fr) {
      SlowCounts(s, st, fr);
    }
  }

  lemma StealCounts(s: State, st: Stealing, fr: Frame)
    requires Ordered(s) && CanSteal(s, st) && Ordered(DoSteal(s, st))
    ensures Taken(DoSteal(s, st).past.claims, fr) + Unclaimed(DoSteal(s, st).d, s.owner, DoSteal(s, st).thief, fr)
         == Taken(s.past.claims, fr) + Unclaimed(s.d, s.owner, s.thief, fr)
  {
    if st.LoadFrame? {
      AmongCons(s.d.ltq, s.thief.h, Hi(s.d, s.owner), fr);
      TakenSnoc(s.past.claims, Claim(s.d.ltq[s.thief.h], Stolen(s.lock.thief)), fr);
    }
  }

  lemma StealKeepsConserved(s: State, st: Stealing)
    requires Control(s) && Conserved(s) && CanSteal(s, st)
    ensures Conserved(DoSteal(s, st))
  {
    hide LockStep, Taken, Times, Unclaimed;
    StealKeepsOrder(s, st);
    var s' := DoSteal(s, st);
    forall fr: Frame ensures Times(s.past.pushed, fr) == Taken(s'.past.claims, fr) + Unclaimed(s'.d, s.owner, s'.thief, fr) {
      StealCounts(s, st, fr);
    }
  }

  lemma RestartKeepsConserved(s: State, st: Restart)
    requires Control(s) && Conserved(s) && CanRestart(s, st)
    ensures Conserved(DoRestart(s, st))
  {
    RestartKeepsControl(s, st);
  }

  lemma ThieveKeepsConserved(s: State, st: Probing)
    requires Control(s) && Conserved(s) && CanThieve(s, st)
    ensures Conserved(DoThieve(s, st))
  {
    ThieveKeepsControl(s, st);
  }

  // ---------------------------------------------------------------- age, and fibers handed over

  /** Frames lie on the stack in the order they were published. */
  ghost predicate Aged(s: State) {
    && Indices(s.d, s.owner, s.thief)
    && (!Losing(s.owner) ==>
      var n := Hi(s.d, s.owner);
      && (forall i :: 0 <= i < n ==> s.d.ltq[i].id < |s.past.pushed|)
      && (forall i, j :: 0 <= i < j < n ==> s.d.ltq[i].id < s.d.ltq[j].id))
  }

  lemma SpawnKeepsAged(s: State, st: Spawning)
    requires Control(s) && Conserved(s) && Aged(s) && CanSpawn(s, st)
    ensures Aged(DoSpawn(s, st))
  {
    SpawnKeepsOrder(s, st);
    hide LockStep;
  }

  lemma ReturnKeepsAged(s: State, st: Returning)
    requires Control(s) && Aged(s) && CanReturn(s, st)
    ensures Aged(DoReturn(s, st))
  {
    ReturnKeepsOrder(s, st);
    hide LockStep;
  }

  lemma SlowKeepsAged(s: State, st: Slow)
    requires Control(s) && Aged(s) && CanSlow(s, st)
    ensures Aged(DoSlow(s, st))
  {
    SlowKeepsOrder(s, st);
    hide LockStep;
  }

  lemma OthersKeepAged(s: State, st: Step)
    requires Control(s) && Aged(s) && Enabled(s, st) && (st.Next? || st.Thieve? || st.Steal?)
    ensures Aged(Do(s, st))
  {
    hide LockStep;
    match st
    case Next(x) => RestartKeepsControl(s, x);
    case Thieve(x) => ThieveKeepsControl(s, x);
    case Steal(x) => StealKeepsOrder(s, x);
    case _ =>
  }

  /** The future parents thieves have taken, in order. */
  function StolenFutures(cs: seq<Claim>): seq<Frame> {
    if cs == [] then []
    else
      var c := cs[|cs| - 1];
      StolenFutures(cs[..|cs| - 1]) + if c.taker.Stolen? && c.frame.FutureParent? then [c.frame] else []
  }

  function Recipients(gs: seq<Gift>): seq<Frame> {
    if gs == [] then [] else Recipients(gs[..|gs| - 1]) + [gs[|gs| - 1].frame]
  }

  function Owed(t: Thief): seq<Frame> {
    match t
    case FiberHead(fr) => [fr]
    case FiberLoad(fr, _) => [fr]
    case _ => []
  }

  /** Each stolen future parent gets one fiber, its own. */
  ghost predicate Gifted(s: State) {
    && StolenFutures(s.past.claims) == Recipients(s.past.gifts) + Owed(s.thief)
    && forall i :: 0 <= i < |s.past.gifts| ==>
         s.past.gifts[i].frame.FutureParent? && s.past.gifts[i].fiber == s.past.gifts[i].frame.fiber
  }

  lemma ClaimSnoc(cs: seq<Claim>, c: Claim)
    ensures StolenFutures(cs + [c])
         == StolenFutures(cs) + if c.taker.Stolen? && c.frame.FutureParent? then [c.frame] else []
  {
    assert (cs + [c])[..|cs|] == cs;
  }

  lemma GiftSnoc(gs: seq<Gift>, g: Gift)
    ensures Recipients(gs + [g]) == Recipients(gs) + [g.frame]
  {
    assert (gs + [g])[..|gs|] == gs;
  }

  lemma StealKeepsGifted(s: State, st: Stealing)
    requires Control(s) && Gifted(s) && CanSteal(s, st)
    ensures Gifted(DoSteal(s, st))
  {
    hide Indices, Fibers, Matched, StolenFutures, Recipients;
    if st.LoadFrame? {
      ClaimSnoc(s.past.claims, Claim(Fetch(s.d.ltq, s.thief.h, WILD), Stolen(s.lock.thief)));
    } else if st.LoadFiber? {
      GiftSnoc(s.past.gifts, Gift(s.thief.stolen, Fetch(s.f.buf, s.thief.fh, 0)));
    }
  }

  lemma OwnerKeepsGifted(s: State, st: Step)
    requires Gifted(s) && Enabled(s, st) && (st.Spawn? || st.Return? || st.SlowPath?)
    ensures Gifted(Do(s, st))
  {
    hide Fetch, StolenFutures, Recipients;
    match st
    case Spawn(x) =>
      assert DoSpawn(s, x).past.claims == s.past.claims && DoSpawn(s, x).past.gifts == s.past.gifts;
    case Return(x) =>
      ClaimSnoc(s.past.claims, Claim(Fetch(s.d.ltq, s.d.tail, WILD), Popped));
      assert DoReturn(s, x).past.gifts == s.past.gifts;
    case SlowPath(x) =>
      ClaimSnoc(s.past.claims, Claim(Fetch(s.d.ltq, s.d.tail, WILD), Popped));
      ClaimSnoc(s.past.claims, Claim(Fetch(s.d.ltq, s.d.tail - 1, WILD), Popped));
      assert DoSlow(s, x).past.gifts == s.past.gifts;
    case _ =>
  }

  lemma LookingKeepsGifted(s: State, st: Step)
    requires Locks(s.lock, s.owner, s.thief) && Gifted(s) && Enabled(s, st) && (st.Next? || st.Thieve?)
    ensures Gifted(Do(s, st))
  {
    match st
    case Next(x) => assert DoRestart(s, x).past.claims == s.past.claims && DoRestart(s, x).past.gifts == s.past.gifts;
    case Thieve(x) => assert DoThieve(s, x).past == s.past && Owed(DoThieve(s, x).thief) == Owed(s.thief);
    case _ =>
  }

  // ---------------------------------------------------------------- how far the thieves are in the fiber deque

  /** Since the last restart fiber_head has passed one fiber for each future parent that was stolen; their frames
      are still in the buffer.  It started from the bottom unless an exception was returned to a stolen parent. */
  ghost predicate Passed(s: State) {
    && Indices(s.d, s.owner, s.thief)
    && (!Losing(s.owner) ==> s.f.head == s.past.offset + |Fibers(s.d.ltq, 0, FLo(s.d, s.thief))|)
    && (s.owner.ThrowLost? ==> s.past.threw)
    && (!s.past.threw ==> if s.owner.Lost? || Restarting(s.owner) then s.f.head == 0 else !Losing(s.owner) ==> s.past.offset == 0)
  }

  lemma StealKeepsPassed(s: State, st: Stealing)
    requires Control(s) && Passed(s) && CanSteal(s, st)
    ensures Passed(DoSteal(s, st))
  {
    StealKeepsOrder(s, st);
    if st.AdvanceFiberHead? || st.LoadFrame? {
      FibersLast(s.d.ltq, 0, s.d.head);
    }
    hide Fibers, Matched;
  }

  lemma SpawnKeepsPassed(s: State, st: Spawning)
    requires Control(s) && Passed(s) && CanSpawn(s, st)
    ensures Passed(DoSpawn(s, st))
  {
    hide LockStep, Fibers;
    SpawnKeepsOrder(s, st);
    FibersFrame(s.d.ltq, DoSpawn(s, st).d.ltq, 0, FLo(s.d, s.thief));
  }

  lemma ReturnKeepsPassed(s: State, st: Returning)
    requires Control(s) && Passed(s) && CanReturn(s, st)
    ensures Passed(DoReturn(s, st))
  {
    hide LockStep, Fibers;
    ReturnKeepsOrder(s, st);
  }

  lemma SlowKeepsPassed(s: State, st: Slow)
    requires Control(s) && Passed(s) && CanSlow(s, st)
    ensures Passed(DoSlow(s, st))
  {
    assert Fibers(s.d.ltq, 0, 0) == [];
    hide Match, Fibers;
    SlowKeepsOrder(s, st);
  }

  lemma RestartKeepsPassed(s: State, st: Restart)
    requires Control(s) && Passed(s) && CanRestart(s, st)
    ensures Passed(DoRestart(s, st))
  {
    RestartKeepsControl(s, st);
    hide Matched;
  }

  lemma ThieveKeepsPassed(s: State, st: Probing)
    requires Control(s) && Passed(s) && CanThieve(s, st)
    ensures Passed(DoThieve(s, st))
  {
    hide LockStep, Fibers;
    ThieveKeepsControl(s, st);
  }

  lemma StepKeepsPassed(s: State, st: Step)
    requires Control(s) && Passed(s) && Enabled(s, st)
    ensures Passed(Do(s, st))
  {
    hide Control, Passed;
    match st
    case Spawn(x) => SpawnKeepsPassed(s, x);
    case Steal(x) => StealKeepsPassed(s, x);
    case Return(x) => ReturnKeepsPassed(s, x);
    case SlowPath(x) => SlowKeepsPassed(s, x);
    case Next(x) => RestartKeepsPassed(s, x);
    case Thieve(x) => ThieveKeepsPassed(s, x);
  }

  // ---------------------------------------------------------------- every run

  ghost predicate Inv(s: State) {
    Control(s) && Stacked(s) && Tidy(s) && Conserved(s) && Aged(s) && Gifted(s) && Passed(s)
  }

  /** A worker can start with buffers of any size and on any fiber. */
  lemma AnyStart(size: nat, base: Fiber) returns (s: State)
    ensures Init(s) && |s.d.ltq| == size && s.own.base == base
  {
    s := State(FrameDeque(seq(size, i => WILD), 0, 0, 0), FiberDeque(seq(size, i => base), 0, 0), Free, Work, Idle,
               Local(base, base, []), History([], [], [], 0, false));
  }

  lemma InitInv(s: State)
    requires Init(s)
    ensures Inv(s)
  {
  }

  lemma SpawnKeepsControl(s: State, st: Spawning)
    requires Control(s) && CanSpawn(s, st)
    ensures Control(DoSpawn(s, st))
  {
    hide LockStep, Indices, Locks;
    SpawnKeepsOrder(s, st);
    match st
    case BumpFrame => PublishKeepsStep(s);
    case PushPlain => PushKeepsStep(s, st);
    case PushFuture => PushKeepsStep(s, st);
    case _ => EnqueueKeepsStep(s, st);
  }

  lemma ReturnKeepsControl(s: State, st: Returning)
    requires Control(s) && Stacked(s) && CanReturn(s, st)
    ensures Control(DoReturn(s, st))
  {
    ReturnKeepsOrder(s, st);
    hide LockStep, Locks;
    ReturnKeepsStep(s, st);
  }

  lemma SlowKeepsControl(s: State, st: Slow)
    requires Control(s) && CanSlow(s, st)
    ensures Control(DoSlow(s, st))
  {
    hide LockStep, Indices, Locks;
    SlowKeepsOrder(s, st);
    if Throwing(st) {
      ThrowKeepsStep(s, st);
    } else {
      SlowKeepsStep(s, st);
    }
  }

  lemma StealKeepsControl(s: State, st: Stealing)
    requires Control(s) && CanSteal(s, st)
    ensures Control(DoSteal(s, st))
  {
    hide LockStep, Indices, Locks;
    StealKeepsOrder(s, st);
    StealKeepsStep(s, st);
  }

  lemma OwnerKeepsInv(s: State, st: Step)
    requires Inv(s) && Enabled(s, st) && (st.Spawn? || st.Return? || st.SlowPath?)
    ensures Inv(Do(s, st))
  {
    OwnerKeepsGifted(s, st);
    StepKeepsPassed(s, st);
    hide Passed;
    match st
    case Spawn(x) => SpawnKeepsControl(s, x); SpawnKeepsStacked(s, x); SpawnKeepsTidy(s, x); SpawnKeepsConserved(s, x); SpawnKeepsAged(s, x);
    case Return(x) => ReturnKeepsControl(s, x); ReturnKeepsStacked(s, x); ReturnKeepsTidy(s, x); ReturnKeepsConserved(s, x); ReturnKeepsAged(s, x);
    case SlowPath(x) => SlowKeepsControl(s, x); SlowKeepsStacked(s, x); SlowKeepsTidy(s, x); SlowKeepsConserved(s, x); SlowKeepsAged(s, x);
    case _ =>
  }

  lemma OthersKeepInv(s: State, st: Step)
    requires Inv(s) && Enabled(s, st) && (st.Next? || st.Thieve? || st.Steal?)
    ensures Inv(Do(s, st))
  {
    OthersKeepStacked(s, st);
    OthersKeepAged(s, st);
    StepKeepsPassed(s, st);
    hide Passed;
    match st
    case Next(x) => RestartKeepsControl(s, x); RestartKeepsTidy(s, x); RestartKeepsConserved(s, x); LookingKeepsGifted(s, st);
    case Thieve(x) => ThieveKeepsControl(s, x); ThievesKeepTidy(s, st); ThieveKeepsConserved(s, x); LookingKeepsGifted(s, st);
    case Steal(x) => StealKeepsControl(s, x); ThievesKeepTidy(s, st); StealKeepsConserved(s, x); StealKeepsGifted(s, x);
    case _ =>
  }

  /** Every step of the owner and of every thief keeps the invariant. */
  lemma StepKeepsInv(s: State, st: Step)
    requires Inv(s) && Enabled(s, st)
    ensures Inv(Do(s, st))
  {
    if st.Spawn? || st.Return? || st.SlowPath? {
      OwnerKeepsInv(s, st);
    } else {
      OthersKeepInv(s, st);
    }
  }

  ghost predicate Follows(s: State, s': State) {
    exists st :: Enabled(s, st) && s' == Do(s, st)
  }

  /** Any interleaving of the owner and the thieves, from an empty deque. */
  ghost predicate Run(run: seq<State>) {
    && |run| > 0 && Init(run[0])
    && forall i :: 0 < i < |run| ==> Follows(run[i - 1], run[i])
  }

  lemma {:induction false} RunKeepsInv(run: seq<State>)
    requires Run(run)
    ensures Inv(run[|run| - 1])
    decreases |run|
  {
    if |run| == 1 {
      InitInv(run[0]);
    } else {
      var init := run[..|run| - 1];
      assert Run(init) by {
        forall i | 0 < i < |init| ensures Follows(init[i - 1], init[i]) {
          assert Follows(run[i - 1], run[i]);
        }
      }
      RunKeepsInv(init);
      var s := run[|run| - 2];
      assert Follows(s, run[|run| - 1]);
      var st :| Enabled(s, st) && run[|run| - 1] == Do(s, st);
      StepKeepsInv(s, st);
    }
  }

  // ---------------------------------------------------------------- what every run guarantees

  lemma {:induction false} TimesOnce(pushed: seq<Frame>, i: nat)
    requires i < |pushed| && forall k :: 0 <= k < |pushed| ==> pushed[k].id == k
    ensures Times(pushed, pushed[i]) == 1
  {
    var init := pushed[..|pushed| - 1];
    if i < |init| {
      TimesOnce(init, i);
    } else {
      assert pushed[i] !in init;
    }
  }

  /** The frame is in one of the slots that neither side has claimed. */
  ghost predicate StillThere(s: State, fr: Frame)
    requires Indices(s.d, s.owner, s.thief)
  {
    !Losing(s.owner) && exists k :: Lo(s.d, s.thief) <= k < Hi(s.d, s.owner) && s.d.ltq[k] == fr
  }

  /** In every interleaving each published frame is claimed once, by the owner's pop or by one thief,
      or is still on the deque: never two of these, never none. */
  lemma EveryFrameExactlyOnce(run: seq<State>, i: nat)
    requires Run(run)
    ensures var s := run[|run| - 1];
      Indices(s.d, s.owner, s.thief)
      && (i < |s.past.pushed| ==>
            && Taken(s.past.claims, s.past.pushed[i]) + Unclaimed(s.d, s.owner, s.thief, s.past.pushed[i]) == 1
            && (Taken(s.past.claims, s.past.pushed[i]) == 0 <==> StillThere(s, s.past.pushed[i])))
  {
    RunKeepsInv(run);
    var s := run[|run| - 1];
    if i < |s.past.pushed| {
      TimesOnce(s.past.pushed, i);
      AmongSome(s.d.ltq, Lo(s.d, s.thief), Hi(s.d, s.owner), s.past.pushed[i]);
    }
  }

  lemma {:induction false} TakenAt(cs: seq<Claim>, j: nat)
    requires j < |cs|
    ensures Taken(cs, cs[j].frame) >= 1
  {
    if j < |cs| - 1 {
      TakenAt(cs[..|cs| - 1], j);
    }
  }

  lemma {:induction false} TakenTwice(cs: seq<Claim>, j: nat, k: nat)
    requires j < k < |cs| && cs[j].frame == cs[k].frame
    ensures Taken(cs, cs[j].frame) >= 2
  {
    if k < |cs| - 1 {
      TakenTwice(cs[..|cs| - 1], j, k);
    } else {
      TakenAt(cs[..|cs| - 1], j);
    }
  }

  /** Two claims are never of the same frame, and only published frames are claimed. */
  lemma NoFrameClaimedTwice(run: seq<State>, j: nat, k: nat)
    requires Run(run) && j < k < |run[|run| - 1].past.claims|
    ensures var cs := run[|run| - 1].past.claims;
      cs[j].frame != cs[k].frame && cs[j].frame in run[|run| - 1].past.pushed
  {
    RunKeepsInv(run);
    var s := run[|run| - 1];
    var fr := s.past.claims[j].frame;
    TakenAt(s.past.claims, j);
    var i :| 0 <= i < |s.past.pushed| && s.past.pushed[i] == fr;
    TimesOnce(s.past.pushed, i);
    if s.past.claims[k].frame == fr {
      TakenTwice(s.past.claims, j, k);
    }
  }

  /** What the comment in deque.c states as H <= E and H <= T, as far as it is true.  A frame that was stolen and
      resumed returns on an empty deque, so T can be one below the start of the buffer. */
  lemma HeadExcTail(run: seq<State>)
    requires Run(run)
    ensures var s := run[|run| - 1];
      && -1 <= s.d.tail && (s.d.tail == -1 ==> Pending(s.owner) && s.d.head == 0)
      && 0 <= s.d.head <= s.d.exc
      && (s.lock.Free? ==> s.d.exc == s.d.head)
      && (s.d.exc <= s.d.head + 1 || s.owner.RestartExc?)
      && (s.d.head <= s.d.tail || s.owner.RestartHead? || (Pending(s.owner) && s.d.head == s.d.tail + 1))
  {
    RunKeepsInv(run);
  }

  /** H <= T itself is not always true: a thief takes the only frame and the owner then pops.  Nor is T always
      within the buffer (`TailCanPassStart`). */
  lemma HeadCanPassTail(s: State, t: nat) returns (run: seq<State>)
    requires Init(s) && 0 < |s.d.ltq|
    ensures Run(run) && run[0] == s
    ensures run[|run| - 1].d.tail < run[|run| - 1].d.head
  {
    run := [s];
    run := Extend(run, Spawn(PushPlain));
    run := Extend(run, Spawn(BumpFrame));
    run := Extend(run, Thieve(ThiefLock(t)));
    run := Extend(run, Thieve(CheckFirst));
    run := Extend(run, Thieve(IncrementExc));
    run := Extend(run, Thieve(CheckAgain));
    run := Extend(run, Steal(AdvanceHead));
    run := Extend(run, Return(Decrement));
  }

  lemma TailCanPassStart(s: State) returns (run: seq<State>)
    requires Init(s)
    ensures Run(run) && run[0] == s && run[|run| - 1].d.tail == -1
  {
    run := Extend([s], Return(Decrement));
  }

  lemma Extend(run: seq<State>, st: Step) returns (longer: seq<State>)
    requires Run(run) && Enabled(run[|run| - 1], st)
    ensures Run(longer) && longer == run + [Do(run[|run| - 1], st)]
  {
    longer := run + [Do(run[|run| - 1], st)];
    forall i | 0 < i < |longer| ensures Follows(longer[i - 1], longer[i]) {
      if i < |run| {
        assert Follows(run[i - 1], run[i]);
      }
    }
  }

  /** The buffer accesses a step is about to make, but for the store of a new future's fiber. */
  predicate InBounds(s: State) {
    match s.owner
    case Work => 0 <= s.d.tail
    case Enqueued(_, _) => 0 <= s.d.tail
    case PopCheck => s.d.tail < s.d.exc || 0 <= s.d.tail < |s.d.ltq|
    case SlowDecide => s.d.tail + 1 <= s.d.head || 0 <= s.d.tail < |s.d.ltq|
    case ThrowPop => s.d.tail <= s.d.head || 0 < s.d.tail <= |s.d.ltq|
    case EnqStore(_) => 0 <= s.f.tail
    case FiberPop(_) => 0 <= s.f.head < s.f.tail
    case FiberRead(_) => 0 <= s.f.tail < |s.f.buf|
    case _ => true
  }

  predicate ThiefInBounds(s: State) {
    match s.thief
    case Load(h) => 0 <= h < |s.d.ltq|
    case FiberHead(_) => 0 <= s.f.head < s.f.tail
    case FiberLoad(_, fh) => 0 <= fh < |s.f.buf|
    case _ => true
  }

  /** Neither end of the unsynchronised fiber deque is ever popped when it is empty, and no access of either
      buffer is out of range, with one exception, of which `FiberStoreInRange` says when it is one. */
  lemma NoAccessOutOfBounds(run: seq<State>)
    requires Run(run)
    ensures InBounds(run[|run| - 1]) && ThiefInBounds(run[|run| - 1])
  {
    hide Stacked, Tidy, Conserved, Aged, Gifted, Passed;
    RunKeepsInv(run);
    var s := run[|run| - 1];
    if s.thief.FiberHead? {
      FibersCons(s.d.ltq, s.d.head - 1, Hi(s.d, s.owner));
    }
  }

  /** The fiber of a new future is stored before anything has looked for room: the store is in range if and only if
      the fibers the deque started above, and those of the future parents pushed since, leave a cell. */
  lemma FiberStoreInRange(run: seq<State>)
    requires Run(run) && var o := run[|run| - 1].owner; o.Work? || o.EnqStore? || o.Overrun?
    ensures var s := run[|run| - 1];
      && 0 <= s.d.tail <= |s.d.ltq|
      && (s.f.tail < |s.f.buf| <==> s.past.offset + |Fibers(s.d.ltq, 0, s.d.tail)| < |s.f.buf|)
      && (s.owner.Overrun? ==> s.past.offset + |Fibers(s.d.ltq, 0, s.d.tail)| == |s.f.buf|)
      && (!s.past.threw ==> s.past.offset == 0)
  {
    hide Stacked, Tidy, Conserved, Aged, Gifted;
    RunKeepsInv(run);
    var s := run[|run| - 1];
    var lo := FLo(s.d, s.thief);
    assert s.f.buf[s.f.head..s.f.tail] == Fibers(s.d.ltq, lo, s.d.tail);
    FibersSplit(s.d.ltq, lo, s.d.tail);
  }

  /** As long as no exception is returned to a stolen parent: if and only if the frame deque is not full or an
      ordinary frame was pushed since the last restart. */
  lemma RoomUnlessThrown(run: seq<State>)
    requires Run(run) && var o := run[|run| - 1].owner; o.Work? || o.EnqStore? || o.Overrun?
    requires !ThrownSince(run)
    ensures var s := run[|run| - 1];
      && 0 <= s.d.tail <= |s.d.ltq|
      && (s.f.tail < |s.f.buf| <==> s.d.tail < |s.d.ltq| || exists i :: 0 <= i < s.d.tail && s.d.ltq[i].Plain?)
  {
    hide Stacked, Tidy, Conserved, Aged, Gifted;
    FiberStoreInRange(run);
    RunKeepsInv(run);
    ThrewIsThrownSince(run);
    FibersFull(run[|run| - 1].d.ltq, run[|run| - 1].d.tail);
  }

  /** An exception was returned to a stolen parent, and the fiber deque was not cleared after that. */
  ghost predicate ThrownSince(run: seq<State>) {
    var n := |run|;
    n >= 2 &&
      ((run[n - 2].owner.ThrowPop? && run[n - 1].owner.ThrowLost?)
       || (ThrownSince(run[..n - 1]) && !(run[n - 2].owner.LostTail? && run[n - 1].owner.Lost?)))
  }

  lemma {:induction false} ThrewIsThrownSince(run: seq<State>)
    requires Run(run)
    ensures run[|run| - 1].past.threw <==> ThrownSince(run)
    decreases |run|
  {
    if |run| > 1 {
      RunsOn(run);
      var s := run[|run| - 2];
      var st :| Enabled(s, st) && run[|run| - 1] == Do(s, st);
      ThrewIsThrownSince(run[..|run| - 1]);
      StepThrows(s, st);
    }
  }

  lemma StepThrows(s: State, st: Step)
    requires Enabled(s, st)
    ensures var s' := Do(s, st);
      s'.past.threw <==> (s.owner.ThrowPop? && s'.owner.ThrowLost?) || (s.past.threw && !(s.owner.LostTail? && s'.owner.Lost?))
  {
  }

  lemma {:induction false} FibersSplit(fs: seq<Frame>, lo: int, hi: int)
    requires 0 <= lo <= hi <= |fs|
    ensures Fibers(fs, 0, hi) == Fibers(fs, 0, lo) + Fibers(fs, lo, hi)
    decreases hi - lo
  {
    if lo < hi {
      FibersSplit(fs, lo, hi - 1);
      FibersLast(fs, 0, hi);
    }
  }

  lemma {:induction false} FibersFull(fs: seq<Frame>, n: int)
    requires 0 <= n <= |fs|
    ensures |Fibers(fs, 0, n)| <= n
    ensures |Fibers(fs, 0, n)| < n <==> exists i :: 0 <= i < n && fs[i].Plain?
    decreases n
  {
    if 0 < n {
      FibersFull(fs, n - 1);
      FibersLast(fs, 0, n);
    }
  }

  /** n futures are published, and the owner runs the last one. */
  ghost predicate Published(s: State, n: nat) {
    && Quiet(s) && s.d.tail == s.f.tail == n && |s.d.ltq| == |s.f.buf| && s.own.cache == []
  }

  lemma {:induction false} Publish(s: State, n: nat) returns (run: seq<State>)
    requires Init(s) && n <= |s.d.ltq|
    ensures Run(run) && run[0] == s
    ensures Published(run[|run| - 1], n) && |run[|run| - 1].d.ltq| == |s.d.ltq|
  {
    if n == 0 {
      run := [s];
    } else {
      run := Publish(s, n - 1);
      run := PublishOne(run);
    }
  }

  lemma StartOne(run: seq<State>) returns (longer: seq<State>)
    requires Run(run) && run[|run| - 1].owner.Work? && run[|run| - 1].own.cache == []
    ensures Run(longer) && longer[0] == run[0]
    ensures var s, s' := run[|run| - 1], longer[|longer| - 1]; s'.owner.EnqStore? && s' == s.(owner := s'.owner)
  {
    var f := Unused(InUse(run[|run| - 1]));
    longer := Extend(run, Spawn(StartFuture(f)));
  }

  /** Whatever the size of the buffers, nesting one future more than they hold runs past the end. */
  lemma FiberStoreCanOverrun(s: State) returns (run: seq<State>)
    requires Init(s)
    ensures Run(run) && run[0] == s && run[|run| - 1].owner.Overrun?
  {
    run := Publish(s, |s.d.ltq|);
    run := StartOne(run);
    run := Extend(run, Spawn(StoreFiber));
  }

  /** Nobody is in the middle of anything. */
  predicate Quiet(s: State) {
    s.owner.Work? && s.thief.Idle? && s.lock.Free?
  }

  /** s' is s with the oldest frame stolen. */
  predicate Stole(s: State, s': State) {
    && Quiet(s') && s'.d == s.d.(head := s.d.head + 1, exc := s.d.exc + 1) && s'.own == s.own
    && s'.f.tail == s.f.tail && |s'.f.buf| == |s.f.buf|
  }

  lemma StealOne(run: seq<State>, t: nat) returns (longer: seq<State>)
    requires Run(run) && Quiet(run[|run| - 1]) && run[|run| - 1].d.head < run[|run| - 1].d.tail
    ensures Run(longer) && longer[0] == run[0] && Stole(run[|run| - 1], longer[|longer| - 1])
  {
    hide Inv, CanThieve, CanSteal;
    longer := TakeOne(run, t);
    longer := HandOver(longer);
  }

  /** Up to the load of the frame. */
  lemma TakeOne(run: seq<State>, t: nat) returns (longer: seq<State>)
    requires Run(run) && Quiet(run[|run| - 1]) && run[|run| - 1].d.head < run[|run| - 1].d.tail
    ensures Run(longer) && longer[0] == run[0]
    ensures var s, s' := run[|run| - 1], longer[|longer| - 1];
      && s'.owner == s.owner && s'.d == s.d.(head := s.d.head + 1, exc := s.d.exc + 1) && s'.f == s.f && s'.own == s.own
      && (s'.thief.FiberHead? || s'.thief.Leave?) && s'.lock.ByThief?
  {
    hide Stacked, Tidy, Conserved, Aged, Gifted, Passed, Match;
    RunKeepsInv(run);
    longer := Extend(run, Thieve(ThiefLock(t)));
    longer := Extend(longer, Thieve(CheckFirst));
    longer := Extend(longer, Thieve(IncrementExc));
    longer := Extend(longer, Thieve(CheckAgain));
    longer := Extend(longer, Steal(AdvanceHead));
    longer := Extend(longer, Steal(LoadFrame));
  }

  /** The fiber, if the frame is a future parent, and the end of the critical section. */
  lemma HandOver(run: seq<State>) returns (longer: seq<State>)
    requires Run(run) && var s := run[|run| - 1]; s.owner.Work? && (s.thief.FiberHead? || s.thief.Leave?) && s.lock.ByThief?
    ensures Run(longer) && longer[0] == run[0]
    ensures var s, s' := run[|run| - 1], longer[|longer| - 1];
      Quiet(s') && s'.d == s.d && s'.own == s.own && s'.f.tail == s.f.tail && |s'.f.buf| == |s.f.buf|
  {
    hide Stacked, Tidy, Conserved, Aged, Gifted, Passed;
    RunKeepsInv(run);
    longer := run;
    if run[|run| - 1].thief.FiberHead? {
      longer := Extend(longer, Steal(AdvanceFiberHead));
      longer := Extend(longer, Steal(LoadFiber));
    }
    longer := Extend(longer, Thieve(ThiefUnlock));
  }

  lemma {:induction false} StealAll(run: seq<State>, t: nat) returns (longer: seq<State>)
    requires Run(run) && Quiet(run[|run| - 1])
    ensures Run(longer) && longer[0] == run[0]
    ensures var s, s' := run[|run| - 1], longer[|longer| - 1];
      && Quiet(s') && s'.own == s.own && s'.d.head == s'.d.tail == s.d.tail && s'.d.ltq == s.d.ltq
      && s'.f.head == s'.f.tail == s.f.tail && |s'.f.buf| == |s.f.buf|
    decreases run[|run| - 1].d.tail - run[|run| - 1].d.head
  {
    var s := run[|run| - 1];
    QuietFacts(run);
    if s.d.head < s.d.tail {
      longer := StealOne(run, t);
      QuietFacts(longer);
      longer := StealAll(longer, t);
    } else {
      longer := run;
    }
  }

  lemma QuietFacts(run: seq<State>)
    requires Run(run) && Quiet(run[|run| - 1])
    ensures var s := run[|run| - 1]; s.d.head <= s.d.tail && (s.d.head == s.d.tail ==> s.f.head == s.f.tail)
  {
    hide Stacked, Tidy, Conserved, Aged, Gifted, Passed, Match;
    RunKeepsInv(run);
    var s := run[|run| - 1];
    if s.d.head == s.d.tail {
      MatchEmpty(s.f, s.d.ltq, FLo(s.d, s.thief), s.d.tail);
    }
  }

  /** The owner returns with an exception to a stolen parent and sets up its next frame: the frame deque is rewound, the
      fiber deque is not. */
  lemma ThrowAndRestart(run: seq<State>) returns (longer: seq<State>)
    requires Run(run) && Quiet(run[|run| - 1]) && CanSlow(run[|run| - 1], Throw) && run[|run| - 1].d.head == run[|run| - 1].d.tail
    ensures Run(longer) && longer[0] == run[0]
    ensures var s, s' := run[|run| - 1], longer[|longer| - 1];
      Quiet(s') && s'.d == s.d.(head := 0, tail := 0, exc := 0) && s'.f == s.f && s'.own.cache == s.own.cache
  {
    longer := Extend(run, SlowPath(Throw));
    longer := Extend(longer, SlowPath(LockToPop));
    longer := Extend(longer, SlowPath(PopTail));
    longer := Extend(longer, SlowPath(DropLock));
    longer := Extend(longer, Next(LockAgain));
    longer := Extend(longer, Next(ResetTail));
    longer := Extend(longer, Next(ResetHead));
    longer := Extend(longer, Next(ResetExcAgain));
    var f := Unused(longer[|longer| - 1].own.cache);
    longer := Extend(longer, Next(UnlockAgain(f)));
  }

  lemma PublishOne(run: seq<State>) returns (longer: seq<State>)
    requires Run(run) && Quiet(run[|run| - 1]) && run[|run| - 1].own.cache == []
    requires var s := run[|run| - 1]; s.f.tail < |s.f.buf| && s.d.tail < |s.d.ltq|
    ensures Run(longer) && longer[0] == run[0]
    ensures var s, s' := run[|run| - 1], longer[|longer| - 1];
      && Quiet(s') && s'.d.tail == s.d.tail + 1 && |s'.d.ltq| == |s.d.ltq| && s'.own.cache == []
      && s'.f.tail == s.f.tail + 1 && |s'.f.buf| == |s.f.buf|
  {
    longer := StartOne(run);
    longer := Extend(longer, Spawn(StoreFiber));
    longer := Extend(longer, Spawn(BumpFiber));
    longer := Extend(longer, Spawn(PushFuture));
    longer := Extend(longer, Spawn(BumpFrame));
  }

  /** After an exception to a stolen parent it takes less: for buffers of any size but one, a run that stores a fiber past
      the end with no more than one frame on the frame deque. */
  lemma FiberStoreCanOverrunEarly(s: State, t: nat) returns (run: seq<State>)
    requires Init(s) && 2 <= |s.d.ltq|
    ensures Run(run) && run[0] == s
    ensures var s' := run[|run| - 1]; s'.owner.Overrun? && s'.d.tail == 1 < |s'.d.ltq|
  {
    var n := |s.d.ltq|;
    run := Publish(s, n - 1);
    run := Extend(run, Spawn(PushPlain));
    run := Extend(run, Spawn(BumpFrame));
    assert run[|run| - 1].d.ltq[n - 1].Plain?;
    run := StealAll(run, t);
    run := ThrowAndRestart(run);
    run := PublishOne(run);
    run := StartOne(run);
    run := Extend(run, Spawn(StoreFiber));
  }

  /** The fiber deque holds the fibers of the future parents nobody took yet, oldest first, and at
      most one more. */
  lemma FiberDequeInLockStep(run: seq<State>)
    requires Run(run)
    ensures var s := run[|run| - 1];
      && Indices(s.d, s.owner, s.thief)
      && (!Losing(s.owner) ==> Matched(s.d, s.f, s.owner, s.thief) && |InTransit(s.owner)| <= 1)
      && (s.owner.SlowLost? || s.owner.ThrowLost? ==> s.d.head == s.d.tail && s.f.head == s.f.tail)
  {
    RunKeepsInv(run);
  }

  /** The fiber the owner pops from the tail is the one its future ran on, and it is back on the fiber
      the future was spawned from. */
  lemma PopReturnsTheRunningFiber(run: seq<State>)
    requires Run(run) && |run| >= 2 && run[|run| - 1].owner.FiberRead?
    ensures var s := run[|run| - 1];
      && 0 <= s.f.tail < |s.f.buf| && s.f.buf[s.f.tail] == s.owner.running
      && 0 <= s.d.tail <= |s.d.ltq| && s.own.cur == Running(s.own.base, s.d.ltq, s.d.tail)
  {
    RunKeepsInv(run);
  }

  /** Thieves hand out exactly the fibers of the future parents they stole, each once. */
  lemma EachStolenFutureGetsItsFiber(run: seq<State>, i: nat)
    requires Run(run)
    ensures var s := run[|run| - 1];
      && StolenFutures(s.past.claims) == Recipients(s.past.gifts) + Owed(s.thief)
      && (i < |s.past.gifts| ==> s.past.gifts[i].frame.FutureParent?
                                 && s.past.gifts[i].fiber == s.past.gifts[i].frame.fiber)
  {
    RunKeepsInv(run);
  }

  /** A fiber is never under the owner's stack, in its hand or in the cache twice over. */
  lemma NoFiberUsedTwice(run: seq<State>, f: Fiber)
    requires Run(run)
    ensures var s := run[|run| - 1]; Hi(s.d, s.owner) <= |s.d.ltq| && Uses(s, f) <= 1
  {
    RunKeepsInv(run);
  }

  // ---------------------------------------------------------------- where every future's fiber is

  lemma RunsOn(run: seq<State>)
    requires Run(run) && |run| > 1
    ensures Run(run[..|run| - 1]) && Follows(run[|run| - 2], run[|run| - 1])
  {
    var init := run[..|run| - 1];
    forall i | 0 < i < |init| ensures Follows(init[i - 1], init[i]) {
      assert Follows(run[i - 1], run[i]);
    }
  }

  /** The cache holds at most 128 fibers, and a future's fiber that was just left is in it unless it is full. */
  predicate CacheKept(s: State) {
    && |s.own.cache| <= 128
    && (s.owner.FiberPop? || s.owner.FiberRead? ==> s.owner.running in s.own.cache || |s.own.cache| == 128)
  }

  lemma StepKeepsCache(s: State, st: Step)
    requires CacheKept(s) && Enabled(s, st)
    ensures CacheKept(Do(s, st))
  {
  }

  lemma {:induction false} ReturnedFiberIsCached(run: seq<State>)
    requires Run(run)
    ensures CacheKept(run[|run| - 1])
    decreases |run|
  {
    if |run| > 1 {
      RunsOn(run);
      ReturnedFiberIsCached(run[..|run| - 1]);
      var s := run[|run| - 2];
      var st :| Enabled(s, st) && run[|run| - 1] == Do(s, st);
      StepKeepsCache(s, st);
    }
  }

  lemma {:induction false} TimesJoin<T>(xs: seq<T>, ys: seq<T>, x: T)
    ensures Times(xs + ys, x) == Times(xs, x) + Times(ys, x)
  {
    if ys == [] {
      assert xs + ys == xs;
    } else {
      var init := ys[..|ys| - 1];
      TimesJoin(xs, init, x);
      assert (xs + ys)[..|xs + ys| - 1] == xs + init;
    }
  }

  lemma TimesOfFrame(fr: Frame, f: Fiber)
    ensures Times(FiberOf(fr), f) == One(On(fr, f))
  {
    if fr.FutureParent? {
      assert [fr.fiber][..0] == [];
    }
  }

  /** The fibers of the future parents nobody has claimed. */
  function OnDeque(s: State): seq<Fiber>
    requires Indices(s.d, s.owner, s.thief)
  {
    if Losing(s.owner) then [] else Fibers(s.d.ltq, Lo(s.d, s.thief), Hi(s.d, s.owner))
  }

  /** The fibers of the futures whose parents were stolen. */
  function Away(cs: seq<Claim>): seq<Fiber> {
    var fs := StolenFutures(cs);
    Fibers(fs, 0, |fs|)
  }

  /** In how many places f is: cached, in the owner's hand, under a frame on the deque, or with the thief of one. */
  function Places(s: State, f: Fiber): nat
    requires Indices(s.d, s.owner, s.thief)
  {
    Times(s.own.cache, f) + InHand(s.owner, f) + Times(OnDeque(s), f) + Times(Away(s.past.claims), f)
  }

  /** A future starts and no fiber is cached for it. */
  predicate Allocates(s: State, s': State, f: Fiber) {
    s.owner.Work? && s'.owner == EnqStore(f) && s.own.cache == []
  }

  /** A future returns and the cache is full. */
  predicate Frees(s: State, s': State, f: Fiber) {
    s.owner.Won? && s'.owner == FiberPop(f) && |s.own.cache| == 128
  }

  lemma SameDeque(s: State, s': State, f: Fiber)
    requires Indices(s.d, s.owner, s.thief) && Indices(s'.d, s'.owner, s'.thief) && |s.d.ltq| == |s'.d.ltq|
    requires !Losing(s.owner) && !Losing(s'.owner) && Lo(s.d, s.thief) == Lo(s'.d, s'.thief)
    requires forall i :: Lo(s.d, s.thief) <= i < Hi(s.d, s.owner) ==> s.d.ltq[i] == s'.d.ltq[i]
    ensures Hi(s'.d, s'.owner) == Hi(s.d, s.owner) ==> OnDeque(s') == OnDeque(s)
    ensures Hi(s'.d, s'.owner) == Hi(s.d, s.owner) + 1 ==>
      0 <= Hi(s.d, s.owner) < |s'.d.ltq| && Times(OnDeque(s'), f) == Times(OnDeque(s), f) + One(On(s'.d.ltq[Hi(s.d, s.owner)], f))
  {
    hide Indices, Fibers, Times;
    var lo, hi := Lo(s.d, s.thief), Hi(s.d, s.owner);
    InRange(s);
    InRange(s');
    FibersFrame(s.d.ltq, s'.d.ltq, lo, hi);
    if Hi(s'.d, s'.owner) == hi + 1 {
      FibersLast(s'.d.ltq, lo, hi + 1);
      TimesOfFrame(s'.d.ltq[hi], f);
      TimesJoin(Fibers(s'.d.ltq, lo, hi), FiberOf(s'.d.ltq[hi]), f);
    }
  }

  lemma InRange(s: State)
    requires Indices(s.d, s.owner, s.thief)
    ensures 0 <= Lo(s.d, s.thief) && Hi(s.d, s.owner) <= |s.d.ltq| && (!Losing(s.owner) ==> Lo(s.d, s.thief) <= Hi(s.d, s.owner))
    ensures s.owner.PushBump? ==> 0 <= s.d.tail < |s.d.ltq| && s.d.ltq[s.d.tail] == s.owner.fr
  {
  }

  /** Nothing happened to the cache, and no thief took anything; from the deque to the owner's hand or back does not count. */
  lemma SamePlaces(s: State, s': State, f: Fiber)
    requires Indices(s.d, s.owner, s.thief) && Indices(s'.d, s'.owner, s'.thief)
    requires s'.own.cache == s.own.cache && s'.past.claims == s.past.claims
    requires InHand(s'.owner, f) + Times(OnDeque(s'), f) == InHand(s.owner, f) + Times(OnDeque(s), f)
    ensures Places(s', f) == Places(s, f)
  {
  }

  lemma StartPlaces(s: State, g: Fiber, f: Fiber)
    requires Ordered(s) && CanSpawn(s, StartFuture(g)) && Ordered(DoSpawn(s, StartFuture(g)))
    ensures var s' := DoSpawn(s, StartFuture(g)); Places(s', f) == Places(s, f) + One(Allocates(s, s', f))
  {
    hide Indices, Locks, OnDeque, Away;
    var s' := DoSpawn(s, StartFuture(g));
    SameDeque(s, s', f);
    if s.own.cache != [] {
      assert Times(s.own.cache, f) == Times(s'.own.cache, f) + One(f == g);
    }
  }

  lemma SpawnPlaces(s: State, st: Spawning, f: Fiber)
    requires Ordered(s) && CanSpawn(s, st) && !st.StartFuture? && Ordered(DoSpawn(s, st))
    ensures Places(DoSpawn(s, st), f) == Places(s, f)
  {
    hide Indices, Locks, OnDeque, Away, Times, Places;
    var s' := DoSpawn(s, st);
    InRange(s);
    SameDeque(s, s', f);
    SamePlaces(s, s', f);
  }

  /** A frame off the tail, in the owner's hand. */
  lemma PopPlaces(s: State, s': State, fr: Frame, f: Fiber)
    requires Indices(s.d, s.owner, s.thief) && Indices(s'.d, s'.owner, s'.thief) && s'.d.ltq == s.d.ltq && s'.own == s.own
    requires !Losing(s.owner) && !Losing(s'.owner) && Lo(s.d, s.thief) == Lo(s'.d, s'.thief) && InHand(s.owner, f) == 0
    requires Hi(s.d, s.owner) == Hi(s'.d, s'.owner) + 1
    requires 0 <= Hi(s'.d, s'.owner) < |s.d.ltq| && fr == s.d.ltq[Hi(s'.d, s'.owner)]
    requires (s'.owner == Won(fr) || s'.owner == SlowWon(fr)) && s'.past.claims == s.past.claims + [Claim(fr, Popped)]
    ensures Places(s', f) == Places(s, f)
  {
    hide Indices, Fibers, Times, OnDeque, Away;
    SameDeque(s', s, f);
    AwaySnoc(s.past.claims, fr, Popped);
    assert Away(s.past.claims) + [] == Away(s.past.claims);
  }

  lemma ReturnPlaces(s: State, st: Returning, f: Fiber)
    requires Ordered(s) && Stacked(s) && CacheKept(s) && CanReturn(s, st) && Ordered(DoReturn(s, st))
    ensures var s' := DoReturn(s, st); Places(s', f) + One(Frees(s, s', f)) == Places(s, f)
  {
    hide Stacked, Indices, Locks, OnDeque, Away, Times, Places;
    match st
    case ReadExc => ReadPlaces(s, f);
    case ReturnFuture => FuturePlaces(s, f);
    case _ =>
      SameDeque(s, DoReturn(s, st), f);
      SamePlaces(s, DoReturn(s, st), f);
  }

  lemma ReadPlaces(s: State, f: Fiber)
    requires Ordered(s) && CanReturn(s, ReadExc) && Ordered(DoReturn(s, ReadExc))
    ensures Places(DoReturn(s, ReadExc), f) == Places(s, f)
  {
    hide Indices, Locks, OnDeque, Away, Times, Places;
    var s' := DoReturn(s, ReadExc);
    InRange(s);
    InRange(s');
    if s'.owner.Won? {
      PopPlaces(s, s', s'.owner.fr, f);
    } else {
      SameDeque(s, s', f);
      SamePlaces(s, s', f);
    }
  }

  /** Switching back from a future moves its fiber from in hand to the cache, or gives it up. */
  lemma FuturePlaces(s: State, f: Fiber)
    requires Ordered(s) && Stacked(s) && CacheKept(s) && CanReturn(s, ReturnFuture) && Ordered(DoReturn(s, ReturnFuture))
    ensures var s' := DoReturn(s, ReturnFuture); Places(s', f) + One(Frees(s, s', f)) == Places(s, f)
  {
    var s' := DoReturn(s, ReturnFuture);
    assert s.own.cur == s.owner.fr.fiber by { OnItsFiber(s); }
    hide Stacked, Indices, Locks, OnDeque, Away, Times, Places;
    SameDeque(s, s', f);
    TimesSnoc(s.own.cache, s.own.cur, f);
    CachePlaces(s, s', f);
  }

  lemma CachePlaces(s: State, s': State, f: Fiber)
    requires Indices(s.d, s.owner, s.thief) && Indices(s'.d, s'.owner, s'.thief)
    requires s'.past.claims == s.past.claims && OnDeque(s') == OnDeque(s)
    ensures Places(s', f) - Places(s, f) == Times(s'.own.cache, f) + InHand(s'.owner, f) - Times(s.own.cache, f) - InHand(s.owner, f)
  {
  }

  lemma OnItsFiber(s: State)
    requires Stacked(s) && CanReturn(s, ReturnFuture)
    ensures s.own.cur == s.owner.fr.fiber
  {
  }

  lemma SlowPlaces(s: State, st: Slow, f: Fiber)
    requires Ordered(s) && CanSlow(s, st) && Ordered(DoSlow(s, st))
    ensures Places(DoSlow(s, st), f) == Places(s, f)
  {
    hide Indices, Locks, OnDeque, Away, Times, Places;
    var s' := DoSlow(s, st);
    if (st.Decide? || st.PopTail?) && s'.owner.SlowWon? {
      InRange(s);
      InRange(s');
      PopPlaces(s, s', s'.owner.fr, f);
    } else {
      NoneOnDeque(s, s', st);
      if !Losing(s'.owner) {
        SameDeque(s, s', f);
      }
      SamePlaces(s, s', f);
    }
  }

  lemma NoneOnDeque(s: State, s': State, st: Slow)
    requires Ordered(s) && CanSlow(s, st) && Ordered(s') && s' == DoSlow(s, st)
    ensures Losing(s.owner) ==> Losing(s'.owner)
    ensures Losing(s'.owner) ==> OnDeque(s) == OnDeque(s') == []
  {
  }

  lemma RestartPlaces(s: State, st: Restart, f: Fiber)
    requires Ordered(s) && CanRestart(s, st) && Ordered(DoRestart(s, st))
    ensures Places(DoRestart(s, st), f) == Places(s, f)
  {
    hide Away, Times, Places;
    SamePlaces(s, DoRestart(s, st), f);
  }

  lemma ThievePlaces(s: State, st: Probing, f: Fiber)
    requires Ordered(s) && CanThieve(s, st) && Ordered(DoThieve(s, st))
    ensures Places(DoThieve(s, st), f) == Places(s, f)
  {
    hide Indices, Away, Times, Places;
    var s' := DoThieve(s, st);
    if !Losing(s.owner) {
      SameDeque(s, s', f);
    }
    SamePlaces(s, s', f);
  }

  lemma AwaySnoc(cs: seq<Claim>, fr: Frame, taker: Claimer)
    ensures Away(cs + [Claim(fr, taker)]) == Away(cs) + if taker.Stolen? then FiberOf(fr) else []
  {
    hide Fibers, StolenFutures;
    var fs := StolenFutures(cs);
    ClaimSnoc(cs, Claim(fr, taker));
    if taker.Stolen? && fr.FutureParent? {
      assert (fs + [fr])[|fs|] == fr;
      FibersLast(fs + [fr], 0, |fs| + 1);
      FibersFrame(fs, fs + [fr], 0, |fs|);
    } else {
      assert StolenFutures(cs + [Claim(fr, taker)]) == fs;
      assert Away(cs) + [] == Away(cs);
    }
  }

  lemma StealPlaces(s: State, st: Stealing, f: Fiber)
    requires Ordered(s) && CanSteal(s, st) && Ordered(DoSteal(s, st))
    ensures Places(DoSteal(s, st), f) == Places(s, f)
  {
    hide Times, Places, Away;
    var s' := DoSteal(s, st);
    if st.LoadFrame? {
      LoadPlaces(s, f);
    } else {
      SameDeque(s, s', f);
      SamePlaces(s, s', f);
    }
  }

  /** The oldest frame goes from the deque to the thief. */
  lemma LoadPlaces(s: State, f: Fiber)
    requires Ordered(s) && CanSteal(s, LoadFrame) && Ordered(DoSteal(s, LoadFrame))
    ensures Places(DoSteal(s, LoadFrame), f) == Places(s, f)
  {
    hide Times, StolenFutures;
    var s' := DoSteal(s, LoadFrame);
    var fr := s.d.ltq[s.thief.h];
    FibersCons(s.d.ltq, s.thief.h, Hi(s.d, s.owner));
    assert OnDeque(s) == FiberOf(fr) + OnDeque(s');
    AwaySnoc(s.past.claims, fr, Stolen(s.lock.thief));
    hide Away, OnDeque, Indices, Locks;
    TimesJoin(FiberOf(fr), OnDeque(s'), f);
    TimesJoin(Away(s.past.claims), FiberOf(fr), f);
  }

  lemma StepPlaces(s: State, st: Step, f: Fiber)
    requires Inv(s) && CacheKept(s) && Enabled(s, st) && Inv(Do(s, st))
    ensures var s' := Do(s, st); Places(s', f) + One(Frees(s, s', f)) == Places(s, f) + One(Allocates(s, s', f))
  {
    hide Stacked, Tidy, Conserved, Aged, Gifted, Passed, LockStep, Indices, Locks, Places, Times;
    match st
    case Spawn(x) =>
      if x.StartFuture? {
        StartPlaces(s, x.fiber, f);
      } else {
        SpawnPlaces(s, x, f);
      }
    case Return(x) => ReturnPlaces(s, x, f);
    case SlowPath(x) => SlowPlaces(s, x, f);
    case Next(x) => RestartPlaces(s, x, f);
    case Thieve(x) => ThievePlaces(s, x, f);
    case Steal(x) => StealPlaces(s, x, f);
  }

  /** How often f was allocated for a future, and how often freed after one. */
  ghost function Allocations(run: seq<State>, f: Fiber): nat {
    var n := |run|;
    if n < 2 then 0 else Allocations(run[..n - 1], f) + One(Allocates(run[n - 2], run[n - 1], f))
  }

  ghost function Freed(run: seq<State>, f: Fiber): nat {
    var n := |run|;
    if n < 2 then 0 else Freed(run[..n - 1], f) + One(Frees(run[n - 2], run[n - 1], f))
  }

  /** No future's fiber is lost or made up: it was allocated as often as it was freed on a full cache, plus once if it is in
      the cache, in the owner's hand or under a frame on the deque, plus as often as it went to a thief. */
  lemma {:induction false} EveryFiberAccountedFor(run: seq<State>, f: Fiber)
    requires Run(run)
    ensures Ordered(run[|run| - 1])
    ensures Allocations(run, f) == Freed(run, f) + Places(run[|run| - 1], f)
    decreases |run|
  {
    RunKeepsInv(run);
    if |run| > 1 {
      var init := run[..|run| - 1];
      var s := run[|run| - 2];
      assert Run(init) && Follows(s, run[|run| - 1]) by { RunsOn(run); }
      RunKeepsInv(init);
      EveryFiberAccountedFor(init, f);
      var st :| Enabled(s, st) && run[|run| - 1] == Do(s, st);
      ReturnedFiberIsCached(init);
      hide Inv, Places, Allocates, Frees, CacheKept;
      StepPlaces(s, st, f);
    } else {
      NowhereYet(run[0], f);
    }
  }

  lemma NowhereYet(s: State, f: Fiber)
    requires Init(s)
    ensures Indices(s.d, s.owner, s.thief) && Places(s, f) == 0
  {
  }

  /** A thief takes the oldest unclaimed frame; the owner, if its pop succeeds, the youngest. */
  lemma OldestStolenYoungestPopped(run: seq<State>, i: int)
    requires Run(run)
    ensures var s := run[|run| - 1];
      Indices(s.d, s.owner, s.thief)
      && (!Losing(s.owner) && Lo(s.d, s.thief) <= i < Hi(s.d, s.owner) ==>
           && (s.thief.Load? ==> s.d.ltq[s.thief.h].id <= s.d.ltq[i].id)
           && (Pending(s.owner) && s.d.tail >= s.d.head ==> s.d.ltq[i].id <= s.d.ltq[s.d.tail].id))
  {
    hide Stacked, Tidy, Conserved, Gifted, LockStep;
    RunKeepsInv(run);
  }

  /** The owner has run past the fiber buffer, or fails __cilkrts_detach's assertion. */
  predicate Stopped(s: State) {
    s.owner.Overrun? || (s.owner.Enqueued? && s.d.tail >= |s.d.ltq|)
  }

  ghost predicate OwnerCanMove(s: State) {
    exists st :: Enabled(s, st) && (st.Spawn? || st.Return? || st.SlowPath? || st.Next?)
  }

  ghost predicate ThiefCanMove(s: State) {
    exists st :: Enabled(s, st) && (st.Thieve? || st.Steal?)
  }

  /** About to take the worker lock. */
  predicate Waiting(o: Owner) {
    o.SlowWait? || o.ThrowWait? || o.Lost?
  }

  /** Owner and thieves wait for the lock and for nothing else, whatever the other side is doing. */
  lemma OnlyTheLockBlocks(run: seq<State>)
    requires Run(run)
    ensures var s := run[|run| - 1];
      && (OwnerCanMove(s) <==> !Stopped(s) && (Waiting(s.owner) ==> s.lock.Free?))
      && (ThiefCanMove(s) <==> (s.thief.Idle? ==> s.lock.Free?))
  {
    hide Stacked, Tidy, Conserved, Aged, Gifted, LockStep, Passed;
    RunKeepsInv(run);
    var s := run[|run| - 1];
    if s.thief.Idle? ==> s.lock.Free? {
      assert Enabled(s, ThiefMove(s));
    }
    if !Stopped(s) && (Waiting(s.owner) ==> s.lock.Free?) {
      OwnerMoves(s);
    }
  }

  lemma OwnerMoves(s: State)
    requires !Stopped(s) && (Waiting(s.owner) ==> s.lock.Free?)
    ensures OwnerCanMove(s)
  {
    var f := Unused(s.own.cache);
    assert Enabled(s, OwnerMove(s, f));
  }

  /** In user code the owner may spawn, create a future, return or throw, whatever a thief is doing; only a spawn needs room, and
      no exception leaves a future's own function. */
  lemma UserCodeIsFree(run: seq<State>)
    requires Run(run) && run[|run| - 1].owner.Work?
    ensures var s := run[|run| - 1];
      && 0 <= s.d.tail <= |s.d.ltq| && (CanSpawn(s, PushPlain) <==> s.d.tail < |s.d.ltq|) && CanReturn(s, Decrement)
      && (CanSlow(s, Throw) <==> s.d.tail == 0 || s.d.ltq[s.d.tail - 1].Plain?) && (s.d.head == s.d.tail == 0 ==> CanSlow(s, Stall))
      && exists f :: CanSpawn(s, StartFuture(f)) && (s.own.cache == [] || f == s.own.cache[|s.own.cache| - 1])
  {
    hide Stacked, Tidy, Conserved, Aged, Gifted, LockStep, Passed;
    RunKeepsInv(run);
    var s := run[|run| - 1];
    var f := Unused(InUse(s));
    if s.own.cache != [] {
      f := s.own.cache[|s.own.cache| - 1];
    }
    assert CanSpawn(s, StartFuture(f));
  }

  /** The owner's pop goes for the lock if and only if its frame was stolen, or it is the last one and a thief has
      announced itself. */
  lemma LockOnlyWhenContested(run: seq<State>)
    requires Run(run) && |run| > 1 && run[|run| - 2].owner.PopCheck? && !run[|run| - 1].owner.PopCheck?
    ensures var s := run[|run| - 2];
      run[|run| - 1].owner.SlowWait? <==> s.d.tail < s.d.head || (s.d.tail == s.d.head && Announced(s.thief))
  {
    RunsOn(run);
    var s, s' := run[|run| - 2], run[|run| - 1];
    var st :| Enabled(s, st) && s' == Do(s, st);
    hide Stacked, Tidy, Conserved, Aged, Gifted, LockStep, Passed, Locks, Indices;
    RunKeepsInv(run[..|run| - 1]);
    PopEnds(s, st);
    hide Enabled, Do;
  }

  lemma PopEnds(s: State, st: Step)
    requires s.owner.PopCheck? && Enabled(s, st) && Ordered(s) && !Do(s, st).owner.PopCheck?
    ensures Do(s, st).owner.SlowWait? <==> s.d.tail < s.d.head || (s.d.tail == s.d.head && Announced(s.thief))
  {
  }

  /** A thief that looks at the deque goes on if and only if there is a frame it can take, the first time and the second. */
  lemma ThiefTakesWhatIsThere(run: seq<State>)
    requires Run(run) && |run| > 1
    ensures var s, s' := run[|run| - 2], run[|run| - 1];
      && (s.thief.Probe? && !s'.thief.Probe? ==> (s'.thief.Announce? <==> s.d.head < s.d.tail) && (s'.thief.Leave? <==> s.d.tail <= s.d.head))
      && (s.thief.Test? && !s'.thief.Test? ==> (s'.thief.Take? <==> s.d.head < s.d.tail) && (s'.thief.Retract? <==> s.d.tail <= s.d.head))
  {
    RunsOn(run);
    var s := run[|run| - 2];
    var st :| Enabled(s, st) && run[|run| - 1] == Do(s, st);
    hide Stacked, Tidy, Conserved, Aged, Gifted, LockStep, Passed, Locks, Indices;
    RunKeepsInv(run[..|run| - 1]);
    LooksEnd(s, st);
    hide Enabled, Do;
  }

  lemma LooksEnd(s: State, st: Step)
    requires Enabled(s, st) && Ordered(s)
    ensures var s' := Do(s, st);
      && (s.thief.Probe? && !s'.thief.Probe? ==> (s'.thief.Announce? <==> s.d.head < s.d.tail) && (s'.thief.Leave? <==> s.d.tail <= s.d.head))
      && (s.thief.Test? && !s'.thief.Test? ==> (s'.thief.Take? <==> s.d.head < s.d.tail) && (s'.thief.Retract? <==> s.d.tail <= s.d.head))
  {
  }

  /** Somebody can always move: the lock is never held by someone who waits. */
  lemma NoDeadlock(run: seq<State>)
    requires Run(run) && (!run[|run| - 1].owner.Work? || !run[|run| - 1].thief.Idle?) && !Stopped(run[|run| - 1])
    ensures OwnerCanMove(run[|run| - 1]) || ThiefCanMove(run[|run| - 1])
  {
    hide Stacked, Tidy, Conserved, Aged, Gifted, LockStep, Passed, OwnerCanMove, ThiefCanMove;
    RunKeepsInv(run);
    OnlyTheLockBlocks(run);
  }

  function OwnerMove(s: State, f: Fiber): Step {
    match s.owner
    case Work => Return(Decrement)
    case EnqStore(_) => Spawn(StoreFiber)
    case EnqBump(_) => Spawn(BumpFiber)
    case Enqueued(_, _) => Spawn(PushFuture)
    case PushBump(_) => Spawn(BumpFrame)
    case PopCheck => Return(ReadExc)
    case Won(fr) => if fr.Plain? then Return(ReturnPlain) else Return(ReturnFuture)
    case FiberPop(_) => Return(DecrementFiber)
    case FiberRead(_) => Return(ReadFiber)
    case SlowWait => SlowPath(TakeLock)
    case SlowReset => SlowPath(ResetExc)
    case SlowDecide => SlowPath(Decide)
    case SlowWon(_) => SlowPath(DropLock)
    case SlowLost => SlowPath(DropLock)
    case ThrowWait => SlowPath(LockToPop)
    case ThrowPop => SlowPath(PopTail)
    case ThrowLost => SlowPath(DropLock)
    case LostHead => SlowPath(ClearHead)
    case LostTail => SlowPath(ClearTail)
    case Lost => Next(LockAgain)
    case RestartTail => Next(ResetTail)
    case RestartHead => Next(ResetHead)
    case RestartExc => Next(ResetExcAgain)
    case RestartDone => Next(UnlockAgain(f))
    case Overrun(_) => Return(Decrement)
  }

  function ThiefMove(s: State): Step {
    match s.thief
    case Idle => Thieve(ThiefLock(0))
    case Probe => Thieve(CheckFirst)
    case Announce => Thieve(IncrementExc)
    case Test => Thieve(CheckAgain)
    case Retract => Thieve(DecrementExc)
    case Take => Steal(AdvanceHead)
    case Load(_) => Steal(LoadFrame)
    case FiberHead(_) => Steal(AdvanceFiberHead)
    case FiberLoad(_, _) => Steal(LoadFiber)
    case Leave => Thieve(ThiefUnlock)
  }

  lemma Unused(cache: seq<Fiber>) returns (f: Fiber)
    ensures forall x :: x in cache ==> x < f
  {
    if cache == [] {
      f := 0;
    } else {
      f := Unused(cache[1..]);
      assert cache == [cache[0]] + cache[1..];
      if f <= cache[0] {
        f := cache[0] + 1;
      }
    }
  }
}