/** Just enough of Go's sync.RWMutex to follow the lock calls of the cache's
    cleanup (internal/cache/persistent-cache.go:55-64) within one goroutine.
    Everything else about concurrency is outside the model. */
module RWMutex {

  datatype Mutex = Mutex(readers: nat, writer: bool)

  datatype LockOp = RLock | RUnlock | Lock | Unlock

  /** `Held`: the call returned. `Blocked`: it waits for another goroutine.
      `Fatal`: the runtime aborts the whole process (an unlock of a lock
      that is not held is not a recoverable panic in Go). */
  datatype Step = Held(m: Mutex) | Blocked | Fatal

  const Idle := Mutex(0, false)

  function Apply(m: Mutex, op: LockOp): Step {
    match op
    case RLock => if m.writer then Blocked else Held(m.(readers := m.readers + 1))
    case RUnlock => if m.readers == 0 then Fatal else Held(m.(readers := m.readers - 1))
    case Lock => if m.writer || m.readers > 0 then Blocked else Held(m.(writer := true))
    case Unlock => if !m.writer then Fatal else Held(m.(writer := false))
  }

  /** The calls made in order by one goroutine, stopping at the first that
      does not return. */
  function Run(m: Mutex, ops: seq<LockOp>): Step
    decreases |ops|
  {
    if |ops| == 0 then Held(m)
    else match Apply(m, ops[0])
      case Held(m') => Run(m', ops[1..])
      case other => other
  }

  /** cleanup as written: RLock, delete expired entries, RUnlock, Unlock. */
  const CleanupAsWritten: seq<LockOp> := [RLock, RUnlock, Unlock]

  /** cleanup as evidently intended: Lock, delete expired entries, Unlock. */
  const CleanupCorrected: seq<LockOp> := [Lock, Unlock]

  /** The defect: from any state the calls as written never return normally;
      with no writer (the only state in which the RLock returns) the final
      Unlock aborts the process. The deletes also run under the read lock
      only, i.e. with no writer held. */
  lemma CleanupAsWrittenAborts(m: Mutex)
    ensures !Run(m, CleanupAsWritten).Held?
    ensures !m.writer ==> Run(m, CleanupAsWritten) == Fatal
    ensures !m.writer ==> Run(m, CleanupAsWritten[..1]) == Held(Mutex(m.readers + 1, false))
  {
    assert CleanupAsWritten[1..] == [RUnlock, Unlock];
    assert CleanupAsWritten[2..] == [Unlock];
    assert CleanupAsWritten[..1] == [RLock];
  }

  /** The corrected sequence never aborts; from an idle lock it holds the
      write lock exclusively while deleting and leaves the lock idle. */
  lemma CleanupCorrectedRestores(m: Mutex)
    ensures Run(m, CleanupCorrected) != Fatal
    ensures Run(Idle, CleanupCorrected[..1]) == Held(Mutex(0, true))
    ensures Run(Idle, CleanupCorrected) == Held(Idle)
  {
    assert CleanupCorrected[1..] == [Unlock];
    assert CleanupCorrected[..1] == [Lock];
  }
}
