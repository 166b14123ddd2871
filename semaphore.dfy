/** A counting semaphore built on a buffered channel of empty tokens.
    The channel's length is the number of held tokens, its capacity is the
    limit, and a closed semaphore is one whose channel has been set to nil
    (so that its length and capacity both read as zero).

    Every operation is taken as atomic. Where the source blocks until
    another goroutine makes room (a channel push on a full channel), the
    model states the state in which the operation can complete as a
    precondition. */
module Semaphores {
  import opened Common

  /** Durations are counted in nanoseconds, as Go's `time.Duration` is. */
  const Millisecond: int := 1_000_000

  /** The shortest polling pause a semaphore accepts. */
  const MinWaitPause: int := 100 * Millisecond

  /** How many of `n` requested tokens a non-blocking acquire obtains when
      `held` of `capacity` tokens are taken: all of them, or as many as
      fill the pool to capacity. */
  function Grant(held: nat, capacity: nat, n: int): (locked: nat)
    requires held <= capacity && n >= 1
    ensures locked <= n && held + locked <= capacity
    ensures locked < n ==> held + locked == capacity
  {
    Min(n, capacity - held)
  }

  class Semaphore {
    /** len(s.ch): the number of tokens currently held */
    var held: nat
    /** cap(s.ch): the most tokens that can be held at once */
    var capacity: nat
    /** s.ch == nil */
    var closed: bool
    /** the pause between two polls of Wait and WaitUntilRunning */
    var waitPause: int

    ghost predicate Valid()
      reads this
    {
      held <= capacity &&
      (closed ==> held == 0 && capacity == 0) &&
      waitPause >= MinWaitPause
    }

    /** NewSemaphore: an open, empty pool of `threads` tokens. A pause
        shorter than 100ms is raised to 100ms. Go's `make` panics on a
        negative channel size, hence the precondition. */
    constructor (threads: int, pause: int)
      requires threads >= 0
      ensures Valid()
      ensures held == 0 && capacity == threads && !closed
      ensures waitPause >= MinWaitPause
      ensures pause >= MinWaitPause ==> waitPause == pause
      ensures pause < MinWaitPause ==> waitPause == MinWaitPause
    {
      held := 0;
      capacity := threads;
      closed := false;
      waitPause := if pause < MinWaitPause then MinWaitPause else pause;
    }

    /** Close: drops the channel once; a second call changes nothing. */
    method Close()
      requires Valid()
      modifies this
      ensures Valid()
      ensures closed && held == 0 && capacity == 0
      ensures waitPause == old(waitPause)
      ensures old(closed) ==> unchanged(this)
    {
      if !closed {
        closed := true;
        held := 0;
        capacity := 0;
      }
    }

    /** Lock: acquires `n` tokens one at a time. On an open semaphore
        `n < 1` is a panic, and the loop can finish only once all `n`
        tokens fit; on a closed semaphore the loop does not run. */
    method Lock(n: int)
      requires Valid()
      requires !closed ==> 1 <= n
      requires !closed ==> held + n <= capacity
      modifies this
      ensures Valid()
      ensures old(closed) ==> unchanged(this)
      ensures !old(closed) ==> !closed && held == old(held) + n && capacity == old(capacity)
      ensures waitPause == old(waitPause)
    {
      var i := 0;
      while i < n && !closed
        invariant Valid()
        invariant closed == old(closed) && capacity == old(capacity) && waitPause == old(waitPause)
        invariant closed ==> unchanged(this)
        invariant !closed ==> 0 <= i <= n && held == old(held) + i
      {
        held := held + 1;
        i := i + 1;
      }
    }

    /** TryLock: takes tokens one at a time while there is room and stops
        at the first one that does not fit; tokens already taken stay held.
        A closed semaphore answers (false, 0). */
    method TryLock(n: int) returns (success: bool, locked: nat)
      requires Valid()
      requires !closed ==> 1 <= n
      modifies this
      ensures Valid()
      ensures old(closed) ==> !success && locked == 0 && unchanged(this)
      ensures !old(closed) ==> locked == Grant(old(held), old(capacity), n)
      ensures !old(closed) ==> (success <==> locked == n)
      ensures !old(closed) ==> !closed && held == old(held) + locked && capacity == old(capacity)
      ensures waitPause == old(waitPause)
    {
      if closed {
        return false, 0;
      }
      locked := 0;
      var i := 0;
      while i < n
        invariant Valid() && !closed
        invariant capacity == old(capacity) && waitPause == old(waitPause)
        invariant 0 <= i <= n && locked == i && held == old(held) + i
      {
        if held < capacity {
          held := held + 1;
          locked := locked + 1;
        } else {
          return false, locked;
        }
        i := i + 1;
      }
      success := locked >= n;
    }

    /** Unlock: releases `n` tokens. On an open semaphore `n < 1` and
        `n` above the held count are panics; on a closed one nothing
        happens. */
    method Unlock(n: int)
      requires Valid()
      requires !closed ==> 1 <= n <= held
      modifies this
      ensures Valid()
      ensures old(closed) ==> unchanged(this)
      ensures !old(closed) ==> !closed && held == old(held) - n && capacity == old(capacity)
      ensures waitPause == old(waitPause)
    {
      var i := 0;
      while i < n && !closed
        invariant Valid()
        invariant closed == old(closed) && capacity == old(capacity) && waitPause == old(waitPause)
        invariant closed ==> unchanged(this)
        invariant !closed ==> 0 <= i <= n && held == old(held) - i
      {
        held := held - 1;
        i := i + 1;
      }
    }

    /** Len: the number of active locks, never above Cap, and zero once
        the semaphore is closed. */
    function Len(): (r: nat)
      reads this
      requires Valid()
      ensures r <= capacity
      ensures closed ==> r == 0
    {
      held
    }

    /** Cap: the limit of simultaneous locks, zero once closed. */
    function Cap(): (r: nat)
      reads this
      requires Valid()
      ensures r >= held
      ensures closed ==> r == 0
    {
      capacity
    }

    /** IsFull: no further token fits and the pool is not degenerate; a
        semaphore of capacity zero (in particular a closed one) is never
        reported full. */
    function IsFull(): (full: bool)
      reads this
      requires Valid()
      ensures full <==> capacity > 0 && held == capacity
      ensures full ==> !closed
    {
      held > 0 && held >= capacity
    }

    /** IsClosed: whether Close has run; a closed semaphore holds and
        admits no tokens. */
    function IsClosed(): (c: bool)
      reads this
      requires Valid()
      ensures c ==> Len() == 0 && Cap() == 0
      ensures c == closed
    {
      closed
    }

    /** The state in which Wait(n) stops polling and returns: the pool is
        closed or holds at most `n` tokens. */
    function WaitReturns(n: int): (r: bool)
      reads this
      requires Valid()
      ensures closed ==> r
      ensures n >= capacity ==> r
      ensures held <= n ==> r
      ensures r && !closed ==> held <= n
      ensures n < 0 ==> (r <==> closed)
    {
      closed || held <= n
    }

    /** The state in which WaitUntilRunning(n, isRunning) returns: as for
        Wait, or as soon as the caller's liveness check reports false. */
    function WaitUntilRunningReturns(n: int, running: bool): (r: bool)
      reads this
      requires Valid()
      ensures WaitReturns(n) ==> r
      ensures !running ==> r
      ensures r && running && !closed ==> held <= n
    {
      closed || held <= n || !running
    }

    /** SetCap: replaces the channel by one of capacity `newCap` and puts
        the held tokens back into it one at a time. A closed semaphore is
        left alone. Refilling blocks forever when the held count exceeds
        `newCap`, hence the precondition. */
    method SetCap(newCap: int)
      requires Valid()
      requires !closed ==> held <= newCap
      modifies this
      ensures Valid()
      ensures old(closed) ==> unchanged(this)
      ensures !old(closed) ==> !closed && capacity == newCap && held == old(held)
      ensures waitPause == old(waitPause)
    {
      if closed {
        return;
      }
      var l := held;
      held, capacity := 0, newCap;
      var i := 0;
      while i < l
        invariant Valid() && !closed
        invariant capacity == newCap && waitPause == old(waitPause)
        invariant 0 <= i <= l && held == i
      {
        held := held + 1;
        i := i + 1;
      }
    }
  }

  /** Growing a full, open semaphore and then trying to lock `n` tokens:
      the newly available tokens are obtained at once, as many as were
      asked for or as the growth allows, and at least one. */
  method GrowThenTryLock(s: Semaphore, newCap: nat, n: int) returns (success: bool, locked: nat)
    requires s.Valid() && !s.closed && s.held == s.capacity
    requires newCap > s.held && n >= 1
    modifies s
    ensures s.Valid() && s.capacity == newCap
    ensures locked == Min(n, newCap - old(s.held)) && locked >= 1
    ensures s.held == old(s.held) + locked
    ensures success <==> old(s.held) + n <= newCap
  {
    s.SetCap(newCap);
    success, locked := s.TryLock(n);
  }

  /** The lock of `s.mu` as far as one goroutine's calls go: how many read
      locks are held and whether the write lock is. */
  datatype MutexState = MutexState(readers: nat, writer: bool)

  /** RLock; it blocks while a writer holds the lock. */
  function AcquireRead(m: MutexState): (r: MutexState)
    requires !m.writer
    ensures r.readers == m.readers + 1 && !r.writer
  {
    m.(readers := m.readers + 1)
  }

  /** Lock; it blocks while any reader or writer holds the lock. */
  function AcquireWrite(m: MutexState): (r: MutexState)
    requires !m.writer && m.readers == 0
    ensures r.writer && r.readers == 0
  {
    m.(writer := true)
  }

  /** Unlock: releasing a write lock that is not held is a fatal runtime
      error in Go (`None`). */
  function ReleaseWrite(m: MutexState): (r: Option<MutexState>)
    ensures r.Some? <==> m.writer
    ensures r.Some? ==> !r.value.writer && r.value.readers == m.readers
  {
    if m.writer then Some(m.(writer := false)) else None
  }

  /** SetCap as written takes the read lock and then releases the write
      lock, which is always a fatal error. */
  lemma SetCapLockingAsWritten(m: MutexState)
    requires !m.writer
    ensures ReleaseWrite(AcquireRead(m)) == None
  {
  }

  /** With the write lock taken, as the exclusive capacity swap intends,
      the release succeeds and leaves the lock as it found it. */
  lemma SetCapLockingCorrected(m: MutexState)
    requires !m.writer && m.readers == 0
    ensures ReleaseWrite(AcquireWrite(m)) == Some(m)
  {
  }
}
