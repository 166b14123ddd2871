# serverfinder, modelled in Dafny

serverfinder locates the port on which a network server listens. It probes
every port of a range `[PortStart, PortEnd)` through a check function the
caller supplies (`Config.Request`) and returns the first port whose probe
succeeds, together with the secondary ("proxy") port the check reported.
The model covers three components:

- **Counting semaphore** (`semaphore.dfy`, module `Semaphores`): a token
  pool built on a buffered channel. The class `Semaphore` keeps the
  channel's length (`held`), its capacity (`capacity`), whether the channel
  has been dropped (`closed`), and the polling pause. `Lock`, `TryLock`,
  `Unlock` and `SetCap` move tokens one at a time in loops, as the source
  does. Their contracts state the new count, the error preconditions and
  the invariant `0 <= held <= capacity`.
- **Bounded response queue** (`responsechan.dfy`, module `ResponseChans`):
  a closable FIFO of probe responses with a fixed capacity. The class
  `ResponseChan` keeps the buffered responses as a sequence.
- **Finder** (`serverfinder.dfy`, module `ServerFinder`): one discovery
  run. `Produce` is the producer loop that dispatches ports.
  `Finder.FindViaNetwork` is the consumer loop, which drives `request` and
  the queue. `Find` is the public entry point. The run's result is tied
  to a pure specification, `Aggregate`: the first error-free response
  among the first `PortEnd - PortStart` that arrive, or
  `(-1, -1, ErrNotFound)`. Lemmas then state what a run finds when the
  responses of all the range's ports arrive in any order.

Every operation is treated as atomic. Goroutines, mutexes and sleeps are
not represented. Where the source blocks until another goroutine acts, the
model turns the state in which the call can finish into a precondition.
The order in which probe responses arrive depends on timing, so it is an
input: a sequence of ports, where the i-th receive takes the response of
the probe of the i-th port.

Three points about the code, which the model follows:

- The `response` record (responsechan.go:15-18) has no `portOptional`
  field, but serverfinder.go:163 and serverfinder.go:173 read and set one.
  The model's `Response` has the field. It is an `int` holding the proxy
  port that `Config.Request` returns (config.go:12).
- A range with `PortEnd <= PortStart` is not rejected. The consumer loop
  then runs zero times and the run returns `ErrNotFound`.
- `Config.chk` rejects only a nil configuration or a nil `Request`. The
  finder's constructor requires exactly that.

## Model

| member | source | states |
|---|---|---|
| `Semaphores.Grant` | semaphore.go:77-89 | a non-blocking acquire of n tokens obtains at most n, never overfills the pool, and obtains fewer than n only when the pool is then full |
| `Semaphores.Semaphore.constructor` | semaphore.go:19-27 | a new semaphore is open, holds no tokens, has capacity `threads`, and its polling pause is raised to at least 100ms (kept when already at least 100ms) |
| `Semaphores.Semaphore.Close` | semaphore.go:31-38 | afterwards the semaphore is closed with length and capacity zero; a call on a closed semaphore changes nothing |
| `Semaphores.Semaphore.Lock` | semaphore.go:41-61 | on an open semaphore n >= 1 is required and held grows by exactly n (blocking abstracted as held + n <= cap); on a closed one nothing changes |
| `Semaphores.Semaphore.TryLock` | semaphore.go:64-90 | closed: returns (false, 0) and changes nothing; open: locks min(n, cap - held) tokens, keeps them held even on failure, and reports success exactly when all n were locked |
| `Semaphores.Semaphore.Unlock` | semaphore.go:93-110 | on an open semaphore 1 <= n <= held is required and held drops by exactly n; on a closed one nothing changes |
| `Semaphores.Semaphore.Len` | semaphore.go:113-117 | the number of held tokens is at most the capacity and is zero once closed |
| `Semaphores.Semaphore.Cap` | semaphore.go:120-124 | the capacity is at least the held count and is zero once closed |
| `Semaphores.Semaphore.IsFull` | semaphore.go:157-162 | full exactly when the capacity is positive and every token is held; a zero-capacity or closed semaphore is never full |
| `Semaphores.Semaphore.IsClosed` | semaphore.go:165-169 | reports closure; a closed semaphore has length and capacity zero |
| `Semaphores.Semaphore.WaitReturns` | semaphore.go:128-137 | Wait(n) returns exactly when the semaphore is closed or holds at most n tokens (so Wait(0) on an empty pool returns); it always returns when n >= capacity, and with n < 0 only on closure |
| `Semaphores.Semaphore.WaitUntilRunningReturns` | semaphore.go:145-154 | WaitUntilRunning returns whenever Wait would, or as soon as the liveness check is false; otherwise only once held <= n |
| `Semaphores.Semaphore.SetCap` | semaphore.go:178-197 | closed: no change; open: the capacity becomes newCap and the held count is kept, which needs held <= newCap |
| `Semaphores.GrowThenTryLock` | semaphore.go:188-195 | on a full, open semaphore, SetCap to a larger capacity keeps the held count, and a TryLock right after obtains min(n, growth) >= 1 of the new tokens, succeeding exactly when all n fit |
| `Semaphores.SetCapLockingAsWritten` | semaphore.go:182-196 | the read lock taken by SetCap followed by its write unlock is always a fatal mutex error |
| `Semaphores.SetCapLockingCorrected` | semaphore.go:182-196 | with the write lock taken instead, the unlock succeeds and restores the mutex state |
| `ResponseChans.ResponseChan.constructor` | responsechan.go:22-24 | a new queue is open, empty, and has the given capacity |
| `ResponseChans.ResponseChan.Close` | responsechan.go:28-35 | afterwards the queue is closed and its buffered responses are kept; closing twice changes nothing |
| `ResponseChans.ResponseChan.WaitReturns` | responsechan.go:39-43 | `wait` lets a sender through exactly when the queue is closed or has room; an open zero-capacity queue never does |
| `ResponseChans.ResponseChan.Send` | responsechan.go:47-61 | closed: returns the "chan is closed" error and leaves the contents alone; open: appends the response at the back and returns nil; the length never exceeds the capacity |
| `ResponseChans.ResponseChan.Rcv` | responsechan.go:65-67 | removes and returns the front response (FIFO); a closed, drained queue yields nil |
| `ResponseChans.ResponseChan.IsFull` | responsechan.go:71-76 | full exactly when the length equals the capacity; a zero-capacity queue is always full |
| `ServerFinder.Produce` | serverfinder.go:153-158 | the producer dispatches PortStart, PortStart+1, ... strictly ascending, all below PortEnd; none when PortEnd <= PortStart (or in the degenerate case of stop seen before the first dispatch); nothing after stop is seen; every port of the range when stop is never seen |
| `ServerFinder.FirstSuccess` | serverfinder.go:160-165 | finds the earliest error-free response among the first PortEnd - PortStart received, or reports that all of them failed |
| `ServerFinder.Aggregate` | serverfinder.go:160-166 | the consumer succeeds exactly when an error-free response is among the first PortEnd - PortStart, and then returns the earliest one's port and portOptional; otherwise (-1, -1, ErrNotFound) |
| `ServerFinder.EarliestSuccessWins` | serverfinder.go:161-164 | the first error-free response to arrive decides the result, whatever its port |
| `ServerFinder.Finder.constructor` | serverfinder.go:75-82 | requires a non-nil configuration with a non-nil Request (otherwise newFinder panics); no queue exists yet |
| `ServerFinder.Finder.Close` | serverfinder.go:87-92 | closes the response queue only if one exists, keeping its contents |
| `ServerFinder.Finder.Request` | serverfinder.go:171-174 | enqueues exactly one response, carrying the port and the check function's proxy port and error; a closed queue drops it |
| `ServerFinder.Finder.FindViaNetwork` | serverfinder.go:147-167 | creates a queue of capacity 100 only when none exists; returns Aggregate of the arriving responses; stop is raised exactly on success; at most PortEnd - PortStart receives, all of them on not-found |
| `ServerFinder.Find` | serverfinder.go:66-70 | one finder, one run; the result is the first success among the arrivals, or not-found; on return the run's fresh queue of capacity 100 is closed (the deferred close) |
| `ServerFinder.FindSucceedsIffSomePortAnswers` | serverfinder.go:147-167 | when each port of the range answers once, in any order, the run succeeds exactly when some port of the range answers, and then returns such a port with its proxy port |
| `ServerFinder.SoleResponderFound` | serverfinder.go:160-164 | if only port p answers, the run returns (p, its proxy port, nil) whatever the arrival order |
| `ServerFinder.NoResponderNotFound` | serverfinder.go:160-166 | if no port of the range answers, the run returns (-1, -1, ErrNotFound) |
| `ServerFinder.FirstToRespondWins` | serverfinder.go:160-164 | with 9001 and 9002 both answering and 9002 arriving first, 9002 wins, not the lower port |

## Left out

- Goroutines, `sync.Mutex` and `sync.RWMutex`, and any interleaving of the producer, the probes and the consumer. Each operation is atomic.
- Wall-clock behaviour. This covers the sleeps in `Wait`, `WaitUntilRunning` and `responseChan.wait`, the 5-second retry in `Lock` (semaphore.go:53-54), and the debug-only `lockTimeout` panic (semaphore.go:9, 43-45, 58-60, 85-87). The two waits are modelled by the condition under which they return.
- `Semaphore.Chan` (semaphore.go:172-174): it hands out the raw channel, which has no counterpart among the model's values.
- `findViaEnv` and `findViaTempDir` (serverfinder.go:110-142): environment and file I/O, and `find` never calls them. `find` (serverfinder.go:96-105) only forwards to `findViaNetwork`, so `Find` calls `FindViaNetwork` directly. `runtime.GC()` is left out too.
- `Config.Request` is an input function. Its transport and its timeouts are outside the model. doc.go holds only a usage example.
- Go's 64-bit `int` is modelled as an unbounded integer. `port++` never wraps, because it runs only after `port < PortEnd`. The number of receives, `f.PortEnd-f.PortStart` (serverfinder.go:160), can wrap for extreme ranges: with `PortStart` the smallest `int` and `PortEnd` 1 the Go difference is negative, so the consumer makes no receive and returns `ErrNotFound` at once while the producer is still dispatching. The model's unbounded subtraction would make `PortEnd - PortStart` receives instead; such ranges are not modelled.
- Semaphores.Semaphore.Lock: blocking until tokens free up is the precondition `held + n <= capacity`. A `Lock` that would wait for other goroutines to unlock is not modelled.
- Semaphores.Semaphore.constructor: the panic of Go's `make` on a negative `threads` is the precondition `threads >= 0`, not a modelled crash.
- Semaphores.Semaphore.Lock: the panic on `n < 1` while the semaphore is open is the precondition `1 <= n`, not a modelled crash.
- Semaphores.Semaphore.TryLock: the panic on `n < 1` while the semaphore is open is the precondition `1 <= n`, not a modelled crash.
- Semaphores.Semaphore.Unlock: the panic on `n < 1` or on `n` above the held count is a precondition, not a modelled crash.
- Semaphores.Semaphore.SetCap: refilling more tokens than `newCap` blocks forever in the source. The model requires `held <= newCap`. Because `held >= 0`, that precondition also rules out a negative `newCap`, on which Go's `make` panics; that panic is not a modelled crash.
- ResponseChans.ResponseChan.constructor: the panic of Go's `make` on a negative size is the precondition `size >= 0`, not a modelled crash.
- ResponseChans.ResponseChan.Send: the source re-enters `wait` when another producer fills the queue between `wait` and the lock. The model requires the state in which `wait` returns, so that retry path is not represented.
- ResponseChans.ResponseChan.Rcv: a receive on an open, empty queue blocks in the source. It is a precondition here.
- ServerFinder.Produce: waiting for queue headroom before each dispatch is not modelled. When the producer sees `stop` is an input (`stopAt`).
- ServerFinder.Finder.FindViaNetwork: each response is pushed just before it is received, and responses that probes push after the consumer returns are not modelled. A finder reused while its queue still holds responses, or after its queue was closed, is excluded by the precondition; in the source a closed, drained queue makes `rcv` return nil, which the consumer then dereferences.

## Findings

| source | as written | input that shows it | evidently intended | confidence | as-written member | corrected member |
|---|---|---|---|---|---|---|
| semaphore.go:182-196 | `SetCap` takes the read lock (`s.mu.RLock()`) and releases it with the write unlock (`s.mu.Unlock()`) | any `SetCap` on an open semaphore, e.g. `NewSemaphore(2, 0)` then `SetCap(4)`: Go aborts with "Unlock of unlocked RWMutex" | take the write lock, so that the channel swap excludes every `Lock`, `TryLock` and `IsClosed` | high; not executed | `Semaphores.SetCapLockingAsWritten` | `Semaphores.SetCapLockingCorrected` |

`Semaphores.Semaphore.SetCap` models the intended exclusive swap.
