# go-practice: a Dafny model of its sequential core

go-practice is a Go learning repository: short demonstrations of language
features and of concurrency primitives. This project models the sequential
behaviour inside six of its files and proves properties of that model:

- `concurrency/additional_synchronization_primitives/example2.go`: a FIFO slice
  of tasks. `produce` appends at the tail. `worker` waits for a task, takes the
  head, runs it once and returns. `main` starts five workers and produces three
  tasks. Modelled as the class `TaskQueue.TaskQueue` and the method
  `TaskQueue.RunPool`.
- `concurrency/concurrency_patterns/example2.go`: the pipeline
  `generator(n)` → `multiply` → `add` → `consumer`. Each stage is a loop that
  builds the sequence of values its channel carries, in order. Module `Pipeline`.
- `concurrency/additional_synchronization_primitives/example1.go`: a readiness
  flag that starts false and is set by `setReady`; `CheckReady` only reads it.
  Modelled as the class `Readiness.Worker`. The module also has a trace model
  (`Observe`) of what a sequence of calls observes.
- `start/language_syntax/main.go`: `div` with Go's truncated `/` and `%`, the
  temperature if-else chain and the pet `switch`. Module `LanguageSyntax`.
- `start/data_types/main.go`: the `counter` closure (one object per
  `counter()` call), the `market` map, and the keyed array literal
  `[10]int{1, 2, 3, 6: 10}`. Module `DataTypes`.
- `start/interfaces/main2.go`: `T`, its pointer-receiver method `Add`, and an
  interface value that holds `&t`, so changes made through `t` are seen
  through `i`. Module `Interfaces`.

Every file is standalone apart from `wrappers.dfy`, which holds the `Option`
type. Verify all of them together:

    dafny verify *.dfy

Facts about the source that the model keeps:

- `worker` (example2.go:13-26) takes exactly one task and returns. There is no service loop.
- A task that panics is not recovered.
- `produce` calls `cond.Signal()` after `mu.Unlock()` (example2.go:30-32).

### Go semantics spelled out

- Dafny's `/` and `%` are Euclidean, so `LanguageSyntax.Quo` and
  `LanguageSyntax.Rem` define Go's truncated division explicitly.
- A Go array literal like `[10]int{...}` is a value, so `DataTypes.ArrayLiteral`
  returns a `seq<int>`.
- A lookup of a missing map key yields the zero value `0` and `false`.
- A zero divisor is a run-time panic in Go, so `Div` requires `b != 0`.

## Model

| member | source | states |
|---|---|---|
| TaskQueue.TaskQueue.constructor | concurrency/additional_synchronization_primitives/example2.go:11 | the package-level slice starts empty |
| TaskQueue.TaskQueue.Produce | concurrency/additional_synchronization_primitives/example2.go:27-33 | the task is appended at the tail, the existing tasks keep their order, and the length grows by one |
| TaskQueue.TaskQueue.Take | concurrency/additional_synchronization_primitives/example2.go:13-26 | only callable on a non-empty queue (the worker waits otherwise); returns exactly the head, the queue becomes the old `tasks[1:]`, and the length drops by one |
| TaskQueue.RunPool | concurrency/additional_synchronization_primitives/example2.go:35-50 | with `w` parked workers and a list of produced tasks, the first min(w, n) tasks run in production order, the rest stay queued in order, and w - min(w, n) workers stay parked; nothing is lost or run twice |
| TaskQueue.MainScenario | concurrency/additional_synchronization_primitives/example2.go:38-47 | under the intended pairing of the condition variable with `mu`, five workers and the tasks "1", "2", "3": exactly three takes succeed, in the order 1, 2, 3; the queue ends empty and two workers stay parked |
| Pipeline.IncDouble | concurrency/concurrency_patterns/example2.go:16-36 | `multiply` then `add` maps x to 2x + 1, which is odd |
| Pipeline.Generator | concurrency/concurrency_patterns/example2.go:5-14 | emits exactly max(n, 0) values, and value k is k (so 0..n-1 increasing, nothing when n <= 0) |
| Pipeline.Multiply | concurrency/concurrency_patterns/example2.go:16-25 | one output per input, in order, each doubled; the output ends when the input does |
| Pipeline.Add | concurrency/concurrency_patterns/example2.go:27-36 | one output per input, in order, each plus one; the output ends when the input does |
| Pipeline.Consumer | concurrency/concurrency_patterns/example2.go:38-42 | receives every value in emission order |
| Pipeline.Run | concurrency/concurrency_patterns/example2.go:44-50 | the composed pipeline yields max(n, 0) values and element k is 2k + 1 |
| Pipeline.MainScenario | concurrency/concurrency_patterns/example2.go:44-50 | `generator(5)` through both stages is received as exactly [1, 3, 5, 7, 9] |
| Readiness.Worker.constructor | concurrency/additional_synchronization_primitives/example1.go:5-8 | a zero-valued `Worker` is not ready |
| Readiness.Worker.SetReady | concurrency/additional_synchronization_primitives/example1.go:10-15 | afterwards the flag is true whatever it was; `ready` is the object's only field, so a second call changes nothing |
| Readiness.Worker.CheckReady | concurrency/additional_synchronization_primitives/example1.go:16-21 | returns the flag and modifies nothing |
| Readiness.ObserveLength | concurrency/additional_synchronization_primitives/example1.go:16-21 | a trace yields one observation per `CheckReady` call |
| Readiness.ObserveMonotone | concurrency/additional_synchronization_primitives/example1.go:5-21 | once a check has seen true, every later check sees true: no operation clears the flag |
| Readiness.ObserveStaysTrue | concurrency/additional_synchronization_primitives/example1.go:10-21 | after the flag is set, every check returns true |
| Readiness.ObserveBeforeSet | concurrency/additional_synchronization_primitives/example1.go:5-21 | on a fresh worker with no `setReady`, every check returns false |
| Readiness.SetReadyIdempotent | concurrency/additional_synchronization_primitives/example1.go:10-15 | `setReady` twice is observationally the same as once |
| Readiness.Run | concurrency/additional_synchronization_primitives/example1.go:5-21 | running a sequence of calls on a real `Worker` observes exactly what the trace model `Observe` predicts |
| Readiness.ReadyScenario | concurrency/additional_synchronization_primitives/example1.go:10-21 | a check before `setReady` sees false and one after it sees true |
| LanguageSyntax.Div | start/language_syntax/main.go:15-17 | for b != 0: q * b + r == a and abs(r) < abs(b); r is zero or has the sign of a; abs(q) == abs(a) / abs(b) and q is zero or negative exactly when the signs differ (truncation toward zero) |
| LanguageSyntax.DivLaw | start/language_syntax/main.go:15-17 | Go's division law `(a / b) * b + a % b == a` holds for the truncated pair |
| LanguageSyntax.DivSigns | start/language_syntax/main.go:15-17 | the remainder is smaller than the divisor and has the sign of a; the quotient is truncated toward zero |
| LanguageSyntax.DivUnique | start/language_syntax/main.go:15-17 | any (q, r) with the division law, a small remainder and the sign rule is exactly `div(a, b)` |
| LanguageSyntax.DivExample | start/language_syntax/main.go:25-30 | `div(100, 3)` is (33, 1); `div(-7, 2)` is (-3, -1), not the Euclidean (-4, 1) |
| LanguageSyntax.Div64 | start/language_syntax/main.go:15-17 | for `int` on 64-bit targets: both results fit in 64 bits; `MinInt64 / -1` gives (MinInt64, 0) as Go defines it; every other pair is the exact division |
| LanguageSyntax.Div64Overflow | start/language_syntax/main.go:15-17 | in that overflowing case the division law is off by exactly 2^64 |
| LanguageSyntax.WeatherBands | start/language_syntax/main.go:32-40 | each message holds in exactly its band (t > 20, 10 < t <= 20, 0 < t <= 10, t <= 0), so exactly one fires; 15 gives "Прохладно" |
| LanguageSyntax.PetNameCases | start/language_syntax/main.go:42-54 | the refusal branch runs exactly when `petName` stays empty, which happens exactly for pets other than the three cases; "кот", "соабка" and "попугай" get their names; "собака" and "змея" are refused |
| LanguageSyntax.PetNameIntendedCases | start/language_syntax/main.go:47-48 | with the case spelled "собака", the dog is named "Тузик", "соабка" is refused, and every other pet is treated as the written switch treats it |
| DataTypes.Counter.constructor | start/data_types/main.go:15-16 | `counter()` captures a fresh `count` of 0 |
| DataTypes.Counter.Call | start/data_types/main.go:17-20 | each call increments the captured count by one and returns the new value |
| DataTypes.CallFresh | start/data_types/main.go:15-21 | a fresh counter called k times returns 1, 2, …, k, and the captured count is then k |
| DataTypes.CounterScenario | start/data_types/main.go:89-95 | `increment` returns 1, 2, 3; `increment2` starts at 1 and leaves the first counter at 3 |
| DataTypes.Market.constructor | start/data_types/main.go:64 | `make(map[string]int, 10)` is empty |
| DataTypes.Market.Set | start/data_types/main.go:65-68 | the key maps to the new value and every other key is unchanged |
| DataTypes.Market.Lookup | start/data_types/main.go:69 | `ok` is true exactly when the key is present; the value is then the stored one, and otherwise 0 |
| DataTypes.Market.Delete | start/data_types/main.go:75 | the key is absent afterwards and every other key is unchanged (a missing key is a no-op) |
| DataTypes.MarketScenario | start/data_types/main.go:64-76 | after the four inserts "usd" gives (40, true); after the delete it gives (0, false), and the map is exactly btc=100, eth=10, eur=50 |
| DataTypes.ArrayLiteral | start/data_types/main.go:33 | for a literal whose indices are in range and distinct: each element's value is at its index (its key, or the previous index plus one), and every other index holds 0 |
| DataTypes.ArrayExample | start/data_types/main.go:33 | `[10]int{1, 2, 3, 6: 10}` is [1, 2, 3, 0, 0, 0, 10, 0, 0, 0] |
| Interfaces.T.constructor | start/interfaces/main2.go:20 | `T{a, b}` holds the two given fields |
| Interfaces.T.Add | start/interfaces/main2.go:15-17 | returns a + b and modifies neither field |
| Interfaces.CallAdd | start/interfaces/main2.go:7-9 | a call through the interface reaches `Add` on the pointer the interface holds |
| Interfaces.AddAgrees | start/interfaces/main2.go:21-28 | with `i` holding `&t`, `i.Add()` and `t.Add()` return the same a + b in every state of `t` |
| Interfaces.MainScenario | start/interfaces/main2.go:20-28 | for `T{10, 20}` both calls give 30; after `t.a *= 10; t.b *= 10` both give 300, so the change is seen through `i` too |

## Findings

| source | as written | input that shows it | evidently intended | confidence | as-written member | corrected member |
|---|---|---|---|---|---|---|
| start/language_syntax/main.go:47 | `case "соабка":` (letters transposed) | pet "собака" falls to the default branch and is refused | `case "собака":`, naming the dog "Тузик" | high, from reading; not executed | LanguageSyntax.PetNameCases | LanguageSyntax.PetNameIntendedCases |

## Left out

- Goroutines, channels, `sync.Cond`, `sync.Mutex` and `sync.RWMutex` are not modelled. There are no locks, no blocking and no interleavings. Only the sequential data effect of each operation is modelled.
- TaskQueue.TaskQueue.Take: the worker's `for len(tasks) == 0 { cond.Wait() }` loop cannot end in a sequential model, so `Take` requires a non-empty queue. A worker waiting on an empty queue appears only as the `parked` count of `RunPool`. `RunPool` assumes that the woken worker runs before the next produce, as the source's `time.Sleep` calls arrange.
- The condition variable in example2.go is built over a fresh mutex (line 36), while the workers lock `mu`. In `main` as written, the first worker that reaches `cond.Wait()` (line 19) unlocks a `sync.Mutex` that was never locked, which is a fatal, unrecoverable error in Go. With five workers and three tasks at least one worker always waits, so the program aborts after running at most task "1". `TaskQueue.RunPool` and `TaskQueue.MainScenario` give the outcome of the intended pairing (a condition variable over `&mu`), not of the program as written. The locks are not modelled, so the abort is not shown.
- Running a task is represented by returning it. The closures' printing is not modelled, and tasks are opaque values.
- `time.Sleep` is not modelled.
- Channel closing is represented by the end of a sequence. The unbuffered handoff, the backpressure between stages and the goroutine leak of a pipeline that is never drained are not modelled.
- Go's `int` is 32 or 64 bits wide, depending on the target, and wraps on overflow. Only `div` models this, and only for 64-bit targets (`Div64`); the 32-bit `int` is not modelled. `count++`, `num * 2`, `num + 1`, `t.a *= 10` and the map values use unbounded integers.
- All `fmt` printing is not modelled. The model returns the values that would be printed.
- Not modelled from start/data_types/main.go:
  - the struct with field tags (lines 8-12);
  - the `int32`/`int64` conversions (lines 25-28);
  - slices, re-slicing and `append` capacity (lines 36-44);
  - strings and rune iteration (lines 46-59);
  - the anonymous functions, which only print (lines 79-86).
- Not modelled from start/language_syntax/main.go: the `const`/`iota` block (lines 5-13), whose values the code never uses.
- The interface `II` is modelled as a datatype holding the one pointer it is built from. `*T` is its only implementation, so dynamic dispatch always reaches `(*T).Add`.
- The timeout race and the non-blocking producer (concurrency/goroutines_and_channels/parallel/examplesE_test.go), the WaitGroup/mutex demos, the `Division` float tests, the title-case and sunrise tests, CLI flag parsing, the library sorts in typical_features, and the print-only interface demos are not part of this model. They are concurrency timing, floating point, external libraries or printing.
