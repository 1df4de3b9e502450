# FibonacciGoServer core, modelled in Dafny

The server takes `POST /fib` requests that carry a `name`, a `delay` and a
`value`. It checks each request and puts an accepted one on a bounded job
queue of 20 entries. A pool of workers, built once at start-up, computes
`Fibonacci(value)` for each job. This project models the sequential parts
of `main.go`:

- `Fib` (fibonacci.dfy): the task function, over mathematical integers.
- `Handler` (handler.dfy): the admission decision of `RequestHandler`, as a
  pure function `Handle` and as an imperative method `RequestHandler`.
  The method sends on the job queue. `Handle` specifies what the method does.
- `Dispatch` (dispatcher.dfy): `NewWorker`, `NewDispatcher` and the
  worker-creation loop of `Run`.
- `Channels` (channels.dfy): a Go channel seen as a bounded FIFO buffer. An
  unbuffered channel has capacity 0. A blocking send becomes the
  precondition that the buffer has room.
- `Jobs` (jobs.dfy): the `Job` record, with Go's 64-bit `int` and
  `time.Duration` as a 64-bit integer newtype.
- `Wrappers` (wrappers.dfy): `Option`. The results of `time.ParseDuration`
  and `strconv.Atoi` are `Option<Int64>` inputs, and `None` means a parse error.

The handler does not reject negative durations. Any delay that
`time.ParseDuration` accepts is admitted (main.go:107-111), so `Handle`
admits a negative delay.

## Model

| member | source | states |
|---|---|---|
| Fib.Fibonacci | main.go:65-70 | the result is non-negative for every non-negative argument, and at least 1 for every argument from 1 on |
| Fib.FibonacciBase | main.go:66-68 | every argument at most 1, negatives included, is returned unchanged |
| Fib.FibonacciRecurrence | main.go:69 | from 2 on, the value is the sum of the two previous values |
| Fib.FibonacciMonotone | main.go:65-70 | on non-negative arguments the function never decreases |
| Fib.FibonacciAgreesWithPair | main.go:65-70 | on every non-negative argument the function agrees with an independent linear-time definition by consecutive pairs |
| Handler.Handle | main.go:105-129 | a job is enqueued exactly when the method is POST, both numbers parse and the name is non-empty; that job carries the request's name, delay and value, and the response is then 201; status 201 happens exactly when a job is enqueued; a non-POST method gets 405 "Method not allowed" with `Allow: POST` and no job; only a non-POST response carries an `Allow` header |
| Handler.InvalidDelayFirst | main.go:107-111 | a POST whose delay fails to parse gets 400 "Invalid delay" and no job, whatever the value and name are |
| Handler.InvalidValueSecond | main.go:112-116 | a POST with a valid delay and a value that fails to parse gets 400 "Invalid value" and no job, whatever the name is |
| Handler.InvalidNameThird | main.go:117-121 | a POST with both numbers valid and an empty name gets 400 "Invalid name" and no job |
| Handler.RejectionNamesFirstFailure | main.go:107-121 | every rejected POST is a 400 whose message names the first check that failed, in the order delay, value, name |
| Handler.RequestHandler | main.go:103-131 | the response is the one `Handle` decides; the queue gains exactly the one decided job at its end and is otherwise unchanged; the queue grows by one exactly when the status is 201; the queue never holds more than its capacity |
| Handler.NewJobQueue | main.go:139 | the server's job queue is a new, empty buffered channel with capacity 20 |
| Channels.Channel.constructor | main.go:74 | `make(chan T, n)`, as used for the registry here and for the inboxes, quit channels and job queue at main.go:34, 36 and 139: a new, empty channel whose capacity is n |
| Channels.Channel.Send | main.go:123 | a send appends the element at the end of the buffer and keeps it within capacity; the sender needs room, as Go would block |
| Dispatch.NewWorker | main.go:31-38 | a worker keeps its id and the shared registry and gets its own new unbuffered inbox and quit channel |
| Dispatch.Dispatcher.NewDispatcher | main.go:73-80 | the dispatcher keeps the caller's job queue and pool size and owns a new, empty registry whose capacity is the pool size |
| Dispatch.Dispatcher.Run | main.go:94-98 | the loop builds exactly maxWorkers workers (none if it is negative) with ids 0 to maxWorkers - 1 in order; all point at the dispatcher's registry; no two share an inbox or a quit channel; no inbox is the job queue; the registry is left unchanged |
| Dispatch.BuildPool | main.go:140-141 | after `NewDispatcher` and `Run`, the registry's capacity equals the number of workers, exactly maxWorkers of them exist with ids 0 to maxWorkers - 1, and all share that registry |

## Left out

- `Worker.Start`, `Worker.Stop` and `Dispatcher.Dispatch` (main.go:41-63, 82-92) are goroutines that hand jobs over channels and use `select`. Which job goes to which worker is a race, so no sequential model fits them. Because of this, the model does not claim that every queued job runs exactly once, or that no more than the pool size run at a time.
- The internals of `time.ParseDuration` and `strconv.Atoi` are library code. Their success or failure, and the parsed value, are inputs. `r.FormValue` is also left out, and a missing field counts as a parse failure or as an empty name.
- `time.Sleep`, `fmt.Printf` and `log` output are side effects with no state to model.
- The HTTP server, routing and `main` (main.go:133-147) are I/O plumbing. Only the queue's capacity of 20 (main.go:136, 139) is kept, in `NewJobQueue`.
- Response-writer details are left out. `http.Error` adds a trailing newline to the message and sets content-type headers. The 405 path writes its header twice. The model keeps only the status, the message and the `Allow` header.
- Fib.Fibonacci: works over mathematical integers. It does not model Go's 64-bit overflow for arguments from 93 on, or the exponential running time.
- Channels.Channel.Send: a full buffer blocks the sender in Go. The model makes room a precondition instead of modelling the wait. An unbuffered channel's hand-off to a receiver is therefore not modelled.
- Dispatch.Dispatcher.NewDispatcher: requires a non-negative pool size, because Go's `make` panics on a negative channel capacity.
