# Batch-send benchmark, modelled in Dafny

This project models the Boost.Redis batch-send benchmark
(`batch_send_benchmark.cpp`). The benchmark compares two ways of writing
`n_req` hash fields to a Redis server over one connection:

- **separate**: `n_req` requests, each holding one `HSET s.hash <i> <payload>`;
- **combined**: a single request holding the `n_req` writes
  `HSET c.hash <i> <payload>`, in ascending `i`.

Each request carries a completion lambda. The lambda bumps the `done`
counter of its trial's accounting record (`Config`), and its `errors`
counter when the round trip failed. `waitForCompletion` polls until every
started record reports `completed()`. `main` checks the argument count,
applies the defaults (800 requests, payload of 3000 bytes) and runs three
benchmarks in turn: separate only, combined only, then both.

Modules:

- `Decimal` (`decimal.dfy`): `std::to_string` of an int. `Parse` reads a rendering back, which pins down what the rendering means.
- `Trial` (`trial.dfy`): the `Config` record as a class; `clear`, `completed`, `status` and the completion-lambda body (`RecordOutcome`).
- `Redis` (`redis.dfy`): the connection as a recorder. It logs every submitted request and its completion handler, and the outcome each handler ran with.
- `Ledger` (`ledger.dfy`): value-level accounting over that log. It covers the submissions a trial issued, those whose callback has run, and those that failed.
- `Bench` (`bench.dfy`): the `BatchSendBenchmark` class: `prepare`, the two dispatch strategies, the completion lambdas, the polling wait and `run`.
- `Program` (`program.dfy`): `main`, and the concrete scenarios.

How completion is modelled:

- The store is a parameter `outcome: nat -> bool`. It answers submission `k` of a connection with success or failure.
- The background thread is the body of the polling loop: between two polls it runs the completion lambda of some pending submission, chosen arbitrarily.
- The class invariant ties each record to the log. A started record expects one callback per submission of its trial; `done` counts those that have run and `errors` those that failed. So `completed()` holds exactly when no callback of the trial is pending.

## Model

| member | source | states |
|---|---|---|
| Decimal.FromInt | batch_send_benchmark.cpp:113 | the rendering is non-empty, starts with '-' exactly for negative values, is digits otherwise, and a non-zero value has no leading zero |
| Decimal.ParseFromInt | batch_send_benchmark.cpp:113 | reading a rendering back gives the integer rendered: the field name and the counters in a status line carry their value exactly |
| Decimal.FromIntInjective | batch_send_benchmark.cpp:113 | distinct indices render as distinct field names |
| Trial.Config.constructor | batch_send_benchmark.cpp:72-75 | name, hash and expected total are as given; not started, no errors, nothing done |
| Trial.Config.Clear | batch_send_benchmark.cpp:76-81 | resets started, errors and done; keeps name, hash and total; the record then reports completed |
| Trial.Config.Completed | batch_send_benchmark.cpp:82-85 | `!started \|\| done == total`; what it means, that every callback the trial issued has run, is proved by `Bench.BatchSendBenchmark.CompletedIffDrained` |
| Trial.Config.Status | batch_send_benchmark.cpp:86-92 | empty exactly when not started; otherwise the progress line of name, done, total and errors |
| Trial.Progress | batch_send_benchmark.cpp:90-91 | the line starts with the name and a space and ends with " errors)" |
| Trial.ProgressDetermines | batch_send_benchmark.cpp:90-91 | two progress lines of one record are equal exactly when their done, total and error counts are equal |
| Trial.Config.RecordOutcome | batch_send_benchmark.cpp:116-123 | one callback adds 1 to done, adds 1 to errors exactly when the outcome is a failure, keeps errors <= done and changes nothing else |
| Redis.Connection.AsyncExec | batch_send_benchmark.cpp:114-115 | appends the request and its handler to the log; no outcome is recorded yet |
| Redis.Connection.Complete | batch_send_benchmark.cpp:114-123 | a pending submission resolves once, with the given outcome; it leaves the pending set |
| Ledger.Bounds | batch_send_benchmark.cpp:82-85 | failed <= finished <= issued for a trial; finished reaches issued exactly when no issued submission is pending |
| Ledger.AccountsAfterDispatch | batch_send_benchmark.cpp:106-125 | an idle record that issues as many submissions as it expects becomes started with nothing done |
| Ledger.AccountsAfterComplete | batch_send_benchmark.cpp:116-123 | a completed callback adds 1 to done of the record it belongs to, and 1 to errors on failure; that record has been started |
| Ledger.Settled | batch_send_benchmark.cpp:116-150 | once every submission of a trial has run, a record's errors are exactly the failures among its submissions; used for both lambdas (lines 116-123 and 143-150) |
| Ledger.FailuresOfOne | batch_send_benchmark.cpp:143-150 | the single combined submission fails exactly when the store answers it with a failure |
| Ledger.FailuresNone | batch_send_benchmark.cpp:116-123 | a store that never fails produces no error |
| Ledger.FailuresAll | batch_send_benchmark.cpp:116-123 | a store that always fails fails every submission |
| Bench.HSet | batch_send_benchmark.cpp:113 | one HSET command on the given hash, carrying the payload as its value; its field is the decimal rendering of the index (also the push at line 138) |
| Bench.HSetFieldReadsBack | batch_send_benchmark.cpp:113 | the field of a write reads back as the index it was made for |
| Bench.HSetFieldsDistinct | batch_send_benchmark.cpp:113 | writes with distinct indices differ and name distinct fields |
| Bench.BatchSendBenchmark.constructor | batch_send_benchmark.cpp:19-21 | fresh connection with an empty log; records "separate"/"s.hash" expecting n_req and "combined"/"c.hash" expecting 1; nothing in flight |
| Bench.BatchSendBenchmark.Payload | batch_send_benchmark.cpp:161-164 | exactly payload_size characters, all 'a' |
| Bench.BatchSendBenchmark.Prepare | batch_send_benchmark.cpp:94-99 | clears both records and nothing else; both then report completed and a new trial starts at the end of the log |
| Bench.BatchSendBenchmark.RunSeparateRequestsOnce | batch_send_benchmark.cpp:106-125 | marks the separate record started and appends n_req submissions; submission i is the single write HSET s.hash i payload, with the separate lambda |
| Bench.BatchSendBenchmark.SubmitSeparate | batch_send_benchmark.cpp:109-124 | the loop of the separate strategy: the log grows by n_req requests, request i holding the single write of field i, each with the separate lambda; no outcome is recorded |
| Bench.BatchSendBenchmark.RunCombinedRequestsOnce | batch_send_benchmark.cpp:132-151 | marks the combined record started and appends one submission of n_req writes HSET c.hash i payload in ascending i, with the combined lambda |
| Bench.BatchSendBenchmark.Deliver | batch_send_benchmark.cpp:116-123 | the lambda of submission k records its outcome on its own record (done+1, errors+1 on failure); the other record is unchanged |
| Bench.BatchSendBenchmark.CompletedIffDrained | batch_send_benchmark.cpp:82-85 | completed() holds exactly when every callback the record's trial issued has run; 0 <= errors <= done, and done <= total once started |
| Bench.BatchSendBenchmark.CompletedIsQuiescent | batch_send_benchmark.cpp:154 | when both records report completed, no callback is in flight |
| Bench.BatchSendBenchmark.PendingWhileIncomplete | batch_send_benchmark.cpp:154 | while a record is not completed some callback is still pending, so the wait loop always has one to run |
| Bench.BatchSendBenchmark.WaitForCompletion | batch_send_benchmark.cpp:152-160 | ends with both records completed and nothing in flight; every submission pending at entry resolved with the store's outcome; the log is unchanged |
| Bench.BatchSendBenchmark.Dispatch | batch_send_benchmark.cpp:48-53 | starts exactly the requested strategies and keeps the earlier log; the separate submissions come first, submission i the single write HSET s.hash i payload, then the combined one holding the n_req writes HSET c.hash i payload in ascending i |
| Bench.BatchSendBenchmark.TrialErrors | batch_send_benchmark.cpp:116-150 | after a drained trial, separate errors are the failures among its n_req submissions and combined errors is 1 exactly when its one submission failed |
| Bench.BatchSendBenchmark.Run | batch_send_benchmark.cpp:27-55 | a trial ends completed with nothing in flight, after submitting the separate writes and then the combined request (contents as for `Dispatch`). Separate ends with done = n_req (total n_req), combined with done = 1 (total 1); each counts as errors the store's failures for its submissions |
| Program.Configure | batch_send_benchmark.cpp:181-188 | more than two arguments is a usage error; a missing n_req defaults to 800 and a missing payload_size to 3000 |
| Program.RunBenchmark | batch_send_benchmark.cpp:189-195 | a fresh benchmark runs one trial; the status lines are those of the chosen strategies, empty for the others |
| Program.RunMain | batch_send_benchmark.cpp:179-211 | usage error gives exit code 1 and runs nothing; otherwise exit code 0 after the separate, combined and both benchmarks, with their final status lines |
| Program.SeparateRequestsScenario | batch_send_benchmark.cpp:106-125 | n_req = 3, payload size 5: three requests, HSET s.hash 0/1/2 aaaaa, one write each |
| Program.CombinedRequestScenario | batch_send_benchmark.cpp:132-151 | n_req = 3, payload size 5: one request holding HSET c.hash 0, 1, 2 aaaaa in that order |
| Program.SeparateScenario | batch_send_benchmark.cpp:86-92 | with a healthy store the separate status reads "separate 3 of 3 (with 0 errors)" and the combined one is empty |
| Program.CombinedScenario | batch_send_benchmark.cpp:86-92 | the combined status reads "combined 1 of 1 (with 0 errors)" whatever the number of writes |
| Program.PartialProgressScenario | batch_send_benchmark.cpp:154-158 | while waiting, with two of three separate callbacks run and the second failed, the separate status reads "separate 2 of 3 (with 1 errors)" |
| Program.EmptyScenario | batch_send_benchmark.cpp:106-151 | with n_req = 0 the payload is never built, so a negative payload size is harmless: "separate 0 of 0 (with 0 errors)" and "combined 1 of 1 (with 0 errors)" |
| Program.DroppedConnectionScenario | batch_send_benchmark.cpp:116-123 | when every round trip fails, the separate trial still completes and reads "separate 3 of 3 (with 3 errors)" |

## Left out

- I/O and the event loop are not modelled: the Asio `io_context`, the background `std::jthread`, `async_run` with its health-check setting and error logging (lines 29-43), and `stop()`/`cancel` with the destructor (lines 23-26, 56-60). The connection is a recorder of submissions.
- Concurrency is not modelled. In the source, callbacks run on the background thread and may run while requests are still being dispatched, and the counters are atomics. Here the counters are plain fields and all callbacks run during the wait, one per poll, in any order.
- Console output is not modelled: the usage text, the start/end messages, and the status lines printed while waiting. The status lines themselves are modelled (`Status`).
- The one-second sleep between polls is not modelled; only the loop's exit condition is.
- `runSeparateRequests` and `runCombinedRequests` (lines 100-105, 126-131) only add log lines around the `...Once` methods, so `Dispatch` calls those directly.
- Argument parsing with `std::stoi` is not modelled: `Configure` takes the arguments as the integers already read, and the exceptions `stoi` throws on malformed input are not modelled.
- 32-bit `int` is modelled as an unbounded integer. The counters never exceed n_req, so no wrap-around arises for valid arguments.
- The reply-size argument of the completion lambda is ignored.
- HSET semantics at the store and the wire encoding of requests are not modelled: a command is an opaque (verb, key, field, value) tuple.
- `Program.RunMain` answers submission k of each of the three connections with the same `outcome(k)`. The store's behaviour is not modelled beyond that.
- Bench.BatchSendBenchmark.constructor: requires n_req >= 0, and payload_size >= 0 when n_req > 0, which the source does not check. With a negative n_req the separate trial expects a negative number of callbacks and never reports completed. With n_req > 0 and a negative payload_size, `payload()` asks `std::string` for an impossible length; with n_req = 0 `payload()` is never called and the run is modelled.
- Bench.BatchSendBenchmark.Prepare: requires that no callback is in flight. The source leaves draining the previous trial to its caller, and `run` always waits before returning.
- Bench.BatchSendBenchmark.RunSeparateRequestsOnce: requires the separate record not to be started. In the source it is only ever called right after `prepare`; calling it twice would make done overshoot total.
- Bench.BatchSendBenchmark.RunCombinedRequestsOnce: requires the combined record not to be started, for the same reason.
- The combined strategy with n_req = 0 follows the code: it sends one empty request and expects one callback.
