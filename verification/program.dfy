/**
  The program's entry point: argument handling and the three benchmarks it
  runs, each on a fresh benchmark object with its own connection. The
  arguments are taken as the integers `std::stoi` has already read from
  them; the store is a parameter `outcome` that answers submission `k` of a
  connection with success (`true`) or failure (`false`).
 */
module Program {
  import Decimal
  import Ledger
  import opened Redis
  import opened Trial
  import opened Bench

  /** What the program does with its arguments: print the usage text, or benchmark. */
  datatype Launch = Usage | Benchmark(nReq: int, payloadSize: int)

  const DefaultRequests := 800
  const DefaultPayloadSize := 3000

  /**
    `args` are the positional arguments, so `argc == |args| + 1`. More than
    two is a usage error; a missing request count or payload size takes its
    default.
   */
  function Configure(args: seq<int>): (r: Launch)
    ensures r.Usage? <==> |args| > 2
    ensures |args| == 0 ==> r == Benchmark(DefaultRequests, DefaultPayloadSize)
    ensures |args| == 1 ==> r == Benchmark(args[0], DefaultPayloadSize)
    ensures |args| == 2 ==> r == Benchmark(args[0], args[1])
  {
    var argc := |args| + 1;
    if argc > 3 then Usage
    else
      var payloadSize := if argc > 2 then args[1] else DefaultPayloadSize;
      var nReq := if argc > 1 then args[0] else DefaultRequests;
      Benchmark(nReq, payloadSize)
  }

  /**
    One benchmark block: a fresh benchmark object runs one trial with the
    chosen strategies; the results are the status lines of its two records
    once the trial has finished.
   */
  method RunBenchmark(nReq: int, payloadSize: int, runS: bool, runC: bool, outcome: nat -> bool)
    returns (separate: string, combined: string)
    requires nReq >= 0 && (nReq > 0 ==> payloadSize >= 0)
    ensures separate == if runS then Progress("separate", nReq, nReq, Ledger.Failures(outcome, 0, nReq)) else ""
    ensures combined == if runC then Progress("combined", 1, 1, if outcome(if runS then nReq else 0) then 0 else 1)
                        else ""
  {
    var b := new BatchSendBenchmark(nReq, payloadSize);
    b.Run(runS, runC, outcome);
    separate, combined := b.s.Status(), b.c.Status();
  }

  /**
    Runs the program. The exit code is 1 on a usage error, with no benchmark
    run; otherwise it is 0 and `finals` holds, for the separate-only, the
    combined-only and the combined-and-separate benchmark in that order, the
    status lines of the two records once the benchmark has finished.
   */
  method RunMain(args: seq<int>, outcome: nat -> bool) returns (exitCode: int, finals: seq<(string, string)>)
    requires Configure(args).Benchmark? ==>
               Configure(args).nReq >= 0 && (Configure(args).nReq > 0 ==> Configure(args).payloadSize >= 0)
    ensures Configure(args).Usage? ==> exitCode == 1 && finals == []
    ensures Configure(args).Benchmark? ==>
              var n := Configure(args).nReq;
              var separate := Progress("separate", n, n, Ledger.Failures(outcome, 0, n));
              && exitCode == 0
              && finals == [(separate, ""),
                            ("", Progress("combined", 1, 1, if outcome(0) then 0 else 1)),
                            (separate, Progress("combined", 1, 1, if outcome(n) then 0 else 1))]
  {
    var launch := Configure(args);
    if launch.Usage? {
      return 1, [];
    }
    var s1, c1 := RunBenchmark(launch.nReq, launch.payloadSize, true, false, outcome);
    var s2, c2 := RunBenchmark(launch.nReq, launch.payloadSize, false, true, outcome);
    var s3, c3 := RunBenchmark(launch.nReq, launch.payloadSize, true, true, outcome);
    exitCode := 0;
    finals := [(s1, c1), (s2, c2), (s3, c3)];
  }

  /** A store that answers every round trip successfully. */
  function AllSucceed(k: nat): bool {
    true
  }

  /** A dropped connection: every round trip fails. */
  function AllFail(k: nat): bool {
    false
  }

  /** Three separate requests of a 5-byte payload: one single write per field, in field order. */
  method SeparateRequestsScenario() returns (requests: seq<Request>)
    ensures requests == [[Command("HSET", "s.hash", "0", "aaaaa")],
                         [Command("HSET", "s.hash", "1", "aaaaa")],
                         [Command("HSET", "s.hash", "2", "aaaaa")]]
  {
    var b := new BatchSendBenchmark(3, 5);
    b.Prepare();
    b.RunSeparateRequestsOnce();
    requests := b.conn.submitted;
    SmallFields();
    assert b.Payload() == "aaaaa";
    assert requests[0] == [HSet("s.hash", 0, b.Payload())];
    assert requests[1] == [HSet("s.hash", 1, b.Payload())];
    assert requests[2] == [HSet("s.hash", 2, b.Payload())];
  }

  /** The combined strategy sends one request holding the three writes. */
  method CombinedRequestScenario() returns (requests: seq<Request>)
    ensures requests == [[Command("HSET", "c.hash", "0", "aaaaa"),
                          Command("HSET", "c.hash", "1", "aaaaa"),
                          Command("HSET", "c.hash", "2", "aaaaa")]]
  {
    var b := new BatchSendBenchmark(3, 5);
    b.Prepare();
    b.RunCombinedRequestsOnce();
    requests := b.conn.submitted;
    SmallFields();
    assert b.Payload() == "aaaaa";
    var request := requests[0];
    assert |requests| == 1 && |request| == 3;
    assert request[0] == HSet("c.hash", 0, b.Payload());
    assert request[1] == HSet("c.hash", 1, b.Payload());
    assert request[2] == HSet("c.hash", 2, b.Payload());
    assert request == [HSet("c.hash", 0, "aaaaa"), HSet("c.hash", 1, "aaaaa"), HSet("c.hash", 2, "aaaaa")];
    assert HSet("c.hash", 0, "aaaaa") == Command("HSET", "c.hash", "0", "aaaaa");
  }

  lemma SmallFields()
    ensures Decimal.FromInt(0) == "0" && Decimal.FromInt(1) == "1"
    ensures Decimal.FromInt(2) == "2" && Decimal.FromInt(3) == "3"
  {
  }

  lemma SeparateHealthyLine()
    ensures Progress("separate", 3, 3, 0) == "separate 3 of 3 (with 0 errors)"
  {
    SmallFields();
  }

  lemma SeparateDroppedLine()
    ensures Progress("separate", 3, 3, 3) == "separate 3 of 3 (with 3 errors)"
  {
    SmallFields();
  }

  lemma PartialLine()
    ensures Progress("separate", 2, 3, 1) == "separate 2 of 3 (with 1 errors)"
  {
    SmallFields();
  }

  lemma EmptySeparateLine()
    ensures Progress("separate", 0, 0, 0) == "separate 0 of 0 (with 0 errors)"
  {
    SmallFields();
  }

  lemma CombinedLine()
    ensures Progress("combined", 1, 1, 0) == "combined 1 of 1 (with 0 errors)"
  {
    SmallFields();
  }

  /** A separate-only trial of three requests against a healthy store. */
  method SeparateScenario() returns (separate: string, combined: string)
    ensures separate == "separate 3 of 3 (with 0 errors)"
    ensures combined == ""
  {
    separate, combined := RunBenchmark(3, 5, true, false, AllSucceed);
    Ledger.FailuresNone(AllSucceed, 0, 3);
    SeparateHealthyLine();
  }

  /** A combined-only trial: one callback, whatever the number of writes. */
  method CombinedScenario() returns (separate: string, combined: string)
    ensures separate == ""
    ensures combined == "combined 1 of 1 (with 0 errors)"
  {
    separate, combined := RunBenchmark(3, 5, false, true, AllSucceed);
    CombinedLine();
  }

  /** A dropped connection: every callback still runs, each with a failure. */
  method DroppedConnectionScenario() returns (separate: string, combined: string)
    ensures separate == "separate 3 of 3 (with 3 errors)"
    ensures combined == ""
  {
    separate, combined := RunBenchmark(3, 5, true, false, AllFail);
    Ledger.FailuresAll(AllFail, 0, 3);
    SeparateDroppedLine();
  }

  /**
    The status line while waiting: two of the three separate callbacks have
    run, the second with a failure, and the third is still in flight.
   */
  method PartialProgressScenario() returns (separate: string, combined: string)
    ensures separate == "separate 2 of 3 (with 1 errors)"
    ensures combined == ""
  {
    var b := new BatchSendBenchmark(3, 5);
    b.Prepare();
    b.RunSeparateRequestsOnce();
    b.Deliver(0, true);
    b.Deliver(1, false);
    assert b.s.started && b.s.done == 2 && b.s.total == 3 && b.s.errors == 1 && !b.c.started;
    separate, combined := b.s.Status(), b.c.Status();
    PartialLine();
  }

  /**
    No writes and a negative payload size: the payload is never built, the
    separate trial completes at once and the combined one sends one empty
    request.
   */
  method EmptyScenario() returns (separate: string, combined: string)
    ensures separate == "separate 0 of 0 (with 0 errors)"
    ensures combined == "combined 1 of 1 (with 0 errors)"
  {
    separate, combined := RunBenchmark(0, -1, true, true, AllSucceed);
    Ledger.FailuresNone(AllSucceed, 0, 0);
    EmptySeparateLine();
    CombinedLine();
  }
}
