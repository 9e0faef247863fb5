/**
  The benchmark object: one connection, the number of writes per strategy,
  the payload size, and one accounting record per strategy. `Separate`
  sends `nReq` single-write requests, `Combined` one request holding `nReq`
  writes. Completion callbacks are explicit: `Deliver` is the body of the
  lambda each submission carries, and `WaitForCompletion` lets the
  background context run one pending callback per poll.

  The ghost bookkeeping ties each record to the connection's log: from the
  start of the current trial (`trialStart`), a started record expects one
  callback per submission it issued, `done` counts those whose callback has
  run and `errors` those that ran with a failure. So `Completed()` holds
  exactly when every callback of the trial has run (`CompletedIffDrained`).
 */
module Bench {
  import Decimal
  import opened Redis
  import opened Trial
  import opened Ledger

  /** Which completion lambda a submission carries. */
  datatype Strategy = Separate | Combined

  /** One hash-field write, with the field named by the decimal index. */
  function HSet(hash: string, i: int, payload: string): (cmd: Command)
    ensures cmd.verb == "HSET" && cmd.key == hash && cmd.value == payload
  {
    Command("HSET", hash, Decimal.FromInt(i), payload)
  }

  /** The field of a write reads back as the index it was made for. */
  lemma HSetFieldReadsBack(hash: string, i: int, payload: string)
    ensures Decimal.Parse(HSet(hash, i, payload).field) == Decimal.Some(i)
  {
    Decimal.ParseFromInt(i);
  }

  /** Writes with distinct indices name distinct fields. */
  lemma HSetFieldsDistinct(hash: string, i: int, j: int, payload: string)
    requires i != j
    ensures HSet(hash, i, payload) != HSet(hash, j, payload)
    ensures HSet(hash, i, payload).field != HSet(hash, j, payload).field
  {
    Decimal.FromIntInjective(i, j);
  }

  class BatchSendBenchmark {
    const conn: Connection<Strategy>
    const nReq: int
    const payloadSize: int
    const s: Config
    const c: Config
    /** Index of the first submission of the current trial. */
    ghost var trialStart: nat

    function Record(t: Strategy): (cfg: Config)
      ensures cfg == (if t == Separate then s else c)
    {
      if t == Separate then s else c
    }

    /** Submissions of the current trial that carry the lambda of `t`. */
    ghost function Issued(t: Strategy): set<nat>
      reads this, conn
    {
      Ledger.Issued(conn.handlers, trialStart, t)
    }

    /** Those whose callback has run. */
    ghost function Finished(t: Strategy): set<nat>
      reads this, conn
    {
      Ledger.Finished(conn.handlers, conn.results, trialStart, t)
    }

    /** Those whose callback has run with a failure. */
    ghost function Failed(t: Strategy): set<nat>
      reads this, conn
    {
      Ledger.Failed(conn.handlers, conn.results, trialStart, t)
    }

    ghost predicate Accounts(t: Strategy)
      reads this, conn, s, c
    {
      var cfg := Record(t);
      Ledger.Accounts(conn.handlers, conn.results, trialStart, t, cfg.started, cfg.total, cfg.done, cfg.errors)
    }

    ghost predicate Valid()
      reads this, conn, s, c
    {
      && s != c
      && conn.Valid() && s.Valid() && c.Valid()
      && nReq >= 0 && (nReq > 0 ==> payloadSize >= 0)
      && s.name == "separate" && s.hash == "s.hash" && s.total == nReq
      && c.name == "combined" && c.hash == "c.hash" && c.total == 1
      && trialStart <= |conn.submitted|
      && (forall k: nat :: k < trialStart ==> k in conn.results)
      && Accounts(Separate) && Accounts(Combined)
    }

    /** No callback is in flight. */
    predicate Quiescent()
      reads this, conn
    {
      conn.Pending() == {}
    }

    constructor (nReq: int, payloadSize: int)
      requires nReq >= 0 && (nReq > 0 ==> payloadSize >= 0)
      ensures Valid() && Quiescent()
      ensures fresh(conn) && fresh(s) && fresh(c)
      ensures this.nReq == nReq && this.payloadSize == payloadSize
      ensures conn.submitted == [] && !s.started && !c.started
    {
      conn := new Connection();
      this.nReq := nReq;
      this.payloadSize := payloadSize;
      s := new Config("separate", "s.hash", nReq);
      c := new Config("combined", "c.hash", 1);
      trialStart := 0;
      new;
      assert Issued(Separate) == {} && Issued(Combined) == {};
    }

    /** The value every write carries: `payloadSize` copies of 'a'. */
    function Payload(): (p: string)
      requires payloadSize >= 0
      ensures |p| == payloadSize
      ensures forall k :: 0 <= k < |p| ==> p[k] == 'a'
    {
      seq(payloadSize, _ => 'a')
    }

    /** Clears both records; the connection and its log are left alone. */
    method Prepare()
      requires Valid() && Quiescent()
      modifies this, s, c
      ensures Valid() && Quiescent()
      ensures s.Completed() && c.Completed()
      ensures !s.started && s.done == 0 && s.errors == 0
      ensures !c.started && c.done == 0 && c.errors == 0
      ensures trialStart == |conn.submitted|
    {
      s.Clear();
      c.Clear();
      trialStart := |conn.submitted|;
      assert Issued(Separate) == {} && Issued(Combined) == {};
      forall k: nat | k < trialStart
        ensures k in conn.results
      {
        assert k !in conn.Pending();
      }
    }


    /** Marks the separate record started and issues its `nReq` requests. */
    method RunSeparateRequestsOnce()
      requires Valid() && !s.started
      modifies s, conn
      ensures Valid() && s.started
      ensures s.done == 0 && s.errors == 0
      ensures |conn.submitted| == old(|conn.submitted|) + nReq
      ensures conn.submitted[..old(|conn.submitted|)] == old(conn.submitted)
      ensures forall i :: 0 <= i < nReq ==>
                conn.submitted[old(|conn.submitted|) + i] == [HSet("s.hash", i, Payload())]
      ensures conn.handlers == old(conn.handlers) + seq(nReq, _ => Separate)
      ensures conn.results == old(conn.results)
    {
      ghost var handlers0 := conn.handlers;
      s.started := true;
      SubmitSeparate();
      var more := seq(nReq, _ => Separate);
      Ledger.AccountsAfterDispatch(handlers0, more, conn.results, trialStart, Separate,
                                   s.total, s.done, s.errors);
      Ledger.AccountsOtherDispatch(handlers0, more, conn.results, trialStart, Separate,
                                   Combined, c.started, c.total, c.done, c.errors);
    }

    /** The loop of the separate strategy: request `i` holds the single write of field `i`. */
    method SubmitSeparate()
      requires conn.Valid() && nReq >= 0 && (nReq > 0 ==> payloadSize >= 0) && s.hash == "s.hash"
      modifies conn
      ensures conn.Valid()
      ensures |conn.submitted| == old(|conn.submitted|) + nReq
      ensures conn.submitted[..old(|conn.submitted|)] == old(conn.submitted)
      ensures forall i :: 0 <= i < nReq ==>
                conn.submitted[old(|conn.submitted|) + i] == [HSet("s.hash", i, Payload())]
      ensures conn.handlers == old(conn.handlers) + seq(nReq, _ => Separate)
      ensures conn.results == old(conn.results)
    {
      ghost var base, handlers0 := |conn.submitted|, conn.handlers;
      var i := 0;
      while i < nReq
        invariant 0 <= i <= nReq
        invariant conn.Valid()
        invariant |conn.submitted| == base + i
        invariant conn.submitted[..base] == old(conn.submitted)
        invariant forall j :: 0 <= j < i ==> conn.submitted[base + j] == [HSet("s.hash", j, Payload())]
        invariant conn.handlers == handlers0 + seq(i, _ => Separate)
        invariant conn.results == old(conn.results)
      {
        var request := [HSet(s.hash, i, Payload())];
        conn.AsyncExec(request, Separate);
        assert seq(i + 1, _ => Separate) == seq(i, _ => Separate) + [Separate];
        i := i + 1;
      }
    }

    /** Issues one request holding the `nReq` writes in ascending field order. */
    method RunCombinedRequestsOnce()
      requires Valid() && !c.started
      modifies c, conn
      ensures Valid() && c.started
      ensures c.done == 0 && c.errors == 0
      ensures |conn.submitted| == old(|conn.submitted|) + 1
      ensures conn.submitted[..old(|conn.submitted|)] == old(conn.submitted)
      ensures |conn.submitted[old(|conn.submitted|)]| == nReq
      ensures forall i :: 0 <= i < nReq ==>
                conn.submitted[old(|conn.submitted|)][i] == HSet("c.hash", i, Payload())
      ensures conn.handlers == old(conn.handlers) + [Combined]
      ensures conn.results == old(conn.results)
    {
      ghost var base, handlers0 := |conn.submitted|, conn.handlers;
      c.started := true;
      var request: Request := [];
      var i := 0;
      while i < nReq
        invariant 0 <= i <= nReq
        invariant |request| == i
        invariant forall j :: 0 <= j < i ==> request[j] == HSet("c.hash", j, Payload())
      {
        request := request + [HSet(c.hash, i, Payload())];
        i := i + 1;
      }
      conn.AsyncExec(request, Combined);
      Ledger.AccountsAfterDispatch(handlers0, [Combined], conn.results, trialStart, Combined,
                                   c.total, c.done, c.errors);
      Ledger.AccountsOtherDispatch(handlers0, [Combined], conn.results, trialStart, Combined,
                                   Separate, s.started, s.total, s.done, s.errors);
    }

    /** The completion lambda of submission `k`: one outcome for its record. */
    method Deliver(k: nat, ok: bool)
      requires Valid() && k in conn.Pending()
      modifies conn, s, c
      ensures Valid()
      ensures conn.submitted == old(conn.submitted) && conn.handlers == old(conn.handlers)
      ensures conn.results == old(conn.results)[k := ok]
      ensures var r := Record(conn.handlers[k]);
                r.done == old(r.done) + 1 && r.errors == old(r.errors) + (if ok then 0 else 1)
      ensures unchanged(Record(Other(conn.handlers[k])))
      ensures s.started == old(s.started) && c.started == old(c.started)
    {
      var t := conn.handlers[k];
      assert trialStart <= k;
      assert k in Issued(t);
      Ledger.AccountsAfterComplete(conn.handlers, conn.results, trialStart, k, ok,
                                   Separate, s.started, s.total, s.done, s.errors);
      Ledger.AccountsAfterComplete(conn.handlers, conn.results, trialStart, k, ok,
                                   Combined, c.started, c.total, c.done, c.errors);
      conn.Complete(k, ok);
      if t == Separate {
        s.RecordOutcome(ok);
      } else {
        c.RecordOutcome(ok);
      }
    }

    /**
      A record reports completion exactly when the callback of every
      submission its trial issued has run; its counts never exceed what it
      issued.
     */
    lemma CompletedIffDrained(t: Strategy)
      requires Valid()
      ensures Record(t).Completed() <==> forall k :: k in Issued(t) ==> k in conn.results
      ensures 0 <= Record(t).errors <= Record(t).done
      ensures Record(t).started ==> Record(t).done <= Record(t).total
    {
      Ledger.Bounds(conn.handlers, conn.results, trialStart, t);
    }

    /** With both records completed no callback is in flight. */
    lemma CompletedIsQuiescent()
      requires Valid() && s.Completed() && c.Completed()
      ensures Quiescent()
    {
      CompletedIffDrained(Separate);
      CompletedIffDrained(Combined);
      forall k: nat | k < |conn.submitted|
        ensures k in conn.results
      {
        if trialStart <= k {
          var t := conn.handlers[k];
          assert k in Issued(t) && Record(t).Completed();
        }
      }
      assert conn.Pending() == {};
    }

    /**
      The polling loop. Between two polls the background context runs the
      callback of some pending submission, which the store answers with
      `outcome`; the loop ends once both records report completion, which
      is then also the point where no callback is in flight.
     */
    method WaitForCompletion(outcome: nat -> bool)
      requires Valid()
      modifies conn, s, c
      ensures Valid() && Quiescent()
      ensures s.Completed() && c.Completed()
      ensures conn.submitted == old(conn.submitted) && conn.handlers == old(conn.handlers)
      ensures forall k :: k in conn.results ==>
                conn.results[k] == if k in old(conn.results) then old(conn.results)[k] else outcome(k)
      ensures s.started == old(s.started) && c.started == old(c.started)
    {
      ghost var results0 := conn.results;
      while !(s.Completed() && c.Completed())
        invariant Valid()
        invariant conn.submitted == old(conn.submitted) && conn.handlers == old(conn.handlers)
        invariant Resolves(results0, conn.results, outcome)
        invariant s.started == old(s.started) && c.started == old(c.started)
        decreases conn.Pending()
      {
        PendingWhileIncomplete();
        var k :| k in conn.Pending();
        ghost var before := conn.results;
        Deliver(k, outcome(k));
        ResolvesStep(results0, before, k, outcome);
      }
      CompletedIsQuiescent();
    }

    /** With no callback in flight every submission has its outcome. */
    lemma QuiescentResolved()
      requires Valid() && Quiescent()
      ensures forall k: nat :: k < |conn.submitted| ==> k in conn.results
    {
      forall k: nat | k < |conn.submitted|
        ensures k in conn.results
      {
        assert k !in conn.Pending();
      }
    }

    /** A record that has not completed still has a callback in flight. */
    lemma PendingWhileIncomplete()
      requires Valid() && !(s.Completed() && c.Completed())
      ensures conn.Pending() != {}
    {
      var t := if !s.Completed() then Separate else Combined;
      CompletedIffDrained(t);
      var j :| j in Issued(t) && j !in conn.results;
      assert j in conn.Pending();
    }

    /**
      One trial: clear both records, dispatch the chosen strategies, wait
      until every callback has run. The separate record ends with `nReq`
      done, the combined one with 1, each with as many errors as the store
      returned failures for its submissions.
     */
    method Run(runS: bool, runC: bool, outcome: nat -> bool)
      requires Valid() && Quiescent()
      modifies this, conn, s, c
      ensures Valid() && Quiescent()
      ensures s.Completed() && c.Completed()
      ensures s.started == runS && c.started == runC
      ensures trialStart == old(|conn.submitted|)
      ensures |conn.submitted| == trialStart + (if runS then nReq else 0) + (if runC then 1 else 0)
      ensures conn.submitted[..trialStart] == old(conn.submitted)
      ensures runS ==> forall i :: 0 <= i < nReq ==>
                conn.submitted[trialStart + i] == [HSet("s.hash", i, Payload())]
      ensures runC ==> var mid := trialStart + (if runS then nReq else 0);
                |conn.submitted[mid]| == nReq &&
                forall i :: 0 <= i < nReq ==> conn.submitted[mid][i] == HSet("c.hash", i, Payload())
      ensures s.done == (if runS then nReq else 0)
      ensures s.errors == (if runS then Failures(outcome, trialStart, trialStart + nReq) else 0)
      ensures c.done == (if runC then 1 else 0)
      ensures c.errors == (if runC && !outcome(trialStart + (if runS then nReq else 0)) then 1 else 0)
    {
      Prepare();
      Dispatch(runS, runC);
      WaitForCompletion(outcome);
      TrialErrors(outcome);
    }

    /**
      The dispatching part of a trial: the separate requests first, when
      asked for, then the combined one. The new submissions follow the log
      in that order and none of them has completed yet.
     */
    method Dispatch(runS: bool, runC: bool)
      requires Valid() && !s.started && !c.started
      requires trialStart == |conn.submitted| && forall k :: k in conn.results ==> k < trialStart
      modifies conn, s, c
      ensures Valid()
      ensures s.started == runS && c.started == runC
      ensures var mid := trialStart + (if runS then nReq else 0);
              && |conn.handlers| == mid + (if runC then 1 else 0)
              && forall k :: trialStart <= k < |conn.handlers| ==> (conn.handlers[k] == Separate <==> k < mid)
      ensures conn.submitted[..trialStart] == old(conn.submitted)
      ensures runS ==> forall i :: 0 <= i < nReq ==>
                conn.submitted[trialStart + i] == [HSet("s.hash", i, Payload())]
      ensures runC ==> var mid := trialStart + (if runS then nReq else 0);
                |conn.submitted[mid]| == nReq &&
                forall i :: 0 <= i < nReq ==> conn.submitted[mid][i] == HSet("c.hash", i, Payload())
      ensures conn.results == old(conn.results)
    {
      ghost var base := |conn.submitted|;
      if runS {
        RunSeparateRequestsOnce();
      }
      ghost var mid, h1 := |conn.submitted|, conn.handlers;
      assert forall k :: base <= k < mid ==> h1[k] == Separate;
      if runC {
        RunCombinedRequestsOnce();
      }
    }

    /**
      After a trial has drained, each record counts as errors exactly the
      submissions of its range that the store answered with a failure: the
      separate submissions come first, from `trialStart` on, the combined
      one follows them.
     */
    lemma TrialErrors(outcome: nat -> bool)
      requires Valid() && Quiescent()
      requires var mid := trialStart + (if s.started then nReq else 0);
               && |conn.handlers| == mid + (if c.started then 1 else 0)
               && forall k :: trialStart <= k < |conn.handlers| ==> (conn.handlers[k] == Separate <==> k < mid)
      requires forall k :: k in conn.results && k >= trialStart ==> conn.results[k] == outcome(k)
      ensures s.errors == (if s.started then Failures(outcome, trialStart, trialStart + nReq) else 0)
      ensures c.errors == (if c.started && !outcome(trialStart + (if s.started then nReq else 0)) then 1 else 0)
    {
      var mid := trialStart + (if s.started then nReq else 0);
      QuiescentResolved();
      if s.started {
        Ledger.Settled(conn.handlers, conn.results, outcome, trialStart, trialStart, mid, Separate,
                       s.total, s.done, s.errors);
      }
      if c.started {
        Ledger.Settled(conn.handlers, conn.results, outcome, trialStart, mid, mid + 1, Combined,
                       c.total, c.done, c.errors);
        Ledger.FailuresOfOne(outcome, mid);
      }
    }
  }

  /** The strategy whose record a callback of `t` leaves alone. */
  function Other(t: Strategy): (u: Strategy)
    ensures u != t
  {
    if t == Separate then Combined else Separate
  }
}
