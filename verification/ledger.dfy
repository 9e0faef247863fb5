/**
  Accounting over a connection's log, on plain values. Submissions are
  numbered in the order they were made; `handlers[k]` is the completion
  handler that submission `k` carries and `results` maps each submission
  whose handler has run to its outcome. For the submissions of one trial
  (those numbered from `from` on) and one handler `t`, `Issued` is the set
  that carries `t`, `Finished` the part of it whose handler has run and
  `Failed` the part that ran with a failure.
 */
module Ledger {

  /**
    `after` keeps every outcome of `before`, and every outcome it adds is the
    store's answer for that submission.
   */
  ghost predicate Resolves(before: map<nat, bool>, after: map<nat, bool>, outcome: nat -> bool) {
    && before.Keys <= after.Keys
    && forall k :: k in after ==> after[k] == if k in before then before[k] else outcome(k)
  }

  /** Resolving one more submission with the store's answer keeps `Resolves`. */
  lemma ResolvesStep(before: map<nat, bool>, after: map<nat, bool>, k: nat, outcome: nat -> bool)
    requires Resolves(before, after, outcome) && k !in after
    ensures Resolves(before, after[k := outcome(k)], outcome)
  {
  }

  /** The submission numbers `lo .. hi - 1`. */
  ghost function Interval(lo: nat, hi: nat): (r: set<nat>)
    ensures forall k :: k in r <==> lo <= k < hi
    ensures |r| == if lo <= hi then hi - lo else 0
    decreases hi
  {
    if hi <= lo then {} else Interval(lo, hi - 1) + {hi - 1}
  }

  ghost function Issued<H>(handlers: seq<H>, from: nat, t: H): set<nat> {
    set k: nat | from <= k < |handlers| && handlers[k] == t
  }

  ghost function Finished<H>(handlers: seq<H>, results: map<nat, bool>, from: nat, t: H): set<nat> {
    set k: nat | from <= k < |handlers| && handlers[k] == t && k in results
  }

  ghost function Failed<H>(handlers: seq<H>, results: map<nat, bool>, from: nat, t: H): set<nat> {
    set k: nat | from <= k < |handlers| && handlers[k] == t && k in results && !results[k]
  }

  /**
    How a trial's accounting record relates to the log. A started record
    expects one callback per submission it issued; its `done` counts those
    whose callback has run and its `errors` those that ran with a failure.
    A record that has not started issued nothing and counts nothing.
   */
  ghost predicate Accounts<H>(handlers: seq<H>, results: map<nat, bool>, from: nat, t: H,
                              started: bool, total: int, done: int, errors: int)
  {
    && (started ==>
          && |Issued(handlers, from, t)| == total
          && done == |Finished(handlers, results, from, t)|
          && errors == |Failed(handlers, results, from, t)|)
    && (!started ==> Issued(handlers, from, t) == {} && done == 0 && errors == 0)
  }

  /** The number of submissions in `lo .. hi - 1` that the store answers with a failure. */
  ghost function Failures(outcome: nat -> bool, lo: nat, hi: nat): nat {
    |set k: nat | lo <= k < hi && !outcome(k)|
  }

  /** A subset is no larger, and a subset of the same size is the whole set. */
  lemma {:induction false} SubsetSize<T>(a: set<T>, b: set<T>)
    requires a <= b
    ensures |a| <= |b|
    ensures |a| == |b| ==> a == b
    decreases b
  {
    if b != {} {
      var x :| x in b;
      if x in a {
        SubsetSize(a - {x}, b - {x});
        assert a == (a - {x}) + {x} && b == (b - {x}) + {x};
      } else {
        SubsetSize(a, b - {x});
      }
    }
  }

  /**
    The counts of a trial never exceed what it issued, and a trial whose
    finished count reaches its issued count has no submission left pending.
   */
  lemma Bounds<H>(handlers: seq<H>, results: map<nat, bool>, from: nat, t: H)
    ensures |Failed(handlers, results, from, t)| <= |Finished(handlers, results, from, t)|
    ensures |Finished(handlers, results, from, t)| <= |Issued(handlers, from, t)|
    ensures |Finished(handlers, results, from, t)| == |Issued(handlers, from, t)| <==>
            forall k :: k in Issued(handlers, from, t) ==> k in results
  {
    var issued, finished := Issued(handlers, from, t), Finished(handlers, results, from, t);
    SubsetSize(Failed(handlers, results, from, t), finished);
    SubsetSize(finished, issued);
    if forall k :: k in issued ==> k in results {
      assert finished == issued;
    }
  }

  /**
    Running the handler of pending submission `k` with outcome `ok` adds one
    to the finished count of its handler, and one to the failed count when
    `ok` is false; nothing else changes.
   */
  lemma CompleteOne<H>(handlers: seq<H>, results: map<nat, bool>, from: nat, k: nat, ok: bool, t: H)
    requires from <= k < |handlers| && k !in results
    ensures |Finished(handlers, results[k := ok], from, t)|
            == |Finished(handlers, results, from, t)| + (if handlers[k] == t then 1 else 0)
    ensures |Failed(handlers, results[k := ok], from, t)|
            == |Failed(handlers, results, from, t)| + (if handlers[k] == t && !ok then 1 else 0)
  {
    FinishedStep(handlers, results, from, k, ok, t);
    FailedStep(handlers, results, from, k, ok, t);
  }

  lemma FinishedStep<H>(handlers: seq<H>, results: map<nat, bool>, from: nat, k: nat, ok: bool, t: H)
    requires from <= k < |handlers| && k !in results
    ensures Finished(handlers, results[k := ok], from, t)
            == Finished(handlers, results, from, t) + (if handlers[k] == t then {k} else {})
  {
  }

  lemma FailedStep<H>(handlers: seq<H>, results: map<nat, bool>, from: nat, k: nat, ok: bool, t: H)
    requires from <= k < |handlers| && k !in results
    ensures Failed(handlers, results[k := ok], from, t)
            == Failed(handlers, results, from, t) + (if handlers[k] == t && !ok then {k} else {})
  {
  }

  /**
    Appending submissions that all carry handler `u`, none of them finished:
    `u`'s issued set grows by their numbers, every other issued set and
    every finished and failed set stays as it was.
   */
  lemma Append<H>(handlers: seq<H>, more: seq<H>, results: map<nat, bool>, from: nat, u: H, t: H)
    requires from <= |handlers|
    requires forall k :: k in results ==> k < |handlers|
    requires forall k :: 0 <= k < |more| ==> more[k] == u
    ensures Issued(handlers + more, from, t)
            == Issued(handlers, from, t) + (if t == u then Interval(|handlers|, |handlers| + |more|) else {})
    ensures Finished(handlers + more, results, from, t) == Finished(handlers, results, from, t)
    ensures Failed(handlers + more, results, from, t) == Failed(handlers, results, from, t)
  {
  }

  /**
    Once every submission of a trial has run with the outcome the store
    gives it, a started record whose submissions are exactly `lo .. hi - 1`
    counts as errors exactly the failures of that range.
   */
  lemma Settled<H>(handlers: seq<H>, results: map<nat, bool>, outcome: nat -> bool, from: nat,
                   lo: nat, hi: nat, t: H, total: int, done: int, errors: int)
    requires from <= lo <= hi <= |handlers|
    requires forall k :: from <= k < |handlers| ==> (handlers[k] == t <==> lo <= k < hi)
    requires forall k: nat :: from <= k < |handlers| ==> k in results && results[k] == outcome(k)
    requires Accounts(handlers, results, from, t, true, total, done, errors)
    ensures errors == Failures(outcome, lo, hi)
  {
    assert Failed(handlers, results, from, t) == set k: nat | lo <= k < hi && !outcome(k);
  }

  /** A single submission fails exactly when the store answers it with a failure. */
  lemma FailuresOfOne(outcome: nat -> bool, k: nat)
    ensures Failures(outcome, k, k + 1) == if outcome(k) then 0 else 1
  {
    if outcome(k) {
      assert (set j: nat | k <= j < k + 1 && !outcome(j)) == {};
    } else {
      assert (set j: nat | k <= j < k + 1 && !outcome(j)) == {k};
    }
  }

  /** A store that answers everything successfully produces no failure. */
  lemma FailuresNone(outcome: nat -> bool, lo: nat, hi: nat)
    requires forall k :: outcome(k)
    ensures Failures(outcome, lo, hi) == 0
  {
  }

  /** A store that answers everything with a failure fails every submission. */
  lemma FailuresAll(outcome: nat -> bool, lo: nat, hi: nat)
    requires lo <= hi
    requires forall k :: !outcome(k)
    ensures Failures(outcome, lo, hi) == hi - lo
  {
    assert (set k: nat | lo <= k < hi && !outcome(k)) == Interval(lo, hi);
  }

  /**
    Dispatching: an idle record that issues `more` submissions, all carrying
    its handler `u`, and expects as many callbacks becomes a started record
    with nothing done yet.
   */
  lemma AccountsAfterDispatch<H>(handlers: seq<H>, more: seq<H>, results: map<nat, bool>, from: nat, u: H,
                                 total: int, done: int, errors: int)
    requires from <= |handlers|
    requires forall k :: k in results ==> k < |handlers|
    requires forall k :: 0 <= k < |more| ==> more[k] == u
    requires Accounts(handlers, results, from, u, false, total, done, errors)
    requires total == |more|
    ensures Accounts(handlers + more, results, from, u, true, total, done, errors)
  {
    Append(handlers, more, results, from, u, u);
    Bounds(handlers, results, from, u);
    var added := Interval(|handlers|, |handlers| + |more|);
    assert Issued(handlers + more, from, u) == added;
    assert |Finished(handlers + more, results, from, u)| == 0;
    assert |Failed(handlers + more, results, from, u)| == 0;
  }

  /** Dispatching for handler `u` leaves the accounts of any other handler as they were. */
  lemma AccountsOtherDispatch<H>(handlers: seq<H>, more: seq<H>, results: map<nat, bool>, from: nat, u: H,
                                 t: H, started: bool, total: int, done: int, errors: int)
    requires from <= |handlers| && t != u
    requires forall k :: k in results ==> k < |handlers|
    requires forall k :: 0 <= k < |more| ==> more[k] == u
    requires Accounts(handlers, results, from, t, started, total, done, errors)
    ensures Accounts(handlers + more, results, from, t, started, total, done, errors)
  {
    Append(handlers, more, results, from, u, t);
  }

  /**
    Completion: running the callback of pending submission `k` with outcome
    `ok` adds one to the done count of the record it belongs to, and one
    to its error count when `ok` is false; that record has been started.
   */
  lemma AccountsAfterComplete<H>(handlers: seq<H>, results: map<nat, bool>, from: nat, k: nat, ok: bool,
                                 t: H, started: bool, total: int, done: int, errors: int)
    requires from <= k < |handlers| && k !in results
    requires Accounts(handlers, results, from, t, started, total, done, errors)
    ensures handlers[k] == t ==> started
    ensures Accounts(handlers, results[k := ok], from, t, started, total,
                     done + (if handlers[k] == t then 1 else 0),
                     errors + (if handlers[k] == t && !ok then 1 else 0))
  {
    if handlers[k] == t {
      assert k in Issued(handlers, from, t);
    }
    CompleteOne(handlers, results, from, k, ok, t);
  }
}
