/**
  The per-trial accounting record of the benchmark (`Config` in the
  source): a name and target hash for reporting, the number of completion
  callbacks the trial expects, a started flag and two counters that the
  completion callbacks advance. The counters are atomics in the source; here
  they are plain fields and each callback is one call of `RecordOutcome`.
 */
module Trial {
  import Decimal

  class Config {
    var name: string
    var hash: string
    var total: int
    var started: bool
    var errors: int
    var done: int

    /** Counters never go negative and a failure is always also counted as done. */
    ghost predicate Valid()
      reads this
    {
      0 <= errors <= done
    }

    constructor (configName: string, hashName: string, expected: int)
      ensures Valid()
      ensures name == configName && hash == hashName && total == expected
      ensures !started && errors == 0 && done == 0
    {
      name := configName;
      hash := hashName;
      total := expected;
      started := false;
      errors := 0;
      done := 0;
    }

    /** Resets the record for a new trial; identity and target stay. */
    method Clear()
      modifies this
      ensures Valid() && Completed()
      ensures !started && errors == 0 && done == 0
      ensures name == old(name) && hash == old(hash) && total == old(total)
    {
      started := false;
      errors := 0;
      done := 0;
    }

    /** The condition the waiting loop polls for. */
    predicate Completed()
      reads this
    {
      !started || done == total
    }

    /** The progress line; empty for a trial that was not started. */
    function Status(): (line: string)
      reads this
      ensures line == "" <==> !started
      ensures started ==> line == Progress(name, done, total, errors)
    {
      if !started then "" else Progress(name, done, total, errors)
    }

    /** One completion callback: every outcome is done, a failure is also an error. */
    method RecordOutcome(ok: bool)
      requires Valid()
      modifies this
      ensures Valid()
      ensures done == old(done) + 1
      ensures errors == old(errors) + (if ok then 0 else 1)
      ensures name == old(name) && hash == old(hash) && total == old(total)
      ensures started == old(started)
    {
      if !ok {
        errors := errors + 1;
      }
      done := done + 1;
    }
  }

  /**
    The progress line of a started trial: its name, then the decimal
    renderings of the done count, the expected total and the error count,
    as in "separate 2 of 3 (with 1 errors)".
   */
  function Progress(name: string, done: int, total: int, errors: int): (line: string)
    ensures |name| + 1 <= |line| && line[..|name| + 1] == name + " "
    ensures |line| >= 8 && line[|line| - 8..] == " errors)"
  {
    name + " " + Decimal.FromInt(done) + TotalPart(total, errors)
  }

  predicate NoSpace(s: string) {
    forall k :: 0 <= k < |s| ==> s[k] != ' '
  }

  lemma RenderingHasNoSpace(n: int)
    ensures NoSpace(Decimal.FromInt(n))
  {
  }

  /** The position of the first space in `w`, or `|w|` when there is none. */
  function SpaceIndex(w: string): (i: nat)
    ensures i <= |w|
  {
    if |w| == 0 || w[0] == ' ' then 0 else 1 + SpaceIndex(w[1..])
  }

  lemma {:induction false} SpaceIndexAfterWord(a: string, x: string)
    requires NoSpace(a) && |x| > 0 && x[0] == ' '
    ensures SpaceIndex(a + x) == |a|
    decreases |a|
  {
    if |a| == 0 {
      assert a + x == x;
    } else {
      assert (a + x)[1..] == a[1..] + x;
      SpaceIndexAfterWord(a[1..], x);
    }
  }

  /** Two words without a space, each followed by text that starts with a space, split the same way. */
  lemma SplitAtSpace(a: string, x: string, b: string, y: string)
    requires NoSpace(a) && NoSpace(b)
    requires |x| > 0 && x[0] == ' ' && |y| > 0 && y[0] == ' '
    requires a + x == b + y
    ensures a == b && x == y
  {
    SpaceIndexAfterWord(a, x);
    SpaceIndexAfterWord(b, y);
    assert a == (a + x)[..|a|] && b == (b + y)[..|b|];
    assert x == (a + x)[|a|..] && y == (b + y)[|b|..];
  }

  lemma StripPrefix(p: string, x: string, y: string)
    requires p + x == p + y
    ensures x == y
  {
    assert x == (p + x)[|p|..] && y == (p + y)[|p|..];
  }

  /** The part of a progress line after the total. */
  function ErrorsPart(errors: int): (p: string)
    ensures |p| > 0 && p[0] == ' '
  {
    " (with " + Decimal.FromInt(errors) + " errors)"
  }

  /** The part of a progress line after the done count. */
  function TotalPart(total: int, errors: int): (p: string)
    ensures |p| > 0 && p[0] == ' '
  {
    " of " + Decimal.FromInt(total) + ErrorsPart(errors)
  }

  lemma ErrorsPartShape(errors: int)
    ensures ErrorsPart(errors) == " (with " + (Decimal.FromInt(errors) + " errors)")
  {
  }

  lemma TotalPartShape(total: int, errors: int)
    ensures TotalPart(total, errors) == " of " + (Decimal.FromInt(total) + ErrorsPart(errors))
  {
  }

  lemma ProgressShape(name: string, done: int, total: int, errors: int)
    ensures Progress(name, done, total, errors) == (name + " ") + (Decimal.FromInt(done) + TotalPart(total, errors))
  {
  }

  /** A word without a space followed by text that starts with a space determines both. */
  lemma Unglue(p: string, a: string, x: string, b: string, y: string)
    requires NoSpace(a) && NoSpace(b)
    requires |x| > 0 && x[0] == ' ' && |y| > 0 && y[0] == ' '
    requires p + (a + x) == p + (b + y)
    ensures a == b && x == y
  {
    StripPrefix(p, a + x, b + y);
    SplitAtSpace(a, x, b, y);
  }

  lemma ErrorsPartDetermines(errors: int, errors': int)
    requires ErrorsPart(errors) == ErrorsPart(errors')
    ensures errors == errors'
  {
    ErrorsPartShape(errors);
    ErrorsPartShape(errors');
    RenderingHasNoSpace(errors);
    RenderingHasNoSpace(errors');
    Unglue(" (with ", Decimal.FromInt(errors), " errors)", Decimal.FromInt(errors'), " errors)");
    Decimal.ParseFromInt(errors);
    Decimal.ParseFromInt(errors');
  }

  lemma TotalPartDetermines(total: int, errors: int, total': int, errors': int)
    requires TotalPart(total, errors) == TotalPart(total', errors')
    ensures total == total' && errors == errors'
  {
    TotalPartShape(total, errors);
    TotalPartShape(total', errors');
    RenderingHasNoSpace(total);
    RenderingHasNoSpace(total');
    Unglue(" of ", Decimal.FromInt(total), ErrorsPart(errors), Decimal.FromInt(total'), ErrorsPart(errors'));
    ErrorsPartDetermines(errors, errors');
    Decimal.ParseFromInt(total);
    Decimal.ParseFromInt(total');
  }

  /**
    A progress line determines the counts it reports: two lines of the same
    record are equal only when their done, total and error counts are.
   */
  lemma ProgressDetermines(name: string, done: int, total: int, errors: int,
                           done': int, total': int, errors': int)
    ensures Progress(name, done, total, errors) == Progress(name, done', total', errors') <==>
            done == done' && total == total' && errors == errors'
  {
    if Progress(name, done, total, errors) == Progress(name, done', total', errors') {
      ProgressShape(name, done, total, errors);
      ProgressShape(name, done', total', errors');
      RenderingHasNoSpace(done);
      RenderingHasNoSpace(done');
      Unglue(name + " ", Decimal.FromInt(done), TotalPart(total, errors),
             Decimal.FromInt(done'), TotalPart(total', errors'));
      TotalPartDetermines(total, errors, total', errors');
      Decimal.ParseFromInt(done);
      Decimal.ParseFromInt(done');
    }
  }
}
