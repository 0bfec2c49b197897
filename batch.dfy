/**
 * The shape of the batch loops of the front ends: for each time of the
 * sequence, the file found for that time (None when there is none) is
 * handed to a one-time computation together with the current settings;
 * a `{}` result writes nothing, an exception ends the run, and the
 * settings the call leaves are those the next time sees.
 */
module Batch {
  import opened Wrappers

  /** One call: the product (None for `{}`) and the settings it leaves. */
  datatype Stepped<S, O> = Stepped(out: Option<O>, after: S)

  /** The product of one time, kept unless the call returned `{}`. */
  function Kept<T>(o: Option<T>): (r: seq<T>)
    ensures |r| == (if o.Some? then 1 else 0)
    ensures o.Some? ==> r == [o.value]
  {
    if o.None? then [] else [o.value]
  }

  /** The rest of a loop after `written` was written: an exception ends the whole run. */
  function Then<T>(written: seq<T>, rest: Result<seq<T>>): (r: Result<seq<T>>)
    ensures rest.Fail? ==> r == Fail(rest.err)
    ensures rest.Ok? ==> r == Ok(written + rest.value)
    ensures written == [] ==> r == rest
  {
    match rest
    case Fail(e) => Fail(e)
    case Ok(s) =>
      assert written == [] ==> written + s == s;
      Ok(written + s)
  }

  /** The number of times for which a file is found. */
  function WithFile<F>(lookup: int -> Option<F>, times: seq<int>): (n: nat)
    ensures n <= |times|
  {
    if times == [] then 0 else (if lookup(times[0]).Some? then 1 else 0) + WithFile(lookup, times[1..])
  }

  /** The loop as the front ends write it: the settings are threaded from one time to the next. */
  function Run<F, S, O>(step: (Option<F>, S) -> Result<Stepped<S, O>>, lookup: int -> Option<F>, times: seq<int>,
                        st: S): (r: Result<seq<O>>)
    ensures times == [] ==> r == Ok([])
    decreases |times|
  {
    if times == [] then Ok([])
    else
      match step(lookup(times[0]), st)
      case Fail(err) => Fail(err)
      case Ok(s) => Then(Kept(s.out), Run(step, lookup, times[1..], s.after))
  }

  /** The loop with every time computed from the same settings, as with a deep copy per time. */
  function RunCopied<F, S, O>(step: (Option<F>, S) -> Result<Stepped<S, O>>, lookup: int -> Option<F>,
                              times: seq<int>, st: S): (r: Result<seq<O>>)
    ensures times == [] ==> r == Ok([])
    decreases |times|
  {
    if times == [] then Ok([])
    else
      match step(lookup(times[0]), st)
      case Fail(err) => Fail(err)
      case Ok(s) => Then(Kept(s.out), RunCopied(step, lookup, times[1..], st))
  }

  /** A one-time computation that gives a product exactly when a file was found. */
  ghost predicate ProductIffFile<F(!new), S(!new), O>(step: (Option<F>, S) -> Result<Stepped<S, O>>)
  {
    forall f, s :: step(f, s).Ok? ==> (step(f, s).value.out.Some? <==> f.Some?)
  }

  /** Such a loop writes one product per time with a file. */
  lemma {:induction false} RunCount<F(!new), S(!new), O>(step: (Option<F>, S) -> Result<Stepped<S, O>>,
                                             lookup: int -> Option<F>, times: seq<int>, st: S)
    requires ProductIffFile(step)
    ensures Run(step, lookup, times, st).Ok? ==> |Run(step, lookup, times, st).value| == WithFile(lookup, times)
    decreases |times|
  {
    if times != [] {
      var s := step(lookup(times[0]), st);
      if s.Ok? {
        RunCount(step, lookup, times[1..], s.value.after);
      }
    }
  }

  /**
   * A one-time computation that keeps the settings invariant `Inv` and,
   * from settings satisfying it, gives only products satisfying `P`.
   */
  ghost predicate ProductsSatisfy<F(!new), S(!new), O>(step: (Option<F>, S) -> Result<Stepped<S, O>>, Inv: S -> bool,
                                                       P: O -> bool)
  {
    forall f, s :: Inv(s) && step(f, s).Ok? ==>
      Inv(step(f, s).value.after) && (step(f, s).value.out.Some? ==> P(step(f, s).value.out.value))
  }

  /** Then every product the threaded loop writes from such settings satisfies `P`. */
  lemma {:induction false} RunProductsSatisfy<F(!new), S(!new), O>(step: (Option<F>, S) -> Result<Stepped<S, O>>,
                                                       Inv: S -> bool, P: O -> bool, lookup: int -> Option<F>,
                                                       times: seq<int>, st: S)
    requires ProductsSatisfy(step, Inv, P) && Inv(st)
    ensures Run(step, lookup, times, st).Ok? ==>
      forall j :: 0 <= j < |Run(step, lookup, times, st).value| ==> P(Run(step, lookup, times, st).value[j])
    decreases |times|
  {
    if times != [] {
      var s := step(lookup(times[0]), st);
      if s.Ok? {
        RunProductsSatisfy(step, Inv, P, lookup, times[1..], s.value.after);
      }
    }
  }

  /** The same for the copied loop. */
  lemma {:induction false} RunCopiedCount<F(!new), S(!new), O>(step: (Option<F>, S) -> Result<Stepped<S, O>>,
                                                   lookup: int -> Option<F>, times: seq<int>, st: S)
    requires ProductIffFile(step)
    ensures RunCopied(step, lookup, times, st).Ok? ==>
      |RunCopied(step, lookup, times, st).value| == WithFile(lookup, times)
    decreases |times|
  {
    if times != [] {
      var s := step(lookup(times[0]), st);
      if s.Ok? {
        RunCopiedCount(step, lookup, times[1..], st);
      }
    }
  }

  /**
   * With a copy per time a time's product does not depend on the times
   * before it: a run over `ts1 + ts2` writes the products of a run over
   * `ts1` and then those of a run over `ts2`.
   */
  lemma {:induction false} RunCopiedSplits<F, S, O>(step: (Option<F>, S) -> Result<Stepped<S, O>>,
                                                    lookup: int -> Option<F>, ts1: seq<int>, ts2: seq<int>, st: S)
    ensures RunCopied(step, lookup, ts1 + ts2, st) ==
      (match RunCopied(step, lookup, ts1, st)
       case Fail(err) => Fail(err)
       case Ok(w) => Then(w, RunCopied(step, lookup, ts2, st)))
    decreases |ts1|
  {
    if ts1 == [] {
      assert ts1 + ts2 == ts2;
      var tail := RunCopied(step, lookup, ts2, st);
      if tail.Ok? {
        assert [] + tail.value == tail.value;
      }
    } else {
      assert (ts1 + ts2)[0] == ts1[0];
      assert (ts1 + ts2)[1..] == ts1[1..] + ts2;
      RunCopiedSplits(step, lookup, ts1[1..], ts2, st);
      match step(lookup(ts1[0]), st)
      case Fail(_) =>
      case Ok(s) =>
        var rest := RunCopied(step, lookup, ts1[1..], st);
        if rest.Ok? {
          var tail := RunCopied(step, lookup, ts2, st);
          if tail.Ok? {
            assert Kept(s.out) + (rest.value + tail.value) == (Kept(s.out) + rest.value) + tail.value;
          }
        }
    }
  }

  /**
   * When a time without a file leaves the settings as they were, a run
   * in which no time has a file writes nothing and succeeds.
   */
  lemma {:induction false} RunNoFiles<F, S, O>(step: (Option<F>, S) -> Result<Stepped<S, O>>,
                                               lookup: int -> Option<F>, times: seq<int>, st: S)
    requires step(None, st) == Ok(Stepped(None, st))
    requires forall t :: t in times ==> lookup(t) == None
    ensures Run(step, lookup, times, st) == Ok([])
    decreases |times|
  {
    if times != [] {
      var t0 := times[0];
      assert t0 in times;
      assert lookup(t0) == None;
      assert step(lookup(t0), st) == Ok(Stepped(None, st));
      assert forall t :: t in times[1..] ==> t in times;
      RunNoFiles(step, lookup, times[1..], st);
      assert Run(step, lookup, times, st) == Then(Kept<O>(None), Ok([]));
      assert Kept<O>(None) + [] == [];
    }
  }

  /** Two times, threaded: the second time sees what the first one left. */
  lemma RunTwo<F, S, O>(step: (Option<F>, S) -> Result<Stepped<S, O>>, lookup: int -> Option<F>, t1: int, t2: int,
                        st: S)
    requires step(lookup(t1), st).Ok?
    ensures Run(step, lookup, [t1, t2], st) ==
      Then(Kept(step(lookup(t1), st).value.out), Run(step, lookup, [t2], step(lookup(t1), st).value.after))
  {
    assert [t1, t2][1..] == [t2];
  }

  /** Writing `a` and then what a run after `b` writes is writing `a + b` first. */
  lemma ThenThen<T>(a: seq<T>, b: seq<T>, rest: Result<seq<T>>)
    ensures Then(a, Then(b, rest)) == Then(a + b, rest)
  {
    if rest.Ok? {
      assert a + (b + rest.value) == (a + b) + rest.value;
    }
  }

  /**
   * One more time of the threaded loop: after `written`, a time whose call
   * gives `out` and leaves `after` adds `Kept(out)`, and the rest runs on
   * `after`.
   */
  lemma RunAdvance<F, S, O>(step: (Option<F>, S) -> Result<Stepped<S, O>>, lookup: int -> Option<F>, times: seq<int>,
                            i: nat, written: seq<O>, st: S, out: Option<O>, after: S)
    requires i < |times| && step(lookup(times[i]), st) == Ok(Stepped(out, after))
    ensures Then(written, Run(step, lookup, times[i..], st)) ==
      Then(written + Kept(out), Run(step, lookup, times[i + 1..], after))
  {
    assert times[i..][0] == times[i] && times[i..][1..] == times[i + 1..];
    ThenThen(written, Kept(out), Run(step, lookup, times[i + 1..], after));
  }

  /** A time whose call raises ends the threaded loop with that exception. */
  lemma RunStops<F, S, O>(step: (Option<F>, S) -> Result<Stepped<S, O>>, lookup: int -> Option<F>, times: seq<int>,
                          i: nat, written: seq<O>, st: S, err: Error)
    requires i < |times| && step(lookup(times[i]), st) == Fail(err)
    ensures Then(written, Run(step, lookup, times[i..], st)) == Fail(err)
  {
    assert times[i..][0] == times[i];
  }

  /** The same two facts for the copied loop. */
  lemma RunCopiedAdvance<F, S, O>(step: (Option<F>, S) -> Result<Stepped<S, O>>, lookup: int -> Option<F>,
                                  times: seq<int>, i: nat, written: seq<O>, st: S, out: Option<O>)
    requires i < |times| && step(lookup(times[i]), st).Ok? && step(lookup(times[i]), st).value.out == out
    ensures Then(written, RunCopied(step, lookup, times[i..], st)) ==
      Then(written + Kept(out), RunCopied(step, lookup, times[i + 1..], st))
  {
    assert times[i..][0] == times[i] && times[i..][1..] == times[i + 1..];
    ThenThen(written, Kept(out), RunCopied(step, lookup, times[i + 1..], st));
  }

  /** A time whose call raises ends the copied loop with that exception. */
  lemma RunCopiedStops<F, S, O>(step: (Option<F>, S) -> Result<Stepped<S, O>>, lookup: int -> Option<F>,
                                times: seq<int>, i: nat, written: seq<O>, st: S, err: Error)
    requires i < |times| && step(lookup(times[i]), st) == Fail(err)
    ensures Then(written, RunCopied(step, lookup, times[i..], st)) == Fail(err)
  {
    assert times[i..][0] == times[i];
  }

  /** At the end of the times nothing is left to write. */
  lemma RunDone<F, S, O>(step: (Option<F>, S) -> Result<Stepped<S, O>>, lookup: int -> Option<F>, times: seq<int>,
                         written: seq<O>, st: S)
    ensures Then(written, Run(step, lookup, times[|times|..], st)) == Ok(written)
    ensures Then(written, RunCopied(step, lookup, times[|times|..], st)) == Ok(written)
  {
    assert times[|times|..] == [];
    assert written + [] == written;
  }
}
