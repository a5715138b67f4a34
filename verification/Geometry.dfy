/** The capture-geometry ladder: what an open asks for, and how a failed open falls back. */
module Geometry {
  import opened Common

  /** The highest rung of the ladder; rung 0 is the library default. */
  const TOP: int := 3

  /** Shortfalls at one step that raise the next. */
  const SHORTFALLS: int := 2

  /** What the capture library said about a failed open. Several may hold of one joined error. */
  datatype OpenError = OpenError(inUse: bool, gone: bool, permanent: bool, refused: bool)

  datatype OpenResult = Success | Failure(error: OpenError)

  /** How an open would turn out at each rung, a rung past the ends reading the nearest one. */
  type Opens = s: seq<OpenResult> | |s| == TOP + 1 witness [Success, Success, Success, Success]

  function At(opens: Opens, step: int): OpenResult { opens[Max(0, Min(step, TOP))] }

  /** A failure that says nothing definite about the device, so a lower rung is worth trying. */
  predicate Fallback(e: OpenError) { !e.inUse && !e.gone && !e.permanent }

  /** One escalated open: whether it served, the rung of the last try, and the lowest rung refused. */
  datatype Attempt = Attempt(served: bool, step: int, refusedAt: Option<int>)

  /** The fallback loop, from rung `step` down. */
  function Descend(opens: Opens, step: int, refusedAt: Option<int>): Attempt
    decreases step
  {
    match At(opens, step)
    case Success => Attempt(true, step, refusedAt)
    case Failure(e) =>
      if step > 0 && Fallback(e)
      then Descend(opens, step - 1, if e.refused then Some(step) else refusedAt)
      else Attempt(false, step, refusedAt)
  }

  /** A rung the loop passes over: it fails, and the failure allows a lower one. */
  predicate Passed(opens: Opens, step: int) {
    At(opens, step).Failure? && !Forbids(At(opens, step).error)
  }

  /** The device is in use, gone, or bound to fail at any rung. */
  predicate Forbids(e: OpenError) { e.inUse || e.gone || e.permanent }

  /** Rung s is where the open serves: it opens, and every rung above it up to the asked one is passed. */
  predicate ServesAt(opens: Opens, asked: int, s: int) {
    0 <= s <= asked && At(opens, s).Success? && forall k | s < k <= asked :: Passed(opens, k)
  }

  /** Rung r of an attempt that ended at rung `last` was refused in passing. */
  predicate RefusedInPassing(opens: Opens, asked: int, last: int, r: int) {
    last < r <= asked && At(opens, r).Failure? && At(opens, r).error.refused
  }

  /** The loop serves exactly at the highest rung that opens below passed ones, it serves iff there
      is one, and the refusal it reports is the lowest rung refused on the way down. */
  lemma {:induction false} DescendServesHighest(opens: Opens, asked: int)
    requires 0 <= asked
    ensures var r := Descend(opens, asked, None);
            && 0 <= r.step <= asked
            && (forall k | r.step < k <= asked :: Passed(opens, k))
            && (r.served <==> exists s :: ServesAt(opens, asked, s))
            && (r.served ==> forall s :: ServesAt(opens, asked, s) <==> s == r.step)
            && (r.refusedAt.Some? ==>
                  && RefusedInPassing(opens, asked, r.step, r.refusedAt.value)
                  && forall k | r.step < k < r.refusedAt.value :: !RefusedInPassing(opens, asked, r.step, k))
            && (r.refusedAt.None? ==> forall k :: !RefusedInPassing(opens, asked, r.step, k))
  {
    DescendFrom(opens, asked, asked, None);
    var r := Descend(opens, asked, None);
    forall s ensures ServesAt(opens, asked, s) <==> r.served && s == r.step {
      var here, there := Passed(opens, s), Passed(opens, r.step);
    }
    assert r.served ==> ServesAt(opens, asked, r.step);
  }

  /** The descent from rung `step` of an attempt that asked for `asked` and passed everything between. */
  lemma {:induction false} DescendFrom(opens: Opens, asked: int, step: int, refusedAt: Option<int>)
    requires 0 <= step <= asked
    requires forall k | step < k <= asked :: Passed(opens, k)
    requires refusedAt.Some? ==>
               && RefusedInPassing(opens, asked, step, refusedAt.value)
               && forall k | step < k < refusedAt.value :: !RefusedInPassing(opens, asked, step, k)
    requires refusedAt.None? ==> forall k :: !RefusedInPassing(opens, asked, step, k)
    ensures var r := Descend(opens, step, refusedAt);
            && 0 <= r.step <= step
            && (forall k | r.step < k <= asked :: Passed(opens, k))
            && (r.served <==> At(opens, r.step).Success?)
            && (!r.served ==> r.step == 0 || !Passed(opens, r.step))
            && (r.refusedAt.Some? ==>
                  && RefusedInPassing(opens, asked, r.step, r.refusedAt.value)
                  && forall k | r.step < k < r.refusedAt.value :: !RefusedInPassing(opens, asked, r.step, k))
            && (r.refusedAt.None? ==> forall k :: !RefusedInPassing(opens, asked, r.step, k))
    decreases step
  {
    if step > 0 && Passed(opens, step) {
      var next := if At(opens, step).error.refused then Some(step) else refusedAt;
      forall k ensures RefusedInPassing(opens, asked, step - 1, k)
                  <==> RefusedInPassing(opens, asked, step, k) || (k == step && At(opens, k).error.refused) {}
      DescendFrom(opens, asked, step - 1, next);
    }
  }

  /** Escalation never costs availability: an open that asked for a rung serves whenever the default
      alone would have, exactly unless the first rung that is not passed fails in a way that forbids
      falling back. */
  lemma {:induction false} NoLessAvailable(opens: Opens, asked: int)
    requires 0 <= asked
    requires At(opens, 0).Success?
    ensures Descend(opens, asked, None).served
       <==> !exists k :: Blocks(opens, asked, k)
  {
    DescendFrom(opens, asked, asked, None);
    var r := Descend(opens, asked, None);
    forall k ensures Blocks(opens, asked, k) <==> !r.served && k == r.step {
      var here, there := Passed(opens, k), Passed(opens, r.step);
    }
    assert !r.served ==> Blocks(opens, asked, r.step);
  }

  /** Rung k ends the attempt: every rung above it is passed, and its failure forbids a fallback. */
  predicate Blocks(opens: Opens, asked: int, k: int) {
    && 0 < k <= asked
    && (forall j | k < j <= asked :: Passed(opens, j))
    && At(opens, k).Failure? && Forbids(At(opens, k).error)
  }
}
