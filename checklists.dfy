/**
 * A validator that runs a fixed sequence of independent checks and pushes
 * one message for every check that fails.  A `Check` pairs "this check
 * fails" with the message it pushes; `Reported` is the list that results.
 */
module Checklists {
  import opened Sequences

  datatype Check<M> = Check(fires: bool, message: M)

  /** What one check contributes to the error list. */
  function Fired<M>(c: Check<M>): seq<M> {
    if c.fires then [c.message] else []
  }

  /** The messages of the failing checks, in the order the checks run. */
  function Reported<M>(cs: seq<Check<M>>): seq<M> {
    if cs == [] then [] else Fired(cs[0]) + Reported(cs[1..])
  }

  /** Every message a checklist can produce, in check order. */
  function Messages<M>(cs: seq<Check<M>>): (ms: seq<M>)
    ensures |ms| == |cs|
  {
    seq(|cs|, k requires 0 <= k < |cs| => cs[k].message)
  }

  /** No other check of `cs` pushes the message of check `k`. */
  predicate UniqueAt<M(==)>(cs: seq<Check<M>>, k: nat)
    requires k < |cs|
  {
    forall j :: 0 <= j < |cs| && j != k ==> cs[j].message != cs[k].message
  }

  lemma {:induction false} ReportedAppend<M>(a: seq<Check<M>>, b: seq<Check<M>>)
    ensures Reported(a + b) == Reported(a) + Reported(b)
  {
    if a == [] {
      assert a + b == b;
    } else {
      assert (a + b)[1..] == a[1..] + b;
      ReportedAppend(a[1..], b);
    }
  }

  /** Running one more check appends what that check contributes. */
  lemma ReportedStep<M>(cs: seq<Check<M>>, k: nat)
    requires k < |cs|
    ensures Reported(cs[..k + 1]) == Reported(cs[..k]) + Fired(cs[k])
  {
    assert cs[..k + 1] == cs[..k] + [cs[k]];
    ReportedAppend(cs[..k], [cs[k]]);
  }

  /** What the first `k` checks report, grown one check at a time as a validator runs them. */
  function ReportedUpTo<M>(cs: seq<Check<M>>, k: nat): seq<M>
    requires k <= |cs|
  {
    if k == 0 then [] else ReportedUpTo(cs, k - 1) + Fired(cs[k - 1])
  }

  lemma {:induction false} ReportedUpToAll<M>(cs: seq<Check<M>>, k: nat)
    requires k <= |cs|
    ensures ReportedUpTo(cs, k) == Reported(cs[..k])
  {
    if k == 0 {
      assert cs[..0] == [];
    } else {
      ReportedUpToAll(cs, k - 1);
      assert cs[..k] == cs[..k - 1] + [cs[k - 1]];
      ReportedStep(cs, k - 1);
    }
  }

  /**
   * A validator that runs a short checklist one check after the other,
   * appending what each reports, ends up with what the checklist reports.
   */
  /** What the checks report, as the step-by-step pushes build it. */
  lemma ReportedInSequence<M>(cs: seq<Check<M>>)
    ensures Reported(cs) == ReportedUpTo(cs, |cs|)
  {
    ReportedUpToAll(cs, |cs|);
    assert cs[..|cs|] == cs;
  }

  /** A message that no check pushes is never reported. */
  lemma {:induction false} ReportedOmits<M>(cs: seq<Check<M>>, m: M)
    requires forall j :: 0 <= j < |cs| ==> cs[j].message != m
    ensures m !in Reported(cs)
  {
    if cs != [] {
      ReportedOmits(cs[1..], m);
    }
  }

  /** Every reported message is the message of a failing check. */
  lemma {:induction false} ReportedFrom<M>(cs: seq<Check<M>>, m: M)
    requires m in Reported(cs)
    ensures exists k :: 0 <= k < |cs| && cs[k].fires && cs[k].message == m
  {
    if !(cs[0].fires && cs[0].message == m) {
      ReportedFrom(cs[1..], m);
      var k :| 0 <= k < |cs[1..]| && cs[1..][k].fires && cs[1..][k].message == m;
      assert cs[k + 1] == cs[1..][k];
    }
  }

  /** A message pushed by one check only is reported once if that check fails, and otherwise not at all. */
  lemma {:induction false} ReportedCount<M>(cs: seq<Check<M>>, k: nat)
    requires k < |cs| && UniqueAt(cs, k)
    ensures multiset(Reported(cs))[cs[k].message] == if cs[k].fires then 1 else 0
  {
    var m := cs[k].message;
    if k == 0 {
      ReportedOmits(cs[1..], m);
    } else {
      assert UniqueAt(cs[1..], k - 1);
      ReportedCount(cs[1..], k - 1);
    }
  }

  /** When every check fails, every message is reported. */
  lemma {:induction false} ReportedAll<M>(cs: seq<Check<M>>)
    requires forall k :: 0 <= k < |cs| ==> cs[k].fires
    ensures Reported(cs) == Messages(cs)
  {
    if cs != [] {
      ReportedAll(cs[1..]);
      assert Messages(cs) == [cs[0].message] + Messages(cs[1..]);
    }
  }

  /** The list is empty exactly when no check fails. */
  lemma {:induction false} ReportedEmpty<M>(cs: seq<Check<M>>)
    ensures Reported(cs) == [] <==> forall k :: 0 <= k < |cs| ==> !cs[k].fires
  {
    if cs != [] {
      ReportedEmpty(cs[1..]);
      assert forall k :: 1 <= k < |cs| ==> cs[k] == cs[1..][k - 1];
    }
  }

  /** Messages come out in the order of the checks. */
  lemma {:induction false} ReportedInOrder<M>(cs: seq<Check<M>>)
    ensures IsSubsequence(Reported(cs), Messages(cs))
  {
    if cs != [] {
      ReportedInOrder(cs[1..]);
      var a, b := Reported(cs), Messages(cs);
      assert b[1..] == Messages(cs[1..]);
      if cs[0].fires {
        assert a[0] == b[0] && a[1..] == Reported(cs[1..]);
      } else {
        assert a == Reported(cs[1..]);
      }
    }
  }
}
