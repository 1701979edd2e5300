/** Client-side validation as the forms run it: a fixed sequence of checks,
    each of which either passes or contributes one message, and the
    messages shown in check order. */
module Validation {
  import opened JsText

  /** The messages of the checks that failed, in check order. */
  function Failed<T>(checks: seq<Option<T>>): (r: seq<T>)
    ensures |r| <= |checks|
  {
    if checks == [] then []
    else (if checks[0].Some? then [checks[0].value] else []) + Failed(checks[1..])
  }

  predicate AllPass<T>(checks: seq<Option<T>>) {
    forall i :: 0 <= i < |checks| ==> checks[i].None?
  }

  /** Nothing is reported exactly when every check passes. */
  lemma {:induction false} FailedEmpty<T>(checks: seq<Option<T>>)
    ensures Failed(checks) == [] <==> AllPass(checks)
  {
    if checks != [] {
      FailedEmpty(checks[1..]);
      assert AllPass(checks) <==> checks[0].None? && AllPass(checks[1..]) by {
        if checks[0].None? && AllPass(checks[1..]) {
          forall i | 0 <= i < |checks| ensures checks[i].None? {
            if i > 0 {
              assert checks[i] == checks[1..][i - 1];
            }
          }
        }
      }
    }
  }

  /** For a chain of four checks, all pass exactly when each one does. */
  lemma AllPassFour<T>(c: seq<Option<T>>)
    requires |c| == 4
    ensures AllPass(c) <==> c[0].None? && c[1].None? && c[2].None? && c[3].None?
  {
  }

  /** For a chain of six checks, all pass exactly when each one does. */
  lemma AllPassSix<T>(c: seq<Option<T>>)
    requires |c| == 6
    ensures AllPass(c) <==>
      c[0].None? && c[1].None? && c[2].None? && c[3].None? && c[4].None? && c[5].None?
  {
  }

  /** Running two runs of checks one after the other reports the first
      run's messages, then the second's. */
  lemma {:induction false} FailedConcat<T>(a: seq<Option<T>>, b: seq<Option<T>>)
    ensures Failed(a + b) == Failed(a) + Failed(b)
  {
    if a == [] {
      assert a + b == b;
    } else {
      var head := if a[0].Some? then [a[0].value] else [];
      calc {
        Failed(a + b);
        { assert (a + b)[0] == a[0] && (a + b)[1..] == a[1..] + b; }
        head + Failed(a[1..] + b);
        { FailedConcat(a[1..], b); }
        head + (Failed(a[1..]) + Failed(b));
        (head + Failed(a[1..])) + Failed(b);
      }
    }
  }

  /** Inserting one check at position k adds its message, if any, between
      the messages of the checks before and after it. */
  lemma FailedInsert<T>(c: seq<Option<T>>, k: nat, x: Option<T>)
    requires k <= |c|
    ensures Failed(c[..k] + [x] + c[k..]) == Failed(c[..k]) + Failed([x]) + Failed(c[k..])
  {
    FailedConcat(c[..k] + [x], c[k..]);
    FailedConcat(c[..k], [x]);
  }

  /** Cutting a chain at k cuts its messages at the same place. */
  lemma FailedSplit<T>(c: seq<Option<T>>, k: nat)
    requires k <= |c|
    ensures Failed(c) == Failed(c[..k]) + Failed(c[k..])
  {
    FailedConcat(c[..k], c[k..]);
    assert c[..k] + c[k..] == c;
  }

  /** The texts displayed for a list of messages, in the same order. */
  function Shown<T>(es: seq<T>, text: T -> string): (r: seq<string>)
    ensures |r| == |es|
    ensures forall i :: 0 <= i < |es| ==> r[i] == text(es[i])
  {
    seq(|es|, i requires 0 <= i < |es| => text(es[i]))
  }
}
