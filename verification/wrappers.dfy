/** The optional value used throughout the model: Python's `None`, JavaScript's
    `null`/`undefined`, or a value that is present. */
module Wrappers {
  datatype Option<+T> = None | Some(value: T)

  /** The values present among the first `n` options, in order: what a loop
      that appends only the results it keeps builds up. */
  function Present<T>(opts: seq<Option<T>>, n: nat): seq<T>
    requires n <= |opts|
  {
    if n == 0 then []
    else Present(opts, n - 1) + match opts[n - 1] case None => [] case Some(x) => [x]
  }

  /** At most one value per option; each value comes from some option; one
      value per option exactly when every option is present. */
  lemma {:induction false} PresentMeaning<T>(opts: seq<Option<T>>, n: nat)
    requires n <= |opts|
    ensures |Present(opts, n)| <= n
    ensures forall i :: 0 <= i < |Present(opts, n)| ==>
      exists j :: 0 <= j < n && opts[j] == Some(Present(opts, n)[i])
    ensures |Present(opts, n)| == n <==> forall j :: 0 <= j < n ==> opts[j].Some?
  {
    if n > 0 {
      PresentMeaning(opts, n - 1);
      var prev := Present(opts, n - 1);
      var xs := Present(opts, n);
      forall i | 0 <= i < |xs|
        ensures exists j :: 0 <= j < n && opts[j] == Some(xs[i])
      {
        if i < |prev| {
          assert xs[i] == prev[i];
        } else {
          assert opts[n - 1] == Some(xs[i]);
        }
      }
    }
  }

  /** Every present option among the first `n` gives its value. */
  lemma {:induction false} PresentComplete<T>(opts: seq<Option<T>>, n: nat)
    requires n <= |opts|
    ensures forall j :: 0 <= j < n && opts[j].Some? ==> opts[j].value in Present(opts, n)
  {
    if n > 0 {
      PresentComplete(opts, n - 1);
    }
  }

  /** The order of the options is kept: what the first `m` options give is a
      prefix of what the first `n` give. */
  lemma {:induction false} PresentPrefix<T>(opts: seq<Option<T>>, m: nat, n: nat)
    requires m <= n <= |opts|
    ensures Present(opts, m) <= Present(opts, n)
    decreases n - m
  {
    if m < n {
      PresentPrefix(opts, m, n - 1);
    }
  }

  lemma AppendAssociative<T>(a: seq<T>, b: seq<T>, c: seq<T>)
    ensures (a + b) + c == a + (b + c)
  {
  }
}
