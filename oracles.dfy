/** The random sources the generator draws from. Each oracle keeps only the support of
    its draw (which values can come out, and when it raises), not its distribution or
    the fixed seed: the choice is nondeterministic. */
module Oracles {
  import opened Records

  /** The two exceptions the draws of the script can raise. */
  datatype GenError =
    | SampleLargerThanPopulation  // ValueError from random.sample
    | EmptySequence               // IndexError from random.choice on an empty list

  datatype Result<T> = Success(value: T) | Failure(error: GenError)

  /** No element occurs twice in xs. */
  predicate Distinct<T(==)>(xs: seq<T>) {
    forall i, j :: 0 <= i < j < |xs| ==> xs[i] != xs[j]
  }

  /** `random.random() < p`: the uniform draw lies in [0, 1), so p <= 0 never fires and
      p >= 1 always does. */
  method Chance(p: real) returns (b: bool)
    ensures p <= 0.0 ==> !b
    ensures 1.0 <= p ==> b
  {
    var x: real :| 0.0 <= x < 1.0;
    b := x < p;
  }

  /** `random.randint(lo, hi)`: both ends included. */
  method RandInt(lo: int, hi: int) returns (n: int)
    requires lo <= hi
    ensures lo <= n <= hi
  {
    n :| lo <= n <= hi;
  }

  /** `random_past_date(days)`: now minus a whole number of days in [0, days]. */
  method RandomPastDate(now: Day, days: nat) returns (t: Day)
    ensures now - days <= t <= now
  {
    var back := RandInt(0, days);
    t := now - back;
  }

  /** `random.choices(options, weights)[0]`: an option whose weight is positive. */
  method WeightedChoice<T>(options: seq<T>, weights: seq<real>) returns (x: T)
    requires |options| == |weights|
    requires forall i :: 0 <= i < |weights| ==> 0.0 <= weights[i]
    requires exists i :: 0 <= i < |weights| && 0.0 < weights[i]
    ensures exists i :: 0 <= i < |options| && options[i] == x && 0.0 < weights[i]
  {
    var i :| 0 <= i < |weights| && 0.0 < weights[i];
    x := options[i];
  }

  /** `random.choice(xs)` on a list known to be non-empty: one of its elements. */
  method ChoiceOf<T>(xs: seq<T>) returns (x: T)
    requires |xs| > 0
    ensures x in xs
  {
    var i := RandInt(0, |xs| - 1);
    x := xs[i];
  }

  /** `random.choice(xs)`: an element of xs, or IndexError when xs is empty. */
  method Choice<T>(xs: seq<T>) returns (r: Result<T>)
    ensures r.Success? <==> |xs| > 0
    ensures r.Failure? ==> r.error == EmptySequence
    ensures r.Success? ==> r.value in xs
  {
    if |xs| == 0 {
      return Failure(EmptySequence);
    }
    var x := ChoiceOf(xs);
    r := Success(x);
  }

  /** `random.sample(range(n), k)`: k distinct positions below n, or ValueError when k is
      negative or larger than n. */
  method Sample(n: nat, k: int) returns (r: Result<seq<nat>>)
    ensures r.Failure? <==> k < 0 || n < k
    ensures r.Failure? ==> r.error == SampleLargerThanPopulation
    ensures r.Success? ==> |r.value| == k && Distinct(r.value)
    ensures r.Success? ==> forall i :: 0 <= i < |r.value| ==> r.value[i] < n
  {
    if k < 0 || n < k {
      return Failure(SampleLargerThanPopulation);
    }
    ghost var firstK: seq<nat> := seq(k, i => i);
    assert |firstK| == k && Distinct(firstK) && forall i :: 0 <= i < k ==> firstK[i] < n;
    var picks: seq<nat> :| |picks| == k && Distinct(picks) && forall i :: 0 <= i < k ==> picks[i] < n;
    r := Success(picks);
  }
}
