/** The connect loop of the `/query` handler: at most three attempts, each
    opening the database and pinging it, stopping at the first ping that
    succeeds. A failed ping on attempt `i` (counted from 0) is followed by a
    sleep of `i + 1` seconds unless it was the last attempt; a failed open
    moves on at once. The deadline does not end the loop early. */
module Retry {
  import opened Wrappers

  const MaxRetries: nat := 3

  /** What one attempt does: `sql.Open` fails, or the ping fails, or both succeed. */
  datatype Attempt = OpenFailed(error: string) | PingFailed(error: string) | Connected

  /** What the loop did: attempts made, the sleeps requested (in seconds) in
      order, and the error left in `err` (`None` when connected). */
  datatype Outcome = Outcome(attempts: nat, delays: seq<nat>, error: Option<string>)

  /** The number of attempts made: up to and including the first connected
      one, or all of them. */
  function AttemptsMade(script: seq<Attempt>, from: nat): (n: nat)
    requires from <= MaxRetries <= |script|
    ensures from <= n <= MaxRetries
    ensures forall j :: from <= j < n - 1 ==> !script[j].Connected?
    ensures n < MaxRetries ==> from < n && script[n - 1].Connected?
    decreases MaxRetries - from
  {
    if from == MaxRetries then MaxRetries
    else if script[from].Connected? then from + 1
    else AttemptsMade(script, from + 1)
  }

  /** The sleep after attempt `i`, if any. */
  function DelayAfter(script: seq<Attempt>, i: nat): seq<nat>
    requires i < |script|
  {
    if script[i].PingFailed? && i < MaxRetries - 1 then [i + 1] else []
  }

  /** The sleeps after the first `n` attempts, in order. */
  function Delays(script: seq<Attempt>, n: nat): seq<nat>
    requires n <= |script|
  {
    if n == 0 then [] else Delays(script, n - 1) + DelayAfter(script, n - 1)
  }

  /** The loop's result, stated without the loop. */
  function Run(script: seq<Attempt>): Outcome
    requires MaxRetries <= |script|
  {
    var n := AttemptsMade(script, 0);
    Outcome(n, Delays(script, n), if script[n - 1].Connected? then None else Some(script[n - 1].error))
  }

  /** The loop as the handler runs it, over a script of per-attempt outcomes. */
  method Connect(script: seq<Attempt>) returns (attempts: nat, delays: seq<nat>, error: Option<string>)
    requires MaxRetries <= |script|
    ensures 1 <= attempts <= MaxRetries
    ensures error.None? <==> exists j :: 0 <= j < MaxRetries && script[j].Connected?
    ensures error.None? ==> script[attempts - 1].Connected?
    ensures forall j :: 0 <= j < attempts - 1 ==> !script[j].Connected?
    ensures error.Some? ==> attempts == MaxRetries && error.value == script[MaxRetries - 1].error
    ensures delays == Delays(script, attempts)
    ensures Outcome(attempts, delays, error) == Run(script)
  {
    attempts, delays, error := 0, [], None;
    var i := 0;
    while i < MaxRetries
      invariant 0 <= i <= MaxRetries
      invariant attempts == i
      invariant forall j :: 0 <= j < i ==> !script[j].Connected?
      invariant delays == Delays(script, i)
      invariant 0 < i ==> error == Some(script[i - 1].error)
    {
      attempts := i + 1;
      if script[i].Connected? {
        error := None;
        break;
      }
      error := Some(script[i].error);
      if script[i].PingFailed? && i < MaxRetries - 1 {
        delays := delays + [i + 1];
      }
      i := i + 1;
    }
  }

  /** Total of a sequence of delays. */
  function Sum(ds: seq<nat>): nat {
    if |ds| == 0 then 0 else Sum(ds[..|ds| - 1]) + ds[|ds| - 1]
  }

  /** A sleep of `d` seconds happens exactly after attempt `d - 1`, when that
      attempt's ping failed and it was not the last attempt. */
  lemma {:induction false} DelaysExactly(script: seq<Attempt>, n: nat)
    requires n <= |script|
    ensures forall d :: d in Delays(script, n) <==> 1 <= d <= n && d < MaxRetries && script[d - 1].PingFailed?
  {
    if n > 0 {
      DelaysExactly(script, n - 1);
    }
  }

  /** Sleeps grow linearly: each is longer than the one before, and each is
      the index of the attempt it follows plus one. */
  lemma {:induction false} DelaysIncrease(script: seq<Attempt>, n: nat)
    requires n <= |script|
    ensures forall a, b :: 0 <= a < b < |Delays(script, n)| ==> Delays(script, n)[a] < Delays(script, n)[b]
    ensures forall a :: 0 <= a < |Delays(script, n)| ==> 1 <= Delays(script, n)[a] <= n
  {
    if n > 0 {
      DelaysIncrease(script, n - 1);
      DelaysExactly(script, n - 1);
    }
  }

  /** The loop never asks to sleep more than 1 + 2 = 3 seconds in all. */
  lemma {:induction false} DelaysTotal(script: seq<Attempt>, n: nat)
    requires n <= |script|
    ensures Sum(Delays(script, n)) <= (if n >= 2 then 3 else if n == 1 then 1 else 0)
  {
    if n > 0 {
      DelaysTotal(script, n - 1);
      var prev := Delays(script, n - 1);
      var last := DelayAfter(script, n - 1);
      if last == [] {
        assert prev + last == prev;
      } else {
        assert Sum(prev + last) == Sum(prev) + n;
      }
    }
  }

  /** A script whose pings all fail: three attempts, sleeps of 1 then 2 seconds. */
  lemma PingsAlwaysFail(script: seq<Attempt>)
    requires MaxRetries <= |script|
    requires forall j :: 0 <= j < MaxRetries ==> script[j].PingFailed?
    ensures Run(script) == Outcome(MaxRetries, [1, 2], Some(script[MaxRetries - 1].error))
  {
    assert Delays(script, 1) == [1];
    assert Delays(script, 2) == [1, 2];
  }

  /** A script whose opens all fail: three attempts and no sleep at all. */
  lemma OpensAlwaysFail(script: seq<Attempt>)
    requires MaxRetries <= |script|
    requires forall j :: 0 <= j < MaxRetries ==> script[j].OpenFailed?
    ensures Run(script) == Outcome(MaxRetries, [], Some(script[MaxRetries - 1].error))
  {
    assert Delays(script, 1) == [];
    assert Delays(script, 2) == [];
  }

  /** The loop's error is set exactly when none of the three attempts connected. */
  lemma RunFailsIffNoAttemptConnects(script: seq<Attempt>)
    requires MaxRetries <= |script|
    ensures Run(script).error.Some? <==> forall j :: 0 <= j < MaxRetries ==> !script[j].Connected?
    ensures Run(script).error.Some? ==> Run(script).attempts == MaxRetries
  {
  }
}
