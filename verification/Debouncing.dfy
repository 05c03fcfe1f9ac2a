/** The two-field debouncer refines a specification over the whole sample history. */
module Debouncing {
  import opened Base

  datatype DebouncerState = DebouncerState(stableSamples: U8, armed: bool, stable: U8)

  /** Samples needed to accept a level; a setting of 0 acts like 1. */
  function Needed(n: U8): U8 {
    if n == 0 then 1 else n
  }

  /** The counter stays below the needed samples, so its increment cannot overflow a byte. */
  ghost predicate InRange(d: DebouncerState) {
    d.stable < Needed(d.stableSamples)
  }

  datatype Sampling = Sampling(state: DebouncerState, fired: bool)

  ghost function Sampled(d: DebouncerState, pressed: bool): (r: Sampling)
    requires InRange(d)
    ensures InRange(r.state) && r.state.stableSamples == d.stableSamples
  {
    if pressed != d.armed then Sampling(d.(stable := 0), false)
    else if d.stable + 1 < d.stableSamples then Sampling(d.(stable := d.stable + 1), false)
    else Sampling(d.(stable := 0, armed := !d.armed), d.armed)
  }

  class Debouncer {
    const stableSamples: U8
    var armed: bool
    var stable: U8

    ghost function View(): DebouncerState reads this {
      DebouncerState(stableSamples, armed, stable)
    }

    constructor (stableSamples: U8)
      ensures InRange(View()) && View() == DebouncerState(stableSamples, true, 0)
    {
      this.stableSamples := stableSamples;
      armed, stable := true, 0;
    }

    method Sample(pressed: bool) returns (fired: bool)
      requires InRange(View())
      modifies this
      ensures InRange(View()) && Sampling(View(), fired) == Sampled(old(View()), pressed)
    {
      if pressed != armed {
        stable := 0;
        return false;
      }
      stable := stable + 1;
      if stable < stableSamples {
        return false;
      }
      stable := 0;
      fired := armed;
      armed := !armed;
    }
  }

  // ----- After a whole history -----

  /** All but the last sample. */
  function Before(h: seq<bool>): seq<bool>
    requires h != []
  {
    h[..|h| - 1]
  }

  ghost function Fed(n: U8, h: seq<bool>): (d: DebouncerState)
    ensures InRange(d) && d.stableSamples == n
  {
    if h == [] then DebouncerState(n, true, 0)
    else Sampled(Fed(n, Before(h)), h[|h| - 1]).state
  }

  /** The last sample of `h` makes the debouncer report a press. */
  ghost predicate Fires(n: U8, h: seq<bool>) {
    h != [] && Sampled(Fed(n, Before(h)), h[|h| - 1]).fired
  }

  // ----- The specification, which knows nothing of counters -----

  /** The last `n` samples all read `level`. */
  ghost predicate Window(h: seq<bool>, n: nat, level: bool) {
    n <= |h| && forall i :: |h| - n <= i < |h| ==> h[i] == level
  }

  /** The level of the most recent full window; released before there is one. */
  ghost function DebouncedLevel(h: seq<bool>, n: nat): bool {
    if h == [] then false
    else if Window(h, n, true) then true
    else if Window(h, n, false) then false
    else DebouncedLevel(Before(h), n)
  }

  ghost function TrailingRun(h: seq<bool>, level: bool): nat {
    if h == [] || h[|h| - 1] != level then 0 else 1 + TrailingRun(Before(h), level)
  }

  lemma {:induction false} WindowIsRun(h: seq<bool>, n: nat, level: bool)
    ensures Window(h, n, level) <==> n <= TrailingRun(h, level)
    decreases |h|
  {
    if h == [] || n == 0 {
    } else if h[|h| - 1] == level {
      WindowIsRun(Before(h), n - 1, level);
      assert Window(h, n, level) <==> Window(Before(h), n - 1, level) by {
        if Window(Before(h), n - 1, level) {
          forall i | |h| - n <= i < |h| ensures h[i] == level {
            if i < |h| - 1 {
              assert Before(h)[i] == level;
            }
          }
        }
      }
    }
  }

  /** For every history: the armed flag is the specified level and the counter the opposing run. */
  lemma {:induction false} DebouncerRefines(n: U8, h: seq<bool>)
    ensures Fed(n, h).armed == !DebouncedLevel(h, Needed(n))
    ensures Fed(n, h).stable == TrailingRun(h, Fed(n, h).armed)
    decreases |h|
  {
    if h != [] {
      DebouncerRefines(n, Before(h));
      WindowIsRun(h, Needed(n), true);
      WindowIsRun(h, Needed(n), false);
    }
  }

  /** The level flips exactly when the last `n` samples all oppose it, and a press is its rising edge. */
  lemma {:induction false} FlipsOnFullWindow(n: U8, h: seq<bool>)
    requires h != []
    ensures var was, now := DebouncedLevel(Before(h), Needed(n)), DebouncedLevel(h, Needed(n));
      && (now != was <==> Window(h, Needed(n), !was))
      && (Fires(n, h) <==> !was && now)
  {
    DebouncerRefines(n, Before(h));
    DebouncerRefines(n, h);
    WindowIsRun(h, Needed(n), true);
    WindowIsRun(h, Needed(n), false);
  }

  /** Between a pressed and a later released level there is a full window of released samples. */
  lemma {:induction false} ReleaseBetween(h: seq<bool>, n: nat, i: nat, j: nat) returns (k: nat)
    requires n >= 1 && i < j <= |h|
    requires DebouncedLevel(h[..i + 1], n) && !DebouncedLevel(h[..j], n)
    ensures i < k < j && Window(h[..k + 1], n, false)
    decreases j
  {
    assert i + 1 < j;
    if Window(h[..j], n, false) {
      k := j - 1;
    } else {
      assert Before(h[..j]) == h[..j - 1];
      k := ReleaseBetween(h, n, i, j - 1);
    }
  }

  /**
   * Two presses are at least 2n samples apart, with a full window of released
   * samples after the first and a full window of pressed ones up to the second.
   */
  lemma {:induction false} PressesAreApart(n: U8, h: seq<bool>, i: nat, j: nat) returns (k: nat)
    requires i < j < |h| && Fires(n, h[..i + 1]) && Fires(n, h[..j + 1])
    ensures i + Needed(n) <= k && k + Needed(n) <= j
    ensures Window(h[..k + 1], Needed(n), false) && Window(h[..j + 1], Needed(n), true)
  {
    FlipsOnFullWindow(n, h[..i + 1]);
    FlipsOnFullWindow(n, h[..j + 1]);
    assert Before(h[..j + 1]) == h[..j];
    k := ReleaseBetween(h, Needed(n), i, j);
    assert h[..i + 1][i] && !h[..k + 1][k];
    assert h[..i + 1][i] == h[..k + 1][i] && h[..j + 1][k] == h[..k + 1][k];
  }
}
