/**
 * The three acceleration counters of the input tick. Each tick moves a
 * counter by one step per key block: a held key pushes it towards its limit,
 * a released key lets it decay one step towards 0. The `n` counter is driven
 * by 'w' (lower) and 's' (raise), `u` by 'a' (lower) and 'd' (raise), and `v`
 * by the space bar alone.
 */
module Controls {

  /** The largest magnitude a counter reaches. */
  const MAX_ACCEL: int := 100

  /** Which of the movement keys are held during one tick. */
  datatype Held = Held(w: bool, s: bool, a: bool, d: bool, space: bool)

  /** No movement key held. */
  const NO_KEYS: Held := Held(false, false, false, false, false)

  /** The acceleration counters along u, v and n. */
  datatype Accel = Accel(u: int, v: int, n: int)

  /**
   * One tick of a counter that has a lowering key and a raising key: first the
   * lowering key's block (step down, or decay up from below 0), then the
   * raising key's block (step up, or decay down from above 0).
   */
  function StepPair(acc: int, lower: bool, raise: bool): int
  {
    var mid := if lower then (if acc > -MAX_ACCEL then acc - 1 else acc)
               else (if acc < 0 then acc + 1 else acc);
    if raise then (if mid < MAX_ACCEL then mid + 1 else mid)
    else (if mid > 0 then mid - 1 else mid)
  }

  /** One tick of the vertical ("jetpack") counter, which only has a raising key. */
  function StepLift(acc: int, held: bool): int
  {
    if held then (if acc < MAX_ACCEL then acc + 1 else acc)
    else (if acc > 0 then acc - 1 else acc)
  }

  /** One unpaused tick of all three counters. */
  function Step(acc: Accel, k: Held): Accel
  {
    Accel(StepPair(acc.u, k.a, k.d), StepLift(acc.v, k.space), StepPair(acc.n, k.w, k.s))
  }

  /** `u` and `n` in [-100, 100], `v` in [0, 100]. */
  predicate InBounds(acc: Accel)
  {
    -MAX_ACCEL <= acc.u <= MAX_ACCEL && 0 <= acc.v <= MAX_ACCEL && -MAX_ACCEL <= acc.n <= MAX_ACCEL
  }

  /** The counters after one unpaused tick per entry of `ks`, in order. */
  function Run(acc: Accel, ks: seq<Held>): Accel
    decreases |ks|
  {
    if ks == [] then acc else Run(Step(acc, ks[0]), ks[1..])
  }

  /** The same keys held for `count` ticks. */
  function Hold(k: Held, count: nat): seq<Held>
  {
    seq(count, _ => k)
  }

  /** One tick keeps the counters in bounds. */
  lemma StepKeepsBounds(acc: Accel, k: Held)
    requires InBounds(acc)
    ensures InBounds(Step(acc, k))
  {
  }

  /** Any number of ticks, with any keys, keeps the counters in bounds. */
  lemma {:induction false} RunKeepsBounds(acc: Accel, ks: seq<Held>)
    requires InBounds(acc)
    ensures InBounds(Run(acc, ks))
    decreases |ks|
  {
    if ks != [] {
      StepKeepsBounds(acc, ks[0]);
      RunKeepsBounds(Step(acc, ks[0]), ks[1..]);
    }
  }

  /** With neither key of a pair held, a counter moves one step towards 0 and stays at 0. */
  lemma ReleasedDecays(acc: int)
    ensures acc > 0 ==> StepPair(acc, false, false) == acc - 1 && StepLift(acc, false) == acc - 1
    ensures acc < 0 ==> StepPair(acc, false, false) == acc + 1
    ensures StepPair(0, false, false) == 0 && StepLift(0, false) == 0
  {
  }

  /**
   * Holding only the lowering key: from above 0 the counter drops by 2 per
   * tick (1 to 0 from 1), from 0 or below by 1, and it stops at -100.
   */
  lemma LowerOnly(acc: int)
    requires acc >= -MAX_ACCEL
    ensures acc >= 2 ==> StepPair(acc, true, false) == acc - 2
    ensures acc == 1 ==> StepPair(acc, true, false) == 0
    ensures -MAX_ACCEL < acc <= 0 ==> StepPair(acc, true, false) == acc - 1
    ensures acc == -MAX_ACCEL ==> StepPair(acc, true, false) == -MAX_ACCEL
  {
  }

  /**
   * Holding only the raising key: from below 0 the counter climbs by 2 per
   * tick (-1 goes to 1), from 0 or above by 1, and it stops at 100.
   */
  lemma RaiseOnly(acc: int)
    requires acc <= MAX_ACCEL
    ensures acc < 0 ==> StepPair(acc, false, true) == acc + 2
    ensures 0 <= acc < MAX_ACCEL ==> StepPair(acc, false, true) == acc + 1
    ensures acc == MAX_ACCEL ==> StepPair(acc, false, true) == MAX_ACCEL
  {
  }

  /** Holding both keys of a pair keeps the counter, except that -100 moves up to -99. */
  lemma BothHeld(acc: int)
    requires -MAX_ACCEL <= acc <= MAX_ACCEL
    ensures StepPair(acc, true, true) == if acc == -MAX_ACCEL then -MAX_ACCEL + 1 else acc
  {
  }

  /** The two keys of a pair are not mirror images: 1 drops to 0 under 'w', but -1 climbs to 1 under 's'. */
  lemma PairIsAsymmetric()
    ensures StepPair(1, true, false) == 0
    ensures StepPair(-1, false, true) == 1
  {
  }

  /** `a` moved `count` steps towards 0, stopping there. */
  function Decayed(a: int, count: nat): int
  {
    if a > count then a - count
    else if -a > count then a + count
    else 0
  }

  /** With no key held, every counter decays to 0, one step per tick. */
  lemma {:induction false} ReleaseDecaysToZero(acc: Accel, count: nat)
    requires acc.v >= 0
    ensures Run(acc, Hold(NO_KEYS, count)) == Accel(Decayed(acc.u, count), Decayed(acc.v, count), Decayed(acc.n, count))
    decreases count
  {
    if count > 0 {
      var next := Step(acc, NO_KEYS);
      assert Hold(NO_KEYS, count)[1..] == Hold(NO_KEYS, count - 1);
      ReleaseDecaysToZero(next, count - 1);
    }
  }

  /** 'w' alone, held for `count` ticks from a non-positive `n`, lowers it by one per tick down to -100. */
  lemma {:induction false} HoldingForwardReachesFloor(acc: Accel, count: nat)
    requires -MAX_ACCEL <= acc.n <= 0
    ensures Run(acc, Hold(Held(true, false, false, false, false), count)).n
         == if acc.n - count > -MAX_ACCEL then acc.n - count else -MAX_ACCEL
    decreases count
  {
    var k := Held(true, false, false, false, false);
    if count > 0 {
      assert Hold(k, count)[1..] == Hold(k, count - 1);
      HoldingForwardReachesFloor(Step(acc, k), count - 1);
    }
  }
}
