/**
 * Pacing and tap arithmetic (src/utils/utils.ts).
 *
 * Every call of Math.random() becomes an explicit Draw: a rational number
 * num / den in [0, 1). Math.floor of a rational with a positive denominator
 * is Dafny's `/`, so the integer results below are exact.
 */
module Utils {
  import opened Wrappers
  import opened Json
  import Config

  datatype Fraction = Fraction(num: nat, den: nat)

  /** One result of Math.random(). */
  type Draw = f: Fraction | f.num < f.den witness Fraction(0, 1)

  lemma PositiveFactor(a: int, b: int)
    requires b > 0 && a * b > 0
    ensures a > 0
  {
  }

  /** Integer division by a positive divisor is floor division: it lands between the bounds of x / den. */
  lemma FloorDivBounds(x: int, den: int, lo: int, hi: int)
    requires den > 0
    requires lo * den <= x < hi * den
    ensures lo <= x / den < hi
  {
    var q, r := x / den, x % den;
    assert x == q * den + r && 0 <= r < den;
    assert (hi - q) * den == hi * den - q * den;
    PositiveFactor(hi - q, den);
    assert (q - lo + 1) * den == q * den + den - lo * den;
    PositiveFactor(q - lo + 1, den);
  }

  lemma MulStrict(a: int, b: int, c: int)
    requires a < b && c > 0
    ensures a * c < b * c
  {
    assert b * c - a * c == (b - a) * c;
  }

  /** floor(draw * k): a draw scaled to a span of k lies between 0 and k, never reaching a positive k. */
  lemma ScaledDraw(d: Draw, k: int)
    ensures k >= 0 ==> 0 <= (d.num * k) / d.den <= k
    ensures k > 0 ==> (d.num * k) / d.den < k
    ensures k < 0 ==> k <= (d.num * k) / d.den <= 0
    ensures k < 0 && d.num > 0 ==> (d.num * k) / d.den < 0
  {
    var x := d.num * k;
    if k > 0 {
      MulStrict(d.num, d.den, k);
      assert 0 * d.den <= x < k * d.den;
      FloorDivBounds(x, d.den, 0, k);
    } else if k < 0 && d.num > 0 {
      MulStrict(k, 0, d.num);
      MulStrict(d.num, d.den, -k);
      assert k * d.den <= x < 0 * d.den;
      FloorDivBounds(x, d.den, k, 0);
    } else {
      assert x == 0;
    }
  }

  /** The module-level randInt: Math.floor(Math.random() * (max - min) + min). */
  function RandInt(min: int, max: int, d: Draw): (r: int)
    ensures min < max ==> min <= r < max
    ensures min == max ==> r == min
    ensures max < min ==> max <= r <= min
  {
    ScaledDraw(d, max - min);
    (d.num * (max - min)) / d.den + min
  }

  /** With the bounds reversed by one, randInt(1, 0) is 0 for every draw except 0 itself. */
  lemma RandIntEmptyRange(d: Draw)
    ensures RandInt(1, 0, d) == (if d.num == 0 then 1 else 0)
  {
    ScaledDraw(d, -1);
  }

  /** The class method Utils.randInt: Math.floor(Math.random() * (max - min + 1)) + min. */
  function UtilsRandInt(min: int, max: int, d: Draw): (r: int)
    ensures min <= max ==> min <= r <= max
  {
    ScaledDraw(d, max - min + 1);
    (d.num * (max - min + 1)) / d.den + min
  }

  /** randDelay: Math.floor((Math.random() * (max - min) + min) * 1000), seconds in, milliseconds out. */
  function RandDelay(min: int, max: int, d: Draw): (ms: int)
    ensures min < max ==> min * 1000 <= ms < max * 1000
    ensures min == max ==> ms == min * 1000
  {
    ScaledDraw(d, (max - min) * 1000);
    (d.num * ((max - min) * 1000)) / d.den + min * 1000
  }

  function RandClaimDelay(d: Draw): (ms: int)
    ensures 1_200_000 <= ms < 4_800_000
  {
    RandDelay(Config.ClaimDelayMin, Config.ClaimDelayMax, d)
  }

  function RandRunDelay(d: Draw): (ms: int)
    ensures 1_000 <= ms < 3_000
  {
    RandDelay(Config.RunDelayMin, Config.RunDelayMax, d)
  }

  /** The long delay scales the two ends of the run range differently: min * 10 and max * 1000 seconds. */
  function RandLongRunDelay(d: Draw): (ms: int)
    ensures 10_000 <= ms < 3_000_000
  {
    RandDelay(Config.RunDelayMin * 10, Config.RunDelayMax * 1000, d)
  }

  function RandRequestDelay(d: Draw): (ms: int)
    ensures 1_000 <= ms < 2_000
  {
    RandDelay(Config.RequestsDelayMin, Config.RequestsDelayMax, d)
  }

  /** Every long delay outlasts every run delay. */
  lemma LongDelayExceedsRunDelay(long: Draw, run: Draw)
    ensures RandLongRunDelay(long) > RandRunDelay(run)
  {
  }

  /**
   * randomRoll: Math.random() < config.random * (multiply ?? 1), that is
   * num / den < (RandomNum / RandomDen) * m, cleared of denominators.
   */
  predicate RandomRoll(multiply: Option<int>, d: Draw) {
    d.num * Config.RandomDen < Config.RandomNum * multiply.GetOr(1) * d.den
  }

  /** A missing multiplier is a multiplier of one; a multiplier of ten or more always passes, zero or less never. */
  lemma RandomRollBounds(m: int, d: Draw)
    ensures RandomRoll(None, d) == RandomRoll(Some(1), d)
    ensures m >= Config.RandomDen ==> RandomRoll(Some(m), d)
    ensures m <= 0 ==> !RandomRoll(Some(m), d)
  {
    if m >= Config.RandomDen {
      assert m * d.den >= Config.RandomDen * d.den;
    }
    if m <= 0 {
      assert m * d.den <= 0;
    }
  }

  /** A larger multiplier passes on every draw a smaller one passes on. */
  lemma RandomRollMonotone(m1: int, m2: int, d: Draw)
    requires m1 <= m2
    ensures RandomRoll(Some(m1), d) ==> RandomRoll(Some(m2), d)
  {
    assert m1 * d.den <= m2 * d.den;
  }

  function Min(a: int, b: int): int {
    if a <= b then a else b
  }

  /** A multiple of p leaves no remainder. */
  lemma MultipleMod(s: int, p: int)
    requires p > 0
    ensures (s * p) % p == 0
  {
    FloorDivBounds(s * p, p, s, s + 1);
  }

  /**
   * generatePoints: maxSteps = min(floor(ptc / ppc), 200), a step count from the
   * exclusive module-level randInt(1, maxSteps), and points = steps * ppc.
   * With ppc = 0 the division gives Infinity (ptc > 0), so maxSteps is 200 and the
   * points are 0, or NaN (ptc = 0), which is None here.
   */
  function GeneratePoints(ppc: nat, ptc: nat, d: Draw): (r: Option<nat>)
    ensures ppc == 0 ==> r == (if ptc == 0 then None else Some(0))
    ensures ppc > 0 ==> r.Some? && r.value % ppc == 0
  {
    if ppc == 0 then
      (if ptc == 0 then None else Some(0))
    else
      var steps := RandInt(1, Min(ptc / ppc, 200), d);
      MultipleMod(steps, ppc);
      Some(steps * ppc)
  }

  lemma MulMonotone(a: int, b: int, c: nat)
    requires a <= b
    ensures a * c <= b * c
  {
    assert b * c - a * c == (b - a) * c;
  }

  /** The step count of generatePoints, for ppc > 0. */
  lemma GeneratePointsSteps(ppc: nat, ptc: nat, d: Draw)
    requires ppc > 0
    ensures GeneratePoints(ppc, ptc, d).value == RandInt(1, Min(ptc / ppc, 200), d) * ppc
  {
  }

  /**
   * With room for two or more steps, the points are at least one step, leave
   * at least one step of energy unspent, and never exceed 199 steps.
   */
  lemma GeneratePointsBelowEnergy(ppc: nat, ptc: nat, d: Draw)
    requires ppc > 0 && ptc >= 2 * ppc
    ensures var p := GeneratePoints(ppc, ptc, d).value;
      ppc <= p <= ptc - ppc && p < ptc && p <= 199 * ppc
  {
    var q := ptc / ppc;
    assert q * ppc <= ptc;
    assert ptc < (ptc + 1) * ppc by {
      MulMonotone(1, ppc, ptc + 1);
    }
    FloorDivBounds(ptc, ppc, 2, ptc + 1);
    var maxSteps := Min(q, 200);
    var steps := RandInt(1, maxSteps, d);
    GeneratePointsSteps(ppc, ptc, d);
    MulMonotone(1, steps, ppc);
    MulMonotone(steps, maxSteps - 1, ppc);
    MulMonotone(maxSteps, q, ppc);
    MulMonotone(steps, 199, ppc);
  }

  /** With room for exactly one step (ppc <= ptc < 2 * ppc), the points are one step. */
  lemma GeneratePointsOneStep(ppc: nat, ptc: nat, d: Draw)
    requires 0 < ppc <= ptc < 2 * ppc
    ensures GeneratePoints(ppc, ptc, d) == Some(ppc)
  {
    FloorDivBounds(ptc, ppc, 1, 2);
    GeneratePointsSteps(ppc, ptc, d);
  }

  /**
   * With less energy than one step, randInt(1, 0) yields 0 steps on every draw
   * but 0, so the points are 0; on the draw 0 they are one full step.
   */
  lemma GeneratePointsNoRoom(ppc: nat, ptc: nat, d: Draw)
    requires ptc < ppc
    ensures GeneratePoints(ppc, ptc, d) == Some(if d.num == 0 then ppc else 0)
  {
    FloorDivBounds(ptc, ppc, 0, 1);
    RandIntEmptyRange(d);
    GeneratePointsSteps(ppc, ptc, d);
  }

  /** isObject: non-null with constructor name "Object"; only plain objects qualify here. */
  predicate IsObject(v: Value) {
    v.Obj?
  }

  /** Names every plain object has through Object.prototype, which the `in` operator also sees. */
  const ObjectPrototypeKeys: set<string> := {
    "constructor", "hasOwnProperty", "isPrototypeOf", "propertyIsEnumerable",
    "toLocaleString", "toString", "valueOf", "__proto__",
    "__defineGetter__", "__defineSetter__", "__lookupGetter__", "__lookupSetter__"
  }

  /** `key in data`: an own key or an inherited one. */
  predicate HasKey(v: Value, key: string)
    requires v.Obj?
  {
    key in v.fields || key in ObjectPrototypeKeys
  }

  /** isDataObj: an object that has every listed key. */
  function IsDataObj(v: Value, keys: seq<string>): (r: bool)
    ensures !IsObject(v) ==> !r
    ensures IsObject(v) ==> (r <==> forall i :: 0 <= i < |keys| ==> HasKey(v, keys[i]))
    ensures IsObject(v) && keys == [] ==> r
  {
    IsObject(v) && forall i :: 0 <= i < |keys| ==> HasKey(v, keys[i])
  }
}
