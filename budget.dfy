/**
 * Budget derivation (src/App.jsx handleSubmit): the language model proposes a
 * `{min, max}` range, the session clamps it and draws a budget in steps of
 * 1000 won; when no proposal arrives it falls back to a random multiple of
 * 10000 won. The random draws are parameters.
 */
module Budget {
  import opened Wrappers

  /** The parsed `{min, max}` reply; `None` stands for an absent or `null` field. */
  datatype Range = Range(min: Option<int>, max: Option<int>)

  /** The outcome of the budget request: a parsed range, or any network or parse failure. */
  datatype Reply = Proposed(range: Range) | Unavailable

  const Floor := 1000        // smallest lower bound
  const Gap := 5000          // smallest distance from lower to upper bound
  const Unit := 1000         // step of the drawn budget
  const DefaultMin := 5000   // used when the reply's min is absent or 0
  const DefaultMax := 50000  // used when the reply's max is absent or 0
  const FallbackUnit := 10000
  const FallbackSteps := 9

  /** JavaScript's `v || d` on a number: an absent value or 0 gives `d`. */
  function OrDefault(v: Option<int>, d: int): int
  {
    if v.Some? && v.value != 0 then v.value else d
  }

  function Max(a: int, b: int): int
  {
    if a < b then b else a
  }

  /** `Math.max(1000, min || 5000)` */
  function ClampedMin(r: Range): (lo: int)
    ensures lo >= Floor
    ensures lo == Floor || lo == OrDefault(r.min, DefaultMin)
    ensures OrDefault(r.min, DefaultMin) >= Floor ==> lo == OrDefault(r.min, DefaultMin)
  {
    Max(Floor, OrDefault(r.min, DefaultMin))
  }

  /** `Math.max(minBudget + 5000, max || 50000)` */
  function ClampedMax(r: Range): (hi: int)
    ensures hi >= ClampedMin(r) + Gap >= Floor + Gap
    ensures hi == ClampedMin(r) + Gap || hi == OrDefault(r.max, DefaultMax)
    ensures OrDefault(r.max, DefaultMax) >= ClampedMin(r) + Gap ==> hi == OrDefault(r.max, DefaultMax)
  {
    Max(ClampedMin(r) + Gap, OrDefault(r.max, DefaultMax))
  }

  /**
   * The values `Math.floor(Math.random() * ((hi - lo) / 1000 + 1))` can take:
   * the naturals k with k < (hi - lo) / 1000 + 1 over the reals.
   */
  predicate IsDrawIndex(r: Range, k: int)
  {
    0 <= k && Unit * k < ClampedMax(r) - ClampedMin(r) + Unit
  }

  /** The drawn budget `k * 1000 + minBudget`. */
  function Drawn(r: Range, k: int): (b: int)
    requires IsDrawIndex(r, k)
    ensures ClampedMin(r) <= b < ClampedMax(r) + Unit
    ensures (b - ClampedMin(r)) % Unit == 0
  {
    k * Unit + ClampedMin(r)
  }

  /**
   * Every draw stays within the clamped maximum exactly when the clamped range
   * spans a whole number of steps; otherwise the largest draw overshoots it.
   */
  lemma DrawWithinMaxIffAligned(r: Range)
    ensures (forall k :: IsDrawIndex(r, k) ==> Drawn(r, k) <= ClampedMax(r))
            <==> (ClampedMax(r) - ClampedMin(r)) % Unit == 0
  {
    var lo, hi := ClampedMin(r), ClampedMax(r);
    var q, rem := (hi - lo) / Unit, (hi - lo) % Unit;
    assert hi - lo == Unit * q + rem;
    if rem == 0 {
      forall k | IsDrawIndex(r, k) ensures Drawn(r, k) <= hi {
        assert Unit * k < Unit * (q + 1);
        assert k <= q;
      }
    } else {
      var k := q + 1;
      assert IsDrawIndex(r, k);
      assert Drawn(r, k) == hi - rem + Unit > hi;
    }
  }

  /** Every step from the clamped minimum up to the clamped maximum can be drawn. */
  lemma DrawReachesEveryStep(r: Range, b: int)
    requires ClampedMin(r) <= b <= ClampedMax(r) && (b - ClampedMin(r)) % Unit == 0
    ensures exists k :: IsDrawIndex(r, k) && Drawn(r, k) == b
  {
    var k := (b - ClampedMin(r)) / Unit;
    assert IsDrawIndex(r, k) && Drawn(r, k) == b;
  }

  /** The values `Math.floor(Math.random() * 9 + 1)` can take. */
  predicate IsFallbackIndex(d: int)
  {
    1 <= d <= FallbackSteps
  }

  /** The default budget `d * 10000` used when the range request fails. */
  function Fallback(d: int): (b: int)
    requires IsFallbackIndex(d)
    ensures b % FallbackUnit == 0 && FallbackUnit <= b <= FallbackSteps * FallbackUnit
  {
    d * FallbackUnit
  }

  /** Every multiple of 10000 from 10000 to 90000 can be the default budget. */
  lemma FallbackReachesEveryStep(b: int)
    requires b % FallbackUnit == 0 && FallbackUnit <= b <= FallbackSteps * FallbackUnit
    ensures exists d :: IsFallbackIndex(d) && Fallback(d) == b
  {
    var d := b / FallbackUnit;
    assert IsFallbackIndex(d) && Fallback(d) == b;
  }

  /** The draws a reply calls for are in range. */
  predicate IsDraw(reply: Reply, k: int, d: int)
  {
    match reply
    case Proposed(r) => IsDrawIndex(r, k)
    case Unavailable => IsFallbackIndex(d)
  }

  /** The budget `handleSubmit` stores for a reply and the two random draws. */
  function Derived(reply: Reply, k: int, d: int): (b: int)
    requires IsDraw(reply, k, d)
    ensures b >= Floor
    ensures reply.Proposed? ==> ClampedMin(reply.range) <= b < ClampedMax(reply.range) + Unit
    ensures reply.Unavailable? ==> b % FallbackUnit == 0 && FallbackUnit <= b <= FallbackSteps * FallbackUnit
  {
    match reply
    case Proposed(r) => Drawn(r, k)
    case Unavailable => Fallback(d)
  }
}
