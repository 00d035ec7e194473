/** The cost ledger: a registry of pricing policies keyed by `vendor:model`, the four ways a
    policy turns token counts into money, and an append-only ledger of usage with running
    totals, a summary and a reset. */
module Billing {
  import opened Wrappers
  import opened Dicts
  import opened BillingModels

  /** `(input_cost, output_cost, total_cost)` */
  datatype Cost = Cost(input: real, output: real, total: real)

  const ZeroCost := Cost(0.0, 0.0, 0.0)

  /** The registry key of a vendor and a model. */
  function PricingKey(vendor: string, model: string): string {
    vendor + ":" + model
  }

  /** `(tokens / 1_000_000) * price` */
  function PerMillion(tokens: int, price: real): real {
    (tokens as real / 1000000.0) * price
  }

  // ---------------------------------------------------------------------------------------
  // Fixed pricing

  /** Free allowances are subtracted (never below zero); the rest is billed at the flat rates. */
  function FixedCost(p: ModelPricing, promptTokens: int, completionTokens: int): (r: Cost)
    ensures r.total == r.input + r.output
  {
    var billablePrompt := if promptTokens - p.freeInputTokens > 0 then promptTokens - p.freeInputTokens else 0;
    var billableCompletion := if completionTokens - p.freeOutputTokens > 0 then completionTokens - p.freeOutputTokens else 0;
    var input := PerMillion(billablePrompt, p.inputPricePerMillion);
    var output := PerMillion(billableCompletion, p.outputPricePerMillion);
    Cost(input, output, input + output)
  }

  /** Tokens inside the free allowance cost nothing, and beyond it each token costs the
      flat rate (so the cost grows with the count when the rate is not negative). */
  lemma FixedCostAllowance(p: ModelPricing, promptTokens: int, completionTokens: int)
    ensures promptTokens <= p.freeInputTokens ==> FixedCost(p, promptTokens, completionTokens).input == 0.0
    ensures completionTokens <= p.freeOutputTokens ==> FixedCost(p, promptTokens, completionTokens).output == 0.0
    ensures promptTokens >= p.freeInputTokens ==>
      FixedCost(p, promptTokens, completionTokens).input
        == (promptTokens - p.freeInputTokens) as real * p.inputPricePerMillion / 1000000.0
    ensures completionTokens >= p.freeOutputTokens ==>
      FixedCost(p, promptTokens, completionTokens).output
        == (completionTokens - p.freeOutputTokens) as real * p.outputPricePerMillion / 1000000.0
  {
  }

  lemma FixedCostMonotone(p: ModelPricing, promptTokens: int, more: int, completionTokens: int)
    requires promptTokens <= more && p.inputPricePerMillion >= 0.0
    ensures FixedCost(p, promptTokens, completionTokens).input <= FixedCost(p, more, completionTokens).input
  {
    var a := if promptTokens - p.freeInputTokens > 0 then promptTokens - p.freeInputTokens else 0;
    var b := if more - p.freeInputTokens > 0 then more - p.freeInputTokens else 0;
    assert a <= b;
    assert (a as real / 1000000.0) <= (b as real / 1000000.0);
    MulMonotone(a as real / 1000000.0, b as real / 1000000.0, p.inputPricePerMillion);
  }

  lemma MulMonotone(x: real, y: real, k: real)
    requires x <= y && k >= 0.0
    ensures x * k <= y * k
  {
  }

  // ---------------------------------------------------------------------------------------
  // Simple tiered pricing

  /** How many tokens fit in a tier; `None` for an open-ended tier (`max_tokens` None or 0,
      which the `if tier.max_tokens` test treats alike). */
  function TierSize(t: PriceTier): Option<int> {
    if t.maxTokens.Some? && t.maxTokens.value != 0 then Some(t.maxTokens.value - t.minTokens) else None
  }

  /** `min(remaining, tier_size)`, with an infinite size for an open-ended tier. */
  function TakeFromTier(remaining: int, size: Option<int>): (r: int)
    ensures r <= remaining
    ensures size.Some? ==> r <= size.value
    ensures r == remaining || (size.Some? && r == size.value)
  {
    if size.Some? && size.value < remaining then size.value else remaining
  }

  /** Python's stable `sorted(tiers, key=min_tokens)`, as an insertion sort. */
  function SortByMin(s: seq<PriceTier>): (r: seq<PriceTier>)
    ensures |r| == |s|
    decreases |s|
  {
    if |s| == 0 then [] else InsertByMin(s[0], SortByMin(s[1..]))
  }

  /** Puts `x` before the first element whose `min_tokens` is not smaller, which keeps
      equal keys in their original order when `x` came first. */
  function InsertByMin(x: PriceTier, r: seq<PriceTier>): (r': seq<PriceTier>)
    ensures |r'| == |r| + 1
    ensures r'[0] == x || (|r| > 0 && r'[0] == r[0])
    decreases |r|
  {
    if |r| == 0 then [x]
    else if x.minTokens <= r[0].minTokens then [x] + r
    else [r[0]] + InsertByMin(x, r[1..])
  }

  predicate AscendingByMin(s: seq<PriceTier>) {
    forall i, j :: 0 <= i < j < |s| ==> s[i].minTokens <= s[j].minTokens
  }

  /** Every tier in `s` starts at `m` or later. */
  predicate AllFrom(m: int, s: seq<PriceTier>) {
    forall i :: 0 <= i < |s| ==> m <= s[i].minTokens
  }

  lemma {:induction false} InsertAllFrom(m: int, x: PriceTier, r: seq<PriceTier>)
    requires AllFrom(m, r) && m <= x.minTokens
    ensures AllFrom(m, InsertByMin(x, r))
    decreases |r|
  {
    if |r| > 0 && x.minTokens > r[0].minTokens {
      InsertAllFrom(m, x, r[1..]);
      var ins := InsertByMin(x, r[1..]);
      assert InsertByMin(x, r) == [r[0]] + ins;
    }
  }

  lemma {:induction false} InsertPermutes(x: PriceTier, r: seq<PriceTier>)
    ensures multiset(InsertByMin(x, r)) == multiset(r) + multiset{x}
    decreases |r|
  {
    if |r| > 0 && x.minTokens > r[0].minTokens {
      InsertPermutes(x, r[1..]);
      assert r == [r[0]] + r[1..];
    }
  }

  lemma {:induction false} InsertAscending(x: PriceTier, r: seq<PriceTier>)
    requires AscendingByMin(r)
    ensures AscendingByMin(InsertByMin(x, r))
    decreases |r|
  {
    if |r| > 0 && x.minTokens > r[0].minTokens {
      var tail := r[1..];
      assert AscendingByMin(tail) by {
        forall i, j | 0 <= i < j < |tail| ensures tail[i].minTokens <= tail[j].minTokens {
          assert tail[i] == r[i + 1] && tail[j] == r[j + 1];
        }
      }
      assert AllFrom(r[0].minTokens, tail) by {
        forall i | 0 <= i < |tail| ensures r[0].minTokens <= tail[i].minTokens {
          assert tail[i] == r[i + 1];
        }
      }
      InsertAscending(x, tail);
      InsertAllFrom(r[0].minTokens, x, tail);
      var ins := InsertByMin(x, tail);
      var res := [r[0]] + ins;
      forall i, j | 0 <= i < j < |res| ensures res[i].minTokens <= res[j].minTokens {
        assert res[j] == ins[j - 1];
        if i > 0 { assert res[i] == ins[i - 1]; }
      }
    } else if |r| > 0 {
      var res := [x] + r;
      forall i, j | 0 <= i < j < |res| ensures res[i].minTokens <= res[j].minTokens {
        assert res[j] == r[j - 1];
        if i > 0 {
          assert res[i] == r[i - 1];
        } else if j > 1 {
          assert r[0].minTokens <= r[j - 1].minTokens;
        }
      }
    }
  }

  /** The sort orders the tiers by `min_tokens` and neither adds nor drops any. */
  lemma SortByMinSorts(s: seq<PriceTier>)
    ensures AscendingByMin(SortByMin(s))
    ensures multiset(SortByMin(s)) == multiset(s)
  {
    SortByMinAscending(s);
    SortByMinPermutes(s);
  }

  lemma {:induction false} SortByMinAscending(s: seq<PriceTier>)
    ensures AscendingByMin(SortByMin(s))
    decreases |s|
  {
    if |s| > 0 {
      SortByMinAscending(s[1..]);
      InsertAscending(s[0], SortByMin(s[1..]));
    }
  }

  lemma {:induction false} SortByMinPermutes(s: seq<PriceTier>)
    ensures multiset(SortByMin(s)) == multiset(s)
    decreases |s|
  {
    if |s| > 0 {
      SortByMinPermutes(s[1..]);
      InsertPermutes(s[0], SortByMin(s[1..]));
      assert s == [s[0]] + s[1..];
    }
  }

  /** Tiers already in ascending order are walked as declared. */
  lemma {:induction false} SortByMinKeepsSorted(s: seq<PriceTier>)
    requires AscendingByMin(s)
    ensures SortByMin(s) == s
    decreases |s|
  {
    if |s| > 0 {
      var tail := s[1..];
      assert AscendingByMin(tail) by {
        forall i, j | 0 <= i < j < |tail| ensures tail[i].minTokens <= tail[j].minTokens {
          assert tail[i] == s[i + 1] && tail[j] == s[j + 1];
        }
      }
      SortByMinKeepsSorted(tail);
      if |tail| > 0 {
        assert s[0].minTokens <= s[1].minTokens;
      }
      assert s == [s[0]] + tail;
    }
  }

  /** The state of the tier walk: accumulated costs and the tokens still to bill. */
  datatype Ladder = Ladder(inputCost: real, outputCost: real, remainingPrompt: int, remainingCompletion: int)

  /** Nothing left to bill on either side: the walk stops (`break`). */
  predicate Exhausted(s: Ladder) {
    s.remainingPrompt <= 0 && s.remainingCompletion <= 0
  }

  /** One tier: each side takes `min(remaining, tier_size)` and bills it only if positive. */
  function ClimbTier(t: PriceTier, s: Ladder): Ladder {
    var size := TierSize(t);
    var promptIn := TakeFromTier(s.remainingPrompt, size);
    var completionIn := TakeFromTier(s.remainingCompletion, size);
    Ladder(
      if promptIn > 0 then s.inputCost + PerMillion(promptIn, t.inputPrice) else s.inputCost,
      if completionIn > 0 then s.outputCost + PerMillion(completionIn, t.outputPrice) else s.outputCost,
      if promptIn > 0 then s.remainingPrompt - promptIn else s.remainingPrompt,
      if completionIn > 0 then s.remainingCompletion - completionIn else s.remainingCompletion)
  }

  /** The walk over tiers in the given order, stopping once both sides are exhausted. */
  function Climb(tiers: seq<PriceTier>, s: Ladder): Ladder
    decreases |tiers|
  {
    if |tiers| == 0 || Exhausted(s) then s else Climb(tiers[1..], ClimbTier(tiers[0], s))
  }

  /** Simple tiered cost: the walk over the tiers sorted by `min_tokens`. */
  function TieredCost(tiers: seq<PriceTier>, promptTokens: int, completionTokens: int): (r: Cost)
    ensures r.total == r.input + r.output
  {
    var s := Climb(SortByMin(tiers), Ladder(0.0, 0.0, promptTokens, completionTokens));
    Cost(s.inputCost, s.outputCost, s.inputCost + s.outputCost)
  }

  /** No tiers, or no tokens on either side, cost nothing. */
  lemma TieredNothingBilled(tiers: seq<PriceTier>, promptTokens: int, completionTokens: int)
    requires tiers == [] || (promptTokens <= 0 && completionTokens <= 0)
    ensures TieredCost(tiers, promptTokens, completionTokens) == ZeroCost
  {
  }

  /** One side of the walk on its own (prompt when `input`, completion otherwise), without
      the shared early stop. */
  function Stream(tiers: seq<PriceTier>, cost: real, remaining: int, input: bool): (real, int)
    decreases |tiers|
  {
    if |tiers| == 0 then (cost, remaining)
    else
      var t := tiers[0];
      var inTier := TakeFromTier(remaining, TierSize(t));
      var price := if input then t.inputPrice else t.outputPrice;
      if inTier > 0 then Stream(tiers[1..], cost + PerMillion(inTier, price), remaining - inTier, input)
      else Stream(tiers[1..], cost, remaining, input)
  }

  lemma {:induction false} StreamIdle(tiers: seq<PriceTier>, cost: real, remaining: int, input: bool)
    requires remaining <= 0
    ensures Stream(tiers, cost, remaining, input) == (cost, remaining)
    decreases |tiers|
  {
    if |tiers| > 0 {
      StreamIdle(tiers[1..], cost, remaining, input);
    }
  }

  /** The two sides never interact: the shared `break` only fires when neither side has
      anything left, so the walk is two independent single-side walks. */
  lemma {:induction false} ClimbIsTwoStreams(tiers: seq<PriceTier>, s: Ladder)
    ensures Climb(tiers, s) == Ladder(
      Stream(tiers, s.inputCost, s.remainingPrompt, true).0,
      Stream(tiers, s.outputCost, s.remainingCompletion, false).0,
      Stream(tiers, s.inputCost, s.remainingPrompt, true).1,
      Stream(tiers, s.outputCost, s.remainingCompletion, false).1)
    decreases |tiers|
  {
    if |tiers| == 0 {
    } else if Exhausted(s) {
      StreamIdle(tiers, s.inputCost, s.remainingPrompt, true);
      StreamIdle(tiers, s.outputCost, s.remainingCompletion, false);
    } else {
      ClimbIsTwoStreams(tiers[1..], ClimbTier(tiers[0], s));
    }
  }

  /** A side never bills more tokens than it has, nor a negative number. */
  lemma {:induction false} StreamBounds(tiers: seq<PriceTier>, cost: real, remaining: int, input: bool)
    requires remaining >= 0
    ensures 0 <= Stream(tiers, cost, remaining, input).1 <= remaining
    decreases |tiers|
  {
    if |tiers| > 0 {
      var inTier := TakeFromTier(remaining, TierSize(tiers[0]));
      if inTier > 0 {
        StreamBounds(tiers[1..], cost + PerMillion(inTier, if input then tiers[0].inputPrice else tiers[0].outputPrice),
                     remaining - inTier, input);
      } else {
        StreamBounds(tiers[1..], cost, remaining, input);
      }
    }
  }

  /** Once an open-ended tier is reached, everything left is billed there. */
  lemma {:induction false} StreamUnbounded(tiers: seq<PriceTier>, cost: real, remaining: int, input: bool, k: nat)
    requires remaining >= 0 && k < |tiers| && TierSize(tiers[k]).None?
    ensures Stream(tiers, cost, remaining, input).1 == 0
    decreases |tiers|
  {
    var inTier := TakeFromTier(remaining, TierSize(tiers[0]));
    var price := if input then tiers[0].inputPrice else tiers[0].outputPrice;
    if k == 0 {
      if inTier > 0 {
        StreamIdle(tiers[1..], cost + PerMillion(inTier, price), remaining - inTier, input);
      } else {
        StreamIdle(tiers[1..], cost, remaining, input);
      }
    } else if inTier > 0 {
      StreamUnbounded(tiers[1..], cost + PerMillion(inTier, price), remaining - inTier, input, k - 1);
    } else if remaining == 0 {
      StreamIdle(tiers[1..], cost, remaining, input);
    } else {
      StreamUnbounded(tiers[1..], cost, remaining, input, k - 1);
    }
  }

  /** For non-negative counts: each side bills between 0 and all of its tokens, and all of
      them when some tier is open-ended; the prompt side's cost does not depend on the
      completion count (nor the other way round). */
  lemma TieredBilling(tiers: seq<PriceTier>, promptTokens: int, completionTokens: int, otherCompletion: int, otherPrompt: int)
    requires promptTokens >= 0 && completionTokens >= 0
    ensures var s := Climb(SortByMin(tiers), Ladder(0.0, 0.0, promptTokens, completionTokens));
      0 <= s.remainingPrompt <= promptTokens && 0 <= s.remainingCompletion <= completionTokens
      && ((exists k :: 0 <= k < |tiers| && TierSize(tiers[k]).None?) ==> s.remainingPrompt == 0 && s.remainingCompletion == 0)
    ensures TieredCost(tiers, promptTokens, completionTokens).input == TieredCost(tiers, promptTokens, otherCompletion).input
    ensures TieredCost(tiers, promptTokens, completionTokens).output == TieredCost(tiers, otherPrompt, completionTokens).output
  {
    var sorted := SortByMin(tiers);
    ClimbIsTwoStreams(sorted, Ladder(0.0, 0.0, promptTokens, completionTokens));
    ClimbIsTwoStreams(sorted, Ladder(0.0, 0.0, promptTokens, otherCompletion));
    ClimbIsTwoStreams(sorted, Ladder(0.0, 0.0, otherPrompt, completionTokens));
    StreamBounds(sorted, 0.0, promptTokens, true);
    StreamBounds(sorted, 0.0, completionTokens, false);
    if k :| 0 <= k < |tiers| && TierSize(tiers[k]).None? {
      SortByMinSorts(tiers);
      assert tiers[k] in multiset(sorted);
      var j :| 0 <= j < |sorted| && sorted[j] == tiers[k];
      StreamUnbounded(sorted, 0.0, promptTokens, true, j);
      StreamUnbounded(sorted, 0.0, completionTokens, false, j);
    }
  }

  /** `_calculate_tiered_cost` */
  method CalculateTieredCost(pricing: ModelPricing, promptTokens: int, completionTokens: int) returns (cost: Cost)
    ensures cost == TieredCost(pricing.tiers, promptTokens, completionTokens)
    ensures cost.total == cost.input + cost.output
  {
    var sorted := SortByMin(pricing.tiers);
    var inputCost, outputCost := 0.0, 0.0;
    var remainingPrompt, remainingCompletion := promptTokens, completionTokens;
    ghost var goal := Climb(sorted, Ladder(0.0, 0.0, promptTokens, completionTokens));
    var i := 0;
    while i < |sorted|
      invariant 0 <= i <= |sorted|
      invariant Climb(sorted[i..], Ladder(inputCost, outputCost, remainingPrompt, remainingCompletion)) == goal
    {
      if remainingPrompt <= 0 && remainingCompletion <= 0 {
        break;
      }
      ghost var before := Ladder(inputCost, outputCost, remainingPrompt, remainingCompletion);
      ClimbStep(sorted, i, before);
      var tier := sorted[i];
      var tierSize := TierSize(tier);
      var promptInTier := TakeFromTier(remainingPrompt, tierSize);
      if promptInTier > 0 {
        inputCost := inputCost + PerMillion(promptInTier, tier.inputPrice);
        remainingPrompt := remainingPrompt - promptInTier;
      }
      var completionInTier := TakeFromTier(remainingCompletion, tierSize);
      if completionInTier > 0 {
        outputCost := outputCost + PerMillion(completionInTier, tier.outputPrice);
        remainingCompletion := remainingCompletion - completionInTier;
      }
      assert Ladder(inputCost, outputCost, remainingPrompt, remainingCompletion) == ClimbTier(tier, before);
      i := i + 1;
    }
    cost := Cost(inputCost, outputCost, inputCost + outputCost);
  }

  /** One pass of the walk's loop, seen from the tiers still ahead. */
  lemma ClimbStep(tiers: seq<PriceTier>, i: nat, s: Ladder)
    requires i < |tiers| && !Exhausted(s)
    ensures Climb(tiers[i..], s) == Climb(tiers[i + 1..], ClimbTier(tiers[i], s))
  {
    assert tiers[i..][1..] == tiers[i + 1..];
  }

  // ---------------------------------------------------------------------------------------
  // Complex tiered pricing

  /** The input range and the (optional) output range both contain the counts. */
  predicate TierMatches(t: ComplexPriceTier, promptTokens: int, completionTokens: int) {
    var inputMatch := t.inputMin <= promptTokens && (t.inputMax.None? || promptTokens <= t.inputMax.value);
    var outputMatch := (t.outputMin.None? || completionTokens >= t.outputMin.value)
                       && (t.outputMax.None? || completionTokens <= t.outputMax.value);
    inputMatch && outputMatch
  }

  /** Index of the first matching tier in declaration order. */
  function FirstMatch(tiers: seq<ComplexPriceTier>, promptTokens: int, completionTokens: int): (r: Option<nat>)
    ensures r.Some? ==> r.value < |tiers| && TierMatches(tiers[r.value], promptTokens, completionTokens)
    ensures r.Some? ==> forall j :: 0 <= j < r.value ==> !TierMatches(tiers[j], promptTokens, completionTokens)
    ensures r.None? ==> forall j :: 0 <= j < |tiers| ==> !TierMatches(tiers[j], promptTokens, completionTokens)
    decreases |tiers|
  {
    if |tiers| == 0 then None
    else if TierMatches(tiers[0], promptTokens, completionTokens) then Some(0)
    else match FirstMatch(tiers[1..], promptTokens, completionTokens)
      case None => None
      case Some(k) => Some(k + 1)
  }

  /** The first matching tier, or the last tier when none matches. */
  function ChosenTier(tiers: seq<ComplexPriceTier>, promptTokens: int, completionTokens: int): ComplexPriceTier
    requires |tiers| > 0
  {
    match FirstMatch(tiers, promptTokens, completionTokens)
    case Some(k) => tiers[k]
    case None => tiers[|tiers| - 1]
  }

  /** Complex tiered cost: the chosen tier's rates on the full counts; with no complex tiers,
      the simple ladder when there is one, and nothing otherwise. */
  function ComplexTieredCost(p: ModelPricing, promptTokens: int, completionTokens: int): Cost {
    if |p.complexTiers| == 0 then
      if |p.tiers| > 0 then TieredCost(p.tiers, promptTokens, completionTokens) else ZeroCost
    else
      var t := ChosenTier(p.complexTiers, promptTokens, completionTokens);
      var input := PerMillion(promptTokens, t.inputPrice);
      var output := PerMillion(completionTokens, t.outputPrice);
      Cost(input, output, input + output)
  }

  /** With complex tiers present, the rates are those of a tier that matches and is preceded
      by no matching tier, or those of the last tier when no tier matches. */
  lemma ComplexTierChoice(p: ModelPricing, promptTokens: int, completionTokens: int)
    requires |p.complexTiers| > 0
    ensures var c := ComplexTieredCost(p, promptTokens, completionTokens);
      exists k :: 0 <= k < |p.complexTiers|
        && c == Cost(PerMillion(promptTokens, p.complexTiers[k].inputPrice),
                     PerMillion(completionTokens, p.complexTiers[k].outputPrice),
                     PerMillion(promptTokens, p.complexTiers[k].inputPrice)
                       + PerMillion(completionTokens, p.complexTiers[k].outputPrice))
        && (forall j :: 0 <= j < k ==> !TierMatches(p.complexTiers[j], promptTokens, completionTokens))
        && (TierMatches(p.complexTiers[k], promptTokens, completionTokens) || k == |p.complexTiers| - 1)
  {
    var tiers := p.complexTiers;
    match FirstMatch(tiers, promptTokens, completionTokens)
    case Some(k) =>
      assert ChosenTier(tiers, promptTokens, completionTokens) == tiers[k];
    case None =>
      var k := |tiers| - 1;
      assert ChosenTier(tiers, promptTokens, completionTokens) == tiers[k];
  }

  /** Without complex tiers the result is the simple ladder's, whether or not there are tiers
      at all (an empty ladder costs nothing). */
  lemma ComplexWithoutTiersIsTiered(p: ModelPricing, promptTokens: int, completionTokens: int)
    requires |p.complexTiers| == 0
    ensures ComplexTieredCost(p, promptTokens, completionTokens) == TieredCost(p.tiers, promptTokens, completionTokens)
  {
  }

  /** `_calculate_complex_tiered_cost` */
  method CalculateComplexTieredCost(pricing: ModelPricing, promptTokens: int, completionTokens: int) returns (cost: Cost)
    ensures cost == ComplexTieredCost(pricing, promptTokens, completionTokens)
  {
    if |pricing.complexTiers| == 0 {
      if |pricing.tiers| > 0 {
        cost := CalculateTieredCost(pricing, promptTokens, completionTokens);
        return;
      }
      return ZeroCost;
    }
    var tiers := pricing.complexTiers;
    var matched: Option<ComplexPriceTier> := None;
    var i := 0;
    while i < |tiers|
      invariant 0 <= i <= |tiers|
      invariant matched.None?
      invariant forall j :: 0 <= j < i ==> !TierMatches(tiers[j], promptTokens, completionTokens)
    {
      var tier := tiers[i];
      var inputMatch := tier.inputMin <= promptTokens;
      if tier.inputMax.Some? {
        inputMatch := inputMatch && promptTokens <= tier.inputMax.value;
      }
      var outputMatch := true;
      if tier.outputMin.Some? {
        outputMatch := completionTokens >= tier.outputMin.value;
      }
      if tier.outputMax.Some? {
        outputMatch := outputMatch && completionTokens <= tier.outputMax.value;
      }
      if inputMatch && outputMatch {
        matched := Some(tier);
        assert FirstMatch(tiers, promptTokens, completionTokens) == Some(i) by {
          FirstMatchIs(tiers, promptTokens, completionTokens, i);
        }
        break;
      }
      i := i + 1;
    }
    var chosen := if matched.Some? then matched.value else tiers[|tiers| - 1];
    var inputCost := PerMillion(promptTokens, chosen.inputPrice);
    var outputCost := PerMillion(completionTokens, chosen.outputPrice);
    cost := Cost(inputCost, outputCost, inputCost + outputCost);
  }

  /** A matching tier preceded by no matching tier is the first match. */
  lemma {:induction false} FirstMatchIs(tiers: seq<ComplexPriceTier>, promptTokens: int, completionTokens: int, i: nat)
    requires i < |tiers| && TierMatches(tiers[i], promptTokens, completionTokens)
    requires forall j :: 0 <= j < i ==> !TierMatches(tiers[j], promptTokens, completionTokens)
    ensures FirstMatch(tiers, promptTokens, completionTokens) == Some(i)
  {
    if i > 0 && !TierMatches(tiers[0], promptTokens, completionTokens) {
      FirstMatchIs(tiers[1..], promptTokens, completionTokens, i - 1);
    }
  }

  // ---------------------------------------------------------------------------------------
  // Dispatch and the ledger

  /** `calculate_cost` on the registry lookup: nothing registered or free costs nothing,
      otherwise the policy's own rule. Whatever the policy, the total is the input cost plus
      the output cost. */
  function PolicyCost(pricing: Option<ModelPricing>, promptTokens: int, completionTokens: int): (r: Cost)
    ensures pricing.None? || pricing.value.pricingType == Free ==> r == ZeroCost
    ensures r.total == r.input + r.output
  {
    match pricing
    case None => ZeroCost
    case Some(p) =>
      match p.pricingType
      case Free => ZeroCost
      case Fixed => FixedCost(p, promptTokens, completionTokens)
      case Tiered => TieredCost(p.tiers, promptTokens, completionTokens)
      case TieredComplex => ComplexTieredCost(p, promptTokens, completionTokens)
  }

  function SumPrompt(rs: seq<UsageRecord>): int {
    if |rs| == 0 then 0 else SumPrompt(rs[..|rs| - 1]) + rs[|rs| - 1].promptTokens
  }

  function SumCompletion(rs: seq<UsageRecord>): int {
    if |rs| == 0 then 0 else SumCompletion(rs[..|rs| - 1]) + rs[|rs| - 1].completionTokens
  }

  function SumInputCost(rs: seq<UsageRecord>): real {
    if |rs| == 0 then 0.0 else SumInputCost(rs[..|rs| - 1]) + rs[|rs| - 1].inputCost
  }

  function SumOutputCost(rs: seq<UsageRecord>): real {
    if |rs| == 0 then 0.0 else SumOutputCost(rs[..|rs| - 1]) + rs[|rs| - 1].outputCost
  }

  function SumTotalCost(rs: seq<UsageRecord>): real {
    if |rs| == 0 then 0.0 else SumTotalCost(rs[..|rs| - 1]) + rs[|rs| - 1].totalCost
  }

  /** The summary the ledger promises: "N/A" and zeros when empty; otherwise the last
      record's provider and model, the sums over all records, and their number. */
  function Summarize(rs: seq<UsageRecord>): TaskBillingSummary {
    if |rs| == 0 then NewSummary("N/A", "N/A", 0, 0, 0.0, 0.0, 0.0, 0)
    else TaskBillingSummary(rs[|rs| - 1].provider, rs[|rs| - 1].model, SumPrompt(rs), SumCompletion(rs),
                            SumInputCost(rs), SumOutputCost(rs), SumTotalCost(rs), |rs|, "USD", rs)
  }

  /** Recording one more usage: one more step, that record's provider and model, and every
      total grown by exactly that record's amounts. */
  lemma SummarizeAppend(rs: seq<UsageRecord>, r: UsageRecord)
    ensures var before := Summarize(rs); var after := Summarize(rs + [r]);
      after.stepCount == before.stepCount + 1
      && after.provider == r.provider && after.model == r.model
      && after.totalPromptTokens == before.totalPromptTokens + r.promptTokens
      && after.totalCompletionTokens == before.totalCompletionTokens + r.completionTokens
      && after.totalInputCost == before.totalInputCost + r.inputCost
      && after.totalOutputCost == before.totalOutputCost + r.outputCost
      && after.totalCost == before.totalCost + r.totalCost
      && after.records == rs + [r]
  {
    var rs' := rs + [r];
    assert rs'[..|rs|] == rs;
    assert SumPrompt(rs') == SumPrompt(rs) + r.promptTokens;
    assert SumCompletion(rs') == SumCompletion(rs) + r.completionTokens;
    assert SumInputCost(rs') == SumInputCost(rs) + r.inputCost;
    assert SumOutputCost(rs') == SumOutputCost(rs) + r.outputCost;
    assert SumTotalCost(rs') == SumTotalCost(rs) + r.totalCost;
  }

  /** Registering several policies in order: each under its own key, later ones winning. */
  function RegisterAll(registry: seq<(string, ModelPricing)>, ps: seq<ModelPricing>): seq<(string, ModelPricing)>
    decreases |ps|
  {
    if |ps| == 0 then registry
    else RegisterAll(Put(registry, PricingKey(ps[0].vendor, ps[0].model), ps[0]), ps[1..])
  }

  /** The policies registered under `key` among `ps`, in order. */
  function WithKey(ps: seq<ModelPricing>, key: string): seq<ModelPricing> {
    if |ps| == 0 then []
    else (if PricingKey(ps[0].vendor, ps[0].model) == key then [ps[0]] else []) + WithKey(ps[1..], key)
  }

  /** After registering `ps`, a key holds the last of them registered under it, or what it
      held before when none was. */
  lemma {:induction false} RegisterAllLookup(registry: seq<(string, ModelPricing)>, ps: seq<ModelPricing>, key: string)
    ensures var w := WithKey(ps, key);
      Lookup(RegisterAll(registry, ps), key) == if |w| > 0 then Some(w[|w| - 1]) else Lookup(registry, key)
    decreases |ps|
  {
    if |ps| > 0 {
      var k0 := PricingKey(ps[0].vendor, ps[0].model);
      var reg' := Put(registry, k0, ps[0]);
      RegisterAllLookup(reg', ps[1..], key);
      var head := if k0 == key then [ps[0]] else [];
      var w' := WithKey(ps[1..], key);
      assert WithKey(ps, key) == head + w';
      if |w'| > 0 {
        assert (head + w')[|head + w'| - 1] == w'[|w'| - 1];
      }
      if k0 == key {
        LookupPutSame(registry, k0, ps[0]);
      } else {
        LookupPutOther(registry, k0, ps[0], key);
      }
    }
  }

  /** Every entry sits under its policy's own key, and no key appears twice. */
  ghost predicate WellKeyed(registry: seq<(string, ModelPricing)>) {
    DistinctKeys(registry) && EntriesKeyed(registry)
  }

  ghost predicate EntriesKeyed(registry: seq<(string, ModelPricing)>) {
    forall i :: 0 <= i < |registry| ==> registry[i].0 == PricingKey(registry[i].1.vendor, registry[i].1.model)
  }

  lemma PutWellKeyed(registry: seq<(string, ModelPricing)>, p: ModelPricing)
    requires WellKeyed(registry)
    ensures WellKeyed(Put(registry, PricingKey(p.vendor, p.model), p))
  {
    var key := PricingKey(p.vendor, p.model);
    PutDistinct(registry, key, p);
    PutEntries(registry, key, p);
  }

  lemma {:induction false} PutEntries(registry: seq<(string, ModelPricing)>, key: string, p: ModelPricing)
    requires key == PricingKey(p.vendor, p.model)
    requires EntriesKeyed(registry)
    ensures EntriesKeyed(Put(registry, key, p))
  {
    if |registry| > 0 && registry[0].0 != key {
      PutEntries(registry[1..], key, p);
      var r := Put(registry, key, p);
      var rest := Put(registry[1..], key, p);
      assert r == [registry[0]] + rest;
      forall i | 0 <= i < |r| ensures r[i].0 == PricingKey(r[i].1.vendor, r[i].1.model) {
        if i > 0 {
          assert r[i] == rest[i - 1];
          assert rest[i - 1].0 == PricingKey(rest[i - 1].1.vendor, rest[i - 1].1.model);
        } else {
          assert r[0] == registry[0];
        }
      }
    } else if |registry| > 0 {
      var r := Put(registry, key, p);
      assert r == [(key, p)] + registry[1..];
      forall i | 0 <= i < |r| ensures r[i].0 == PricingKey(r[i].1.vendor, r[i].1.model) {
        if i > 0 { assert r[i] == registry[i]; }
      }
    }
  }

  lemma {:induction false} RegisterAllWellKeyed(registry: seq<(string, ModelPricing)>, ps: seq<ModelPricing>)
    requires WellKeyed(registry)
    ensures WellKeyed(RegisterAll(registry, ps))
    decreases |ps|
  {
    if |ps| > 0 {
      PutWellKeyed(registry, ps[0]);
      RegisterAllWellKeyed(Put(registry, PricingKey(ps[0].vendor, ps[0].model), ps[0]), ps[1..]);
    }
  }

  class BillingManager {
    var registry: seq<(string, ModelPricing)>
    var records: seq<UsageRecord>
    var totalPromptTokens: int
    var totalCompletionTokens: int
    var totalCost: real

    /** The registry is well keyed and the running totals are the sums over the records. */
    ghost predicate Valid()
      reads this
    {
      WellKeyed(registry)
      && totalPromptTokens == SumPrompt(records)
      && totalCompletionTokens == SumCompletion(records)
      && totalCost == SumTotalCost(records)
    }

    constructor ()
      ensures Valid() && registry == [] && records == []
    {
      registry := [];
      records := [];
      totalPromptTokens := 0;
      totalCompletionTokens := 0;
      totalCost := 0.0;
    }

    /** `register_pricing`: stored under `vendor:model`, replacing any earlier policy there. */
    method RegisterPricing(pricing: ModelPricing)
      requires Valid()
      modifies this
      ensures Valid()
      ensures registry == Put(old(registry), PricingKey(pricing.vendor, pricing.model), pricing)
      ensures GetPricing(pricing.vendor, pricing.model) == Some(pricing)
      ensures records == old(records)
      ensures totalPromptTokens == old(totalPromptTokens) && totalCompletionTokens == old(totalCompletionTokens)
      ensures totalCost == old(totalCost)
    {
      PutWellKeyed(registry, pricing);
      LookupPutSame(registry, PricingKey(pricing.vendor, pricing.model), pricing);
      registry := Put(registry, PricingKey(pricing.vendor, pricing.model), pricing);
    }

    /** `get_pricing`: the policy registered under `vendor:model`, if any. */
    function GetPricing(vendor: string, model: string): (r: Option<ModelPricing>)
      reads this
      requires Valid()
      ensures r.Some? <==> HasKey(registry, PricingKey(vendor, model))
      ensures r.Some? ==> PricingKey(r.value.vendor, r.value.model) == PricingKey(vendor, model)
      ensures r.Some? ==> (PricingKey(vendor, model), r.value) in registry
    {
      Lookup(registry, PricingKey(vendor, model))
    }

    /** `calculate_cost` */
    method CalculateCost(vendor: string, model: string, promptTokens: int, completionTokens: int) returns (cost: Cost)
      requires Valid()
      ensures cost == PolicyCost(GetPricing(vendor, model), promptTokens, completionTokens)
    {
      var pricing := GetPricing(vendor, model);
      if pricing.None? {
        return ZeroCost;
      }
      var p := pricing.value;
      match p.pricingType
      case Free =>
        cost := ZeroCost;
      case Fixed =>
        cost := FixedCost(p, promptTokens, completionTokens);
      case Tiered =>
        cost := CalculateTieredCost(p, promptTokens, completionTokens);
      case TieredComplex =>
        cost := CalculateComplexTieredCost(p, promptTokens, completionTokens);
    }

    /** `record_usage`: one record appended, the totals grown by exactly its amounts. The
        clock reading is the `timestamp` parameter. */
    method RecordUsage(vendor: string, model: string, promptTokens: int, completionTokens: int, timestamp: string)
      returns (record: UsageRecord)
      requires Valid()
      modifies this
      ensures Valid()
      ensures var c := PolicyCost(old(GetPricing(vendor, model)), promptTokens, completionTokens);
        record == NewUsageRecord(timestamp, vendor, model, promptTokens, completionTokens, c.input, c.output, c.total)
      ensures records == old(records) + [record]
      ensures totalPromptTokens == old(totalPromptTokens) + promptTokens
      ensures totalCompletionTokens == old(totalCompletionTokens) + completionTokens
      ensures totalCost == old(totalCost) + record.totalCost
      ensures registry == old(registry)
    {
      var cost := CalculateCost(vendor, model, promptTokens, completionTokens);
      record := NewUsageRecord(timestamp, vendor, model, promptTokens, completionTokens, cost.input, cost.output, cost.total);
      assert (records + [record])[..|records|] == records;
      records := records + [record];
      totalPromptTokens := totalPromptTokens + promptTokens;
      totalCompletionTokens := totalCompletionTokens + completionTokens;
      totalCost := totalCost + cost.total;
    }

    /** `get_task_summary`, read from the running totals; it agrees with `Summarize`. */
    function GetTaskSummary(): (r: TaskBillingSummary)
      reads this
      requires Valid()
      ensures r == Summarize(records)
    {
      if |records| == 0 then NewSummary("N/A", "N/A", 0, 0, 0.0, 0.0, 0.0, 0)
      else
        var last := records[|records| - 1];
        TaskBillingSummary(last.provider, last.model, totalPromptTokens, totalCompletionTokens,
                           SumInputCost(records), SumOutputCost(records), totalCost, |records|, "USD", records)
    }

    /** `reset`: the ledger is emptied and the totals zeroed; the registry stays. */
    method Reset()
      requires Valid()
      modifies this
      ensures Valid()
      ensures records == [] && registry == old(registry)
      ensures GetTaskSummary() == NewSummary("N/A", "N/A", 0, 0, 0.0, 0.0, 0.0, 0)
    {
      records := [];
      totalPromptTokens := 0;
      totalCompletionTokens := 0;
      totalCost := 0.0;
    }
  }

  // ---------------------------------------------------------------------------------------
  // Worked examples

  /** 1.5M prompt and 1M completion tokens at 2.50/10.00 per million: 3.75 + 10.00 = 13.75. */
  lemma FixedExample()
    ensures FixedCost(ModelPricing("OpenAI", "gpt-4o", None, Fixed, 2.5, 10.0, [], [], 0, 0, "USD", None, None),
                      1500000, 1000000) == Cost(3.75, 10.0, 13.75)
  {
  }

  /** A two-rung ladder declared out of order: the first 1000 prompt tokens at 1.0, the next
      500 at 2.0. */
  lemma TieredExample()
    ensures TieredCost([PriceTier(1000, None, 2.0, 2.0), PriceTier(0, Some(1000), 1.0, 1.0)], 1500, 0)
         == Cost(0.002, 0.0, 0.002)
  {
    var t1 := PriceTier(1000, None, 2.0, 2.0);
    var t0 := PriceTier(0, Some(1000), 1.0, 1.0);
    assert SortByMin([t1, t0]) == [t0, t1] by {
      assert [t1, t0][1..] == [t0];
      assert SortByMin([t0]) == [t0];
    }
    var s1 := ClimbTier(t0, Ladder(0.0, 0.0, 1500, 0));
    assert s1 == Ladder(0.001, 0.0, 500, 0);
    assert ClimbTier(t1, s1) == Ladder(0.002, 0.0, 0, 0);
    assert [t0, t1][1..] == [t1];
  }
}
