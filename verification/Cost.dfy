/**
 * What a response costs (src/ledger/cost.ts), in exact units: tokens times the price of one of
 * their kind. A missing price makes the cost unknown, never zero.
 */
module Cost {
  import opened Common
  import opened Ledger

  /** Disjoint token counts: `prompt` excludes what was read from or written to the cache. */
  datatype Usage = Usage(prompt: nat, completion: nat, cachedRead: nat, cacheWrite: nat)
  datatype Prices = Prices(input: Option<nat>, output: Option<nat>, cacheRead: Option<nat>, cacheWrite: Option<nat>)

  datatype Charge = Known(amount: nat) | Unpriced

  /** Cached tokens without a price of their own go at the input rate. */
  function CacheReadRate(p: Prices): Option<nat> {
    if p.cacheRead.Some? then p.cacheRead else p.input
  }

  function CacheWriteRate(p: Prices): Option<nat> {
    if p.cacheWrite.Some? then p.cacheWrite else p.input
  }

  function AtRate(tokens: nat, rate: Option<nat>): Option<nat> {
    if rate.None? then None else Some(tokens * rate.value)
  }

  function ComputeCost(u: Usage, pricing: Option<Prices>): Charge {
    if pricing.None? then
      if u.prompt + u.completion + u.cachedRead + u.cacheWrite > 0 then Unpriced else Known(0)
    else
      var p := pricing.value;
      var input, output := AtRate(u.prompt, p.input), AtRate(u.completion, p.output);
      var read, write := AtRate(u.cachedRead, CacheReadRate(p)), AtRate(u.cacheWrite, CacheWriteRate(p));
      if (u.prompt > 0 && input.None?) || (u.completion > 0 && output.None?)
         || (u.cachedRead > 0 && read.None?) || (u.cacheWrite > 0 && write.None?)
      then Unpriced
      else Known(input.OrElse(0) + output.OrElse(0) + read.OrElse(0) + write.OrElse(0))
  }

  /** Every kind of token in use has a rate. */
  predicate Priced(u: Usage, pricing: Option<Prices>) {
    if pricing.None? then u == Usage(0, 0, 0, 0)
    else
      && (u.prompt > 0 ==> pricing.value.input.Some?)
      && (u.completion > 0 ==> pricing.value.output.Some?)
      && (u.cachedRead > 0 ==> CacheReadRate(pricing.value).Some?)
      && (u.cacheWrite > 0 ==> CacheWriteRate(pricing.value).Some?)
  }

  function Plus(a: Usage, b: Usage): Usage {
    Usage(a.prompt + b.prompt, a.completion + b.completion, a.cachedRead + b.cachedRead, a.cacheWrite + b.cacheWrite)
  }

  /** The cost is known exactly when every kind of token in use has a rate. */
  lemma KnownExactlyWhenPriced(u: Usage, pricing: Option<Prices>)
    ensures ComputeCost(u, pricing).Known? <==> Priced(u, pricing)
  {
  }

  function Priceable(tokens: nat, rate: Option<nat>): nat {
    AtRate(tokens, rate).OrElse(0)
  }

  function PriceSum(u: Usage, p: Prices): nat {
    Priceable(u.prompt, p.input) + Priceable(u.completion, p.output)
    + Priceable(u.cachedRead, CacheReadRate(p)) + Priceable(u.cacheWrite, CacheWriteRate(p))
  }

  lemma KnownAmount(u: Usage, p: Prices)
    requires Priced(u, Some(p))
    ensures ComputeCost(u, Some(p)) == Known(PriceSum(u, p))
  {
  }

  lemma RateAdds(a: nat, b: nat, rate: Option<nat>)
    ensures Priceable(a + b, rate) == Priceable(a, rate) + Priceable(b, rate)
  {
    if rate.Some? {
      assert (a + b) * rate.value == a * rate.value + b * rate.value;
    }
  }

  /** The amount: each kind of token at its rate, cached ones at the input rate for want of their own. */
  lemma CostIsTokensTimesRate(u: Usage, p: Prices)
    requires Priced(u, Some(p))
    ensures var input := p.input.OrElse(0);
            ComputeCost(u, Some(p)) ==
            Known(u.prompt * input + u.completion * p.output.OrElse(0)
                  + u.cachedRead * p.cacheRead.OrElse(input) + u.cacheWrite * p.cacheWrite.OrElse(input))
  {
    var input := p.input.OrElse(0);
    RateIs(u.prompt, p.input, input);
    RateIs(u.completion, p.output, p.output.OrElse(0));
    RateIs(u.cachedRead, CacheReadRate(p), p.cacheRead.OrElse(input));
    RateIs(u.cacheWrite, CacheWriteRate(p), p.cacheWrite.OrElse(input));
    FourParts(u, p, u.prompt * input, u.completion * p.output.OrElse(0),
              u.cachedRead * p.cacheRead.OrElse(input), u.cacheWrite * p.cacheWrite.OrElse(input));
  }

  lemma FourParts(u: Usage, p: Prices, prompt: nat, completion: nat, read: nat, write: nat)
    requires Priced(u, Some(p))
    requires Priceable(u.prompt, p.input) == prompt && Priceable(u.completion, p.output) == completion
    requires Priceable(u.cachedRead, CacheReadRate(p)) == read && Priceable(u.cacheWrite, CacheWriteRate(p)) == write
    ensures ComputeCost(u, Some(p)) == Known(prompt + completion + read + write)
  {
    KnownAmount(u, p);
  }

  lemma RateIs(tokens: nat, rate: Option<nat>, each: nat)
    requires each == rate.OrElse(0)
    ensures Priceable(tokens, rate) == tokens * each
  {
  }

  /** Splitting the tokens of a response over two bookings never changes what they cost together. */
  lemma CostIsAdditive(a: Usage, b: Usage, p: Prices)
    requires Priced(a, Some(p)) && Priced(b, Some(p))
    ensures ComputeCost(a, Some(p)).Known? && ComputeCost(b, Some(p)).Known?
    ensures ComputeCost(Plus(a, b), Some(p)) ==
            Known(ComputeCost(a, Some(p)).amount + ComputeCost(b, Some(p)).amount)
  {
    KnownAmount(a, p);
    KnownAmount(b, p);
    KnownAmount(Plus(a, b), p);
    SumAdds(a, b, p);
  }

  lemma SumAdds(a: Usage, b: Usage, p: Prices)
    ensures PriceSum(Plus(a, b), p) == PriceSum(a, p) + PriceSum(b, p)
  {
    RateAdds(a.prompt, b.prompt, p.input);
    RateAdds(a.completion, b.completion, p.output);
    RateAdds(a.cachedRead, b.cachedRead, CacheReadRate(p));
    RateAdds(a.cacheWrite, b.cacheWrite, CacheWriteRate(p));
  }

  /** A response in the context, and whether it came from the cache. */
  datatype Answer = Answer(usage: Usage, fromCache: bool)

  /** No response and a cached one cost nothing; an unpriced one is booked without an amount. */
  function Amount(answer: Option<Answer>, pricing: Option<Prices>): nat {
    if answer.None? || answer.value.fromCache then 0
    else match ComputeCost(answer.value.usage, pricing) case Known(amount) => amount case Unpriced => 0
  }

  /** What is booked: nothing for no response, a cached one or an unpriced one, else its tokens at their rates. */
  lemma BookedAmount(answer: Option<Answer>, p: Prices)
    ensures Amount(answer, None) == 0
    ensures answer.None? || answer.value.fromCache || !Priced(answer.value.usage, Some(p)) ==>
              Amount(answer, Some(p)) == 0
    ensures answer.Some? && !answer.value.fromCache && Priced(answer.value.usage, Some(p)) ==>
              var u, input := answer.value.usage, p.input.OrElse(0);
              Amount(answer, Some(p)) ==
              u.prompt * input + u.completion * p.output.OrElse(0)
              + u.cachedRead * p.cacheRead.OrElse(input) + u.cacheWrite * p.cacheWrite.OrElse(input)
  {
    if answer.Some? {
      KnownExactlyWhenPriced(answer.value.usage, Some(p));
      if Priced(answer.value.usage, Some(p)) {
        CostIsTokensTimesRate(answer.value.usage, p);
      }
    }
  }

  /** The ledger write with its cost computed. */
  method WriteAnswer(ledger: DbLedger, id: nat, who: Who, answer: Option<Answer>, pricing: Option<Prices>, period: int)
    returns (inserted: bool, unknown: bool)
    modifies ledger
    ensures inserted == !HasId(old(ledger.rows), id)
    ensures unknown <==> answer.Some? && !answer.value.fromCache && !Priced(answer.value.usage, pricing)
    ensures ledger.State() == Written(old(ledger.State()), Row(id, who, Amount(answer, pricing), period))
  {
    var charge := Known(0);
    if answer.Some? && !answer.value.fromCache {
      charge := ComputeCost(answer.value.usage, pricing);
      KnownExactlyWhenPriced(answer.value.usage, pricing);
    }
    unknown := charge.Unpriced?;
    inserted := ledger.Write(Row(id, who, if charge.Known? then charge.amount else 0, period));
  }
}
