/** Investment bookkeeping records: the outstanding invest and redeem
    collections of an account, the amounts collected so far, and an account's
    investment portfolio.

    The record types are generic over their numeric types in the runtime; here
    each numeric type is an unsigned 128-bit integer, written as a bounded
    natural number, so that the checked addition of `CollectedAmount` can fail.
 */
module Investments {
  import opened Arithmetic
  import opened Orders

  const BALANCE_MAX: nat := U128_MAX
  const COLLECTED_MAX: nat := U128_MAX
  const PAYMENT_MAX: nat := U128_MAX

  type Balance = x: nat | x <= BALANCE_MAX
  type Collected = x: nat | x <= COLLECTED_MAX
  type Payment = x: nat | x <= PAYMENT_MAX

  /** An investment identifier that can be turned into an account address. */
  datatype InvestmentAccount<InvestmentId> = InvestmentAccount(investmentId: InvestmentId)

  datatype InvestmentInfo<AccountId, Currency, InvestmentId> =
    InvestmentInfo(owner: AccountId, id: InvestmentId, paymentCurrency: Currency)

  // ---------------------------------------------------------------------------
  // Outstanding collections
  // ---------------------------------------------------------------------------

  /** What an account can still collect from its invest order: the payout so
      far and the part of the order not yet fulfilled. */
  datatype InvestCollection =
    InvestCollection(payoutInvestmentInvest: Balance, remainingInvestmentInvest: Balance)

  /** What an account can still collect from its redeem order. */
  datatype RedeemCollection =
    RedeemCollection(payoutInvestmentRedeem: Balance, remainingInvestmentRedeem: Balance)

  /** `Default` for an invest collection: nothing paid out, nothing remaining. */
  function DefaultInvestCollection(): (c: InvestCollection)
    ensures c.payoutInvestmentInvest == 0 && c.remainingInvestmentInvest == 0
  {
    InvestCollection(0, 0)
  }

  /** A collection for an active invest order: nothing is paid out yet and the
      whole order amount remains to be fulfilled. */
  function InvestCollectionFromOrder(order: Order<Balance>): (c: InvestCollection)
    ensures c.payoutInvestmentInvest == 0
    ensures c.remainingInvestmentInvest == order.amount
  {
    InvestCollection(0, order.amount)
  }

  /** `Default` for a redeem collection: nothing paid out, nothing remaining. */
  function DefaultRedeemCollection(): (c: RedeemCollection)
    ensures c.payoutInvestmentRedeem == 0 && c.remainingInvestmentRedeem == 0
  {
    RedeemCollection(0, 0)
  }

  /** A collection for an active redeem order: nothing is paid out yet and the
      whole order amount remains to be fulfilled. */
  function RedeemCollectionFromOrder(order: Order<Balance>): (c: RedeemCollection)
    ensures c.payoutInvestmentRedeem == 0
    ensures c.remainingInvestmentRedeem == order.amount
  {
    RedeemCollection(0, order.amount)
  }

  /** A collection seeded from an order is the default one exactly when the
      order is empty, on both the invest and the redeem side. */
  lemma FromOrderIsDefaultIffEmpty(order: Order<Balance>)
    ensures InvestCollectionFromOrder(order) == DefaultInvestCollection() <==> order.amount == 0
    ensures RedeemCollectionFromOrder(order) == DefaultRedeemCollection() <==> order.amount == 0
  {
  }

  /** Seeding from an order accounts for the whole order: payout plus
      remaining equals the order amount, and the invest and redeem sides
      agree field for field. */
  lemma FromOrderAccountsForWholeOrder(order: Order<Balance>)
    ensures InvestCollectionFromOrder(order).payoutInvestmentInvest
              + InvestCollectionFromOrder(order).remainingInvestmentInvest == order.amount
    ensures RedeemCollectionFromOrder(order).payoutInvestmentRedeem
              + RedeemCollectionFromOrder(order).remainingInvestmentRedeem == order.amount
    ensures InvestCollectionFromOrder(order).payoutInvestmentInvest
              == RedeemCollectionFromOrder(order).payoutInvestmentRedeem
    ensures InvestCollectionFromOrder(order).remainingInvestmentInvest
              == RedeemCollectionFromOrder(order).remainingInvestmentRedeem
  {
  }

  // ---------------------------------------------------------------------------
  // Collected amounts
  // ---------------------------------------------------------------------------

  /** The value held by a `CollectedAmount`: the amount collected so far and
      the amount converted for it at the fulfillment prices. */
  datatype Amounts = Amounts(amountCollected: Collected, amountPayment: Payment)

  /** The new value of a `CollectedAmount` after an increase, together with
      what the increase returned. */
  datatype IncreaseResult = IncreaseResult(state: Amounts, outcome: Outcome)

  /** The derived `Default`: both counters zero. */
  function DefaultAmounts(): (a: Amounts)
    ensures a.amountCollected == 0 && a.amountPayment == 0
  {
    Amounts(0, 0)
  }

  /** `increase`: add `other`'s collected amount, then its payment amount,
      each by a checked addition, returning at the first overflow. A failure
      of the second addition leaves the first one in place. */
  function Increased(self: Amounts, other: Amounts): (r: IncreaseResult)
    ensures r.outcome.Pass? <==>
              self.amountCollected + other.amountCollected <= COLLECTED_MAX
              && self.amountPayment + other.amountPayment <= PAYMENT_MAX
    ensures r.outcome.Pass? ==>
              r.state.amountCollected == self.amountCollected + other.amountCollected
              && r.state.amountPayment == self.amountPayment + other.amountPayment
    ensures r.outcome.Fail? ==> r.outcome.error == Arithmetic(Overflow)
  {
    match EnsureAdd(self.amountCollected, other.amountCollected, COLLECTED_MAX)
    case Err(e) => IncreaseResult(self, Fail(Arithmetic(e)))
    case Ok(collected) =>
      var afterCollected := self.(amountCollected := collected);
      match EnsureAdd(self.amountPayment, other.amountPayment, PAYMENT_MAX)
      case Err(e) => IncreaseResult(afterCollected, Fail(Arithmetic(e)))
      case Ok(payment) => IncreaseResult(afterCollected.(amountPayment := payment), Pass)
  }

  /** When the collected amount overflows, nothing has been written. */
  lemma IncreaseCollectedOverflowLeavesSelf(self: Amounts, other: Amounts)
    requires self.amountCollected + other.amountCollected > COLLECTED_MAX
    ensures Increased(self, other) == IncreaseResult(self, Fail(Arithmetic(Overflow)))
  {
  }

  /** When only the payment amount overflows, the collected amount has
      already been increased and the payment amount is untouched. */
  lemma IncreasePaymentOverflowKeepsCollected(self: Amounts, other: Amounts)
    requires self.amountCollected + other.amountCollected <= COLLECTED_MAX
    requires self.amountPayment + other.amountPayment > PAYMENT_MAX
    ensures Increased(self, other)
              == IncreaseResult(Amounts(self.amountCollected + other.amountCollected, self.amountPayment),
                                Fail(Arithmetic(Overflow)))
  {
  }

  /** A failed increase can still have changed the record: it is not atomic. */
  lemma IncreaseIsNotAtomic()
    ensures Increased(Amounts(1, PAYMENT_MAX), Amounts(2, 1)).outcome.Fail?
    ensures Increased(Amounts(1, PAYMENT_MAX), Amounts(2, 1)).state == Amounts(3, PAYMENT_MAX)
  {
  }

  /** Whatever the outcome, an increase only ever grows the counters, and the
      new value is the old one, the one with only the collected amount added,
      or the one with both added. */
  lemma IncreaseIsMonotone(self: Amounts, other: Amounts)
    ensures Increased(self, other).state.amountCollected >= self.amountCollected
    ensures Increased(self, other).state.amountPayment >= self.amountPayment
    ensures Increased(self, other).state.amountPayment == self.amountPayment
            || Increased(self, other).state.amountPayment == self.amountPayment + other.amountPayment
    ensures Increased(self, other).state.amountCollected == self.amountCollected
            || Increased(self, other).state.amountCollected == self.amountCollected + other.amountCollected
  {
  }

  /** Increasing by the default value always succeeds and changes nothing. */
  lemma IncreaseByDefaultIsIdentity(self: Amounts)
    ensures Increased(self, DefaultAmounts()) == IncreaseResult(self, Pass)
  {
  }

  /** Two successful increases in a row are one increase by the sum of the
      two, and conversely an increase by a sum that succeeds can be split. */
  lemma IncreaseTwiceIsIncreaseBySum(self: Amounts, a: Amounts, b: Amounts)
    requires a.amountCollected + b.amountCollected <= COLLECTED_MAX
    requires a.amountPayment + b.amountPayment <= PAYMENT_MAX
    ensures var sum := Amounts(a.amountCollected + b.amountCollected, a.amountPayment + b.amountPayment);
            var first := Increased(self, a);
            (first.outcome.Pass? && Increased(first.state, b).outcome.Pass?)
              <==> Increased(self, sum).outcome.Pass?
    ensures var sum := Amounts(a.amountCollected + b.amountCollected, a.amountPayment + b.amountPayment);
            var first := Increased(self, a);
            first.outcome.Pass? && Increased(first.state, b).outcome.Pass? ==>
              Increased(first.state, b) == Increased(self, sum)
  {
  }

  /** Sum of the collected amounts of a sequence of increments. */
  function TotalCollected(others: seq<Amounts>): nat
  {
    if others == [] then 0 else others[0].amountCollected + TotalCollected(others[1..])
  }

  /** Sum of the payment amounts of a sequence of increments. */
  function TotalPayment(others: seq<Amounts>): nat
  {
    if others == [] then 0 else others[0].amountPayment + TotalPayment(others[1..])
  }

  /** Repeated `increase`, one increment after the other, stopping at the
      first failure. Because the checked addition neither wraps nor
      saturates, the whole run succeeds exactly when the grand totals fit,
      and then yields them; whatever the outcome, no counter goes down. */
  function IncreasedAll(self: Amounts, others: seq<Amounts>): (r: IncreaseResult)
    ensures r.outcome.Pass? <==>
              self.amountCollected + TotalCollected(others) <= COLLECTED_MAX
              && self.amountPayment + TotalPayment(others) <= PAYMENT_MAX
    ensures r.outcome.Pass? ==>
              r.state.amountCollected == self.amountCollected + TotalCollected(others)
              && r.state.amountPayment == self.amountPayment + TotalPayment(others)
    ensures r.state.amountCollected >= self.amountCollected
    ensures r.state.amountPayment >= self.amountPayment
    decreases |others|
  {
    if others == [] then IncreaseResult(self, Pass)
    else
      var step := Increased(self, others[0]);
      if step.outcome.Fail? then step else IncreasedAll(step.state, others[1..])
  }

  /** A collected amount, updated in place by `Increase`. */
  class CollectedAmount {
    var amountCollected: Collected
    var amountPayment: Payment

    function Value(): Amounts
      reads this
    {
      Amounts(amountCollected, amountPayment)
    }

    /** The derived `Default`. */
    constructor ()
      ensures Value() == DefaultAmounts()
    {
      amountCollected := 0;
      amountPayment := 0;
    }

    /** Adds `other` to this record, collected amount first. On overflow it
        returns the error at once, keeping whatever it has already written. */
    method Increase(other: CollectedAmount) returns (r: Outcome)
      modifies this
      ensures IncreaseResult(Value(), r) == Increased(old(Value()), old(other.Value()))
      ensures r.Pass? <==>
                old(amountCollected + other.amountCollected) <= COLLECTED_MAX
                && old(amountPayment + other.amountPayment) <= PAYMENT_MAX
      ensures r.Pass? ==>
                amountCollected == old(amountCollected + other.amountCollected)
                && amountPayment == old(amountPayment + other.amountPayment)
    {
      var collected := EnsureAdd(amountCollected, other.amountCollected, COLLECTED_MAX);
      if collected.Err? {
        return Fail(Arithmetic(collected.error));
      }
      amountCollected := collected.value;
      var payment := EnsureAdd(amountPayment, other.amountPayment, PAYMENT_MAX);
      if payment.Err? {
        return Fail(Arithmetic(payment.error));
      }
      amountPayment := payment.value;
      return Pass;
    }
  }

  // ---------------------------------------------------------------------------
  // Investment portfolio
  // ---------------------------------------------------------------------------

  /** The six balances of a portfolio, in declaration order. */
  datatype BalanceKind =
    | PendingInvestCurrency
    | ClaimableTrancheTokens
    | FreeTrancheTokens
    | ReservedTrancheTokens
    | PendingRedeemTrancheTokens
    | ClaimableCurrency

  /** Free, pending and claimable pool currency and tranche tokens of an
      account, in one pool currency. */
  datatype InvestmentPortfolio<CurrencyId> = InvestmentPortfolio(
    poolCurrencyId: CurrencyId,
    pendingInvestCurrency: Balance,
    claimableTrancheTokens: Balance,
    freeTrancheTokens: Balance,
    reservedTrancheTokens: Balance,
    pendingRedeemTrancheTokens: Balance,
    claimableCurrency: Balance)
  {
    /** The balance of the given kind. */
    function Get(kind: BalanceKind): Balance
    {
      match kind
      case PendingInvestCurrency => pendingInvestCurrency
      case ClaimableTrancheTokens => claimableTrancheTokens
      case FreeTrancheTokens => freeTrancheTokens
      case ReservedTrancheTokens => reservedTrancheTokens
      case PendingRedeemTrancheTokens => pendingRedeemTrancheTokens
      case ClaimableCurrency => claimableCurrency
    }

    /** A portfolio in `currency` with every balance at its default, zero. */
    static function New(currency: CurrencyId): (p: InvestmentPortfolio<CurrencyId>)
      ensures p.poolCurrencyId == currency
      ensures forall kind :: p.Get(kind) == 0
    {
      InvestmentPortfolio(currency, 0, 0, 0, 0, 0, 0)
    }

    function WithPendingInvestCurrency(amount: Balance): (r: InvestmentPortfolio<CurrencyId>)
      ensures r.poolCurrencyId == poolCurrencyId
      ensures forall kind :: r.Get(kind) == if kind == PendingInvestCurrency then amount else Get(kind)
    {
      this.(pendingInvestCurrency := amount)
    }

    function WithFreeTrancheTokens(amount: Balance): (r: InvestmentPortfolio<CurrencyId>)
      ensures r.poolCurrencyId == poolCurrencyId
      ensures forall kind :: r.Get(kind) == if kind == FreeTrancheTokens then amount else Get(kind)
    {
      this.(freeTrancheTokens := amount)
    }

    function WithReservedTrancheTokens(amount: Balance): (r: InvestmentPortfolio<CurrencyId>)
      ensures r.poolCurrencyId == poolCurrencyId
      ensures forall kind :: r.Get(kind) == if kind == ReservedTrancheTokens then amount else Get(kind)
    {
      this.(reservedTrancheTokens := amount)
    }

    function WithClaimableTrancheTokens(amount: Balance): (r: InvestmentPortfolio<CurrencyId>)
      ensures r.poolCurrencyId == poolCurrencyId
      ensures forall kind :: r.Get(kind) == if kind == ClaimableTrancheTokens then amount else Get(kind)
    {
      this.(claimableTrancheTokens := amount)
    }

    function WithPendingRedeemTrancheTokens(amount: Balance): (r: InvestmentPortfolio<CurrencyId>)
      ensures r.poolCurrencyId == poolCurrencyId
      ensures forall kind :: r.Get(kind) == if kind == PendingRedeemTrancheTokens then amount else Get(kind)
    {
      this.(pendingRedeemTrancheTokens := amount)
    }

    function WithClaimableCurrency(amount: Balance): (r: InvestmentPortfolio<CurrencyId>)
      ensures r.poolCurrencyId == poolCurrencyId
      ensures forall kind :: r.Get(kind) == if kind == ClaimableCurrency then amount else Get(kind)
    {
      this.(claimableCurrency := amount)
    }

    /** The builder for the given kind of balance. */
    function With(kind: BalanceKind, amount: Balance): InvestmentPortfolio<CurrencyId>
    {
      match kind
      case PendingInvestCurrency => WithPendingInvestCurrency(amount)
      case ClaimableTrancheTokens => WithClaimableTrancheTokens(amount)
      case FreeTrancheTokens => WithFreeTrancheTokens(amount)
      case ReservedTrancheTokens => WithReservedTrancheTokens(amount)
      case PendingRedeemTrancheTokens => WithPendingRedeemTrancheTokens(amount)
      case ClaimableCurrency => WithClaimableCurrency(amount)
    }
  }

  /** Every builder sets exactly its own balance and keeps the currency. */
  lemma WithSetsOnlyItsBalance<C>(p: InvestmentPortfolio<C>, kind: BalanceKind, amount: Balance)
    ensures p.With(kind, amount).poolCurrencyId == p.poolCurrencyId
    ensures forall other :: p.With(kind, amount).Get(other) == if other == kind then amount else p.Get(other)
  {
  }

  /** A portfolio is determined by its currency and its six balances. */
  lemma PortfolioExtensionality<C>(p: InvestmentPortfolio<C>, q: InvestmentPortfolio<C>)
    requires p.poolCurrencyId == q.poolCurrencyId
    requires forall kind :: p.Get(kind) == q.Get(kind)
    ensures p == q
  {
    assert p.Get(PendingInvestCurrency) == q.Get(PendingInvestCurrency);
    assert p.Get(ClaimableTrancheTokens) == q.Get(ClaimableTrancheTokens);
    assert p.Get(FreeTrancheTokens) == q.Get(FreeTrancheTokens);
    assert p.Get(ReservedTrancheTokens) == q.Get(ReservedTrancheTokens);
    assert p.Get(PendingRedeemTrancheTokens) == q.Get(PendingRedeemTrancheTokens);
    assert p.Get(ClaimableCurrency) == q.Get(ClaimableCurrency);
  }

  /** Builders on different balances commute. */
  lemma BuildersCommute<C>(p: InvestmentPortfolio<C>, j: BalanceKind, a: Balance, k: BalanceKind, b: Balance)
    requires j != k
    ensures p.With(j, a).With(k, b) == p.With(k, b).With(j, a)
  {
  }

  /** Building the same balance twice keeps only the last amount. */
  lemma LastBuilderWins<C>(p: InvestmentPortfolio<C>, k: BalanceKind, a: Balance, b: Balance)
    ensures p.With(k, a).With(k, b) == p.With(k, b)
  {
  }

  /** Building a balance with the amount it already has changes nothing. */
  lemma BuilderWithCurrentAmountIsIdentity<C>(p: InvestmentPortfolio<C>, k: BalanceKind)
    ensures p.With(k, p.Get(k)) == p
  {
  }

  /** Every portfolio is `new` in its currency followed by the six builders. */
  lemma EveryPortfolioIsBuilt<C>(p: InvestmentPortfolio<C>)
    ensures p == InvestmentPortfolio<C>.New(p.poolCurrencyId)
                   .WithPendingInvestCurrency(p.pendingInvestCurrency)
                   .WithClaimableTrancheTokens(p.claimableTrancheTokens)
                   .WithFreeTrancheTokens(p.freeTrancheTokens)
                   .WithReservedTrancheTokens(p.reservedTrancheTokens)
                   .WithPendingRedeemTrancheTokens(p.pendingRedeemTrancheTokens)
                   .WithClaimableCurrency(p.claimableCurrency)
  {
  }
}
