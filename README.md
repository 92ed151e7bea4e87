# Investment bookkeeping records

A Dafny model of the investment record types of the Centrifuge chain
(`libs/types/src/investments.rs`): the outstanding invest and redeem
collections of an account, the `CollectedAmount` counters that fulfilled
orders accumulate into, and the `InvestmentPortfolio` an account reports.

- `Arithmetic` (`arithmetic.dfy`): the checked addition behind
  `ensure_add_assign` and the dispatch errors it raises.
- `Orders` (`orders.dfy`): the part of an order that the collections read, its amount.
- `Investments` (`investments.dfy`): the records and their operations.
  - `InvestCollection` and `RedeemCollection` are value datatypes with a
    default and a constructor from an order.
  - `CollectedAmount` is a class, because `increase` updates its two fields
    in place. Its pure counterpart `Increased` says what one increase
    does to a value of the record. `IncreasedAll` says what repeated
    increases do.
  - `InvestmentPortfolio` is a value datatype. Its `with_*` builders take the
    record by value and return the updated copy, so they are functions.
    `BalanceKind` and `Get` name its six balances so that "exactly one balance
    changes" can be stated once for all builders.

The numeric types `Balance`, `Collected` and `Payment` are generic in the
source. Here each is an unsigned 128-bit integer, written as a natural
number bounded by `2^128 - 1`. No proof depends on that value. A checked
addition whose sum exceeds the bound fails with `Overflow`. It never wraps
and never saturates.

## Model

| member | source | states |
|---|---|---|
| `Arithmetic.EnsureAdd` | libs/types/src/investments.rs:136-139 | the checked add yields the exact sum when it fits the type's maximum and fails with `Overflow` exactly when it does not |
| `Investments.DefaultInvestCollection` | libs/types/src/investments.rs:55-62 | the default invest collection has zero payout and zero remaining |
| `Investments.InvestCollectionFromOrder` | libs/types/src/investments.rs:64-76 | a collection seeded from an invest order has zero payout and the order's amount remaining |
| `Investments.DefaultRedeemCollection` | libs/types/src/investments.rs:94-101 | the default redeem collection has zero payout and zero remaining |
| `Investments.RedeemCollectionFromOrder` | libs/types/src/investments.rs:103-115 | a collection seeded from a redeem order has zero payout and the order's amount remaining |
| `Investments.FromOrderIsDefaultIffEmpty` | libs/types/src/investments.rs:55-114 | seeding from an order gives the default collection if and only if the order amount is zero, for invest and redeem |
| `Investments.FromOrderAccountsForWholeOrder` | libs/types/src/investments.rs:64-114 | payout plus remaining of a freshly seeded collection equals the order amount, and the invest and redeem sides agree field for field |
| `Investments.DefaultAmounts` | libs/types/src/investments.rs:118-130 | the derived default `CollectedAmount` has both counters at zero |
| `Investments.Increased` | libs/types/src/investments.rs:135-142 | an increase succeeds if and only if both sums fit their types, yields both sums on success, and fails only with `Overflow` |
| `Investments.IncreaseCollectedOverflowLeavesSelf` | libs/types/src/investments.rs:136-137 | if the collected sum overflows, the record is unchanged and the result is `Overflow` |
| `Investments.IncreasePaymentOverflowKeepsCollected` | libs/types/src/investments.rs:136-139 | if only the payment sum overflows, the collected amount is already increased, the payment amount is unchanged, and the result is `Overflow` |
| `Investments.IncreaseIsNotAtomic` | libs/types/src/investments.rs:136-139 | a concrete failing increase that has still changed the record |
| `Investments.IncreaseIsMonotone` | libs/types/src/investments.rs:135-142 | whatever the outcome, each counter ends either unchanged or increased by exactly the other record's amount |
| `Investments.IncreaseByDefaultIsIdentity` | libs/types/src/investments.rs:118-142 | increasing by the default record always succeeds and leaves the record unchanged |
| `Investments.IncreaseTwiceIsIncreaseBySum` | libs/types/src/investments.rs:135-142 | two successive successful increases equal one increase by their sum, and an increase by the sum succeeds exactly when both steps do |
| `Investments.IncreasedAll` | libs/types/src/investments.rs:135-142 | increasing by a sequence of records one at a time succeeds if and only if the grand totals fit, yields those totals, and never lowers a counter |
| `Investments.CollectedAmount.constructor` | libs/types/src/investments.rs:118-130 | a new record holds the default value |
| `Investments.CollectedAmount.Increase` | libs/types/src/investments.rs:135-142 | the in-place update leaves the record and returns the result that `Increased` gives for the old values, including the partial update on a payment overflow |
| `Investments.InvestmentPortfolio.New` | libs/types/src/investments.rs:166-177 | the new portfolio has the given pool currency and all six balances at zero |
| `Investments.InvestmentPortfolio.WithPendingInvestCurrency` | libs/types/src/investments.rs:179-182 | sets the pending invest currency to the amount; the currency and the other five balances are unchanged |
| `Investments.InvestmentPortfolio.WithFreeTrancheTokens` | libs/types/src/investments.rs:184-187 | sets the free tranche tokens to the amount; the currency and the other five balances are unchanged |
| `Investments.InvestmentPortfolio.WithReservedTrancheTokens` | libs/types/src/investments.rs:189-192 | sets the reserved tranche tokens to the amount; the currency and the other five balances are unchanged |
| `Investments.InvestmentPortfolio.WithClaimableTrancheTokens` | libs/types/src/investments.rs:194-197 | sets the claimable tranche tokens to the amount; the currency and the other five balances are unchanged |
| `Investments.InvestmentPortfolio.WithPendingRedeemTrancheTokens` | libs/types/src/investments.rs:199-202 | sets the pending redeem tranche tokens to the amount; the currency and the other five balances are unchanged |
| `Investments.InvestmentPortfolio.WithClaimableCurrency` | libs/types/src/investments.rs:204-207 | sets the claimable currency to the amount; the currency and the other five balances are unchanged |
| `Investments.WithSetsOnlyItsBalance` | libs/types/src/investments.rs:179-207 | every builder, chosen by the balance it sets, changes exactly that balance and keeps the pool currency |
| `Investments.PortfolioExtensionality` | libs/types/src/investments.rs:147-164 | two portfolios with the same currency and the same six balances are equal |
| `Investments.BuildersCommute` | libs/types/src/investments.rs:179-207 | builders on different balances give the same portfolio in either order |
| `Investments.LastBuilderWins` | libs/types/src/investments.rs:179-207 | building the same balance twice keeps only the second amount |
| `Investments.BuilderWithCurrentAmountIsIdentity` | libs/types/src/investments.rs:179-207 | building a balance with the amount it already holds returns the same portfolio |
| `Investments.EveryPortfolioIsBuilt` | libs/types/src/investments.rs:166-207 | every portfolio equals `new` in its currency followed by the six builders with its balances |

## Left out

- The loan accounting engine is not part of this model. This covers the lifecycle, pricing, write-off policy, change gateway and portfolio valuation. Its implementation is not among the files modelled.
- The benchmark weights, the loans benchmarks and test helpers, the call-mocking utility and the gateway routers are not modelled. They hold cost constants, test scaffolding, or calls into foreign pallets and libraries.
- `Order` (`crate::orders`) is not part of this model. It is represented by a record holding an amount and an order-round identifier, and only the amount is read.
- The numeric width is fixed at 128 bits for `Balance`, `Collected` and `Payment`. The source is generic over these types.
- The derived traits (encoding, decoding, type information, maximum encoded length, debug output) are not modelled. `InvestmentAccount` and `InvestmentInfo` are plain records with no operations.
- The derived `Default` of `InvestmentPortfolio` is not modelled separately. It needs a default currency identifier, which the generic currency type does not provide here. With one, it is `New` in that currency.
- The rollback of storage when a dispatched call fails is outside this file. `increase` works on a value in memory, and the model keeps its partial update.
