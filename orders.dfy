/** The part of an order that the investment bookkeeping observes.

    An order pairs the amount a user has placed with the identifier of the
    order round it was submitted in; the collections read only its amount.
 */
module Orders {

  /** Order round identifier (an unsigned 64-bit number in the runtime). */
  type OrderId = nat

  datatype Order<Balance> = Order(amount: Balance, submittedAt: OrderId)
}
