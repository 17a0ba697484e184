/** The entities the services share. Row ids (time-ordered UUIDv7 in the database) are positions in creation order. */
module Domain {

  type UserId = nat
  type OrderId = nat

  datatype Currency = BTC | ETH | USDT

  datatype Pair = BTC_USDT | ETH_USDT {
    function Base(): Currency {
      if BTC_USDT? then BTC else ETH
    }

    function Quote(): Currency {
      USDT
    }
  }

  /** The key of an accounts row: unique on (user_id, currency). */
  datatype Account = Account(user: UserId, currency: Currency)

  datatype Side = BUY | SELL {
    function Opposite(): Side {
      if BUY? then SELL else BUY
    }
  }

  datatype OrderStatus = OPEN | PARTIALLY_FILLED | FILLED | CANCELLED

  /** A row of the orders table. */
  datatype Order = Order(
    user: UserId,
    pair: Pair,
    side: Side,
    price: nat,
    amount: nat,
    filled: nat,
    remaining: nat,
    status: OrderStatus,
    key: string)
  {
    predicate Active() {
      status == OPEN || status == PARTIALLY_FILLED
    }

    /** The account whose funds an order reserves. */
    function Funding(): Account {
      Account(user, if side == BUY then pair.Quote() else pair.Base())
    }
  }

  /** The payload of a committed trade_executed event. */
  datatype Trade = Trade(
    buyOrder: OrderId,
    sellOrder: OrderId,
    buyer: UserId,
    seller: UserId,
    pair: Pair,
    price: nat,
    quantity: nat,
    buyerLimit: nat)

  function Min(a: nat, b: nat): nat
  {
    if a <= b then a else b
  }
}
