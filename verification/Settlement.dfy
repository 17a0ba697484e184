/**
 Trade settlement in the accounts service: the amounts of a trade, the four account updates, and the consumer that
 applies each trade event once.
 */
module Settlement {
  import opened Wrappers
  import opened Domain
  import opened Sums
  import opened Money
  import opened Ledger

  datatype Amounts = Amounts(quoteCost: nat, baseQuantity: nat, surplusRefund: nat)

  /** One of the four account updates of a settlement, as its ledger entry describes it. */
  datatype Leg = Leg(account: Account, amount: nat, availableDelta: int, lockedDelta: int)

  /** The product of two amounts, rounded down to eight decimals. */
  predicate IsFloor(r: nat, a: nat, b: nat)
  {
    r * SCALE <= a * b < r * SCALE + SCALE
  }

  /** The cost is price times quantity rounded down, the surplus what is left of the limit, rounded down by itself. */
  function CalculateSettlementAmounts(t: Trade): (r: Amounts)
    ensures IsFloor(r.quoteCost, t.price, t.quantity) && r.baseQuantity == t.quantity
    ensures t.buyerLimit > t.price ==> IsFloor(r.surplusRefund, t.buyerLimit - t.price, t.quantity)
    ensures t.buyerLimit <= t.price ==> r.surplusRefund == 0
    ensures r.quoteCost + r.surplusRefund == BuyerDeduction(t.buyerLimit, t.price, t.quantity)
  {
    Amounts(MulDown(t.price, t.quantity), t.quantity,
            if t.buyerLimit > t.price then MulDown(t.buyerLimit - t.price, t.quantity) else 0)
  }

  function BuyerQuote(t: Trade): Account {
    Account(t.buyer, t.pair.Quote())
  }

  function BuyerBase(t: Trade): Account {
    Account(t.buyer, t.pair.Base())
  }

  function SellerQuote(t: Trade): Account {
    Account(t.seller, t.pair.Quote())
  }

  function SellerBase(t: Trade): Account {
    Account(t.seller, t.pair.Base())
  }

  function Legs(t: Trade): (legs: seq<Leg>)
    ensures |legs| == 4
  {
    var m := CalculateSettlementAmounts(t);
    [Leg(BuyerQuote(t), m.quoteCost, m.surplusRefund, 0 - (m.quoteCost + m.surplusRefund)),
     Leg(BuyerBase(t), m.baseQuantity, m.baseQuantity, 0),
     Leg(SellerBase(t), m.baseQuantity, 0, 0 - m.baseQuantity),
     Leg(SellerQuote(t), m.quoteCost, m.quoteCost, 0)]
  }

  function PostLeg(b: Books, leg: Leg, trade: nat): Books
  {
    Post(b, leg.account, TRADE_SETTLEMENT, leg.amount, leg.availableDelta, leg.lockedDelta, None, TradeRef(trade))
  }

  function WithAccount(b: Books, a: Account): Books
  {
    b.(accounts := b.accounts[a := BalanceOf(b, a)])
  }

  /** The pre-transaction guarantee that the four accounts exist. */
  function WithAccounts(b: Books, t: Trade): Books
  {
    WithAccount(WithAccount(WithAccount(WithAccount(b, BuyerQuote(t)), BuyerBase(t)), SellerQuote(t)), SellerBase(t))
  }

  function PostLegs(b: Books, legs: seq<Leg>, trade: nat): Books
  {
    if legs == [] then b else PostLeg(PostLegs(b, legs[..|legs| - 1], trade), legs[|legs| - 1], trade)
  }

  function Settle(b: Books, t: Trade, trade: nat): Books
  {
    PostLegs(WithAccounts(b, t), Legs(t), trade)
  }

  /** What a trade adds to an account's available balance. */
  function TradeAvailable(a: Account): Trade -> int
  {
    (t: Trade) =>
      var m := CalculateSettlementAmounts(t);
      (if a == BuyerQuote(t) then m.surplusRefund else 0) + (if a == BuyerBase(t) then m.baseQuantity else 0)
      + (if a == SellerQuote(t) then m.quoteCost else 0)
  }

  /** What a trade deducts from an account's locked balance. */
  function TradeDeduction(a: Account): Trade -> int
  {
    (t: Trade) =>
      (if a == BuyerQuote(t) then BuyerDeduction(t.buyerLimit, t.price, t.quantity) else 0)
      + (if a == SellerBase(t) then t.quantity else 0)
  }

  /** Marks the ledger rows of one trade. */
  function OfTrade(trade: nat): Row -> int
  {
    (r: Row) => if r.reference == TradeRef(trade) then 1 else 0
  }

  function LegAvailable(a: Account): Leg -> int
  {
    (l: Leg) => if l.account == a then l.availableDelta else 0
  }

  function LegLocked(a: Account): Leg -> int
  {
    (l: Leg) => if l.account == a then l.lockedDelta else 0
  }

  function LegExternal(c: Currency): Leg -> int
  {
    (l: Leg) => if l.account.currency == c then l.availableDelta + l.lockedDelta else 0
  }

  lemma SumOfFour(legs: seq<Leg>, f: Leg -> int)
    requires |legs| == 4
    ensures Sum(legs, f) == f(legs[0]) + f(legs[1]) + f(legs[2]) + f(legs[3])
  {
    assert legs[..3][..2] == legs[..2] && legs[..2][..1] == legs[..1] && legs[..1][..0] == [];
    assert Sum(legs[..1], f) == f(legs[0]);
    assert Sum(legs[..2], f) == Sum(legs[..1], f) + f(legs[1]);
    assert Sum(legs[..3], f) == Sum(legs[..2], f) + f(legs[2]);
  }

  /** The four legs of a trade add up to its deltas on every account, and to nothing over a currency. */
  lemma LegSums(t: Trade, a: Account, c: Currency)
    ensures Sum(Legs(t), LegAvailable(a)) == TradeAvailable(a)(t)
    ensures Sum(Legs(t), LegLocked(a)) == 0 - TradeDeduction(a)(t)
    ensures Sum(Legs(t), LegExternal(c)) == 0
  {
    SumOfFour(Legs(t), LegAvailable(a));
    SumOfFour(Legs(t), LegLocked(a));
    SumOfFour(Legs(t), LegExternal(c));
  }

  lemma {:induction false} PostLegsBalances(b: Books, legs: seq<Leg>, trade: nat, a: Account)
    ensures BalanceOf(PostLegs(b, legs, trade), a).available == BalanceOf(b, a).available + Sum(legs, LegAvailable(a))
    ensures BalanceOf(PostLegs(b, legs, trade), a).locked == BalanceOf(b, a).locked + Sum(legs, LegLocked(a))
  {
    if legs != [] {
      PostLegsBalances(b, legs[..|legs| - 1], trade, a);
    }
  }

  /** A settlement moves every account by exactly the trade's two deltas, and no other account at all. */
  lemma SettleBalances(b: Books, t: Trade, trade: nat, a: Account)
    ensures BalanceOf(Settle(b, t, trade), a).available == BalanceOf(b, a).available + TradeAvailable(a)(t)
    ensures BalanceOf(Settle(b, t, trade), a).locked == BalanceOf(b, a).locked - TradeDeduction(a)(t)
  {
    PostLegsBalances(WithAccounts(b, t), Legs(t), trade, a);
    LegSums(t, a, USDT);
    WithAccountsBalances(b, t, a);
  }

  lemma WithAccountsBalances(b: Books, t: Trade, a: Account)
    ensures BalanceOf(WithAccounts(b, t), a) == BalanceOf(b, a)
    ensures WithAccounts(b, t).rows == b.rows
  {
    var b1 := WithAccount(b, BuyerQuote(t));
    var b2 := WithAccount(b1, BuyerBase(t));
    var b3 := WithAccount(b2, SellerQuote(t));
    assert BalanceOf(b1, a) == BalanceOf(b, a);
    assert BalanceOf(b2, a) == BalanceOf(b1, a);
    assert BalanceOf(b3, a) == BalanceOf(b2, a);
  }

  lemma WithAccountKeeps(b: Books, a: Account)
    requires Replays(b)
    ensures Replays(WithAccount(b, a))
  {
    var c := WithAccount(b, a);
    forall x: Account
      ensures BalanceOf(c, x).available == Sum(c.rows, AvailableOn(x))
      ensures BalanceOf(c, x).locked == Sum(c.rows, LockedOn(x))
    {
      assert BalanceOf(c, x) == BalanceOf(b, x);
    }
  }

  lemma WithAccountConserves(b: Books, a: Account, c: Currency)
    ensures Circulating(WithAccount(b, a), c) == Circulating(b, c)
  {
    var d := WithAccount(b, a);
    SumSetShift(d.accounts.Keys, a, 0, Total(b, c), Total(d, c));
    if a !in b.accounts {
      SumSetRemove(d.accounts.Keys, a, Total(b, c));
      assert d.accounts.Keys - {a} == b.accounts.Keys;
    } else {
      assert d.accounts.Keys == b.accounts.Keys;
    }
  }

  lemma WithAccountsKeeps(b: Books, t: Trade)
    requires Replays(b)
    ensures Replays(WithAccounts(b, t))
    ensures forall c: Currency :: Circulating(WithAccounts(b, t), c) == Circulating(b, c)
  {
    var b1 := WithAccount(b, BuyerQuote(t));
    var b2 := WithAccount(b1, BuyerBase(t));
    var b3 := WithAccount(b2, SellerQuote(t));
    WithAccountKeeps(b, BuyerQuote(t));
    WithAccountKeeps(b1, BuyerBase(t));
    WithAccountKeeps(b2, SellerQuote(t));
    WithAccountKeeps(b3, SellerBase(t));
    forall c: Currency ensures Circulating(WithAccounts(b, t), c) == Circulating(b, c) {
      WithAccountConserves(b, BuyerQuote(t), c);
      WithAccountConserves(b1, BuyerBase(t), c);
      WithAccountConserves(b2, SellerQuote(t), c);
      WithAccountConserves(b3, SellerBase(t), c);
    }
  }

  /** The four ledger rows keep the ledger replayable: also the after-balances written from the update map are right. */
  lemma SettleReplays(b: Books, t: Trade, trade: nat)
    requires Replays(b)
    ensures Replays(Settle(b, t, trade))
  {
    WithAccountsKeeps(b, t);
    PostLegsReplay(WithAccounts(b, t), Legs(t), trade);
  }

  lemma {:induction false} PostLegsReplay(b: Books, legs: seq<Leg>, trade: nat)
    requires Replays(b)
    ensures Replays(PostLegs(b, legs, trade))
  {
    if legs != [] {
      var init, leg := legs[..|legs| - 1], legs[|legs| - 1];
      PostLegsReplay(b, init, trade);
      PostReplays(PostLegs(b, init, trade), leg.account, TRADE_SETTLEMENT, leg.amount, leg.availableDelta,
                  leg.lockedDelta, None, TradeRef(trade));
    }
  }

  /** A settlement leaves the circulating sum of every currency unchanged. */
  lemma SettleConserves(b: Books, t: Trade, trade: nat)
    requires Replays(b) && Conserves(b)
    ensures Conserves(Settle(b, t, trade))
    ensures forall c: Currency :: Circulating(Settle(b, t, trade), c) == Circulating(b, c)
  {
    hide Settle, Circulating, External, Replays;
    forall c: Currency
      ensures Circulating(Settle(b, t, trade), c) == Circulating(b, c) == Sum(Settle(b, t, trade).rows, External(c))
    {
      SettleCirculation(b, t, trade, c);
    }
  }

  lemma {:induction false} SettleCirculation(b: Books, t: Trade, trade: nat, c: Currency)
    requires Replays(b)
    ensures Circulating(Settle(b, t, trade), c) == Circulating(b, c)
    ensures Sum(Settle(b, t, trade).rows, External(c)) == Sum(b.rows, External(c))
  {
    hide Circulating, External, Replays, Legs;
    WithAccountsKeeps(b, t);
    WithAccountsBalances(b, t, BuyerQuote(t));
    PostLegsConserve(WithAccounts(b, t), Legs(t), trade, c);
    LegSums(t, BuyerQuote(t), c);
  }

  lemma {:induction false} PostLegsConserve(b: Books, legs: seq<Leg>, trade: nat, c: Currency)
    ensures Circulating(PostLegs(b, legs, trade), c) == Circulating(b, c) + Sum(legs, LegExternal(c))
    ensures Sum(PostLegs(b, legs, trade).rows, External(c)) == Sum(b.rows, External(c))
  {
    if legs != [] {
      var init, leg := legs[..|legs| - 1], legs[|legs| - 1];
      PostLegsConserve(b, init, trade, c);
      var d := PostLegs(b, init, trade);
      PostCirculation(d, leg.account, TRADE_SETTLEMENT, leg.amount, leg.availableDelta, leg.lockedDelta, None,
                      TradeRef(trade), c);
      SumAppend(d.rows, PostLeg(d, leg, trade).rows[|d.rows|], External(c));
    }
  }

  /** A settlement writes four rows that refer to its trade, none with a key, and nothing about another trade. */
  lemma SettleRows(b: Books, t: Trade, trade: nat)
    ensures |Settle(b, t, trade).rows| == |b.rows| + 4 && Settle(b, t, trade).rows[..|b.rows|] == b.rows
    ensures forall i :: |b.rows| <= i < |b.rows| + 4 ==>
              Settle(b, t, trade).rows[i].key == None && Settle(b, t, trade).rows[i].kind == TRADE_SETTLEMENT
    ensures forall id: nat :: Sum(Settle(b, t, trade).rows, OfTrade(id))
                           == Sum(b.rows, OfTrade(id)) + (if id == trade then 4 else 0)
  {
    WithAccountsBalances(b, t, BuyerQuote(t));
    PostLegsRows(WithAccounts(b, t), Legs(t), trade);
  }

  lemma {:induction false} PostLegsRows(b: Books, legs: seq<Leg>, trade: nat)
    ensures var c := PostLegs(b, legs, trade);
            && |c.rows| == |b.rows| + |legs| && c.rows[..|b.rows|] == b.rows
            && (forall i :: |b.rows| <= i < |c.rows| ==> c.rows[i].key == None && c.rows[i].kind == TRADE_SETTLEMENT)
            && (forall id: nat ::
                  Sum(c.rows, OfTrade(id)) == Sum(b.rows, OfTrade(id)) + (if id == trade then |legs| else 0))
  {
    if legs != [] {
      var init := legs[..|legs| - 1];
      PostLegsRows(b, init, trade);
      var d := PostLegs(b, init, trade);
      var c := PostLegs(b, legs, trade);
      assert c.rows == d.rows + [c.rows[|d.rows|]];
      forall id: nat
        ensures Sum(c.rows, OfTrade(id)) == Sum(b.rows, OfTrade(id)) + (if id == trade then |legs| else 0)
      {
        SumAppend(d.rows, c.rows[|d.rows|], OfTrade(id));
      }
    }
  }

  /** The locked column is updated without a guard: it stays non-negative exactly when the deductions are covered. */
  lemma SettleSolvent(b: Books, t: Trade, trade: nat)
    requires NonNegative(b)
    ensures NonNegative(Settle(b, t, trade)) <==> (forall a: Account :: TradeDeduction(a)(t) <= BalanceOf(b, a).locked)
  {
    var c := Settle(b, t, trade);
    if forall a: Account :: TradeDeduction(a)(t) <= BalanceOf(b, a).locked {
      forall a: Account ensures 0 <= BalanceOf(c, a).available && 0 <= BalanceOf(c, a).locked {
        SettleBalances(b, t, trade, a);
      }
    }
    if NonNegative(c) {
      forall a: Account ensures TradeDeduction(a)(t) <= BalanceOf(b, a).locked {
        SettleBalances(b, t, trade, a);
      }
    }
  }

  // ---------------------------------------------------------------------------------------------------------
  // The consumer
  // ---------------------------------------------------------------------------------------------------------

  datatype Consumed = Consumed(books: Books, processed: set<nat>, handled: bool)

  /** handleMessage for the trade event with the given id; aborts says that the transaction does not commit. */
  function Handle(b: Books, processed: set<nat>, t: Trade, id: nat, aborts: bool): Consumed
  {
    if t.buyer == t.seller then Consumed(b, processed, true)
    else if aborts then Consumed(WithAccounts(b, t), processed, false)
    else if id in processed then Consumed(WithAccounts(b, t), processed, true)
    else Consumed(Settle(b, t, id), processed + {id}, true)
  }

  class TradesSettlementConsumer {
    const balances: BalancesRepository
    var processed: set<nat>

    constructor (balances: BalancesRepository)
      ensures this.balances == balances && processed == {}
    {
      this.balances := balances;
      processed := {};
    }

    /** The list grows by one entry a leg: buyer's quote, buyer's base, seller's base, seller's quote. */
    static method BuildSettlementLedgerParams(t: Trade, amounts: Amounts) returns (entries: seq<Leg>)
      requires amounts == CalculateSettlementAmounts(t)
      ensures entries == Legs(t)
    {
      entries := [];
      var buyerLockedDeduction := amounts.quoteCost + amounts.surplusRefund;
      entries := entries + [Leg(BuyerQuote(t), amounts.quoteCost, amounts.surplusRefund, 0 - buyerLockedDeduction)];
      entries := entries + [Leg(BuyerBase(t), amounts.baseQuantity, amounts.baseQuantity, 0)];
      entries := entries + [Leg(SellerBase(t), amounts.baseQuantity, 0, 0 - amounts.baseQuantity)];
      entries := entries + [Leg(SellerQuote(t), amounts.quoteCost, amounts.quoteCost, 0)];
    }

    /** Updates the two accounts of the buyer, then the two of the seller, and returns the balances each update left. */
    method UpdateBalances(t: Trade, amounts: Amounts) returns (after: map<Account, Balance>)
      requires amounts == CalculateSettlementAmounts(t) && t.buyer != t.seller
      requires {BuyerQuote(t), BuyerBase(t), SellerBase(t), SellerQuote(t)} <= balances.accounts.Keys
      modifies balances`accounts
      ensures after.Keys == {BuyerQuote(t), BuyerBase(t), SellerBase(t), SellerQuote(t)}
      ensures AfterLegs(old(balances.View()), Legs(t), after)
      ensures balances.accounts == old(balances.accounts) + after
    {
      hide IsFloor, CalculateSettlementAmounts;
      var buyerQuote := balances.accounts[BuyerQuote(t)];
      var updatedBuyerQuote := Balance(buyerQuote.available + amounts.surplusRefund,
                                       buyerQuote.locked - (amounts.quoteCost + amounts.surplusRefund));
      balances.accounts := balances.accounts[BuyerQuote(t) := updatedBuyerQuote];
      var buyerBase := balances.accounts[BuyerBase(t)];
      var updatedBuyerBase := buyerBase.(available := buyerBase.available + amounts.baseQuantity);
      balances.accounts := balances.accounts[BuyerBase(t) := updatedBuyerBase];
      var sellerBase := balances.accounts[SellerBase(t)];
      var updatedSellerBase := sellerBase.(locked := sellerBase.locked - amounts.baseQuantity);
      balances.accounts := balances.accounts[SellerBase(t) := updatedSellerBase];
      var sellerQuote := balances.accounts[SellerQuote(t)];
      var updatedSellerQuote := sellerQuote.(available := sellerQuote.available + amounts.quoteCost);
      balances.accounts := balances.accounts[SellerQuote(t) := updatedSellerQuote];
      after := map[BuyerQuote(t) := updatedBuyerQuote, BuyerBase(t) := updatedBuyerBase,
                   SellerBase(t) := updatedSellerBase, SellerQuote(t) := updatedSellerQuote];
      ghost var base := old(balances.View());
      FourAccountsDiffer(t);
      assert updatedBuyerQuote == AfterLeg(base, Legs(t)[0]) && updatedBuyerBase == AfterLeg(base, Legs(t)[1])
          && updatedSellerBase == AfterLeg(base, Legs(t)[2]) && updatedSellerQuote == AfterLeg(base, Legs(t)[3]);
    }

    /** Inserts one ledger row an entry, with the balances recorded for its account. */
    method InsertLedgerRows(entries: seq<Leg>, after: map<Account, Balance>, id: nat)
      requires forall k :: 0 <= k < |entries| ==> entries[k].account in after
      modifies balances`rows
      ensures |balances.rows| == |old(balances.rows)| + |entries|
      ensures balances.rows[..|old(balances.rows)|] == old(balances.rows)
      ensures forall k :: 0 <= k < |entries| ==> balances.rows[|old(balances.rows)| + k] == EntryRow(entries[k], after, id)
    {
      var i := 0;
      while i < |entries|
        invariant 0 <= i <= |entries|
        invariant |balances.rows| == |old(balances.rows)| + i
        invariant balances.rows[..|old(balances.rows)|] == old(balances.rows)
        invariant forall k :: 0 <= k < i ==> balances.rows[|old(balances.rows)| + k] == EntryRow(entries[k], after, id)
      {
        balances.rows := balances.rows + [EntryRow(entries[i], after, id)];
        i := i + 1;
      }
    }

    /**
     The four updates come first and the ledger rows afterwards, each with the balances its update returned. That
     this equals four postings one after the other rests on the four accounts being different.
     */
    method HandleMessage(t: Trade, id: nat, aborts: bool) returns (handled: bool)
      modifies this, balances
      ensures Consumed(balances.View(), processed, handled)
           == Handle(old(balances.View()), old(processed), t, id, aborts)
    {
      if t.buyer == t.seller {
        return true;
      }
      balances.FindOrCreate(BuyerQuote(t));
      balances.FindOrCreate(BuyerBase(t));
      balances.FindOrCreate(SellerQuote(t));
      balances.FindOrCreate(SellerBase(t));
      assert balances.View() == WithAccounts(old(balances.View()), t);
      if aborts {
        return false;
      }
      if id in processed {
        return true;
      }
      var amounts := CalculateSettlementAmounts(t);
      var entries := BuildSettlementLedgerParams(t, amounts);
      var after := UpdateBalances(t, amounts);
      InsertLedgerRows(entries, after, id);
      processed := processed + {id};
      UpdatesArePostings(old(balances.View()), t, id, after, balances.View());
      return true;
    }
  }

  lemma FourAccountsDiffer(t: Trade)
    requires t.buyer != t.seller
    ensures BuyerQuote(t) != BuyerBase(t) && BuyerQuote(t) != SellerBase(t) && BuyerQuote(t) != SellerQuote(t)
    ensures BuyerBase(t) != SellerBase(t) && BuyerBase(t) != SellerQuote(t) && SellerBase(t) != SellerQuote(t)
  {
  }

  /** Four updates followed by four rows are four postings, because the four accounts differ. */
  lemma UpdatesArePostings(b: Books, t: Trade, id: nat, after: map<Account, Balance>, c: Books)
    requires t.buyer != t.seller
    requires after.Keys == {BuyerQuote(t), BuyerBase(t), SellerBase(t), SellerQuote(t)}
    requires AfterLegs(WithAccounts(b, t), Legs(t), after)
    requires c.accounts == WithAccounts(b, t).accounts + after
    requires |c.rows| == |b.rows| + 4 && c.rows[..|b.rows|] == b.rows
    requires forall k :: 0 <= k < 4 ==> c.rows[|b.rows| + k] == EntryRow(Legs(t)[k], after, id)
    ensures c == Settle(b, t, id)
  {
    SettledAccounts(b, t, id, after, c);
    SettledRows(b, t, id, after, c);
  }

  lemma SettledAccounts(b: Books, t: Trade, id: nat, after: map<Account, Balance>, c: Books)
    requires t.buyer != t.seller
    requires after.Keys == {BuyerQuote(t), BuyerBase(t), SellerBase(t), SellerQuote(t)}
    requires AfterLegs(WithAccounts(b, t), Legs(t), after)
    requires c.accounts == WithAccounts(b, t).accounts + after
    ensures c.accounts == Settle(b, t, id).accounts
  {
    var l, base, s := Legs(t), WithAccounts(b, t), Settle(b, t, id);
    PostLegsKeys(base, l, id);
    assert s.accounts.Keys == base.accounts.Keys;
    forall a | a in s.accounts ensures a in c.accounts && s.accounts[a] == c.accounts[a] {
      SettledAccount(b, t, id, after, a);
      assert BalanceOf(s, a) == s.accounts[a] && BalanceOf(base, a) == base.accounts[a];
    }
  }

  lemma SettledAccount(b: Books, t: Trade, id: nat, after: map<Account, Balance>, a: Account)
    requires t.buyer != t.seller
    requires after.Keys == {BuyerQuote(t), BuyerBase(t), SellerBase(t), SellerQuote(t)}
    requires AfterLegs(WithAccounts(b, t), Legs(t), after)
    ensures BalanceOf(Settle(b, t, id), a) == if a in after then after[a] else BalanceOf(WithAccounts(b, t), a)
  {
    var legs := Legs(t);
    SettleBalances(b, t, id, a);
    WithAccountsBalances(b, t, a);
    if a in after {
      var k := if a == BuyerQuote(t) then 0 else if a == BuyerBase(t) then 1 else if a == SellerBase(t) then 2 else 3;
      assert after[a] == AfterLeg(WithAccounts(b, t), legs[k]);
    }
  }

  lemma SettledRows(b: Books, t: Trade, id: nat, after: map<Account, Balance>, c: Books)
    requires t.buyer != t.seller
    requires AfterLegs(WithAccounts(b, t), Legs(t), after)
    requires |c.rows| == |b.rows| + 4 && c.rows[..|b.rows|] == b.rows
    requires forall k :: 0 <= k < 4 ==> c.rows[|b.rows| + k] == EntryRow(Legs(t)[k], after, id)
    ensures c.rows == Settle(b, t, id).rows
  {
    var l, base, s := Legs(t), WithAccounts(b, t), Settle(b, t, id);
    WithAccountsBalances(b, t, BuyerQuote(t));
    PostLegsRows(base, l, id);
    forall i | |b.rows| <= i < |b.rows| + 4 ensures s.rows[i] == c.rows[i] {
      SettledRow(base, t, id, after, i - |b.rows|);
    }
    assert forall i :: 0 <= i < |b.rows| ==> s.rows[..|b.rows|][i] == c.rows[..|b.rows|][i];
  }

  lemma SettledRow(base: Books, t: Trade, id: nat, after: map<Account, Balance>, k: nat)
    requires t.buyer != t.seller && AfterLegs(base, Legs(t), after) && k < 4
    ensures |PostLegs(base, Legs(t), id).rows| == |base.rows| + 4
    ensures PostLegs(base, Legs(t), id).rows[|base.rows| + k] == EntryRow(Legs(t)[k], after, id)
  {
    RowOfLeg(base, Legs(t), id, k);
    assert after[Legs(t)[k].account] == AfterLeg(base, Legs(t)[k]);
  }

  function AfterLeg(base: Books, leg: Leg): Balance
  {
    Balance(BalanceOf(base, leg.account).available + leg.availableDelta,
            BalanceOf(base, leg.account).locked + leg.lockedDelta)
  }

  /** What the update map holds: each leg's account at its starting balance plus the leg. */
  ghost predicate AfterLegs(base: Books, legs: seq<Leg>, after: map<Account, Balance>)
  {
    forall k :: 0 <= k < |legs| ==> legs[k].account in after && after[legs[k].account] == AfterLeg(base, legs[k])
  }

  lemma {:induction false} PostLegsKeys(b: Books, legs: seq<Leg>, trade: nat)
    requires forall k :: 0 <= k < |legs| ==> legs[k].account in b.accounts
    ensures PostLegs(b, legs, trade).accounts.Keys == b.accounts.Keys
  {
    if legs != [] {
      PostLegsKeys(b, legs[..|legs| - 1], trade);
    }
  }

  /** Legs on different accounts do not see each other: each row shows its account's starting balance plus its leg. */
  lemma {:induction false} RowOfLeg(b: Books, legs: seq<Leg>, trade: nat, k: nat)
    requires k < |legs| && forall i, j :: 0 <= i < j < |legs| ==> legs[i].account != legs[j].account
    ensures |PostLegs(b, legs, trade).rows| == |b.rows| + |legs|
    ensures var a := legs[k].account;
            PostLegs(b, legs, trade).rows[|b.rows| + k]
            == Row(a, TRADE_SETTLEMENT, legs[k].amount, legs[k].availableDelta, legs[k].lockedDelta,
                   BalanceOf(b, a).available + legs[k].availableDelta, BalanceOf(b, a).locked + legs[k].lockedDelta,
                   None, TradeRef(trade))
  {
    var init, a := legs[..|legs| - 1], legs[k].account;
    PostLegsRows(b, init, trade);
    if k < |init| {
      RowOfLeg(b, init, trade, k);
    } else {
      PostLegsBalances(b, init, trade, a);
      SumZero(init, LegAvailable(a));
      SumZero(init, LegLocked(a));
    }
  }

  function EntryRow(e: Leg, after: map<Account, Balance>, id: nat): Row
    requires e.account in after
  {
    Row(e.account, TRADE_SETTLEMENT, e.amount, e.availableDelta, e.lockedDelta, after[e.account].available,
        after[e.account].locked, None, TradeRef(id))
  }

  // ---------------------------------------------------------------------------------------------------------
  // Delivery-order independence
  // ---------------------------------------------------------------------------------------------------------

  /** What reaches the accounts service: a trade event (perhaps again) or one of the keyed mutations. */
  datatype Input = Delivered(id: nat) | Called(mutation: Mutation)

  function Take(trades: seq<Trade>, s: Consumed, input: Input): Consumed
  {
    match input
    case Delivered(id) => if id < |trades| then Handle(s.books, s.processed, trades[id], id, false) else s
    case Called(m) => s.(books := Mutate(s.books, m).0)
  }

  function TakeAll(trades: seq<Trade>, s: Consumed, inputs: seq<Input>): Consumed
  {
    if inputs == [] then s else Take(trades, TakeAll(trades, s, inputs[..|inputs| - 1]), inputs[|inputs| - 1])
  }

  /** The mutations of a run that took effect. */
  function Effective(trades: seq<Trade>, s: Consumed, inputs: seq<Input>): seq<Mutation>
  {
    if inputs == [] then [] else
    var init := inputs[..|inputs| - 1];
    Effective(trades, s, init) + EffectOf(TakeAll(trades, s, init), inputs[|inputs| - 1])
  }

  /** The distinct events of a run that the consumer does not skip. */
  function DistinctEvents(trades: seq<Trade>, inputs: seq<Input>): set<nat>
  {
    set i | 0 <= i < |inputs| && inputs[i].Delivered? && inputs[i].id < |trades|
            && trades[inputs[i].id].buyer != trades[inputs[i].id].seller :: inputs[i].id
  }

  function MutationAvailable(a: Account): Mutation -> int
  {
    (m: Mutation) => if m.account == a then AvailableDelta(m.kind, m.amount) else 0
  }

  function MutationLocked(a: Account): Mutation -> int
  {
    (m: Mutation) => if m.account == a then LockedDelta(m.kind, m.amount) else 0
  }

  /** A delivered event moves an account by its trade if the event is new, and by nothing otherwise. */
  lemma HandleBalances(b: Books, processed: set<nat>, t: Trade, id: nat, a: Account)
    ensures var c := Handle(b, processed, t, id, false);
            var known := t.buyer == t.seller || id in processed;
            && c.processed == (if known then processed else processed + {id})
            && BalanceOf(c.books, a).available == BalanceOf(b, a).available + (if known then 0 else TradeAvailable(a)(t))
            && BalanceOf(c.books, a).locked == BalanceOf(b, a).locked - (if known then 0 else TradeDeduction(a)(t))
  {
    SettleBalances(b, t, id, a);
    WithAccountsBalances(b, t, a);
  }

  lemma CallBalances(b: Books, m: Mutation, a: Account)
    ensures var c := Mutate(b, m).0;
            var effective := Mutate(b, m).1.status == OK;
            && BalanceOf(c, a).available == BalanceOf(b, a).available + (if effective then MutationAvailable(a)(m) else 0)
            && BalanceOf(c, a).locked == BalanceOf(b, a).locked + (if effective then MutationLocked(a)(m) else 0)
  {
    MutateIsPosting(b, m);
  }

  function CostOf(t: Trade): nat
  {
    t.price * t.quantity / 100_000_000
  }

  function RefundOf(t: Trade): nat
  {
    if t.buyerLimit > t.price then (t.buyerLimit - t.price) * t.quantity / 100_000_000 else 0
  }

  /** What a trade of a pair with the given base currency does to each account, by the name of its currency. */
  predicate MovesAccounts(before: map<Account, Balance>, t: Trade, base: Currency, after: map<Account, Balance>)
  {
    var buyerUsdt, buyerBase := Account(t.buyer, USDT), Account(t.buyer, base);
    var sellerUsdt, sellerBase := Account(t.seller, USDT), Account(t.seller, base);
    var was := (a: Account) => if a in before then before[a] else Balance(0, 0);
    && after.Keys == before.Keys + {buyerUsdt, buyerBase, sellerUsdt, sellerBase}
    && after[buyerUsdt]
       == Balance(was(buyerUsdt).available + RefundOf(t), was(buyerUsdt).locked - (CostOf(t) + RefundOf(t)))
    && after[buyerBase] == Balance(was(buyerBase).available + t.quantity, was(buyerBase).locked)
    && after[sellerBase] == Balance(was(sellerBase).available, was(sellerBase).locked - t.quantity)
    && after[sellerUsdt] == Balance(was(sellerUsdt).available + CostOf(t), was(sellerUsdt).locked)
    && (forall a :: a in before && a !in {buyerUsdt, buyerBase, sellerUsdt, sellerBase} ==> after[a] == before[a])
  }

  /** The four rows that say so, with their amounts, deltas and balances afterwards. */
  predicate AddsRows(before: seq<Row>, t: Trade, id: nat, base: Currency, c: Books)
  {
    var buyerUsdt, buyerBase := Account(t.buyer, USDT), Account(t.buyer, base);
    var sellerUsdt, sellerBase := Account(t.seller, USDT), Account(t.seller, base);
    && {buyerUsdt, buyerBase, sellerUsdt, sellerBase} <= c.accounts.Keys
    && c.rows == before
         + [SettlementRow(buyerUsdt, CostOf(t), RefundOf(t), 0 - (CostOf(t) + RefundOf(t)), c.accounts[buyerUsdt], id),
            SettlementRow(buyerBase, t.quantity, t.quantity, 0, c.accounts[buyerBase], id),
            SettlementRow(sellerBase, t.quantity, 0, 0 - t.quantity, c.accounts[sellerBase], id),
            SettlementRow(sellerUsdt, CostOf(t), CostOf(t), 0, c.accounts[sellerUsdt], id)]
  }

  function SettlementRow(a: Account, amount: nat, available: int, locked: int, after: Balance, id: nat): Row
  {
    Row(a, TRADE_SETTLEMENT, amount, available, locked, after.available, after.locked, None, TradeRef(id))
  }

  /**
   Settling a new trade on BTC_USDT moves BTC and USDT accounts, one on ETH_USDT moves ETH and USDT accounts: the seller's
   base quantity leaves its locked balance and becomes available to the buyer, the cost leaves the buyer's locked USDT and
   becomes available to the seller, and the buyer gets back what its limit reserved on top. No other account moves.
   */
  lemma {:induction false} TradeSettles(b: Books, processed: set<nat>, t: Trade, id: nat, base: Currency)
    requires t.buyer != t.seller && id !in processed
    requires (t.pair == BTC_USDT && base == BTC) || (t.pair == ETH_USDT && base == ETH)
    ensures var c := Handle(b, processed, t, id, false);
            && c.handled && c.processed == processed + {id}
            && MovesAccounts(b.accounts, t, base, c.books.accounts) && AddsRows(b.rows, t, id, base, c.books)
  {
    hide MovesAccounts, AddsRows;
    SettleMoves(b, t, id, base);
    SettleAddsRows(b, t, id, base);
  }

  lemma {:induction false} SettleMoves(b: Books, t: Trade, id: nat, base: Currency)
    requires t.buyer != t.seller
    requires (t.pair == BTC_USDT && base == BTC) || (t.pair == ETH_USDT && base == ETH)
    ensures MovesAccounts(b.accounts, t, base, Settle(b, t, id).accounts)
  {
    hide CalculateSettlementAmounts, IsFloor;
    var c := Settle(b, t, id);
    FloorsOf(t);
    SettledKeys(b, t, id);
    forall a | a in c.accounts ensures c.accounts[a] == SettledBalance(b, t, a) {
      SettledAt(b, t, id, a);
    }
    hide Settle;
  }

  lemma SettledAt(b: Books, t: Trade, id: nat, a: Account)
    requires a in Settle(b, t, id).accounts
    ensures Settle(b, t, id).accounts[a] == SettledBalance(b, t, a)
  {
    SettleBalances(b, t, id, a);
  }

  lemma {:induction false} SettleAddsRows(b: Books, t: Trade, id: nat, base: Currency)
    requires t.buyer != t.seller
    requires (t.pair == BTC_USDT && base == BTC) || (t.pair == ETH_USDT && base == ETH)
    ensures AddsRows(b.rows, t, id, base, Settle(b, t, id))
  {
    hide CalculateSettlementAmounts, IsFloor, Settle;
    FloorsOf(t);
    SettledKeys(b, t, id);
    SettledFourRows(b, t, id);
  }

  /** A self-trade or a known event is passed over and an aborted transaction is not handled; none of them moves money. */
  lemma PassedOverMovesNothing(b: Books, processed: set<nat>, t: Trade, id: nat, aborts: bool)
    requires t.buyer == t.seller || id in processed || aborts
    ensures var c := Handle(b, processed, t, id, aborts);
            && c.processed == processed && c.books.rows == b.rows
            && (forall a: Account :: BalanceOf(c.books, a) == BalanceOf(b, a))
            && (c.handled <==> t.buyer == t.seller || !aborts)
  {
    forall a: Account ensures BalanceOf(WithAccounts(b, t), a) == BalanceOf(b, a) {
      WithAccountsBalances(b, t, a);
    }
    WithAccountsBalances(b, t, BuyerQuote(t));
  }

  function SettledBalance(b: Books, t: Trade, a: Account): Balance
  {
    Balance(BalanceOf(b, a).available + TradeAvailable(a)(t), BalanceOf(b, a).locked - TradeDeduction(a)(t))
  }

  lemma FloorsOf(t: Trade)
    ensures CalculateSettlementAmounts(t) == Amounts(CostOf(t), t.quantity, RefundOf(t))
    ensures BuyerDeduction(t.buyerLimit, t.price, t.quantity) == CostOf(t) + RefundOf(t)
  {
  }

  lemma SettledKeys(b: Books, t: Trade, id: nat)
    ensures Settle(b, t, id).accounts.Keys == b.accounts.Keys + {BuyerQuote(t), BuyerBase(t), SellerQuote(t), SellerBase(t)}
  {
    PostLegsKeys(WithAccounts(b, t), Legs(t), id);
  }

  lemma {:induction false} SettledFourRows(b: Books, t: Trade, id: nat)
    requires t.buyer != t.seller
    ensures var l, c := Legs(t), Settle(b, t, id);
            && (forall k :: 0 <= k < 4 ==> l[k].account in c.accounts)
            && c.rows == b.rows + [LegRow(l[0], c, id), LegRow(l[1], c, id), LegRow(l[2], c, id), LegRow(l[3], c, id)]
  {
    hide Legs, LegRow;
    var l, c := Legs(t), Settle(b, t, id);
    WithAccountsBalances(b, t, BuyerQuote(t));
    LegAccounts(t);
    SettledKeys(b, t, id);
    PostLegsRows(WithAccounts(b, t), l, id);
    forall k | 0 <= k < 4 ensures c.rows[|b.rows| + k] == LegRow(l[k], c, id) {
      SettledRowAt(b, t, id, k);
    }
    hide Settle, PostLegs;
    assert c.rows == c.rows[..|b.rows|] + c.rows[|b.rows|..];
  }

  lemma LegAccounts(t: Trade)
    ensures forall k :: 0 <= k < 4 ==> Legs(t)[k].account in {BuyerQuote(t), BuyerBase(t), SellerQuote(t), SellerBase(t)}
  {
  }

  lemma {:induction false} SettledRowAt(b: Books, t: Trade, id: nat, k: nat)
    requires t.buyer != t.seller && k < 4
    ensures var l, c := Legs(t), Settle(b, t, id);
            |c.rows| == |b.rows| + 4 && l[k].account in c.accounts && c.rows[|b.rows| + k] == LegRow(l[k], c, id)
  {
    var l, base, c := Legs(t), WithAccounts(b, t), Settle(b, t, id);
    WithAccountsBalances(b, t, BuyerQuote(t));
    LegAccounts(t);
    FourAccountsDiffer(t);
    SettledKeys(b, t, id);
    RowOfLeg(base, l, id, k);
    PostLegsBalances(base, l, id, l[k].account);
    OneLegEach(t, k);
    assert BalanceOf(c, l[k].account) == c.accounts[l[k].account];
  }

  lemma OneLegEach(t: Trade, k: nat)
    requires t.buyer != t.seller && k < 4
    ensures Sum(Legs(t), LegAvailable(Legs(t)[k].account)) == Legs(t)[k].availableDelta
    ensures Sum(Legs(t), LegLocked(Legs(t)[k].account)) == Legs(t)[k].lockedDelta
  {
    SumOfFour(Legs(t), LegAvailable(Legs(t)[k].account));
    SumOfFour(Legs(t), LegLocked(Legs(t)[k].account));
  }

  function LegRow(l: Leg, c: Books, id: nat): Row
    requires l.account in c.accounts
  {
    SettlementRow(l.account, l.amount, l.availableDelta, l.lockedDelta, c.accounts[l.account], id)
  }

  lemma {:induction false} RunProcessed(trades: seq<Trade>, s: Consumed, inputs: seq<Input>)
    ensures TakeAll(trades, s, inputs).processed == s.processed + DistinctEvents(trades, inputs)
  {
    if inputs != [] {
      var init, last := inputs[..|inputs| - 1], inputs[|inputs| - 1];
      assert inputs == init + [last];
      RunProcessed(trades, s, init);
      DistinctEventsStep(trades, init, last);
    }
  }

  function EffectOf(s: Consumed, input: Input): seq<Mutation>
  {
    if input.Called? && Mutate(s.books, input.mutation).1.status == OK then [input.mutation] else []
  }

  /** Available balance minus what the settled trades gave it: only mutations move this. */
  function AvailableBase(trades: seq<Trade>, s: Consumed, a: Account): int
  {
    BalanceOf(s.books, a).available - SumMarked(trades, s.processed, TradeAvailable(a))
  }

  /** Locked balance plus what the settled trades took from it. */
  function LockedBase(trades: seq<Trade>, s: Consumed, a: Account): int
  {
    BalanceOf(s.books, a).locked + SumMarked(trades, s.processed, TradeDeduction(a))
  }

  lemma TakeShifts(trades: seq<Trade>, s: Consumed, input: Input, a: Account)
    ensures AvailableBase(trades, Take(trades, s, input), a)
         == AvailableBase(trades, s, a) + Sum(EffectOf(s, input), MutationAvailable(a))
    ensures LockedBase(trades, Take(trades, s, input), a)
         == LockedBase(trades, s, a) + Sum(EffectOf(s, input), MutationLocked(a))
  {
    match input
    case Called(m) =>
      CallBalances(s.books, m, a);
      assert [m] == [] + [m];
      SumAppend([], m, MutationAvailable(a));
      SumAppend([], m, MutationLocked(a));
    case Delivered(id) =>
      if id < |trades| {
        HandleBalances(s.books, s.processed, trades[id], id, a);
        if id !in s.processed {
          SumMarkedAdd(trades, s.processed, id, TradeAvailable(a));
          SumMarkedAdd(trades, s.processed, id, TradeDeduction(a));
        }
      }
  }

  /** A run's balances are the start plus its effective mutations plus each distinct event once. */
  lemma {:induction false} RunBalances(trades: seq<Trade>, s: Consumed, inputs: seq<Input>, a: Account)
    ensures AvailableBase(trades, TakeAll(trades, s, inputs), a)
         == AvailableBase(trades, s, a) + Sum(Effective(trades, s, inputs), MutationAvailable(a))
    ensures LockedBase(trades, TakeAll(trades, s, inputs), a)
         == LockedBase(trades, s, a) + Sum(Effective(trades, s, inputs), MutationLocked(a))
  {
    if inputs != [] {
      var init, last := inputs[..|inputs| - 1], inputs[|inputs| - 1];
      RunBalances(trades, s, init, a);
      var mid := TakeAll(trades, s, init);
      TakeShifts(trades, mid, last, a);
      SumConcat(Effective(trades, s, init), EffectOf(mid, last), MutationAvailable(a));
      SumConcat(Effective(trades, s, init), EffectOf(mid, last), MutationLocked(a));
    }
  }

  lemma DistinctEventsStep(trades: seq<Trade>, init: seq<Input>, last: Input)
    ensures DistinctEvents(trades, init + [last]) == DistinctEvents(trades, init)
              + (if last.Delivered? && last.id < |trades| && trades[last.id].buyer != trades[last.id].seller
                 then {last.id} else {})
  {
    var inputs := init + [last];
    forall id | id in DistinctEvents(trades, init) ensures id in DistinctEvents(trades, inputs) {
      var i :| 0 <= i < |init| && init[i].Delivered? && init[i].id == id;
      assert inputs[i] == init[i];
    }
    if last.Delivered? && last.id < |trades| && trades[last.id].buyer != trades[last.id].seller {
      assert inputs[|init|] == last;
    }
  }

  /**
   Two runs from one state that deliver the same distinct events, in whatever order and however often, and in which
   the same mutations take effect, in whatever order, end with the same balance on every account.
   */
  lemma {:induction false} DeliveryOrderIndependence(trades: seq<Trade>, s: Consumed, one: seq<Input>,
                                                     two: seq<Input>, a: Account)
    requires DistinctEvents(trades, one) == DistinctEvents(trades, two)
    requires multiset(Effective(trades, s, one)) == multiset(Effective(trades, s, two))
    ensures BalanceOf(TakeAll(trades, s, one).books, a) == BalanceOf(TakeAll(trades, s, two).books, a)
    ensures TakeAll(trades, s, one).processed == TakeAll(trades, s, two).processed
  {
    RunProcessed(trades, s, one);
    RunProcessed(trades, s, two);
    RunBalances(trades, s, one, a);
    RunBalances(trades, s, two, a);
    SumPermutation(Effective(trades, s, one), Effective(trades, s, two), MutationAvailable(a));
    SumPermutation(Effective(trades, s, one), Effective(trades, s, two), MutationLocked(a));
  }
}
