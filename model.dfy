/**
 * The transaction being built while a block is parsed, the converters the
 * extractor inherits, and the final wrapping into an output item.
 */
module Model {
  import opened Wrappers
  import opened Numbers

  /** An amount in minor units with its currency code; the code may be unset (null). */
  datatype Money = Money(currency: Option<string>, amount: int)

  datatype UnitType = Tax | Fee | GrossValue

  /** A typed sub-amount; a gross value also carries the foreign amount and the rate. */
  datatype Unit = Unit(kind: UnitType, amount: Money, forex: Option<Money>, rate: Option<Decimal>)

  /** The arguments handed to `asDate`: the date text (None when a missing context value is passed) and, for a trade, the time of day if known. */
  datatype DateInput = DateInput(date: Option<string>, time: Option<string>)

  /** The portfolio and account transaction types the DKB rules assign. */
  datatype TxType =
    | Buy | Sell | TransferOut
    | Dividends | Taxes | TaxRefund | Interest | InterestCharge | Deposit | Removal | Fees

  /**
   * One posting (an account transaction, or the security leg of a buy/sell
   * entry) as the section effects fill it in. The date is kept as what is
   * handed to `asDate`.
   */
  class Posting {
    var kind: TxType
    var currency: Option<string>
    var amount: int
    var shares: int
    var date: Option<DateInput>
    var note: Option<string>
    var units: seq<Unit>

    /** The subject supplier of a rule: a fresh posting of the given type. */
    constructor (kind: TxType)
      ensures this.kind == kind && currency == None && amount == 0 && shares == 0
      ensures date == None && note == None && units == []
    {
      this.kind := kind;
      currency := None;
      amount := 0;
      shares := 0;
      date := None;
      note := None;
      units := [];
    }
  }

  /** A buy/sell entry; taxes and fees go to its portfolio (security) leg. */
  class BuySellEntry {
    const portfolio: Posting

    constructor (kind: TxType)
      ensures fresh(portfolio) && portfolio.kind == kind && portfolio.units == []
    {
      portfolio := new Posting(kind);
    }
  }

  /** The object a section effect receives as `t`. */
  datatype Subject = AccountSubject(tx: Posting) | BuySellSubject(entry: BuySellEntry)

  /** The posting that units are attached to: the account transaction itself, or the entry's portfolio leg. */
  function GetTransaction(t: Subject): (p: Posting)
    ensures t.AccountSubject? ==> p == t.tx
    ensures t.BuySellSubject? ==> p == t.entry.portfolio
  {
    match t
    case AccountSubject(tx) => tx
    case BuySellSubject(entry) => entry.portfolio
  }

  /**
   * The converters inherited from the extractor base class and TextUtil, whose
   * code is not part of this model, as uninterpreted functions.
   */
  datatype Converters = Converters(
    asAmount: string -> int,
    asShares: string -> int,
    asCurrencyCode: string -> string,
    asExchangeRate: string -> Decimal,
    toPlainString: Decimal -> string,
    strip: string -> string)

  /** The immutable item emitted for a block. */
  datatype Item = TransactionItem(
    kind: TxType, currency: Option<string>, amount: int, shares: int,
    date: Option<DateInput>, note: Option<string>, units: seq<Unit>)

  function Snapshot(t: Posting): Item
    reads t
  {
    TransactionItem(t.kind, t.currency, t.amount, t.shares, t.date, t.note, t.units)
  }

  /**
   * The `wrap` of the interest, disposition-credit interest, capital-gains-tax and
   * tax-refund blocks: returns the item, or nothing (Java `null`) when the
   * currency is unset or the amount is zero.
   */
  method WrapNonEmpty(t: Posting) returns (item: Option<Item>)
    ensures item.Some? <==> t.currency.Some? && t.amount != 0
    ensures item.Some? ==> item.value == Snapshot(t)
  {
    if t.currency != None && t.amount != 0 {
      item := Some(Snapshot(t));
    } else {
      item := None;
    }
  }
}
