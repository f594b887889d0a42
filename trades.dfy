/**
 * Section effects of the buy/sell, dividend, transfer-out and advance-tax
 * rules: entry type, share scaling, trade date and the dividend exchange rate.
 * Security lookup (`getOrCreateSecurity`) is not part of this model; where an
 * effect needs the security's currency it is a parameter.
 */
module Trades {
  import opened Wrappers
  import opened Numbers
  import opened Text
  import opened Model
  import opened Seeding
  import opened Taxes

  /** Captured trade types that turn a BUY entry into a SELL (first type section). */
  const TradeSellTypes: set<string> :=
    {"Verkauf", "Verkauf Direkthandel", "Verkauf aus Kapitalmaßnahme", "Rücknahme Investmentfonds"}

  /** Captured redemption types that turn a BUY entry into a SELL (second type section). */
  const RedemptionSellTypes: set<string> :=
    {"Gesamtkündigung", "Teilrückzahlung mit Nennwertänderung", "Teilliquidation mit Nennwertreduzierung"}

  /**
   * The type of an entry that starts as BUY after both optional type sections
   * ran with what they captured (None when a section did not match).
   */
  function EntryType(trade: Option<string>, redemption: Option<string>): (k: TxType)
    ensures k == Sell <==> (trade.Some? && trade.value in TradeSellTypes)
                           || (redemption.Some? && redemption.value in RedemptionSellTypes)
    ensures k != Sell ==> k == Buy
  {
    if (trade.Some? && trade.value in TradeSellTypes) || (redemption.Some? && redemption.value in RedemptionSellTypes)
    then Sell
    else Buy
  }

  /** The purchase types the first section also captures stay BUY; each listed sale type is a SELL. */
  lemma PurchaseTypesStayBuy()
    ensures EntryType(Some("Kauf"), None) == Buy
    ensures EntryType(Some("Kauf Direkthandel"), None) == Buy
    ensures EntryType(Some("Ausgabe Investmentfonds"), None) == Buy
    ensures EntryType(Some("Verkauf aus Kapitalmaßnahme"), None) == Sell
    ensures EntryType(None, Some("Gesamtkündigung")) == Sell
  {
  }

  /** The two optional type sections of the buy/sell rule applied to an entry. */
  method TypeSections(e: BuySellEntry, trade: Option<string>, redemption: Option<string>)
    modifies e.portfolio
    ensures e.portfolio.kind == (if EntryType(trade, redemption) == Sell then Sell else old(e.portfolio.kind))
    ensures Snapshot(e.portfolio) == old(Snapshot(e.portfolio)).(kind := e.portfolio.kind)
  {
    if trade.Some? {
      if trade.value == "Verkauf" || trade.value == "Verkauf Direkthandel"
         || trade.value == "Verkauf aus Kapitalmaßnahme" || trade.value == "Rücknahme Investmentfonds" {
        e.portfolio.kind := Sell;
      }
    }
    if redemption.Some? {
      if redemption.value == "Gesamtkündigung" || redemption.value == "Teilrückzahlung mit Nennwertänderung"
         || redemption.value == "Teilliquidation mit Nennwertreduzierung" {
        e.portfolio.kind := Sell;
      }
    }
  }

  /**
   * The share count a notation/shares section records: the parsed quantity,
   * or for a nominal (bond) notation other than "Stück" the quantity divided
   * by 100 with Java's truncating long division.
   */
  function SectionShares(notation: Option<string>, parsed: int): (s: int)
    ensures notation.None? || IsStueck(notation.value) ==> s == parsed
    ensures notation.Some? && !IsStueck(notation.value) && parsed >= 0 ==> 100 * s <= parsed < 100 * s + 100
    ensures notation.Some? && !IsStueck(notation.value) && parsed < 0 ==> 100 * s - 100 < parsed <= 100 * s
  {
    if notation.Some? && !IsStueck(notation.value) then JavaDiv(parsed, 100) else parsed
  }

  /** A face value in a currency notation becomes a hundredth; "Stück" in any case is kept. */
  lemma BondNotationScales(x: int)
    ensures SectionShares(Some("EUR"), 100 * x) == x
    ensures SectionShares(Some("STÜCK"), x) == x && SectionShares(Some("stück"), x) == x
  {
    var s := SectionShares(Some("EUR"), 100 * x);
    assert !IsStueck("EUR");
    if x >= 0 {
      assert 100 * s <= 100 * x < 100 * s + 100;
    } else {
      assert 100 * s - 100 < 100 * x <= 100 * s;
    }
    assert IsStueck("STÜCK") && IsStueck("stück");
  }

  /** The notation/shares section of the dividend and advance-tax rules. */
  method SharesSection(t: Posting, v: map<string, string>, conv: Converters)
    requires "shares" in v
    modifies t
    ensures t.shares == SectionShares(Lookup(v, "notation"), conv.asShares(v["shares"]))
    ensures Snapshot(t) == old(Snapshot(t)).(shares := t.shares)
  {
    var parsed := conv.asShares(v["shares"]);
    if "notation" in v && !IsStueck(v["notation"]) {
      t.shares := JavaDiv(parsed, 100);
    } else {
      t.shares := parsed;
    }
  }

  /** The buy/sell variant also hands the captured share text to a later tax-refund block. */
  method BuySellSharesSection(ctx: DocumentContext, e: BuySellEntry, v: map<string, string>, conv: Converters)
    requires "shares" in v
    modifies ctx, e.portfolio
    ensures e.portfolio.shares == SectionShares(Lookup(v, "notation"), conv.asShares(v["shares"]))
    ensures ctx.entries == old(ctx.entries)["shares" := v["shares"]]
    ensures Snapshot(e.portfolio) == old(Snapshot(e.portfolio)).(shares := e.portfolio.shares)
  {
    SharesSection(e.portfolio, v, conv);
    ctx.Put("shares", v["shares"]);
  }

  /**
   * The transfer-out section: the nominal is always divided by 100, the amount
   * is zero and the currency is the security's.
   */
  method TransferOutSection(e: BuySellEntry, v: map<string, string>, securityCurrency: string, conv: Converters)
    requires "shares" in v
    modifies e.portfolio
    ensures var parsed := conv.asShares(v["shares"]);
      && (parsed >= 0 ==> 100 * e.portfolio.shares <= parsed < 100 * e.portfolio.shares + 100)
      && (parsed < 0 ==> 100 * e.portfolio.shares - 100 < parsed <= 100 * e.portfolio.shares)
    ensures e.portfolio.amount == 0
    ensures e.portfolio.currency == Some(conv.asCurrencyCode(securityCurrency))
    ensures Snapshot(e.portfolio) == old(Snapshot(e.portfolio)).(shares := e.portfolio.shares,
                                                                  amount := 0, currency := e.portfolio.currency)
  {
    e.portfolio.shares := JavaDiv(conv.asShares(v["shares"]), 100);
    e.portfolio.amount := 0;
    e.portfolio.currency := Some(conv.asCurrencyCode(securityCurrency));
  }

  /**
   * The security section of the buy/sell rule also hands name, continued
   * name, ISIN and WKN to a later tax-refund block through the context.
   */
  method SecurityHandshake(ctx: DocumentContext, v: map<string, string>)
    requires "name" in v && "nameContinued" in v && "isin" in v && "wkn" in v
    modifies ctx
    ensures ctx.entries == old(ctx.entries)["name" := v["name"]]["nameContinued" := v["nameContinued"]]
                                            ["isin" := v["isin"]]["wkn" := v["wkn"]]
  {
    ctx.Put("name", v["name"]);
    ctx.Put("nameContinued", v["nameContinued"]);
    ctx.Put("isin", v["isin"]);
    ctx.Put("wkn", v["wkn"]);
  }

  /** The time section: the time of the trade goes into the document context. */
  method TimeSection(ctx: DocumentContext, v: map<string, string>)
    requires "time" in v
    modifies ctx
    ensures ctx.entries == old(ctx.entries)["time" := v["time"]]
  {
    ctx.Put("time", v["time"]);
  }

  /** The trade-date section: the date with the time from the context when one is there. */
  method TradeDateSection(ctx: DocumentContext, e: BuySellEntry, v: map<string, string>)
    requires "date" in v
    modifies e.portfolio
    ensures e.portfolio.date == Some(DateInput(Some(v["date"]), ctx.Get("time")))
    ensures Snapshot(e.portfolio) == old(Snapshot(e.portfolio)).(date := e.portfolio.date)
  {
    if ctx.Get("time") != None {
      e.portfolio.date := Some(DateInput(Some(v["date"]), ctx.Get("time")));
    } else {
      e.portfolio.date := Some(DateInput(Some(v["date"]), None));
    }
  }

  /**
   * The rate the dividend exchange-rate section stores: the printed rate, or
   * its reciprocal when the foreign-currency column is the posting's own
   * currency (a zero rate then makes the division throw).
   */
  function StoredRate(printed: Decimal, txCurrency: string, fxCurrency: string): (r: Outcome<Decimal>)
    ensures txCurrency != fxCurrency ==> r == Done(printed)
    ensures txCurrency == fxCurrency ==> (r.Aborted? <==> printed.unscaled == 0)
    ensures txCurrency == fxCurrency && r.Done? ==>
              r.value.scale == RateScale
              && 2 * Abs(r.value.unscaled * printed.unscaled - Pow10(printed.scale + RateScale)) <= Abs(printed.unscaled)
    ensures txCurrency == fxCurrency && r.Done? ==> r.value == Reciprocal(printed)
  {
    if txCurrency == fxCurrency then
      if printed.unscaled == 0 then Aborted else Done(Reciprocal(printed))
    else Done(printed)
  }

  predicate FxCaptured(v: map<string, string>)
  {
    "exchangeRate" in v && "fxAmount" in v && "fxCurrency" in v && "amount" in v && "currency" in v
  }

  /**
   * The gross-value unit of a dividend paid in a foreign currency: the
   * foreign-currency column becomes the forex leg unless it is the posting's
   * own currency, in which case the two columns swap roles.
   */
  function GrossValueUnit(txCurrency: string, v: map<string, string>, inverse: Decimal, conv: Converters): (u: Unit)
    requires FxCaptured(v)
    ensures u.kind == GrossValue && u.rate == Some(inverse) && u.forex.Some?
    ensures var fx := Money(Some(conv.asCurrencyCode(v["fxCurrency"])), conv.asAmount(v["fxAmount"]));
      var paid := Money(Some(conv.asCurrencyCode(v["currency"])), conv.asAmount(v["amount"]));
      && (conv.asCurrencyCode(v["fxCurrency"]) != txCurrency ==> u.amount == paid && u.forex.value == fx)
      && (conv.asCurrencyCode(v["fxCurrency"]) == txCurrency ==> u.amount == fx && u.forex.value == paid)
  {
    var fxCurrency := conv.asCurrencyCode(v["fxCurrency"]);
    var fx := Money(Some(fxCurrency), conv.asAmount(v["fxAmount"]));
    var paid := Money(Some(conv.asCurrencyCode(v["currency"])), conv.asAmount(v["amount"]));
    if fxCurrency != txCurrency then Unit(GrossValue, paid, Some(fx), Some(inverse))
    else Unit(GrossValue, fx, Some(paid), Some(inverse))
  }

  /**
   * When one of the two columns is in the posting's currency, the gross value
   * is booked in that currency and the other column becomes the forex leg:
   * the unit holds exactly the two captured amounts, neither lost nor doubled.
   */
  lemma GrossValueInPostingCurrency(txCurrency: string, v: map<string, string>, inverse: Decimal, conv: Converters)
    requires FxCaptured(v)
    requires conv.asCurrencyCode(v["currency"]) == txCurrency || conv.asCurrencyCode(v["fxCurrency"]) == txCurrency
    ensures var u := GrossValueUnit(txCurrency, v, inverse, conv);
      && u.amount.currency == Some(txCurrency)
      && multiset{u.amount, u.forex.value}
           == multiset{Money(Some(conv.asCurrencyCode(v["currency"])), conv.asAmount(v["amount"])),
                       Money(Some(conv.asCurrencyCode(v["fxCurrency"])), conv.asAmount(v["fxAmount"]))}
  {
  }

  /** What the exchange-rate section leaves behind: the context, the units it adds, whether it threw. */
  datatype FxResult = FxResult(ctx: map<string, string>, added: seq<Unit>, aborted: bool)

  /**
   * The dividend exchange-rate section. It needs the posting's currency (a
   * null one throws), stores the oriented rate under "exchangeRate", and when
   * the posting's currency is not the security's adds a gross-value unit with
   * the reciprocal of the stored rate. `security` is the security's currency,
   * None when no security section matched (which throws).
   */
  function FxEffect(ctx: map<string, string>, txCurrency: Option<string>, security: Option<string>,
                    v: map<string, string>, conv: Converters): (r: FxResult)
    requires FxCaptured(v)
    ensures txCurrency.None? ==> r == FxResult(ctx, [], true)
    ensures txCurrency.Some? ==>
      var stored := StoredRate(conv.asExchangeRate(v["exchangeRate"]), txCurrency.value, conv.asCurrencyCode(v["fxCurrency"]));
      && (stored.Aborted? ==> r == FxResult(ctx, [], true))
      && (stored.Done? ==>
            && r.ctx == ctx[ExchangeRateKey := conv.toPlainString(stored.value)]
            && (security.None? ==> r.aborted && r.added == [])
            && (security == txCurrency ==> !r.aborted && r.added == [])
            && (security.Some? && security != txCurrency ==>
                  && (r.aborted <==> stored.value.unscaled == 0)
                  && (!r.aborted ==> r.added == [GrossValueUnit(txCurrency.value, v, Reciprocal(stored.value), conv)])))
    ensures !r.aborted ==> |r.added| <= 1
    ensures |r.added| == 1 ==> !r.aborted && r.added[0].kind == GrossValue && security.Some? && txCurrency != security
  {
    var printed := conv.asExchangeRate(v["exchangeRate"]);
    if txCurrency.None? then FxResult(ctx, [], true)
    else
      match StoredRate(printed, txCurrency.value, conv.asCurrencyCode(v["fxCurrency"]))
      case Aborted => FxResult(ctx, [], true)
      case Done(rate) =>
        var stored := ctx[ExchangeRateKey := conv.toPlainString(rate)];
        if security.None? then FxResult(stored, [], true)
        else if txCurrency == security then FxResult(stored, [], false)
        else if rate.unscaled == 0 then FxResult(stored, [], true)
        else FxResult(stored, [GrossValueUnit(txCurrency.value, v, Reciprocal(rate), conv)], false)
  }

  /**
   * Once the posting has a currency and the rate could be oriented, the
   * context holds that rate under "exchangeRate" and nothing else changes.
   */
  lemma FxStoresOrientedRate(ctx: map<string, string>, txCurrency: string, security: Option<string>,
                             v: map<string, string>, conv: Converters)
    requires FxCaptured(v)
    requires StoredRate(conv.asExchangeRate(v["exchangeRate"]), txCurrency, conv.asCurrencyCode(v["fxCurrency"])).Done?
    ensures var rate := StoredRate(conv.asExchangeRate(v["exchangeRate"]), txCurrency, conv.asCurrencyCode(v["fxCurrency"])).value;
      FxEffect(ctx, Some(txCurrency), security, v, conv).ctx == ctx[ExchangeRateKey := conv.toPlainString(rate)]
  {
  }

  /** The dividend exchange-rate section applied to the context and the posting. */
  method FxSection(ctx: DocumentContext, t: Posting, security: Option<string>, v: map<string, string>, conv: Converters)
    returns (aborted: bool)
    requires FxCaptured(v)
    modifies ctx, t
    ensures var r := FxEffect(old(ctx.entries), old(t.currency), security, v, conv);
      && ctx.entries == r.ctx && t.units == old(t.units) + r.added && aborted == r.aborted
    ensures Snapshot(t) == old(Snapshot(t)).(units := t.units)
  {
    var rate := conv.asExchangeRate(v["exchangeRate"]);
    if t.currency.None? {
      return true;
    }
    var fxCurrency := conv.asCurrencyCode(v["fxCurrency"]);
    if t.currency.value == fxCurrency {
      if rate.unscaled == 0 {
        return true;
      }
      rate := Reciprocal(rate);
    }
    ctx.Put(ExchangeRateKey, conv.toPlainString(rate));
    if security.None? {
      return true;
    }
    aborted := false;
    if t.currency != security {
      if rate.unscaled == 0 {
        return true;
      }
      var inverseRate := Reciprocal(rate);
      var grossValue := GrossValueUnit(t.currency.value, v, inverseRate, conv);
      t.units := t.units + [grossValue];
    }
  }
}
