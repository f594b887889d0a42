/**
 * The tax sections shared by the buy/sell and dividend rules: joint-account
 * gating of the capital-gains, solidarity and church tax lines, and the
 * withholding-tax lines with their precedence rule and currency conversion.
 */
module Taxes {
  import opened Wrappers
  import opened Numbers
  import opened Text
  import opened Model
  import opened Seeding

  const ExchangeRateKey := "exchangeRate"
  const WithholdingTaxFoundKey := "isHoldingTax"

  /** The capture keys `addTax` is called with. */
  datatype TaxKey = QuellenstEinbeh | QuellenstAnr | QuellenstRueck
  {
    function Name(): string
    {
      match this
      case QuellenstEinbeh => "quellensteinbeh"
      case QuellenstAnr => "quellenstanr"
      case QuellenstRueck => "quellenstrueck"
    }
  }

  /** Whether the context marks the document as a joint account. */
  predicate IsJoint(ctx: map<string, string>)
  {
    ParseBoolean(Lookup(ctx, IsJointAccountKey))
  }

  /** After the joint-account scan, the flag reads true exactly when some line showed a 50 % share. */
  lemma JointAfterSeeding(ctx: map<string, string>, lines: seq<string>, isShareLine: string -> bool)
    ensures (IsJoint(ctx[IsJointAccountKey := JointFlag(lines, isShareLine)])
             <==> exists i :: 0 <= i < |lines| && isShareLine(lines[i]))
  {
  }

  /** The money `processTaxEntries` hands on to the shared tax handling for the "tax"/"currency" captures. */
  function TaxEntry(v: map<string, string>, conv: Converters): Money
    requires "currency" in v && "tax" in v
  {
    Money(Some(conv.asCurrencyCode(v["currency"])), conv.asAmount(v["tax"]))
  }

  /**
   * A single-line capital-gains, solidarity or church tax section: acts only
   * when the document is not a joint account; returns the taxes it hands on.
   */
  method SingleTaxSection(ctx: DocumentContext, v: map<string, string>, conv: Converters)
    returns (handed: seq<Money>)
    requires "currency" in v && "tax" in v
    ensures IsJoint(ctx.entries) ==> handed == []
    ensures !IsJoint(ctx.entries) ==>
              handed == [Money(Some(conv.asCurrencyCode(v["currency"])), conv.asAmount(v["tax"]))]
  {
    handed := [];
    if !ParseBoolean(ctx.Get(IsJointAccountKey)) {
      handed := [TaxEntry(v, conv)];
    }
  }

  /**
   * A two-line section of the same tax, one line per account holder: acts only
   * for a joint account, and then hands on both lines' taxes in order by
   * copying each line's captures into "currency" and "tax".
   */
  method JointTaxSection(ctx: DocumentContext, v: map<string, string>, conv: Converters)
    returns (handed: seq<Money>)
    requires "currency1" in v && "tax1" in v && "currency2" in v && "tax2" in v
    ensures !IsJoint(ctx.entries) ==> handed == []
    ensures IsJoint(ctx.entries) ==>
              handed == [Money(Some(conv.asCurrencyCode(v["currency1"])), conv.asAmount(v["tax1"])),
                         Money(Some(conv.asCurrencyCode(v["currency2"])), conv.asAmount(v["tax2"]))]
  {
    handed := [];
    if ParseBoolean(ctx.Get(IsJointAccountKey)) {
      var w := v;
      w := w["currency" := w["currency1"]];
      w := w["tax" := w["tax1"]];
      handed := handed + [TaxEntry(w, conv)];
      w := w["currency" := w["currency2"]];
      w := w["tax" := w["tax2"]];
      handed := handed + [TaxEntry(w, conv)];
    }
  }

  /**
   * `checkWithholdingTax`: once a withheld-at-source line has set the flag,
   * creditable and reclaimable lines are no longer applied; the withheld line
   * itself always is.
   */
  function CheckWithholdingTax(ctx: map<string, string>, key: TaxKey): (apply: bool)
    ensures !apply <==> ParseBoolean(Lookup(ctx, WithholdingTaxFoundKey)) && key != QuellenstEinbeh
  {
    if ParseBoolean(Lookup(ctx, WithholdingTaxFoundKey)) && (key.QuellenstAnr? || key.QuellenstRueck?)
    then false
    else true
  }

  /** `addTax` converts when the tax currency differs from the posting's and a rate is known. */
  predicate Converts(ctx: map<string, string>, txCurrency: Option<string>, currency: string)
  {
    Some(currency) != txCurrency && ExchangeRateKey in ctx
  }

  /**
   * The money `addTax` attaches for a captured tax line: as captured, or
   * converted into the posting's currency with the reciprocal of the context's
   * exchange rate. A zero rate makes the division throw.
   */
  function TaxMoney(ctx: map<string, string>, txCurrency: Option<string>, v: map<string, string>,
                    key: TaxKey, conv: Converters): (r: Outcome<Money>)
    requires "currency" in v && key.Name() in v
    ensures !Converts(ctx, txCurrency, conv.asCurrencyCode(v["currency"])) ==>
              r == Done(Money(Some(conv.asCurrencyCode(v["currency"])), conv.asAmount(v[key.Name()])))
    ensures Converts(ctx, txCurrency, conv.asCurrencyCode(v["currency"])) ==>
              (r.Aborted? <==> conv.asExchangeRate(ctx[ExchangeRateKey]).unscaled == 0)
    ensures Converts(ctx, txCurrency, conv.asCurrencyCode(v["currency"])) && r.Done? ==>
              && r.value.currency == txCurrency
              && var inverse := Reciprocal(conv.asExchangeRate(ctx[ExchangeRateKey]));
                 && 2 * Abs(r.value.amount * Pow10(RateScale) - inverse.unscaled * conv.asAmount(v[key.Name()]))
                      <= Pow10(RateScale)
                 && (2 * Abs(r.value.amount * Pow10(RateScale) - inverse.unscaled * conv.asAmount(v[key.Name()]))
                       == Pow10(RateScale)
                     ==> Abs(r.value.amount * Pow10(RateScale)) <= Abs(inverse.unscaled * conv.asAmount(v[key.Name()])))
  {
    var currency := conv.asCurrencyCode(v["currency"]);
    var amount := conv.asAmount(v[key.Name()]);
    if Converts(ctx, txCurrency, currency) then
      var rate := conv.asExchangeRate(ctx[ExchangeRateKey]);
      if rate.unscaled == 0 then Aborted
      else Done(Money(txCurrency, ScaleToWhole(Reciprocal(rate), amount)))
    else
      Done(Money(Some(currency), amount))
  }

  /** The units `addTax` appends: none when suppressed, else exactly one TAX unit. */
  function AddTaxEffect(ctx: map<string, string>, txCurrency: Option<string>, v: map<string, string>,
                        key: TaxKey, conv: Converters): (r: Outcome<seq<Unit>>)
    requires "currency" in v && key.Name() in v
    ensures !CheckWithholdingTax(ctx, key) ==> r == Done([])
    ensures CheckWithholdingTax(ctx, key) ==>
              (r.Aborted? <==> TaxMoney(ctx, txCurrency, v, key, conv).Aborted?)
    ensures CheckWithholdingTax(ctx, key) && r.Done? ==>
              r.value == [Unit(Tax, TaxMoney(ctx, txCurrency, v, key, conv).value, None, None)]
  {
    if !CheckWithholdingTax(ctx, key) then Done([])
    else
      match TaxMoney(ctx, txCurrency, v, key, conv)
      case Aborted => Aborted
      case Done(m) => Done([Unit(Tax, m, None, None)])
  }

  /** `addTax`: appends the tax unit to the posting behind `t` unless suppressed. */
  method AddTax(ctx: DocumentContext, t: Subject, v: map<string, string>, key: TaxKey, conv: Converters)
    returns (aborted: bool)
    requires "currency" in v && key.Name() in v
    modifies GetTransaction(t)
    ensures var p := GetTransaction(t);
      var effect := AddTaxEffect(ctx.entries, old(p.currency), v, key, conv);
      && aborted == effect.Aborted?
      && p.units == old(p.units) + (if aborted then [] else effect.value)
    ensures var p := GetTransaction(t); Snapshot(p) == old(Snapshot(p)).(units := p.units)
  {
    var tx := GetTransaction(t);
    aborted := false;
    if CheckWithholdingTax(ctx.entries, key) {
      var currency := conv.asCurrencyCode(v["currency"]);
      var amount := conv.asAmount(v[key.Name()]);
      var unitCurrency := Some(currency);
      if unitCurrency != tx.currency && ExchangeRateKey in ctx.entries {
        var printed := conv.asExchangeRate(ctx.entries[ExchangeRateKey]);
        if printed.unscaled == 0 {
          return true;
        }
        var rate := Reciprocal(printed);
        unitCurrency := tx.currency;
        amount := ScaleToWhole(rate, amount);
      }
      tx.units := tx.units + [Unit(Tax, Money(unitCurrency, amount), None, None)];
    }
  }

  /** The four optional withholding-tax lines of one block, as captured (None when absent). */
  datatype WithholdingLines = WithholdingLines(
    withheld: Option<map<string, string>>,     // Einbehaltene Quellensteuer
    creditable: Option<map<string, string>>,   // Anrechenbare Quellensteuer
    reclaimable: Option<map<string, string>>,  // rückforderbare Quellensteuer
    transactionTax: Option<map<string, string>>) // Finanztransaktionssteuer

  predicate Captured(line: Option<map<string, string>>, key: TaxKey)
  {
    line.Some? ==> "currency" in line.value && key.Name() in line.value
  }

  predicate WellCaptured(w: WithholdingLines)
  {
    Captured(w.withheld, QuellenstEinbeh) && Captured(w.creditable, QuellenstAnr)
    && Captured(w.reclaimable, QuellenstRueck) && Captured(w.transactionTax, QuellenstRueck)
  }

  /** One optional section calling `addTax`, appended to what the earlier ones produced. */
  function Step(prior: Outcome<seq<Unit>>, ctx: map<string, string>, txCurrency: Option<string>,
                line: Option<map<string, string>>, key: TaxKey, conv: Converters): Outcome<seq<Unit>>
    requires Captured(line, key)
  {
    if prior.Aborted? || line.None? then prior
    else
      match AddTaxEffect(ctx, txCurrency, line.value, key, conv)
      case Aborted => Aborted
      case Done(u) => Done(prior.value + u)
  }

  /** The context after the withheld-tax section: it sets the flag before calling `addTax`. */
  function FlagAfter(ctx: map<string, string>, w: WithholdingLines): map<string, string>
  {
    if w.withheld.Some? then ctx[WithholdingTaxFoundKey := "true"] else ctx
  }

  /** The four withholding-tax sections in their declared order, continuing from `prior`. */
  function WithholdingChain(prior: Outcome<seq<Unit>>, c: map<string, string>, txCurrency: Option<string>,
                            w: WithholdingLines, conv: Converters): Outcome<seq<Unit>>
    requires WellCaptured(w)
  {
    var s1 := Step(prior, c, txCurrency, w.withheld, QuellenstEinbeh, conv);
    var s2 := Step(s1, c, txCurrency, w.creditable, QuellenstAnr, conv);
    var s3 := Step(s2, c, txCurrency, w.reclaimable, QuellenstRueck, conv);
    Step(s3, c, txCurrency, w.transactionTax, QuellenstRueck, conv)
  }

  /** The units the four withholding-tax sections append. */
  function WithholdingUnits(ctx: map<string, string>, txCurrency: Option<string>, w: WithholdingLines,
                            conv: Converters): Outcome<seq<Unit>>
    requires WellCaptured(w)
  {
    WithholdingChain(Done([]), FlagAfter(ctx, w), txCurrency, w, conv)
  }

  function Prepend(pre: seq<Unit>, o: Outcome<seq<Unit>>): Outcome<seq<Unit>>
  {
    match o
    case Aborted => Aborted
    case Done(u) => Done(pre + u)
  }

  lemma StepPrepend(pre: seq<Unit>, prior: Outcome<seq<Unit>>, c: map<string, string>, txCurrency: Option<string>,
                    line: Option<map<string, string>>, key: TaxKey, conv: Converters)
    requires Captured(line, key)
    ensures Step(Prepend(pre, prior), c, txCurrency, line, key, conv)
              == Prepend(pre, Step(prior, c, txCurrency, line, key, conv))
  {
    if prior.Done? && line.Some? {
      var e := AddTaxEffect(c, txCurrency, line.value, key, conv);
      if e.Done? {
        assert pre + prior.value + e.value == pre + (prior.value + e.value);
      }
    }
  }

  /** Units already on the posting stay in front of what the sections append. */
  lemma {:induction false} ChainPrepend(pre: seq<Unit>, c: map<string, string>, txCurrency: Option<string>,
                                        w: WithholdingLines, conv: Converters)
    requires WellCaptured(w)
    ensures WithholdingChain(Done(pre), c, txCurrency, w, conv)
              == Prepend(pre, WithholdingChain(Done([]), c, txCurrency, w, conv))
  {
    assert pre + [] == pre;
    assert Done(pre) == Prepend(pre, Done([]));
    var s1 := Step(Done([]), c, txCurrency, w.withheld, QuellenstEinbeh, conv);
    StepPrepend(pre, Done([]), c, txCurrency, w.withheld, QuellenstEinbeh, conv);
    var s2 := Step(s1, c, txCurrency, w.creditable, QuellenstAnr, conv);
    StepPrepend(pre, s1, c, txCurrency, w.creditable, QuellenstAnr, conv);
    var s3 := Step(s2, c, txCurrency, w.reclaimable, QuellenstRueck, conv);
    StepPrepend(pre, s2, c, txCurrency, w.reclaimable, QuellenstRueck, conv);
    StepPrepend(pre, s3, c, txCurrency, w.transactionTax, QuellenstRueck, conv);
  }

  /**
   * Withholding-tax precedence: when the block has a withheld-at-source line,
   * the creditable, reclaimable and financial-transaction-tax lines add
   * nothing, and the only unit is the withheld tax.
   */
  lemma WithheldTakesPrecedence(ctx: map<string, string>, txCurrency: Option<string>, w: WithholdingLines, conv: Converters)
    requires WellCaptured(w) && w.withheld.Some?
    requires WithholdingUnits(ctx, txCurrency, w, conv).Done?
    ensures var c := FlagAfter(ctx, w);
      TaxMoney(c, txCurrency, w.withheld.value, QuellenstEinbeh, conv).Done?
      && WithholdingUnits(ctx, txCurrency, w, conv).value
           == [Unit(Tax, TaxMoney(c, txCurrency, w.withheld.value, QuellenstEinbeh, conv).value, None, None)]
  {
    var c := FlagAfter(ctx, w);
    assert Lookup(c, WithholdingTaxFoundKey) == Some("true");
    assert !CheckWithholdingTax(c, QuellenstAnr) && !CheckWithholdingTax(c, QuellenstRueck);
  }

  function Present(line: Option<map<string, string>>): nat
  {
    if line.Some? then 1 else 0
  }

  /** The TAX unit of one present line with its money as `addTax` computes it, or nothing for an absent line. */
  function LineTax(ctx: map<string, string>, txCurrency: Option<string>, line: Option<map<string, string>>,
                   key: TaxKey, conv: Converters): seq<Unit>
    requires Captured(line, key)
  {
    if line.None? then []
    else
      match TaxMoney(ctx, txCurrency, line.value, key, conv)
      case Aborted => []
      case Done(m) => [Unit(Tax, m, None, None)]
  }

  /**
   * Without a withheld-at-source line and without the flag from an earlier
   * block, every present line adds its own TAX unit, in section order: a
   * creditable line never suppresses a reclaimable one.
   */
  lemma NoPrecedenceWithoutWithheld(ctx: map<string, string>, txCurrency: Option<string>, w: WithholdingLines, conv: Converters)
    requires WellCaptured(w) && w.withheld.None?
    requires !ParseBoolean(Lookup(ctx, WithholdingTaxFoundKey))
    requires WithholdingUnits(ctx, txCurrency, w, conv).Done?
    ensures w.creditable.Some? ==> TaxMoney(ctx, txCurrency, w.creditable.value, QuellenstAnr, conv).Done?
    ensures w.reclaimable.Some? ==> TaxMoney(ctx, txCurrency, w.reclaimable.value, QuellenstRueck, conv).Done?
    ensures w.transactionTax.Some? ==> TaxMoney(ctx, txCurrency, w.transactionTax.value, QuellenstRueck, conv).Done?
    ensures WithholdingUnits(ctx, txCurrency, w, conv).value
              == LineTax(ctx, txCurrency, w.creditable, QuellenstAnr, conv)
                 + LineTax(ctx, txCurrency, w.reclaimable, QuellenstRueck, conv)
                 + LineTax(ctx, txCurrency, w.transactionTax, QuellenstRueck, conv)
    ensures |WithholdingUnits(ctx, txCurrency, w, conv).value|
              == Present(w.creditable) + Present(w.reclaimable) + Present(w.transactionTax)
  {
    assert FlagAfter(ctx, w) == ctx;
    var s1 := Step(Done([]), ctx, txCurrency, w.withheld, QuellenstEinbeh, conv);
    var s2 := Step(s1, ctx, txCurrency, w.creditable, QuellenstAnr, conv);
    var s3 := Step(s2, ctx, txCurrency, w.reclaimable, QuellenstRueck, conv);
    var s4 := Step(s3, ctx, txCurrency, w.transactionTax, QuellenstRueck, conv);
    assert s1 == Done([]);
    assert s2.Done? && s3.Done? && s4.Done?;
    assert s2.value == LineTax(ctx, txCurrency, w.creditable, QuellenstAnr, conv);
    assert s3.value == s2.value + LineTax(ctx, txCurrency, w.reclaimable, QuellenstRueck, conv);
    assert s4.value == s3.value + LineTax(ctx, txCurrency, w.transactionTax, QuellenstRueck, conv);
  }

  /** One optional withholding-tax section whose effect is `addTax`. */
  method WithholdingSection(ctx: DocumentContext, t: Subject, line: Option<map<string, string>>, key: TaxKey,
                            conv: Converters, ghost prior: Outcome<seq<Unit>>)
    returns (aborted: bool)
    requires Captured(line, key) && prior.Done?
    requires GetTransaction(t).units == prior.value
    modifies GetTransaction(t)
    ensures var p := GetTransaction(t);
      var s := Step(prior, ctx.entries, old(p.currency), line, key, conv);
      && aborted == s.Aborted?
      && (!aborted ==> p.units == s.value)
    ensures var p := GetTransaction(t); Snapshot(p) == old(Snapshot(p)).(units := p.units)
  {
    aborted := false;
    if line.Some? {
      aborted := AddTax(ctx, t, line.value, key, conv);
    }
  }

  /**
   * The four withholding-tax sections in order: the withheld line sets the
   * document flag and adds its tax; the others go through `addTax` and its
   * precedence check. The first section that throws ends the block.
   */
  method WithholdingSections(ctx: DocumentContext, t: Subject, w: WithholdingLines, conv: Converters)
    returns (aborted: bool)
    requires WellCaptured(w)
    modifies ctx, GetTransaction(t)
    ensures var p := GetTransaction(t);
      var effect := WithholdingUnits(old(ctx.entries), old(p.currency), w, conv);
      && ctx.entries == FlagAfter(old(ctx.entries), w)
      && aborted == effect.Aborted?
      && (!aborted ==> p.units == old(p.units) + effect.value)
    ensures var p := GetTransaction(t); Snapshot(p) == old(Snapshot(p)).(units := p.units)
  {
    var p := GetTransaction(t);
    if w.withheld.Some? {
      ctx.Put(WithholdingTaxFoundKey, "true");
    }
    ghost var c := ctx.entries;
    ghost var s0: Outcome<seq<Unit>> := Done(p.units);
    ChainPrepend(p.units, c, p.currency, w, conv);
    ghost var s1 := Step(s0, c, p.currency, w.withheld, QuellenstEinbeh, conv);
    aborted := WithholdingSection(ctx, t, w.withheld, QuellenstEinbeh, conv, s0);
    if aborted { return; }
    ghost var s2 := Step(s1, c, p.currency, w.creditable, QuellenstAnr, conv);
    aborted := WithholdingSection(ctx, t, w.creditable, QuellenstAnr, conv, s1);
    if aborted { return; }
    ghost var s3 := Step(s2, c, p.currency, w.reclaimable, QuellenstRueck, conv);
    aborted := WithholdingSection(ctx, t, w.reclaimable, QuellenstRueck, conv, s2);
    if aborted { return; }
    aborted := WithholdingSection(ctx, t, w.transactionTax, QuellenstRueck, conv, s3);
  }
}
