/**
 * The blocks of the giro account statement and the credit-card statement:
 * booking-date reconstruction, note cleanup, the sign-dependent transaction
 * type, and the suppression of empty interest and tax items. Each block
 * starts from a fresh posting and reads the context the document seeding
 * filled in.
 */
module Statements {
  import opened Wrappers
  import opened Numbers
  import opened Text
  import opened Model
  import opened Seeding
  import opened Taxes

  /** String concatenation of a context value that may be missing (Java renders null as "null"). */
  function ContextText(ctx: map<string, string>, key: string): (s: string)
    ensures key in ctx ==> s == ctx[key]
    ensures key !in ctx ==> s == "null"
  {
    if key in ctx then ctx[key] else "null"
  }

  /**
   * The date text a booking line of an account statement hands to `asDate`:
   * day and booking month with the statement year, or with the year before
   * when the statement is the year's first ("001") and the value month differs
   * from the booking month. A missing statement number or an unparsable
   * year or month makes the section throw.
   */
  function BookingDateText(ctx: map<string, string>, day: string, month1: string, month2: string): (r: Outcome<string>)
    ensures "nr" !in ctx ==> r.Aborted?
    ensures "nr" in ctx && ctx["nr"] != "001" ==> r == Done(day + "." + month2 + "." + ContextText(ctx, "year"))
  {
    if "nr" !in ctx then Aborted
    else if ctx["nr"] == "001" then
      match (ParseInt(month1), ParseInt(month2))
      case (Some(m1), Some(m2)) =>
        if m1 != m2 then
          if "year" !in ctx then Aborted
          else
            match ParseInt(ctx["year"])
            case None => Aborted
            case Some(y) => Done(day + "." + month2 + "." + IntToString(WrapInt(y - 1)))
        else Done(day + "." + month2 + "." + ContextText(ctx, "year"))
      case _ => Aborted
    else Done(day + "." + month2 + "." + ContextText(ctx, "year"))
  }

  /** Cancelling a common prefix of two sequences. */
  lemma PrefixCancel(p: string, x: string, z: string)
    requires p + x == p + z
    ensures x == z
  {
    assert x == (p + x)[|p|..];
  }

  /**
   * With a readable number, months and year, the year is rolled back exactly
   * when the statement is "001" and the two months differ, and the rolled-back
   * year text reads back as the year before (wrapping like a Java int).
   */
  lemma {:induction false} YearRollBack(ctx: map<string, string>, day: string, month1: string, month2: string, a: int, b: int, y: int)
    requires "nr" in ctx && "year" in ctx
    requires ParseInt(month1) == Some(a) && ParseInt(month2) == Some(b) && ParseInt(ctx["year"]) == Some(y)
    ensures var rolled := day + "." + month2 + "." + IntToString(WrapInt(y - 1));
      && (BookingDateText(ctx, day, month1, month2) == Done(rolled) <==> ctx["nr"] == "001" && a != b)
      && (BookingDateText(ctx, day, month1, month2) != Done(rolled) ==>
            BookingDateText(ctx, day, month1, month2) == Done(day + "." + month2 + "." + ctx["year"]))
      && ParseInt(IntToString(WrapInt(y - 1))) == Some(if y == IntMin then IntMax else y - 1)
  {
    var prefix := day + "." + month2 + ".";
    var w := WrapInt(y - 1);
    var back := IntToString(w);
    IntToStringRoundTrip(w);
    YearBefore(y);
    if ctx["nr"] == "001" && a != b {
      assert BookingDateText(ctx, day, month1, month2) == Done(prefix + back);
    } else {
      assert BookingDateText(ctx, day, month1, month2) == Done(prefix + ctx["year"]);
      if prefix + ctx["year"] == prefix + back {
        PrefixCancel(prefix, ctx["year"], back);
        assert false;
      }
    }
  }

  /** The Java int `y - 1`: the year before, with the smallest int wrapping to the largest. */
  lemma YearBefore(y: int)
    requires IntMin <= y <= IntMax
    ensures WrapInt(y - 1) == (if y == IntMin then IntMax else y - 1)
    ensures WrapInt(y - 1) != y
  {
  }

  /**
   * A credit-card booking date "dd.mm.yy" with the seeded century put in front
   * of the two-digit year; a text shorter than eight characters makes the
   * substring call throw.
   */
  function CardDateText(date: string, century: Option<string>): (r: Outcome<string>)
    ensures r.Aborted? <==> |date| < 8
    ensures r.Done? ==> |r.value| == 8 + (if century.Some? then |century.value| else 4) && r.value[..6] == date[..6]
    ensures r.Done? ==> r.value[6..] == (if century.Some? then century.value else "null") + date[6..8]
  {
    if |date| < 8 then Aborted
    else Done(date[..6] + (if century.Some? then century.value else "null") + date[6..8])
  }

  /** With a two-digit century, the reconstructed year is 100 * century + the two-digit year. */
  lemma CardYearFourDigits(date: string, century: string)
    requires |date| == 8 && AllDigits(date[6..]) && |century| == 2 && AllDigits(century)
    ensures var r := CardDateText(date, Some(century));
      && r.Done? && |r.value| == 10 && r.value[6..] == century + date[6..]
      && AllDigits(r.value[6..])
      && DigitsValue(r.value[6..]) == 100 * DigitsValue(century) + DigitsValue(date[6..])
  {
    var r := CardDateText(date, Some(century)).value;
    assert date[6..8] == date[6..];
    assert r[6..] == century + date[6..];
    DigitsValueAppend(century, date[6..]);
  }

  /**
   * The note of a foreign-bank card booking: stripped, one leading '*' and
   * then one trailing '>' removed, stripped again. Taking the first or last
   * character of an empty note throws.
   */
  function CleanedNote(captured: string, strip: string -> string): (r: Outcome<string>)
  {
    var n1 := strip(captured);
    if |n1| == 0 then Aborted
    else
      var n2 := if n1[0] == '*' then n1[1..] else n1;
      if |n2| == 0 then Aborted
      else
        var n3 := if n2[|n2| - 1] == '>' then n2[..|n2| - 1] else n2;
        Done(strip(n3))
  }

  function Marker(present: bool, c: char): string
  {
    if present then [c] else []
  }

  /**
   * Any stripped note reads as an optional '*', a core and an optional '>'
   * (the core starting with '*' only after a leading one, ending with '>' only
   * before a trailing one); cleanup keeps exactly the stripped core, and
   * throws exactly when the core is empty with no trailing '>'.
   */
  lemma NoteCleanup(captured: string, strip: string -> string, lead: bool, core: string, trail: bool)
    requires strip(captured) == Marker(lead, '*') + core + Marker(trail, '>')
    requires !lead ==> core == [] || core[0] != '*'
    requires !trail ==> core == [] || core[|core| - 1] != '>'
    ensures CleanedNote(captured, strip).Aborted? <==> core == [] && !trail
    ensures CleanedNote(captured, strip).Done? ==> CleanedNote(captured, strip) == Done(strip(core))
  {
    var n1 := strip(captured);
    var tail := core + Marker(trail, '>');
    if lead {
      assert n1[0] == '*' && n1[1..] == tail;
    } else if core != [] {
      assert n1[0] == core[0];
    } else if trail {
      assert n1 == ">";
    }
    var n2 := if |n1| > 0 && n1[0] == '*' then n1[1..] else n1;
    assert n2 == tail;
    if trail {
      assert n2[|n2| - 1] == '>' && n2[..|n2| - 1] == core;
    } else if core != [] {
      assert n2 == core;
    }
  }

  /** The sign rule of a statement line: interest turns into a charge on '-', a tax into a refund on '+'. */
  datatype SignRule = InterestSign | TaxSign
  {
    /** The type of the block's fresh posting. */
    function Start(): TxType
    {
      if InterestSign? then Interest else Taxes
    }

    /** The type after the sign section. */
    function Kind(sign: string): (k: TxType)
      ensures InterestSign? ==> (k == InterestCharge <==> sign == "-") && (k != InterestCharge ==> k == Start())
      ensures TaxSign? ==> (k == TaxRefund <==> sign == "+") && (k != TaxRefund ==> k == Start())
    {
      if InterestSign? then (if sign == "-" then InterestCharge else Interest)
      else (if sign == "+" then TaxRefund else Taxes)
    }
  }

  predicate SignCaptured(v: map<string, string>)
  {
    "note" in v && "amount" in v && "type" in v
  }

  /**
   * The interest, disposition-credit interest and capital-gains-tax blocks of
   * the account statement: the section (None when it did not match) sets the
   * sign-dependent type, the billing date and the currency from the context,
   * and the item is emitted only with a currency and a non-zero amount.
   */
  method StatementBlock(rule: SignRule, ctx: map<string, string>, v: Option<map<string, string>>, conv: Converters)
    returns (item: Option<Item>)
    requires v.Some? ==> SignCaptured(v.value)
    ensures item.Some? <==> v.Some? && "currency" in ctx && conv.asAmount(v.value["amount"]) != 0
    ensures item.Some? ==> item.value == TransactionItem(
      rule.Kind(v.value["type"]), Some(ctx["currency"]), conv.asAmount(v.value["amount"]), 0,
      Some(DateInput(Lookup(ctx, "accountingBillDate"), None)), Some(v.value["note"]), [])
  {
    var t := new Posting(rule.Start());
    if v.Some? {
      var sign := v.value["type"];
      if rule.InterestSign? && sign == "-" {
        t.kind := InterestCharge;
      } else if rule.TaxSign? && sign == "+" {
        t.kind := TaxRefund;
      }
      t.date := Some(DateInput(Lookup(ctx, "accountingBillDate"), None));
      t.amount := conv.asAmount(v.value["amount"]);
      t.currency := Lookup(ctx, "currency");
      t.note := Some(v.value["note"]);
    }
    item := WrapNonEmpty(t);
  }

  predicate BookingCaptured(v: map<string, string>)
  {
    "month1" in v && "day" in v && "month2" in v && "note" in v && "amount" in v
  }

  /**
   * The removal, deposit, tax-settlement and fee blocks of the account
   * statement: a booking date per `BookingDateText`, amount, the statement
   * currency and the note; these blocks emit every item.
   */
  method BookingBlock(kind: TxType, ctx: map<string, string>, v: map<string, string>, conv: Converters)
    returns (r: Outcome<Item>)
    requires BookingCaptured(v)
    ensures r.Aborted? <==> BookingDateText(ctx, v["day"], v["month1"], v["month2"]).Aborted?
    ensures r.Done? ==> r.value == TransactionItem(
      kind, Lookup(ctx, "currency"), conv.asAmount(v["amount"]), 0,
      Some(DateInput(Some(BookingDateText(ctx, v["day"], v["month1"], v["month2"]).value), None)),
      Some(v["note"]), [])
  {
    var t := new Posting(kind);
    if "nr" !in ctx {
      return Aborted;
    }
    var date: string;
    if ctx["nr"] == "001" {
      var m1 := ParseInt(v["month1"]);
      var m2 := ParseInt(v["month2"]);
      if m1.None? || m2.None? {
        return Aborted;
      }
      if m1.value != m2.value {
        if "year" !in ctx || ParseInt(ctx["year"]).None? {
          return Aborted;
        }
        var year := WrapInt(ParseInt(ctx["year"]).value - 1);
        date := v["day"] + "." + v["month2"] + "." + IntToString(year);
      } else {
        date := v["day"] + "." + v["month2"] + "." + ContextText(ctx, "year");
      }
    } else {
      date := v["day"] + "." + v["month2"] + "." + ContextText(ctx, "year");
    }
    t.date := Some(DateInput(Some(date), None));
    t.amount := conv.asAmount(v["amount"]);
    t.currency := Lookup(ctx, "currency");
    t.note := Some(v["note"]);
    r := Done(Snapshot(t));
  }

  predicate CardCaptured(v: map<string, string>)
  {
    "date" in v && "note" in v && "amount" in v
  }

  /**
   * The credit-card statement blocks: the date with the seeded century, the
   * amount, the statement currency and the stripped note; `cleanup` selects
   * the foreign-bank alternatives that also drop the '*' and '>' markers.
   * These blocks emit every item.
   */
  method CardBlock(kind: TxType, ctx: map<string, string>, v: map<string, string>, cleanup: bool, conv: Converters)
    returns (r: Outcome<Item>)
    requires CardCaptured(v)
    ensures r.Aborted? <==> |v["date"]| < 8 || (cleanup && CleanedNote(v["note"], conv.strip).Aborted?)
    ensures r.Done? ==> r.value == TransactionItem(
      kind, Lookup(ctx, "currency"), conv.asAmount(v["amount"]), 0,
      Some(DateInput(Some(CardDateText(v["date"], Lookup(ctx, "century")).value), None)),
      Some(if cleanup then CleanedNote(v["note"], conv.strip).value else conv.strip(v["note"])), [])
  {
    var t := new Posting(kind);
    var note := v["note"];
    if cleanup {
      note := conv.strip(note);
    }
    var date := v["date"];
    if |date| < 8 {
      return Aborted;
    }
    t.date := Some(DateInput(Some(date[..6] + ContextText(ctx, "century") + date[6..8]), None));
    t.amount := conv.asAmount(v["amount"]);
    t.currency := Lookup(ctx, "currency");
    if cleanup {
      if |note| == 0 {
        return Aborted;
      }
      if note[0] == '*' {
        note := note[1..];
      }
      if |note| == 0 {
        return Aborted;
      }
      if note[|note| - 1] == '>' {
        note := note[..|note| - 1];
      }
    }
    t.note := Some(conv.strip(note));
    r := Done(Snapshot(t));
  }

  /**
   * The tax-refund block after a buy/sell settlement: the optional section
   * (None when it did not match) takes date, currency and amount, and the
   * shares handed over by the buy/sell shares section; the item is emitted
   * only with a non-zero amount.
   */
  method TaxRefundBlock(ctx: map<string, string>, v: Option<map<string, string>>, conv: Converters)
    returns (item: Option<Item>)
    requires v.Some? ==> "amount" in v.value && "currency" in v.value && "date" in v.value
    ensures item.Some? <==> v.Some? && conv.asAmount(v.value["amount"]) != 0
    ensures item.Some? ==> item.value == TransactionItem(
      TaxRefund, Some(conv.asCurrencyCode(v.value["currency"])), conv.asAmount(v.value["amount"]),
      if "shares" in ctx then conv.asShares(ctx["shares"]) else 0,
      Some(DateInput(Some(v.value["date"]), None)), None, [])
  {
    var t := new Posting(TaxRefund);
    if v.Some? {
      t.date := Some(DateInput(Some(v.value["date"]), None));
      t.currency := Some(conv.asCurrencyCode(v.value["currency"]));
      t.amount := conv.asAmount(v.value["amount"]);
      if "shares" in ctx {
        t.shares := conv.asShares(ctx["shares"]);
      }
    }
    item := WrapNonEmpty(t);
  }
}
