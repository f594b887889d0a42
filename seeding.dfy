/**
 * The per-document context and the callbacks that seed it: each document type
 * may scan all lines of a document once, before any block is parsed, and put
 * what it finds into the context. Regular-expression matching is not part of
 * the model: each pattern is given as a matcher from a line to its captured
 * groups, or None when the line does not match.
 */
module Seeding {
  import opened Wrappers

  const IsJointAccountKey := "isJointAccount"

  /** Groups of the savings-plan security pattern. */
  datatype SecurityCapture = SecurityCapture(name: string, isin: string, wkn: string)

  /** Groups of the account-statement number pattern. */
  datatype StatementNumber = StatementNumber(nr: string, year: string)

  /** The three context-seeding callbacks that write whatever their patterns find on each line. */
  datatype SeedRule =
    | SavingsPlanRule(
        security: string -> Option<SecurityCapture>,
        planCurrency: string -> Option<string>)
    | AccountStatementRule(
        bookingCurrency: string -> Option<string>,
        statement: string -> Option<StatementNumber>,
        billDate: string -> Option<string>)
    | CreditCardRule(
        cardCurrency: string -> Option<string>,
        century: string -> Option<string>)

  /** The context entries one line contributes under a rule. */
  function LinePuts(rule: SeedRule, line: string): map<string, string>
  {
    match rule
    case SavingsPlanRule(security, planCurrency) =>
      (if security(line).Some?
       then map["isin" := security(line).value.isin, "wkn" := security(line).value.wkn,
                "name" := security(line).value.name]
       else map[])
      + (if planCurrency(line).Some? then map["currency" := planCurrency(line).value] else map[])
    case AccountStatementRule(bookingCurrency, statement, billDate) =>
      (if bookingCurrency(line).Some? then map["currency" := bookingCurrency(line).value] else map[])
      + (if statement(line).Some?
         then map["nr" := statement(line).value.nr, "year" := statement(line).value.year]
         else map[])
      + (if billDate(line).Some? then map["accountingBillDate" := billDate(line).value] else map[])
    case CreditCardRule(cardCurrency, century) =>
      (if cardCurrency(line).Some? then map["currency" := cardCurrency(line).value] else map[])
      + (if century(line).Some? then map["century" := century(line).value] else map[])
  }

  /** The context after the lines have been scanned in order, later lines overwriting earlier ones. */
  function Scan(ctx: map<string, string>, lines: seq<string>, rule: SeedRule): map<string, string>
  {
    if lines == [] then ctx
    else Scan(ctx, lines[..|lines| - 1], rule) + LinePuts(rule, lines[|lines| - 1])
  }

  lemma PlusAssoc(a: map<string, string>, b: map<string, string>, c: map<string, string>)
    ensures a + b + c == a + (b + c)
  {
  }

  /** Scanning one more line adds what that line writes. */
  lemma ScanStep(ctx: map<string, string>, lines: seq<string>, i: nat, rule: SeedRule)
    requires i < |lines|
    ensures Scan(ctx, lines[..i + 1], rule) == Scan(ctx, lines[..i], rule) + LinePuts(rule, lines[i])
  {
    assert lines[..i + 1][..i] == lines[..i];
  }

  /** A key some line writes holds the value written by the LAST line that writes it. */
  lemma {:induction false} ScanLastWriteWins(ctx: map<string, string>, lines: seq<string>, rule: SeedRule, key: string, i: nat)
    requires i < |lines| && key in LinePuts(rule, lines[i])
    requires forall j :: i < j < |lines| ==> key !in LinePuts(rule, lines[j])
    ensures key in Scan(ctx, lines, rule)
    ensures Scan(ctx, lines, rule)[key] == LinePuts(rule, lines[i])[key]
  {
    var init := lines[..|lines| - 1];
    if i == |lines| - 1 {
    } else {
      assert forall j :: i < j < |init| ==> init[j] == lines[j];
      ScanLastWriteWins(ctx, init, rule, key, i);
    }
  }

  /** A key no line writes keeps its value from before the scan (or stays absent). */
  lemma {:induction false} ScanUntouched(ctx: map<string, string>, lines: seq<string>, rule: SeedRule, key: string)
    requires forall j :: 0 <= j < |lines| ==> key !in LinePuts(rule, lines[j])
    ensures key in Scan(ctx, lines, rule) <==> key in ctx
    ensures key in ctx ==> Scan(ctx, lines, rule)[key] == ctx[key]
  {
    if lines != [] {
      var init := lines[..|lines| - 1];
      assert forall j :: 0 <= j < |init| ==> init[j] == lines[j];
      assert key !in LinePuts(rule, lines[|lines| - 1]);
      ScanUntouched(ctx, init, rule, key);
    }
  }

  /** `context.get(key)` on a context map; None stands for Java's null. */
  function Lookup(ctx: map<string, string>, key: string): (r: Option<string>)
    ensures r.Some? <==> key in ctx
    ensures r.Some? ==> r.value == ctx[key]
  {
    if key in ctx then Some(ctx[key]) else None
  }

  /** The value `isJointAccount` receives: "true" exactly when some line is a 50 % share line. */
  function JointFlag(lines: seq<string>, isShareLine: string -> bool): string
  {
    if exists i :: 0 <= i < |lines| && isShareLine(lines[i]) then "true" else "false"
  }

  /** The mutable string map every block of one document reads and writes. */
  class DocumentContext {
    var entries: map<string, string>

    constructor ()
      ensures entries == map[]
    {
      entries := map[];
    }

    /** `context.get(key)`; None stands for Java's null. */
    function Get(key: string): (r: Option<string>)
      reads this
      ensures r == Lookup(entries, key)
    {
      Lookup(entries, key)
    }

    method Put(key: string, value: string)
      modifies this
      ensures entries == old(entries)[key := value]
    {
      entries := entries[key := value];
    }

    /**
     * The joint-account callback: the scan stops at the first line showing a
     * 50 % share of the tax base and records "true"; without such a line it
     * records "false". No other entry changes.
     */
    method SeedJointAccount(lines: seq<string>, isShareLine: string -> bool)
      modifies this
      ensures entries == old(entries)[IsJointAccountKey := JointFlag(lines, isShareLine)]
    {
      var joint := false;
      var i := 0;
      while i < |lines|
        invariant 0 <= i <= |lines|
        invariant !joint && entries == old(entries)
        invariant forall j :: 0 <= j < i ==> !isShareLine(lines[j])
      {
        if isShareLine(lines[i]) {
          Put(IsJointAccountKey, "true");
          joint := true;
          break;
        }
        i := i + 1;
      }
      if !joint {
        Put(IsJointAccountKey, "false");
      }
    }

    /** The savings-plan callback: every matching line overwrites the security and the currency. */
    method SeedSavingsPlan(lines: seq<string>, security: string -> Option<SecurityCapture>, planCurrency: string -> Option<string>)
      modifies this
      ensures entries == Scan(old(entries), lines, SavingsPlanRule(security, planCurrency))
    {
      for i := 0 to |lines|
        invariant entries == Scan(old(entries), lines[..i], SavingsPlanRule(security, planCurrency))
      {
        SavingsPlanLine(lines[i], security, planCurrency);
        ScanStep(old(entries), lines, i, SavingsPlanRule(security, planCurrency));
      }
      assert lines[..|lines|] == lines;
    }

    /** One iteration of the savings-plan scan. */
    method SavingsPlanLine(line: string, security: string -> Option<SecurityCapture>, planCurrency: string -> Option<string>)
      modifies this
      ensures entries == old(entries) + LinePuts(SavingsPlanRule(security, planCurrency), line)
    {
      var m := security(line);
      if m.Some? {
        Put("isin", m.value.isin);
        Put("wkn", m.value.wkn);
        Put("name", m.value.name);
      }
      var pm := if m.Some? then map["isin" := m.value.isin, "wkn" := m.value.wkn, "name" := m.value.name] else map[];
      assert entries == old(entries) + pm;
      var c := planCurrency(line);
      if c.Some? {
        Put("currency", c.value);
      }
      var pc := if c.Some? then map["currency" := c.value] else map[];
      assert entries == old(entries) + pm + pc;
      PlusAssoc(old(entries), pm, pc);
    }

    /** The account-statement callback: booking currency, statement number and year, billing date. */
    method SeedAccountStatement(lines: seq<string>, bookingCurrency: string -> Option<string>,
                                statement: string -> Option<StatementNumber>, billDate: string -> Option<string>)
      modifies this
      ensures entries == Scan(old(entries), lines, AccountStatementRule(bookingCurrency, statement, billDate))
    {
      for i := 0 to |lines|
        invariant entries == Scan(old(entries), lines[..i], AccountStatementRule(bookingCurrency, statement, billDate))
      {
        AccountStatementLine(lines[i], bookingCurrency, statement, billDate);
        ScanStep(old(entries), lines, i, AccountStatementRule(bookingCurrency, statement, billDate));
      }
      assert lines[..|lines|] == lines;
    }

    /** One iteration of the account-statement scan. */
    method AccountStatementLine(line: string, bookingCurrency: string -> Option<string>,
                                statement: string -> Option<StatementNumber>, billDate: string -> Option<string>)
      modifies this
      ensures entries == old(entries) + LinePuts(AccountStatementRule(bookingCurrency, statement, billDate), line)
    {
      ghost var e0 := entries;
      var c := bookingCurrency(line);
      if c.Some? {
        Put("currency", c.value);
      }
      ghost var pc := if c.Some? then map["currency" := c.value] else map[];
      ghost var e1 := entries;
      assert e1 == e0 + pc;
      var s := statement(line);
      if s.Some? {
        Put("nr", s.value.nr);
        Put("year", s.value.year);
      }
      ghost var ps := if s.Some? then map["nr" := s.value.nr, "year" := s.value.year] else map[];
      ghost var e2 := entries;
      assert e2 == e1 + ps;
      var d := billDate(line);
      if d.Some? {
        Put("accountingBillDate", d.value);
      }
      ghost var pd := if d.Some? then map["accountingBillDate" := d.value] else map[];
      assert entries == e2 + pd;
      PlusAssoc(e0, pc, ps);
      PlusAssoc(e0, pc + ps, pd);
    }

    /** The credit-card callback: statement currency and the century of the billing date. */
    method SeedCreditCard(lines: seq<string>, cardCurrency: string -> Option<string>, century: string -> Option<string>)
      modifies this
      ensures entries == Scan(old(entries), lines, CreditCardRule(cardCurrency, century))
    {
      for i := 0 to |lines|
        invariant entries == Scan(old(entries), lines[..i], CreditCardRule(cardCurrency, century))
      {
        CreditCardLine(lines[i], cardCurrency, century);
        ScanStep(old(entries), lines, i, CreditCardRule(cardCurrency, century));
      }
      assert lines[..|lines|] == lines;
    }

    /** One iteration of the credit-card scan. */
    method CreditCardLine(line: string, cardCurrency: string -> Option<string>, century: string -> Option<string>)
      modifies this
      ensures entries == old(entries) + LinePuts(CreditCardRule(cardCurrency, century), line)
    {
      var c := cardCurrency(line);
      if c.Some? {
        Put("currency", c.value);
      }
      var pc := if c.Some? then map["currency" := c.value] else map[];
      assert entries == old(entries) + pc;
      var y := century(line);
      if y.Some? {
        Put("century", y.value);
      }
      var py := if y.Some? then map["century" := y.value] else map[];
      assert entries == old(entries) + pc + py;
      PlusAssoc(old(entries), pc, py);
    }
  }
}
