# DKB document rules, modelled in Dafny

This project models the rule table of the DKB bank's PDF extractor. The table
turns the text of DKB settlements, dividend credits, transfers, advance-tax
notices, savings-plan statements, giro account statements and credit-card
statements into transactions. The pattern engine that runs the table is not
modelled. Each section effect is taken with the values its pattern captured,
given as a map from group name to text. Each document-seeding callback is
taken with one matcher per pattern, a function from a line to its captured
groups.

The modules follow the structure of the extractor:

- `Wrappers`: `Option`, and `Outcome`. A block whose effect throws
  (a null dereference, a zero divisor, a bad substring or a bad
  `Integer.parseInt`) yields no item and is `Aborted`.
- `Numbers`: Java's truncating long division. `BigDecimal` arithmetic with
  `HALF_DOWN` rounding on scaled integers: the reciprocal to ten places, and
  scaling a rate times an amount to a whole number.
- `Text`: `Integer.parseInt`/`toString` and 32-bit wrap-around.
  `Boolean.parseBoolean`. The case-insensitive "Stück" test.
- `Model`: the posting that sections fill in, the buy/sell entry, the
  converters inherited from the base class as uninterpreted functions, and
  the suppressing `wrap`.
- `Seeding`: the per-document context and the four callbacks that fill it
  before blocks are parsed.
- `Taxes`: the tax sections. They cover joint-account gating, and
  withholding tax with its precedence flag and currency conversion
  (`addTax`, `checkWithholdingTax`, `getTransaction`).
- `Trades`: buy/sell type, share scaling, transfer-out, trade date, and the
  dividend exchange-rate section.
- `Statements`: the account-statement and credit-card blocks. They cover the
  booking-date year roll-back, the century reconstruction, note cleanup,
  sign-dependent types and item suppression.

## Model

| member | source | states |
|---|---|---|
| Numbers.JavaDiv | name.abuchen.portfolio/src/name/abuchen/portfolio/datatransfer/pdf/DkbPDFExtractor.java:165-171 | Java `long` division by a positive divisor truncates toward zero: the remainder has the dividend's sign and is smaller than the divisor |
| Numbers.RoundHalfDown | name.abuchen.portfolio/src/name/abuchen/portfolio/datatransfer/pdf/DkbPDFExtractor.java:1210-1215 | the quotient rounded to the nearest integer; on a tie, the one closer to zero |
| Numbers.Reciprocal | name.abuchen.portfolio/src/name/abuchen/portfolio/datatransfer/pdf/DkbPDFExtractor.java:1210-1212 | `ONE.divide(r, 10, HALF_DOWN)` has scale 10, differs from 1/r by at most half a unit in the tenth place, and ties go toward zero |
| Numbers.ScaleToWhole | name.abuchen.portfolio/src/name/abuchen/portfolio/datatransfer/pdf/DkbPDFExtractor.java:1215 | `rate.multiply(amount).setScale(0, HALF_DOWN)` is the whole number nearest to rate × amount, ties toward zero |
| Text.ParseInt | name.abuchen.portfolio/src/name/abuchen/portfolio/datatransfer/pdf/DkbPDFExtractor.java:674-676 | `Integer.parseInt` yields only 32-bit values, and reads a plain digit string as its decimal value |
| Text.IntToStringRoundTrip | name.abuchen.portfolio/src/name/abuchen/portfolio/datatransfer/pdf/DkbPDFExtractor.java:676-677 | `Integer.toString` then `Integer.parseInt` gives back every 32-bit value |
| Text.WrapInt | name.abuchen.portfolio/src/name/abuchen/portfolio/datatransfer/pdf/DkbPDFExtractor.java:676 | Java `int` subtraction: the result is in the 32-bit range, congruent to the exact value modulo 2^32, and exact inside the range |
| Text.ParseBoolean | name.abuchen.portfolio/src/name/abuchen/portfolio/datatransfer/pdf/DkbPDFExtractor.java:1044 | `Boolean.parseBoolean` is true exactly for a non-null four-letter value that reads "true" ignoring (ASCII) case; null, "false" and "" are false |
| Text.DigitsValueAppend | name.abuchen.portfolio/src/name/abuchen/portfolio/datatransfer/pdf/DkbPDFExtractor.java:830-831 | concatenating digit strings multiplies the first value by 10 to the length of the second, then adds |
| Model.GetTransaction | name.abuchen.portfolio/src/name/abuchen/portfolio/datatransfer/pdf/DkbPDFExtractor.java:1234-1244 | an account transaction is its own posting; a buy/sell entry yields its portfolio leg |
| Model.WrapNonEmpty | name.abuchen.portfolio/src/name/abuchen/portfolio/datatransfer/pdf/DkbPDFExtractor.java:590-594 | the item is emitted exactly when the currency is set and the amount is non-zero, and it then carries the posting's state |
| Model.Posting.constructor | name.abuchen.portfolio/src/name/abuchen/portfolio/datatransfer/pdf/DkbPDFExtractor.java:567-571 | the subject supplier: a fresh posting of the given type with nothing else set |
| Seeding.ScanLastWriteWins | name.abuchen.portfolio/src/name/abuchen/portfolio/datatransfer/pdf/DkbPDFExtractor.java:466-481 | after a seeding scan, a key holds the value from the last line that wrote it |
| Seeding.ScanUntouched | name.abuchen.portfolio/src/name/abuchen/portfolio/datatransfer/pdf/DkbPDFExtractor.java:466-481 | a key that no line writes keeps its value from before the scan |
| Seeding.ScanStep | name.abuchen.portfolio/src/name/abuchen/portfolio/datatransfer/pdf/DkbPDFExtractor.java:466-481 | scanning one more line adds exactly what that line writes |
| Seeding.Lookup | name.abuchen.portfolio/src/name/abuchen/portfolio/datatransfer/pdf/DkbPDFExtractor.java:1044 | `context.get(key)`: the value when the key is present, null (None) otherwise |
| Seeding.DocumentContext.SeedJointAccount | name.abuchen.portfolio/src/name/abuchen/portfolio/datatransfer/pdf/DkbPDFExtractor.java:28-46 | writes `isJointAccount` ("true" when some line is a 50 % share line, else "false") and changes no other entry |
| Seeding.DocumentContext.SeedSavingsPlan | name.abuchen.portfolio/src/name/abuchen/portfolio/datatransfer/pdf/DkbPDFExtractor.java:462-482 | the context equals the old context overwritten line by line with each matching line's isin/wkn/name and currency |
| Seeding.DocumentContext.SavingsPlanLine | name.abuchen.portfolio/src/name/abuchen/portfolio/datatransfer/pdf/DkbPDFExtractor.java:468-480 | one line adds its security groups and then its currency |
| Seeding.DocumentContext.SeedAccountStatement | name.abuchen.portfolio/src/name/abuchen/portfolio/datatransfer/pdf/DkbPDFExtractor.java:534-561 | the context is overwritten line by line with each match's currency, nr/year and accountingBillDate |
| Seeding.DocumentContext.AccountStatementLine | name.abuchen.portfolio/src/name/abuchen/portfolio/datatransfer/pdf/DkbPDFExtractor.java:541-559 | one line adds its currency, then nr and year, then the billing date |
| Seeding.DocumentContext.SeedCreditCard | name.abuchen.portfolio/src/name/abuchen/portfolio/datatransfer/pdf/DkbPDFExtractor.java:790-809 | the context is overwritten line by line with each match's currency and century |
| Seeding.DocumentContext.CreditCardLine | name.abuchen.portfolio/src/name/abuchen/portfolio/datatransfer/pdf/DkbPDFExtractor.java:796-807 | one line adds its currency and then its century |
| Taxes.JointAfterSeeding | name.abuchen.portfolio/src/name/abuchen/portfolio/datatransfer/pdf/DkbPDFExtractor.java:28-46 | after seeding, the joint flag parses as true exactly when some line is a 50 % share line |
| Taxes.SingleTaxSection | name.abuchen.portfolio/src/name/abuchen/portfolio/datatransfer/pdf/DkbPDFExtractor.java:1041-1048 | a one-line capital-gains tax section hands on its tax only when the document is not a joint account |
| Taxes.JointTaxSection | name.abuchen.portfolio/src/name/abuchen/portfolio/datatransfer/pdf/DkbPDFExtractor.java:1053-1069 | a two-line section hands on both holders' taxes in order, only for a joint account |
| Taxes.CheckWithholdingTax | name.abuchen.portfolio/src/name/abuchen/portfolio/datatransfer/pdf/DkbPDFExtractor.java:1222-1232 | a tax is suppressed exactly when the withholding flag is true and the key is quellenstanr or quellenstrueck; quellensteinbeh is never suppressed |
| Taxes.TaxMoney | name.abuchen.portfolio/src/name/abuchen/portfolio/datatransfer/pdf/DkbPDFExtractor.java:1205-1216 | the tax as captured unless its currency differs from the posting's and a rate is known. Otherwise it is in the posting's currency, at amount × (1/rate) rounded to the nearest whole number with ties toward zero (HALF_DOWN), and a zero rate throws |
| Taxes.AddTaxEffect | name.abuchen.portfolio/src/name/abuchen/portfolio/datatransfer/pdf/DkbPDFExtractor.java:1195-1220 | adds nothing when suppressed; otherwise exactly one TAX unit with that money, or the block throws |
| Taxes.AddTax | name.abuchen.portfolio/src/name/abuchen/portfolio/datatransfer/pdf/DkbPDFExtractor.java:1195-1220 | the posting's units grow by exactly the effect; every other field of the posting is unchanged |
| Taxes.ChainPrepend | name.abuchen.portfolio/src/name/abuchen/portfolio/datatransfer/pdf/DkbPDFExtractor.java:1138-1158 | units already on the posting stay in front of what the withholding sections append |
| Taxes.WithheldTakesPrecedence | name.abuchen.portfolio/src/name/abuchen/portfolio/datatransfer/pdf/DkbPDFExtractor.java:1138-1158 | with a withheld-tax line, the four withholding sections add exactly one unit: the withheld tax. Creditable, reclaimable and transaction-tax lines add nothing |
| Taxes.NoPrecedenceWithoutWithheld | name.abuchen.portfolio/src/name/abuchen/portfolio/datatransfer/pdf/DkbPDFExtractor.java:1146-1158 | without a withheld line or an earlier flag, the units are exactly the creditable, reclaimable and transaction-tax lines' TAX units in section order, each with that line's `TaxMoney` |
| Taxes.WithholdingSection | name.abuchen.portfolio/src/name/abuchen/portfolio/datatransfer/pdf/DkbPDFExtractor.java:1146-1153 | one optional withholding section appends the `addTax` effect to the units so far; every other field of the posting is unchanged |
| Taxes.WithholdingSections | name.abuchen.portfolio/src/name/abuchen/portfolio/datatransfer/pdf/DkbPDFExtractor.java:1138-1158 | the withheld line sets the `isHoldingTax` flag; the posting gets exactly the chained units and nothing else changes, and the first throwing section ends the block |
| Trades.EntryType | name.abuchen.portfolio/src/name/abuchen/portfolio/datatransfer/pdf/DkbPDFExtractor.java:111-138 | an entry becomes SELL exactly when either type section captured one of the seven sale or redemption types; otherwise it stays BUY |
| Trades.PurchaseTypesStayBuy | name.abuchen.portfolio/src/name/abuchen/portfolio/datatransfer/pdf/DkbPDFExtractor.java:111-127 | Kauf, Kauf Direkthandel and Ausgabe Investmentfonds stay BUY |
| Trades.TypeSections | name.abuchen.portfolio/src/name/abuchen/portfolio/datatransfer/pdf/DkbPDFExtractor.java:111-138 | the entry's type is SELL when `EntryType` says so and otherwise unchanged; nothing else in the posting changes |
| Trades.SectionShares | name.abuchen.portfolio/src/name/abuchen/portfolio/datatransfer/pdf/DkbPDFExtractor.java:162-171 | shares are unchanged for "Stück" in any case; for any other notation they are the quantity divided by 100, truncated |
| Trades.BondNotationScales | name.abuchen.portfolio/src/name/abuchen/portfolio/datatransfer/pdf/DkbPDFExtractor.java:165-171 | a face value 100 × x in a currency notation gives x shares; "STÜCK" and "stück" keep the quantity |
| Trades.SharesSection | name.abuchen.portfolio/src/name/abuchen/portfolio/datatransfer/pdf/DkbPDFExtractor.java:273-282 | the dividend and advance-tax shares section sets exactly `SectionShares` and changes nothing else (same code at 433-442) |
| Trades.BuySellSharesSection | name.abuchen.portfolio/src/name/abuchen/portfolio/datatransfer/pdf/DkbPDFExtractor.java:162-174 | sets `SectionShares`, changes nothing else in the posting, and hands the captured share text to the context |
| Trades.SecurityHandshake | name.abuchen.portfolio/src/name/abuchen/portfolio/datatransfer/pdf/DkbPDFExtractor.java:145-158 | hands name, nameContinued, isin and wkn to the context for the tax-refund block |
| Trades.TransferOutSection | name.abuchen.portfolio/src/name/abuchen/portfolio/datatransfer/pdf/DkbPDFExtractor.java:374-386 | a transfer-out always divides the nominal by 100 (truncated), sets the amount to 0 and takes the security's currency; type, date, note and units are unchanged |
| Trades.TimeSection | name.abuchen.portfolio/src/name/abuchen/portfolio/datatransfer/pdf/DkbPDFExtractor.java:183-186 | the trade time goes into the context |
| Trades.TradeDateSection | name.abuchen.portfolio/src/name/abuchen/portfolio/datatransfer/pdf/DkbPDFExtractor.java:188-195 | the trade date is set together with the context's time when one is known; nothing else changes |
| Trades.StoredRate | name.abuchen.portfolio/src/name/abuchen/portfolio/datatransfer/pdf/DkbPDFExtractor.java:302-306 | the stored rate is the printed rate, or exactly its HALF_DOWN reciprocal to scale 10 when the posting's currency is the foreign-currency column. In that case a zero rate throws |
| Trades.GrossValueUnit | name.abuchen.portfolio/src/name/abuchen/portfolio/datatransfer/pdf/DkbPDFExtractor.java:312-333 | the gross-value unit carries the foreign-currency column as the forex leg, with the two columns swapped when the foreign column is the posting's currency |
| Trades.GrossValueInPostingCurrency | name.abuchen.portfolio/src/name/abuchen/portfolio/datatransfer/pdf/DkbPDFExtractor.java:315-331 | when either column is in the posting's currency, the gross value is in that currency and the unit holds exactly the two captured amounts |
| Trades.FxEffect | name.abuchen.portfolio/src/name/abuchen/portfolio/datatransfer/pdf/DkbPDFExtractor.java:299-336 | a null posting currency throws and so does orienting a zero rate; otherwise the oriented rate is stored. Then a missing security throws, equal currencies add nothing, and different currencies add exactly the gross-value unit with the reciprocal of the stored rate, or throw when that rate is zero |
| Trades.FxStoresOrientedRate | name.abuchen.portfolio/src/name/abuchen/portfolio/datatransfer/pdf/DkbPDFExtractor.java:302-308 | once the rate is oriented, the context holds its plain string under `exchangeRate` |
| Trades.FxSection | name.abuchen.portfolio/src/name/abuchen/portfolio/datatransfer/pdf/DkbPDFExtractor.java:299-336 | the context and the posting's units change exactly as `FxEffect` says; every other field of the posting is unchanged |
| Statements.BookingDateText | name.abuchen.portfolio/src/name/abuchen/portfolio/datatransfer/pdf/DkbPDFExtractor.java:668-686 | a missing statement number throws. A statement other than "001" uses the context year ("null" when it is missing) |
| Statements.YearRollBack | name.abuchen.portfolio/src/name/abuchen/portfolio/datatransfer/pdf/DkbPDFExtractor.java:670-686 | with readable months and year, the year is rolled back exactly when nr is "001" and the months differ; the rolled-back text parses to the year before, wrapping like `int` |
| Statements.CardDateText | name.abuchen.portfolio/src/name/abuchen/portfolio/datatransfer/pdf/DkbPDFExtractor.java:830-831 | "dd.mm.yy" becomes "dd.mm." + century (or "null" when none was seeded) + "yy"; a date shorter than 8 characters throws |
| Statements.CardYearFourDigits | name.abuchen.portfolio/src/name/abuchen/portfolio/datatransfer/pdf/DkbPDFExtractor.java:830-831 | with a two-digit century the year reads as 100 × century + yy |
| Statements.NoteCleanup | name.abuchen.portfolio/src/name/abuchen/portfolio/datatransfer/pdf/DkbPDFExtractor.java:849-859 | cleanup removes exactly one leading '*' and one trailing '>' before stripping. It throws exactly when nothing but a leading '*' is left |
| Statements.SignRule.Kind | name.abuchen.portfolio/src/name/abuchen/portfolio/datatransfer/pdf/DkbPDFExtractor.java:578-581 | interest becomes INTEREST_CHARGE exactly on '-', and Kapitalertragsteuer becomes TAX_REFUND exactly on '+' (lines 641-644) |
| Statements.StatementBlock | name.abuchen.portfolio/src/name/abuchen/portfolio/datatransfer/pdf/DkbPDFExtractor.java:574-656 | the interest, disposition-credit and Kapitalertragsteuer blocks emit an item exactly when the context has a currency and the amount is non-zero. The item has the sign-dependent type and the billing date |
| Statements.BookingBlock | name.abuchen.portfolio/src/name/abuchen/portfolio/datatransfer/pdf/DkbPDFExtractor.java:668-785 | the removal, deposit, tax-settlement and fee blocks throw exactly when `BookingDateText` does; otherwise they emit the item with that date and the context's currency |
| Statements.CardBlock | name.abuchen.portfolio/src/name/abuchen/portfolio/datatransfer/pdf/DkbPDFExtractor.java:822-999 | the credit-card blocks throw exactly on a short date, or on a note that cleanup empties. Otherwise they emit the item with the century date and the stripped (and, in the foreign-bank alternatives, cleaned) note |
| Statements.TaxRefundBlock | name.abuchen.portfolio/src/name/abuchen/portfolio/datatransfer/pdf/DkbPDFExtractor.java:1016-1032 | the tax-refund block emits an item exactly when its section matched with a non-zero amount; the item carries the shares handed over by the buy/sell rule |

## Left out

- Regular-expression matching: patterns are given as matchers or captured maps, so `java.util.regex` semantics are not modelled.
- The converters `asAmount`, `asShares`, `asDate`, `asExchangeRate`, `asCurrencyCode`, `BigDecimal.toPlainString` and `TextUtil.strip` are uninterpreted. Their code is not part of this model, and dates are kept as the text handed to `asDate`.
- `getOrCreateSecurity` is not part of this model. Where an effect needs the security's currency, that currency is a parameter.
- `PDFExtractorUtils.checkAndSetTax` and `checkAndSetFee` are not part of this model. The tax sections end with the list of moneys they hand on, and the fee sections are left out for the same reason.
- The savings-plan fee at line 510 reads a key its pattern never captures, and its result depends on the unseen converters.
- The parsing engine (`DocumentType`, `Block`, `Transaction`, `section`, `oneOf`, `wrap`) is not modelled. A block runs with the captures it receives, and a section that did not match is `None`.
- Plain field copies (amount, currency, note and date setters that copy a capture unchanged, including the savings-plan sections at 498-527) are not modelled separately.
- The buy/sell entry's cash leg is not modelled; taxes and fees go to the portfolio leg.
- `SyncEODHistoricalDataHandler` is user-interface and network code.
- Taxes.TaxMoney: the converted amount is an unbounded integer, so the 64-bit truncation of `longValue()` is not modelled.
- Taxes.AddTax: the same 64-bit truncation is not modelled.
- Statements.TaxRefundBlock: when the context holds no shares, the shares stay 0, because what `asShares` does with null is not part of this model.
- Text.ParseInt accepts only ASCII digits, while `Integer.parseInt` also accepts other Unicode digits. The captured months and years are always ASCII.
- Text.ParseBoolean folds ASCII case only, which is all that "true" needs.
- Negative `BigDecimal` scales: a decimal's scale is a natural number here, so a rate with a negative scale, which `asExchangeRate` might produce, is not modelled.
- Java strings are UTF-16 and are modelled as sequences of Dafny characters. `substring` and `length` count characters.
