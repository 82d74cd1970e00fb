# Mambu Java SDK: demo loan logic, line-of-credit dispatch and client requests, in Dafny

The project models three parts of the Mambu API SDK for Java and proves properties about them.

- **The demo loan service** (`src/demo/DemoTestLoanService.java`). This part covers:
  - how a demo loan account's first repayment date is computed from the product's schedule-due-dates method;
  - how `makeLoanAccountForDemoProduct` fills a demo account from a loan product, using its default → minimum → maximum → constant fallback chains;
  - which disbursement arguments `testDisburseLoanAccount` picks for each product type;
  - how `testUpdatingAccountTranches` respaces the expected dates of the non-disbursed tranches and then nulls their encoded keys;
  - how the fund and guarantee tests rebuild their lists as copies without encoded keys;
  - which accounts `deleteTestAPILoanAccounts` deletes.
- **`LinesOfCreditService`**. Each public method either throws `IllegalArgumentException` or makes exactly one call to the service executor. The model states which call, with which arguments.
- **`ClientsService`**. Each public method shapes one HTTP request: a path, an ordered parameter list, GET or POST, and whether the answer is decoded as one object or as a list.

Modules, one file each:

| file | module | contents |
|---|---|---|
| `wrappers.dfy` | `Wrappers` | `Option` for Java's nullable references; `Result` for a value or a thrown exception |
| `java_ints.dfy` | `JavaInts` | Java `int` range and 32-bit wrap-around |
| `calendar.dfy` | `Calendar` | the `GregorianCalendar` arithmetic used: UTC day numbers, month and year addition with the day pinned, lenient `set` |
| `loan_model.dfy` | `LoanModel` | loan products, loan accounts, tranches, investor funds, guarantees |
| `repayment_dates.dfy` | `RepaymentDates` | `makeFirstRepaymentDate`, `makeFixedDateFirstRepayment` |
| `demo_collections.dfy` | `DemoCollections` | the tranche loops (imperative, over an array) and the fund and guarantee copy loops |
| `demo_account.dfy` | `DemoAccount` | `makeLoanAccountForDemoProduct` and its fallback chains |
| `demo_disbursement.dfy` | `DemoDisbursement` | the product-type switch of `testDisburseLoanAccount` |
| `demo_cleanup.dfy` | `DemoCleanup` | the selection loop of `deleteTestAPILoanAccounts` |
| `lines_of_credit.dfy` | `LinesOfCredit` | `LinesOfCreditService` |
| `clients.dfy` | `Clients` | `ClientsService` |

Modelling conventions:
- A Java `Date` is its millisecond instant, an `int`. A day is 86,400,000 ms.
- Calendar dates use the proleptic Gregorian calendar, with months numbered 1 to 12 (Java's `Calendar.MONTH` plus one).
- The system clock and the default time zone are a `Clock` parameter. It holds the instant "now", today's civil date in the default zone, and the zone's UTC offset at any instant.
- `DemoUtil.getAsMidnightUTC()` is the parameter `todayMidnightUtc`.
- Every nullable field or argument is an `Option`. A `NullPointerException` the code can hit is a `Failure(NullDereference(...))`.
- Money and `BigDecimal` values are an opaque `Decimal`, used without arithmetic.
- An `Integer` is an `Int32`. Where Java's `int` arithmetic can wrap (`repaymentPeriodCount * 7`, `1 + minOffsetDays`), `Wrap32` writes the wrap-around out.
- `LinesOfCreditService` and `ClientsService` each have two halves:
  - an `Operation` or `ClientsCall` datatype listing the public methods;
  - a function that reads the executor call or the request back as the operation that made it.

  Each half is proved the inverse of the other.

## Model

| member | source | states |
|---|---|---|
| JavaInts.Wrap32 | src/demo/DemoTestLoanService.java:1694-1701 | the result is the Java `int` congruent to the exact value modulo 2^32, and equals it when it is in range |
| Calendar.DaysInMonth | src/demo/DemoTestLoanService.java:1688-1698 | a month has 28 to 31 days, and 29 exactly for February of a leap year |
| Calendar.MidnightUtc | src/demo/DemoTestLoanService.java:1675-1677 | UTC midnight of a date is a whole number of days after the epoch |
| Calendar.NormalizeMonth | src/demo/DemoTestLoanService.java:1722 | a lenient month is carried into the year: the result month is 1..12 and the month count since year 0 is unchanged |
| Calendar.AddMonths | src/demo/DemoTestLoanService.java:1690-1692 | `add(MONTH, n)` moves exactly n months and pins the day to the target month's length |
| Calendar.AddYears | src/demo/DemoTestLoanService.java:1696-1698 | `add(YEAR, n)` keeps the month, moves n years and pins the day (29 February becomes the 28th) |
| Calendar.LeapYearsBeforeStep | src/demo/DemoTestLoanService.java:1686-1701 | the leap-year count steps up exactly after a Gregorian leap year |
| Calendar.YearLength | src/demo/DemoTestLoanService.java:1686-1701 | a year has 366 days when it is a leap year and 365 otherwise |
| Calendar.MonthsAdjoin | src/demo/DemoTestLoanService.java:1722 | the day after a month's last day is day 1 of the next month, December running into January |
| Calendar.LenientDayNumber | src/demo/DemoTestLoanService.java:1722 | lenient `set(year, month, day)`: a month in 1..12 is taken as it is, month 13 is January of the next year, and a day inside the month is that date's day number |
| Calendar.LenientSpill | src/demo/DemoTestLoanService.java:1722 | a lenient day past the month's end is the same day counted into the following month |
| Calendar.LenientThirteenthMonth | src/demo/DemoTestLoanService.java:1722 | month 13 of a year is January of the next year |
| Calendar.EpochAnchors | src/demo/DemoTestLoanService.java:1675-1677 | 1970-01-01 is day 0 and 2024-01-01 is day 19723 |
| Calendar.DayNumberWithinYear | src/demo/DemoTestLoanService.java:1675-1677 | a date's day number lies within its year's days |
| Calendar.YearsIncrease | src/demo/DemoTestLoanService.java:1675-1677 | later years start later |
| Calendar.MonthsIncrease | src/demo/DemoTestLoanService.java:1675-1677 | a month ends before any later month of the same year begins |
| Calendar.BeforeHasSmallerDayNumber | src/demo/DemoTestLoanService.java:1675-1677 | an earlier date has a smaller day number |
| Calendar.DayNumberOrder | src/demo/DemoTestLoanService.java:1675-1677 | day numbers order valid dates exactly as the calendar does, and distinct dates have distinct day numbers |
| Calendar.AddYearsIsTwelveMonths | src/demo/DemoTestLoanService.java:1690-1698 | adding n years is adding 12·n months |
| LoanModel.TranchesWhereAppend | src/demo/DemoTestLoanService.java:421-428 | the tranche filter keeps list order: filtering a concatenation is the concatenation of the filtered parts |
| LoanModel.TranchesWhereFirst | src/demo/DemoTestLoanService.java:635 | the first element of a filtered list (`get(0)`) is the first tranche of the list with that flag |
| LoanModel.NonDisbursedTranches | src/demo/DemoTestLoanService.java:421-643 | `getNonDisbursedTranches()` holds exactly the account's tranches not yet disbursed, and is empty for an account without tranches |
| LoanModel.DisbursedTranches | src/demo/DemoTestLoanService.java:427-643 | `getDisbursedTranches()` holds exactly the account's disbursed tranches, and is empty for an account without tranches |
| LoanModel.TranchesWhere | src/demo/DemoTestLoanService.java:421-428 | the disbursed and non-disbursed tranche lists hold exactly the tranches with that `disbursed` flag |
| RepaymentDates.DisbursementBase | src/demo/DemoTestLoanService.java:1631-1636 | the defaults count from the account's expected disbursement date, or from now when the account has no disbursement details or no expected date |
| RepaymentDates.IntervalDueDay | src/demo/DemoTestLoanService.java:1686-1699 | DAYS moves `count` days; WEEKS moves 7·count days wrapped to a Java `int`: a shift inside the `int` range and congruent to 7·count modulo 2^32, so exactly 7·count when that fits; MONTHS is `add(MONTH, count)`; YEARS is the same as adding 12·count months |
| RepaymentDates.FixedDayInstant | src/demo/DemoTestLoanService.java:1716-1723 | the fixed-day date is a UTC midnight |
| RepaymentDates.MakeFixedDateFirstRepayment | src/demo/DemoTestLoanService.java:1712-1732 | it throws exactly when the local-midnight shift is asked for and the fixed-day list is null or empty; a date comes only from a non-empty list |
| RepaymentDates.IntervalFirstRepayment | src/demo/DemoTestLoanService.java:1670-1704 | the interval date is a UTC midnight |
| RepaymentDates.MakeFirstRepaymentDate | src/demo/DemoTestLoanService.java:1627-1710 | the date computation throws exactly when the local-midnight shift is asked for, account and product are present, the product uses FIXED_DAYS_OF_MONTH and the account's fixed-day list is null or empty |
| RepaymentDates.NullInputsGiveNoDate | src/demo/DemoTestLoanService.java:1628-1630 | a null account or a null product gives a null date |
| RepaymentDates.NoScheduleMethodGivesFourDays | src/demo/DemoTestLoanService.java:1631-1643 | a null or NONE schedule method gives the expected disbursement date (now when null) plus 4 days |
| RepaymentDates.IntervalWithoutPeriodGivesNoDate | src/demo/DemoTestLoanService.java:1653-1657 | INTERVAL with a null period count or unit gives a null date |
| RepaymentDates.IntervalWithoutOffsetsGivesFourDays | src/demo/DemoTestLoanService.java:1665-1667 | INTERVAL with neither offset gives the 4-day default, not the interval |
| RepaymentDates.IntervalAnchorsOnToday | src/demo/DemoTestLoanService.java:1669-1704 | INTERVAL counts from UTC midnight of today's date, with the min offset when present and the max offset otherwise; the disbursement date and the local-midnight flag do not matter |
| RepaymentDates.WeeksAreSevenDays | src/demo/DemoTestLoanService.java:1693-1695 | n weeks are 7·n days when 7·n fits an `int` |
| RepaymentDates.YearsAreTwelveMonths | src/demo/DemoTestLoanService.java:1690-1698 | n years are 12·n months |
| RepaymentDates.IntervalAddsOffsetPlusOneDays | src/demo/DemoTestLoanService.java:1700-1701 | after the period, 1 + offset days are added |
| RepaymentDates.IntervalMaxOffsetWraps | src/demo/DemoTestLoanService.java:1700-1701 | at offset Integer.MAX_VALUE, `1 + offset` wraps to Integer.MIN_VALUE: the date is 2^31 days before the end of the period, so earlier than it |
| RepaymentDates.LaterOffsetLaterDate | src/demo/DemoTestLoanService.java:1700-1701 | a larger offset gives a strictly later date |
| RepaymentDates.FixedDaysDelegates | src/demo/DemoTestLoanService.java:1646-1650 | FIXED_DAYS_OF_MONTH is `makeFixedDateFirstRepayment` of the account's fixed days with the caller's local-midnight flag |
| RepaymentDates.FixedDaysUsesLastElement | src/demo/DemoTestLoanService.java:1646-1650 | FIXED_DAYS_OF_MONTH uses the last listed day, not the largest, and ignores the disbursement date |
| RepaymentDates.FixedDayInNextMonth | src/demo/DemoTestLoanService.java:1716-1722 | a fixed day that exists in next month is UTC midnight of that day of next month |
| RepaymentDates.FixedDayInDecember | src/demo/DemoTestLoanService.java:1722 | in December the fixed day falls in January of the next year |
| RepaymentDates.FixedDaysLocalMidnightShift | src/demo/DemoTestLoanService.java:1727-1730 | with the local-midnight flag the UTC result moves back by the zone's offset at that instant |
| RepaymentDates.FixedDaysMissing | src/demo/DemoTestLoanService.java:1713-1731 | a null or empty list gives a null date without the flag, and throws with it |
| RepaymentDates.IntervalExample | src/demo/DemoTestLoanService.java:1669-1704 | today 2024-01-01, 1 MONTHS, min offset 5: the first repayment is 2024-02-07 UTC (day 19760) |
| RepaymentDates.FixedDaysExample | src/demo/DemoTestLoanService.java:1715-1723 | in March 2024, days [2, 18] give 18 April and [18, 2] give 2 April |
| RepaymentDates.MonthEndIsPinned | src/demo/DemoTestLoanService.java:1690-1701 | today 2023-01-31, 1 month, offset 0: 31 January plus a month is pinned to 28 February, plus one day is 1 March |
| DemoCollections.SpacingStart | src/demo/DemoTestLoanService.java:430-441 | the first tranche starts at the earlier of today and the first repayment date when no tranche is disbursed and that date is known, and at today otherwise |
| DemoCollections.TriangleStep | src/demo/DemoTestLoanService.java:434-443 | each turn of the loop adds i to the triangular count of five-day steps |
| DemoCollections.Respaced | src/demo/DemoTestLoanService.java:434-445 | the respaced list has the same length and changes only the k-th expected date, which becomes start + 5 days·k(k+1)/2 |
| DemoCollections.WithoutKeys | src/demo/DemoTestLoanService.java:455-459 | the list has the same length and changes only the encoded keys, which become null |
| DemoCollections.SpaceTrancheDates | src/demo/DemoTestLoanService.java:430-445 | the array afterwards is the old array respaced from today, or from the first repayment date when that is earlier, no tranche is disbursed and the date is known |
| DemoCollections.ClearTrancheKeys | src/demo/DemoTestLoanService.java:455-459 | the array afterwards is the old array with every encoded key null and nothing else changed |
| DemoCollections.UpdatingAccountTranches | src/demo/DemoTestLoanService.java:406-464 | a missing account throws at `theAccount.getId()`; nothing is sent without tranches or without non-disbursed tranches; otherwise the respaced non-disbursed tranches are sent, then the same list without keys |
| DemoCollections.SpacedDatesStep | src/demo/DemoTestLoanService.java:435 | tranche k+1 is (k+1)·5 days after tranche k |
| DemoCollections.SpacedDatesIncrease | src/demo/DemoTestLoanService.java:435 | respaced dates strictly increase along the list |
| DemoCollections.RespacedProperties | src/demo/DemoTestLoanService.java:430-445 | respacing keeps the count, keys, amounts, indices and flags; the dates strictly increase; the first is not after today, and not after the first repayment date when the clamp applies |
| DemoCollections.WithoutKeysHasNoKeys | src/demo/DemoTestLoanService.java:453-459 | afterwards no tranche has a key, and clearing again changes nothing |
| DemoCollections.FundCopy | src/demo/DemoTestLoanService.java:501-507 | of the modelled fields, a fund copy is the fund without its encoded key and without its guarantor type |
| DemoCollections.GuarantyCopy | src/demo/DemoTestLoanService.java:575-584 | of the modelled fields, a guarantee copy is the guarantee without its encoded key |
| DemoCollections.CopyFundsWithoutKeys | src/demo/DemoTestLoanService.java:496-509 | one copy per returned fund, in order |
| DemoCollections.CopyGuaranteesWithoutKeys | src/demo/DemoTestLoanService.java:570-586 | one copy per returned guarantee, in order |
| DemoCollections.FundCopyDropsKeyAndGuarantorType | src/demo/DemoTestLoanService.java:501-507 | a fund copy has neither key nor guarantor type and does not depend on what the server returned for them; copying a copy changes nothing |
| DemoCollections.GuarantyCopyDropsOnlyKey | src/demo/DemoTestLoanService.java:575-584 | a guarantee copy has no key and does not depend on the key the server returned; copying a copy changes nothing |
| DemoAccount.Coalesce | src/demo/DemoTestLoanService.java:1305-1307 | the result is null exactly when every option is, and otherwise it is the first non-null option |
| DemoAccount.Fallback3 | src/demo/DemoTestLoanService.java:1305-1307 | the builder's three-step chain: the default when set, else the minimum when set, else the maximum; null only when all three are |
| DemoAccount.Fallback3IsCoalesce | src/demo/DemoTestLoanService.java:1305-1307 | the step-by-step chain picks the first non-null of default, minimum and maximum |
| DemoAccount.LongString | src/demo/DemoTestLoanService.java:1290-1291 | the `long` creation instant's text: a minus sign exactly for a negative instant, then decimal digits that read back as its magnitude |
| DemoAccount.NaturalString | src/demo/DemoTestLoanService.java:1290-1291 | the decimal text of the creation instant is non-empty, all digits, and reads back as the number |
| DemoAccount.DemoPrincipalSettings | src/demo/DemoTestLoanService.java:1347-1382 | revolving-credit principal settings keep the product's method, floor and ceiling; an amount (first non-null of default, minimum, maximum, else 100) exactly for FLAT, a percentage (else 2) exactly for OUTSTANDING_PRINCIPAL_PERCENTAGE |
| DemoAccount.DemoGuarantees | src/demo/DemoTestLoanService.java:1467-1485 | a guarantor (the demo client, with its key and holder type) when guarantors are enabled, then an asset when collateral is enabled; each for the loan amount and without a key |
| DemoAccount.DemoAccountDraft | src/demo/DemoTestLoanService.java:1286-1530 | the account before its repayment date: the "API-" + instant id, no state, a loan amount, never both a rate and a spread, an expected disbursement date exactly when the loan is not tranched, one non-disbursed tranche for the loan amount today exactly for tranched loans, principal settings only for revolving credit, and the period or the fixed days only for their schedule method |
| DemoAccount.MakeLoanAccountForDemoProduct | src/demo/DemoTestLoanService.java:1278-1536 | the builder throws exactly when a revolving-credit product lacks principal settings or a principal method, or the product has no schedule-due-dates method |
| DemoAccount.LoanAmountFallback | src/demo/DemoTestLoanService.java:1302-1312 | the loan amount is the first non-null of default, minimum and maximum, else 3000 |
| DemoAccount.InterestFallback | src/demo/DemoTestLoanService.java:1318-1343 | interest is set unless the schedule method is NONE; it goes to the spread for an index rate and to the rate otherwise, never both; its value is the first non-null rate, else 6.5 |
| DemoAccount.InstallmentsFallback | src/demo/DemoTestLoanService.java:1426-1436 | installments fall back to 10 only outside revolving credit, where they can stay null |
| DemoAccount.PenaltyAndGraceHaveNoConstant | src/demo/DemoTestLoanService.java:1443-1466 | penalty rate and grace period are the first non-null of default, minimum and maximum, with no constant fallback; they are null for a NONE method or type |
| DemoAccount.ScheduleSettings | src/demo/DemoTestLoanService.java:1398-1442 | fixed days [2, 18] exactly for FIXED_DAYS_OF_MONTH; period count (default 30) and unit (default DAYS) exactly for INTERVAL; the principal repayment interval defaults to 1 |
| DemoAccount.ProductTypeShapes | src/demo/DemoTestLoanService.java:1345-1397 | revolving credit has principal settings (amount for FLAT, percentage otherwise) and no disbursement details; a tranched loan has one tranche of the whole amount due today with a null index and no expected date; other loans are expected in 3 days |
| DemoAccount.GuaranteesFollowProduct | src/demo/DemoTestLoanService.java:1466-1485 | at most a guarantor and then an asset, each for the loan amount and without a key |
| DemoAccount.IdHasTestPrefix | src/demo/DemoTestLoanService.java:1275-1291 | the account id is "API-" followed by the decimal digits of the creation instant |
| DemoAccount.FixedDaysProductRepaysOnThe18th | src/demo/DemoTestLoanService.java:1404-1409 | a fixed-days product (not revolving credit) gets UTC midnight of the 18th of next month as its first repayment date |
| DemoDisbursement.FirstTrancheRepaymentDate | src/demo/DemoTestLoanService.java:645-650 | a first repayment date strictly before the tranche date is pushed out by 5 days; a date on or after it is kept; null stays null |
| DemoDisbursement.DisbursementArguments | src/demo/DemoTestLoanService.java:594-662 | a missing account throws; only revolving credit passes an amount; only tranched loans pass no disbursement date and are the only ones skipped |
| DemoDisbursement.DisbursementArgumentsGuarded | src/demo/DemoTestLoanService.java:598-601 | with the evidently intended return, a missing account ends the test and the remaining failures come from the date computation or a tranche without a date |
| DemoDisbursement.MissingAccountThrows | src/demo/DemoTestLoanService.java:598-604 | as written, a missing account throws at `account.getId()`; the guarded version skips |
| DemoDisbursement.TermLoansNeedNoAmount | src/demo/DemoTestLoanService.java:613-619 | term loans and payment plans are disbursed today without an amount, with the computed first repayment date |
| DemoDisbursement.RevolvingCreditDisbursesLoanAmount | src/demo/DemoTestLoanService.java:653-661 | revolving credit passes the loan amount; the first repayment date is kept only for an APPROVED account |
| DemoDisbursement.TranchedLoanRules | src/demo/DemoTestLoanService.java:620-652 | tranched loans pass neither amount nor date; they are skipped without a non-disbursed tranche or when its date is after now; they throw when that date is null; a later tranche gets no first repayment date |
| DemoDisbursement.FirstTrancheKeepsOrPushesDate | src/demo/DemoTestLoanService.java:643-651 | the first tranche's disbursement passes the computed date, pushed out when it is before the tranche date |
| DemoDisbursement.RepaymentDateFailurePropagates | src/demo/DemoTestLoanService.java:607 | a throwing date computation makes the test throw for every product type |
| DemoCleanup.DeleteTestApiLoanAccounts | src/demo/DemoTestLoanService.java:1569-1610 | the loop over client accounts then group accounts deletes exactly the selected ids; it completes exactly when every account has an id |
| DemoCleanup.DeletedIdsSelection | src/demo/DemoTestLoanService.java:1584-1592 | with every id present, an id is deleted exactly when its account has the "API-" prefix and one of the five deletable states |
| DemoCleanup.ShouldDelete | src/demo/DemoTestLoanService.java:1587-1592 | an account with an id is deleted exactly when the id starts with "API-" and the state is one of the five named states; closed, withdrawn and other states are kept |
| DemoCleanup.DeletedIds | src/demo/DemoTestLoanService.java:1584-1592 | the ids deleted, in order, up to the first account without an id: at most one per account, each with the demo prefix |
| DemoCleanup.DeletionStopsAtMissingId | src/demo/DemoTestLoanService.java:1586-1587 | an account without an id stops the loop: nothing after it is deleted |
| DemoCleanup.BuiltAccountsAreCleanedUp | src/demo/DemoTestLoanService.java:1587-1592 | a demo-built account pending approval is deleted |
| LinesOfCredit.GetAllLinesOfCredit | src/com/mambu/apisdk/services/LinesOfCreditService.java:69-74 | never throws and returns the executor's result as is |
| LinesOfCredit.GetLineOfCredit | src/com/mambu/apisdk/services/LinesOfCreditService.java:85-96 | never throws and returns the line of credit inside the decoded object |
| LinesOfCredit.GetLinesOfCredit | src/com/mambu/apisdk/services/LinesOfCreditService.java:113-129 | throws exactly when the customer type is neither CLIENT nor GROUP |
| LinesOfCredit.GetClientLinesOfCredit | src/com/mambu/apisdk/services/LinesOfCreditService.java:143-149 | never throws |
| LinesOfCredit.GetGroupLinesOfCredit | src/com/mambu/apisdk/services/LinesOfCreditService.java:163-169 | never throws |
| LinesOfCredit.GetAccountsForLineOfCredit | src/com/mambu/apisdk/services/LinesOfCreditService.java:180-187 | never throws and returns the executor's result as is |
| LinesOfCredit.AddAccount | src/com/mambu/apisdk/services/LinesOfCreditService.java:198-231 | throws exactly when the account id is null |
| LinesOfCredit.AddLoanAccount | src/com/mambu/apisdk/services/LinesOfCreditService.java:198-209 | throws exactly when the loan account id is null |
| LinesOfCredit.AddSavingsAccount | src/com/mambu/apisdk/services/LinesOfCreditService.java:220-231 | throws exactly when the savings account id is null |
| LinesOfCredit.OwnedEntityType | src/com/mambu/apisdk/services/LinesOfCreditService.java:247-253 | LOAN is deleted as a LOAN_ACCOUNT and every other account type as a SAVINGS_ACCOUNT |
| LinesOfCredit.DeleteAccount | src/com/mambu/apisdk/services/LinesOfCreditService.java:244-256 | throws exactly when the account type or the account id is null |
| LinesOfCredit.DeleteLoanAccount | src/com/mambu/apisdk/services/LinesOfCreditService.java:267-271 | throws exactly when the account id is null |
| LinesOfCredit.DeleteSavingsAccount | src/com/mambu/apisdk/services/LinesOfCreditService.java:282-288 | throws exactly when the account id is null |
| LinesOfCredit.CallIdentifiesOperation | src/com/mambu/apisdk/services/LinesOfCreditService.java:69-288 | a successful method's executor call alone identifies the method and its arguments (the conveniences as their general form) |
| LinesOfCredit.RecognisedCallsArePerformed | src/com/mambu/apisdk/services/LinesOfCreditService.java:69-288 | every call read back as an operation is what that operation makes |
| LinesOfCredit.AllLinesPassesPagingThrough | src/com/mambu/apisdk/services/LinesOfCreditService.java:73 | one `getPaginatedList(LINE_OF_CREDIT, offset, limit)` call, with offset and limit unchanged, nulls included |
| LinesOfCredit.LineOfCreditIsUnwrapped | src/com/mambu/apisdk/services/LinesOfCreditService.java:91-95 | GET_ENTITY decoding `LineOfCreditExpanded` with the id, and the inner line of credit is returned |
| LinesOfCredit.LinesOfCreditOnlyForClientsAndGroups | src/com/mambu/apisdk/services/LinesOfCreditService.java:118-127 | a null type fails with "Customer type cannot be null"; CLIENT and GROUP call `getOwnedEntities(type, id, LINE_OF_CREDIT, offset, limit)`; any other type fails with the "only for Clients and Groups" message |
| LinesOfCredit.ConveniencesDelegate | src/com/mambu/apisdk/services/LinesOfCreditService.java:143-169 | the client and group methods are `getLinesOfCredit` with CLIENT and GROUP |
| LinesOfCredit.AddAccountPassesIdsThrough | src/com/mambu/apisdk/services/LinesOfCreditService.java:202-230 | POST_OWNED_ENTITY(LineOfCredit, LoanAccount or SavingsAccount) with (locId, accountId, null); a null line-of-credit id is not checked |
| LinesOfCredit.DeleteAccountMapping | src/com/mambu/apisdk/services/LinesOfCreditService.java:246-254 | LOAN maps to LOAN_ACCOUNT and the rest to SAVINGS_ACCOUNT, one to one; the call is `deleteOwnedEntity(LINE_OF_CREDIT, locId, owned, accountId)`; the failure message names the type and the id, null as "null" |
| LinesOfCredit.DeletionsDelegate | src/com/mambu/apisdk/services/LinesOfCreditService.java:267-287 | the loan and savings deletions are `deleteAccount` with LOAN and SAVINGS |
| LinesOfCredit.FailuresMakeNoCall | src/com/mambu/apisdk/services/LinesOfCreditService.java:118-248 | across all methods, exactly the null or unsupported arguments throw, before any executor call |
| Clients.PutAll | src/com/mambu/apisdk/services/ClientsService.java:270-280 | one `put` per key and value, in order |
| Clients.AddAll | src/com/mambu/apisdk/services/ClientsService.java:307-340 | one `addParam` per key and value, in order |
| Clients.GetClient | src/com/mambu/apisdk/services/ClientsService.java:69-79 | GET with no parameters; reads back as `getClient` of the id's text |
| Clients.GetClientByFullName | src/com/mambu/apisdk/services/ClientsService.java:89-105 | GET with `put` of last name then first name; reads back as `getClientByFullName` of the same arguments |
| Clients.GetClientByLastNameBirthday | src/com/mambu/apisdk/services/ClientsService.java:116-132 | GET with `put` of last name then birth date; reads back as that search of the same arguments |
| Clients.GetClientByLastNameDocId | src/com/mambu/apisdk/services/ClientsService.java:142-159 | GET with `put` of last name then document id; reads back as that search of the same arguments |
| Clients.GetClientDetails | src/com/mambu/apisdk/services/ClientsService.java:170-183 | GET with only the full-details flag; reads back as `getClientDetails` of the id's text |
| Clients.GetGroup | src/com/mambu/apisdk/services/ClientsService.java:195-204 | GET with no parameters; reads back as `getGroup` of the id's text |
| Clients.GetGroupDetails | src/com/mambu/apisdk/services/ClientsService.java:216-228 | GET with only the full-details flag; reads back as `getGroupDetails` of the id's text |
| Clients.CreateClient | src/com/mambu/apisdk/services/ClientsService.java:238-250 | POST with `put` of first name then last name; reads back as the short `createClient` of the same arguments |
| Clients.CreateClientFull | src/com/mambu/apisdk/services/ClientsService.java:266-286 | POST with `put` parameters only; reads back as the full `createClient` of the same eight arguments |
| Clients.GetClientsByBranchOfficerState | src/com/mambu/apisdk/services/ClientsService.java:301-319 | GET with `addParam` of branch, credit officer and the literal key "clientState", in that order; reads back as that search of the same arguments |
| Clients.GetGroupsByBranchOfficer | src/com/mambu/apisdk/services/ClientsService.java:334-350 | GET with `addParam` of branch then credit officer; reads back as that search of the same arguments |
| Clients.PutAllInverse | src/com/mambu/apisdk/services/ClientsService.java:270-280 | a `put` list is rebuilt from its keys and values, and they are read back from it unchanged |
| Clients.AddAllInverse | src/com/mambu/apisdk/services/ClientsService.java:307-340 | the same for `addParam` lists |
| Clients.RequestIdentifiesCall | src/com/mambu/apisdk/services/ClientsService.java:69-350 | each method's request reads back as that method with its arguments; a null id only as its text "null" |
| Clients.ReadBackRequestIsMade | src/com/mambu/apisdk/services/ClientsService.java:69-350 | a request that reads back as a method is exactly the request that method makes |
| Clients.OnlyCreatesPost | src/com/mambu/apisdk/services/ClientsService.java:246-282 | a request is POST exactly for the two create methods |
| Clients.SearchesDecodeLists | src/com/mambu/apisdk/services/ClientsService.java:89-350 | the answer is decoded as a list exactly for the five searches |
| Clients.DetailsAddOnlyTheFlag | src/com/mambu/apisdk/services/ClientsService.java:72-223 | `getClient` and `getGroup` send no parameters; the detail variants send the same path with exactly FULL_DETAILS = the string "true" |
| Clients.TrailingSlashes | src/com/mambu/apisdk/services/ClientsService.java:92-336 | the three name and document searches use `CLIENTS` without a slash; the creates and branch-officer searches use the collection with "/" |
| Clients.AddParamOnlyForBranchOfficer | src/com/mambu/apisdk/services/ClientsService.java:304-318 | `addParam` is used exactly by the branch-officer searches; the other methods that send parameters use `put` |
| Clients.CreateClientFullParams | src/com/mambu/apisdk/services/ClientsService.java:270-282 | the full `createClient` puts exactly its 8 arguments in order: first name, last name, home phone, mobile phone, gender, birth date, email, notes |

## Left out

- I/O is not modelled: HTTP, `MambuAPIService.createUrl`/`executeRequest`, `ServiceExecutor`, `ApiDefinition` and `ParamsMap` internals, and Gson decoding. Only the call or the request is described, and decoding is a tag.
- The `APIData` constant values are not part of this model. They are distinct opaque names.
- `put` and `addParam` are kept as two separate operations. Neither is assumed to drop nulls.
- All printing, logging and the demo's `main` loop are left out.
- The `DemoUtil` helpers enter only as parameters: `getAsMidnightUTC` is `todayMidnightUtc`, and the demo client's key and holder type are arguments.
- Transaction details, custom field values and predefined fees from `DemoUtil` are left out, and so is the `Math.random` fee choice.
- Money and `BigDecimal` arithmetic is left out. This covers the +50 updates before the copy loops, the balloon periodic payment (`amount × 0.5`) and the reschedule and refinance amounts. Values are opaque.
- The builder's account holder, loan name, product key and notes are left out. So is the funding-source block: its savings lookup is a service call, and its fund list is never set on the account.
- Service-side effects are left out: replacing tranches, funds and guarantees, undo-disburse and delete, and what those calls return.
- Neither the null lists the server could return nor the `result.getNonDisbursedTranches()` dereferences are modelled. Nor are null elements: a `seq` of accounts, tranches, funds or guarantees cannot hold one. In Java a null element would throw, for example at `account.getLoanName()` in the clean-up loop or at the first getter in the fund and guarantee copy loops.
- DemoCollections.UpdatingAccountTranches: the account's own tranche list is taken as null or a list; a null non-disbursed list from `getNonDisbursedTranches()` is read as empty.
- DemoCollections.SpaceTrancheDates: the Java loop updates tranche objects that the account's own tranche list also references. The model updates an array of tranche values, so that aliasing is not captured.
- `Calendar` is the proleptic Gregorian calendar. The switch to the Julian calendar before 1582-10-15 is not modelled, and neither is any overflow of `Calendar`'s internal fields.
- Java `long` arithmetic on instants does not overflow in the model. Only the `int` operations `count * 7` and `1 + offset` wrap.
- The real time-zone database and system clock are not modelled: the zone is the `Clock`'s offset function and today's date.
- RepaymentDates.MakeFixedDateFirstRepayment: a null element in the fixed-day list would be unboxed and throw; the list is modelled as `seq<int>`, so it cannot hold one.
- DemoDisbursement.DisbursementArguments: the product is taken as non-null and the product type as always set.
- DemoAccount.MakeLoanAccountForDemoProduct: the product type is taken as always set. The builder compares it with `==`, so in Java a null type takes the other-loan path (no principal settings, no tranches) without throwing; the model has no null type.
- DemoDisbursement.DisbursementArguments: the parameter formatting (`DateUtils.format`) and the custom-field test it then calls are left out.
- DemoCleanup.DeleteTestApiLoanAccounts: the client and group account lists are taken as non-null.
- DemoAccount.IdHasTestPrefix: it is stated only for instants at or after the epoch. It requires a non-negative `now`, where Java would write a minus sign.
- LinesOfCredit.GetLineOfCredit: a null result from the executor, which would make the unwrapping throw, is not modelled.
- Enum values are not all shown. Those the code does not name are `Other…` constructors: `AccountState`, `MambuEntityType`, the repayment-schedule, penalty and grace-period methods.
- `PrincipalPaymentMethod` has the two values the builder's switch names.
- `AccountType` (LOAN, SAVINGS) and `LoanProductType` (the five product types the disbursement switch names) are closed enums in the model. Their Java sources are not part of this model. With a further account type, `deleteAccount` would take its SAVINGS_ACCOUNT branch. With a further product type, the disbursement switch would fall through with no amount, today's date and the computed first repayment date; the model has no such value.
- DemoCollections.FundCopy and DemoCollections.GuarantyCopy: `InvestorFund` and `Guaranty` are modelled with only the fields the demo reads or writes, so "every other field is kept" is stated of those fields only.

## Findings

| source | as written | input that shows it | evidently intended | confidence | as-written member | corrected member |
|---|---|---|---|---|---|---|
| src/demo/DemoTestLoanService.java:598-604 | when there is no new account the test prints "There is no account to disburse" but does not return, and then calls `account.getId()` | `newAccount == null` | the test ends without disbursing, like its other early exits | high (not executed) | DemoDisbursement.MissingAccountThrows | DemoDisbursement.DisbursementArgumentsGuarded |
