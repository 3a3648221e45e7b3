# Asset ledger of ddd-kotlin, modelled in Dafny

This project models the securities-account asset domain of the `ddd-kotlin` sample application.

An account holds one **cash balance** per currency. The balance is kept as daily snapshot rows: the row for today is created, carrying the last known amount forward, the first time anyone asks for it.

Money moves through **cashflows**, which are signed amounts that reach the balance on their value day. A customer asks for a **cash withdrawal** (`CashInOut`). The request is accepted when the projected balance, truncated toward zero to a whole number, is not negative. The projection is:

- today's balance,
- plus every unrealized cashflow due by the request's value day,
- minus every pending withdrawal,
- minus the request itself.

A daily closing job turns today's requests into cashflows, or marks them ERROR. A realize job posts every due cashflow to its balance.

Supporting pieces:

- **Calculator:** a chained decimal calculator, with a scale, a rounding mode and optional rounding at every step.
- **Validation:** a validator that collects field and global warnings into a `ValidationException`.
- **Utilities:** business-day points in time, a clock, an id generator, the action-status enumeration, and the SQL `LIKE` pattern builder.

## How the model is organised

- **Decimals and time.**
  - `BigDecimal` is an exact `real`.
  - `setScale(s, mode)` rounds `v * 10^s` to an integer with the given `RoundingMode`, then scales it back (module `Decimals`).
  - Business days are integers.
- **State.** `Ledger.Repository` is a class whose `map` fields are the tables: accounts, financial-institution accounts, the company's own accounts, balances, cashflows and cash requests. It also holds the clock, the id generator, the acting user and the currency-digits table.
  - `save` inserts into a table and fails with `DuplicateKey` when the id already exists.
  - `update` replaces a row.
  - `load` fails with `error.Entity.notFound`, carrying the id (module `Orm`).
- **Object-style code.** Code that mutates objects in the source is a Dafny class, or a method with `modifies`:
  - the `Calculator` and the `WarnsBuilder`;
  - the `Validator` and the `IdGenerator`'s counter map;
  - the clock;
  - every repository operation.
- **Value code.** Code that only computes values is functions and lemmas. This covers status predicates, warnings, exceptions, query filters and the `LIKE` pattern.
- **Errors.** A Kotlin `throw ValidationException` is a `Failure(Invalid(e))` result that carries the exact warning list. A `Validator.validate { ... }` block is a sequence of `Guard`s run by `Validators.Validate`:
  - `verify*` guards stop at the first failure;
  - `check*` guards accumulate.
- **Queries.**
  - A query without ordering is a set of ids.
  - `ORDER BY id` is `Orm.SortedIds`, which orders ids lexicographically by character code.
  - `findOne` picks some matching row.
  - The admin jobs iterate in ascending id order (closing) or in any order (realize).

## Model

| member | source | states |
|---|---|---|
| `ActionStatus.IsFinish` | src/main/kotlin/sample/ActionStatusType.kt:11 | finished exactly when PROCESSED or CANCELLED |
| `ActionStatus.IsUnprocessing` | src/main/kotlin/sample/ActionStatusType.kt:13 | not yet started exactly when UNPROCESSED or ERROR |
| `ActionStatus.IsUnprocessed` | src/main/kotlin/sample/ActionStatusType.kt:15 | not finished exactly when UNPROCESSED, PROCESSING or ERROR |
| `ActionStatus.FinishPartition` | src/main/kotlin/sample/ActionStatusType.kt:17-21 | every status is either finished or unprocessed, never both |
| `ActionStatus.UnprocessingWithinUnprocessed` | src/main/kotlin/sample/ActionStatusType.kt:19-20 | an unprocessing status is also unprocessed |
| `ActionStatus.ProcessingOnlyUnprocessed` | src/main/kotlin/sample/ActionStatusType.kt:19-20 | PROCESSING is the only status that is unprocessed but not unprocessing |
| `TimePoints.TimePoint.EqualsDay` | src/main/kotlin/sample/util/TimePoint.kt:19 | true exactly when the day equals the target |
| `TimePoints.TimePoint.BeforeDay` | src/main/kotlin/sample/util/TimePoint.kt:22 | true exactly when the day is strictly before the target |
| `TimePoints.TimePoint.BeforeEqualsDay` | src/main/kotlin/sample/util/TimePoint.kt:25-26 | true exactly when the day is at most the target |
| `TimePoints.TimePoint.AfterDay` | src/main/kotlin/sample/util/TimePoint.kt:29 | true exactly when the day is strictly after the target |
| `TimePoints.TimePoint.AfterEqualsDay` | src/main/kotlin/sample/util/TimePoint.kt:32 | true exactly when the day is at least the target |
| `TimePoints.Of` | src/main/kotlin/sample/util/TimePoint.kt:35 | the point carries the given day |
| `TimePoints.Trichotomy` | src/main/kotlin/sample/util/TimePoint.kt:18-32 | exactly one of before, equal and after holds |
| `TimePoints.BeforeIsNotAfterEquals` | src/main/kotlin/sample/util/TimePoint.kt:22-32 | before the target exactly when not at-or-after it |
| `Timestamping.Timestamper.constructor` | src/main/kotlin/sample/context/Timestamper.kt:10 | the clock starts on the given business day |
| `Timestamping.Timestamper.Day` | src/main/kotlin/sample/context/Timestamper.kt:12 | returns the current business day |
| `Timestamping.Timestamper.Tp` | src/main/kotlin/sample/context/Timestamper.kt:16 | the point in time carries the current business day |
| `Timestamping.Timestamper.DaySet` | src/main/kotlin/sample/context/Timestamper.kt:18-21 | the business day becomes the given one |
| `Timestamping.Timestamper.DayPlus` | src/main/kotlin/sample/context/Timestamper.kt:25 | T+i is exactly i days after today |
| `Timestamping.ProcessDay` | src/main/kotlin/sample/usecase/admin/MasterAdminService.kt:20-25 | the daily job's `daySet(dayPlus(1))`, with those two operations of Timestamper.kt:18-25, advances the day by one |
| `Uid.Increment` | src/main/kotlin/sample/context/uid/IdGenerator.kt:31 | `incrementAndGet` on a 64-bit counter: +1, wrapping from Long.MAX to Long.MIN |
| `Uid.DecimalRoundTrip` | src/main/kotlin/sample/context/uid/IdGenerator.kt:26 | the decimal digits of a counter value read back to that value |
| `Uid.LongToStringRoundTrip` | src/main/kotlin/sample/context/uid/IdGenerator.kt:26 | the signed decimal text of a Long parses back to it |
| `Uid.FormatCashInOut` | src/main/kotlin/sample/context/uid/IdGenerator.kt:23-27 | a CashInOut id is "CIO" followed by at least one character |
| `Uid.CashInOutNumberRoundTrip` | src/main/kotlin/sample/context/uid/IdGenerator.kt:23-27 | the counter value is recovered from the "CIO" id |
| `Uid.FormatCashInOutInjective` | src/main/kotlin/sample/context/uid/IdGenerator.kt:23-27 | distinct counter values give distinct ids |
| `Uid.IdGenerator.constructor` | src/main/kotlin/sample/context/uid/IdGenerator.kt:15 | the generator starts with no counters |
| `Uid.IdGenerator.CounterOf` | src/main/kotlin/sample/context/uid/IdGenerator.kt:31 | an absent key counts as 0; every counter stays in Long range |
| `Uid.IdGenerator.NextValue` | src/main/kotlin/sample/context/uid/IdGenerator.kt:29-32 | returns the incremented counter and stores it, touching no other key |
| `Uid.IdGenerator.Generate` | src/main/kotlin/sample/context/uid/IdGenerator.kt:17-21 | "CashInOut" yields `CIO<next counter>` and bumps that counter; any other key yields an id not already taken and leaves the counters alone |
| `Uid.Unused` | src/main/kotlin/sample/context/uid/IdGenerator.kt:20 | the random token is an id outside the given set |
| `Uid.FirstCashInOutId` | src/main/kotlin/sample/context/uid/IdGenerator.kt:17-32 | a fresh generator's first CashInOut id is "CIO1" |
| `Uid.SuccessiveCashInOutIds` | src/main/kotlin/sample/context/uid/IdGenerator.kt:17-32 | two calls give counter+1 and counter+2, which differ |
| `Warnings.Warn.IsGlobal` | src/main/kotlin/sample/util/Warns.kt:109 | global exactly when the field has no non-whitespace text |
| `Warnings.OfGlobal` | src/main/kotlin/sample/util/Warns.kt:115-116 | a global warning with the message and arguments |
| `Warnings.OfField` | src/main/kotlin/sample/util/Warns.kt:121-122 | a warning on the field; it counts as global only when the field is blank |
| `Warnings.FirstIndex` | src/main/kotlin/sample/util/Warns.kt:14 | `firstOrNull`: the first index satisfying the predicate, or none when nothing does |
| `Warnings.Filter` | src/main/kotlin/sample/util/Warns.kt:17 | `filter` keeps exactly the elements satisfying the predicate |
| `Warnings.FilterAppend` | src/main/kotlin/sample/util/Warns.kt:17 | filtering distributes over concatenation |
| `Warnings.Warns.GlobalErrorOpt` | src/main/kotlin/sample/util/Warns.kt:14 | the first global warning, or none exactly when all warnings are field warnings |
| `Warnings.Warns.GlobalError` | src/main/kotlin/sample/util/Warns.kt:11 | the first global warning, falling back to a global `error.Exception` |
| `Warnings.Warns.FieldErrors` | src/main/kotlin/sample/util/Warns.kt:17 | exactly the non-global warnings |
| `Warnings.Warns.FieldError` | src/main/kotlin/sample/util/Warns.kt:20-21 | the first non-global warning on that field, or none when there is none |
| `Warnings.Warns.HasError` | src/main/kotlin/sample/util/Warns.kt:24 | true exactly when the list is non-empty |
| `Warnings.Warns.HasFieldError` | src/main/kotlin/sample/util/Warns.kt:27 | true exactly when some warning is not global |
| `Warnings.ConstraintWarn` | src/main/kotlin/sample/util/Warns.kt:69-70 | a bean-validation violation becomes a field warning on its property path |
| `Warnings.ConstraintWarns` | src/main/kotlin/sample/util/Warns.kt:85-88 | violations map one-to-one, in order, to field warnings |
| `Warnings.WarnsBuilder.constructor` | src/main/kotlin/sample/util/Warns.kt:36 | the builder starts empty |
| `Warnings.WarnsBuilder.Add` | src/main/kotlin/sample/util/Warns.kt:45-48 | appends one global warning |
| `Warnings.WarnsBuilder.AddWarn` | src/main/kotlin/sample/util/Warns.kt:51-54 | appends the given warning |
| `Warnings.WarnsBuilder.AddField` | src/main/kotlin/sample/util/Warns.kt:57-60 | appends one field warning |
| `Warnings.WarnsBuilder.AddConstraint` | src/main/kotlin/sample/util/Warns.kt:69-70 | appends the violation's field warning |
| `Warnings.WarnsBuilder.AddAll` | src/main/kotlin/sample/util/Warns.kt:73-76 | appends the list, in order |
| `Warnings.WarnsBuilder.AddAllWarns` | src/main/kotlin/sample/util/Warns.kt:79-82 | appends another `Warns`' list, in order |
| `Warnings.WarnsBuilder.AddAllConstraint` | src/main/kotlin/sample/util/Warns.kt:85-88 | appends one field warning per violation, in order |
| `Warnings.WarnsBuilder.Build` | src/main/kotlin/sample/util/Warns.kt:91 | the built `Warns` holds exactly the collected list |
| `Warnings.BuildIsSnapshot` | src/main/kotlin/sample/util/Warns.kt:91 | `toList` copies: adding after `build` leaves the built value unchanged |
| `Validation.ValidationException.Message` | src/main/kotlin/sample/context/ValidationException.kt:18-21 | the message is the first global warning's message, else `error.Exception` |
| `Validation.Of` | src/main/kotlin/sample/context/ValidationException.kt:24-25 | the exception holds exactly the one warning |
| `Validation.OfBuilder` | src/main/kotlin/sample/context/ValidationException.kt:29 | the exception holds exactly the builder's warnings |
| `Validation.OfConstraints` | src/main/kotlin/sample/context/ValidationException.kt:31-37 | one field warning per violation, in order |
| `Validation.OfMessage` | src/main/kotlin/sample/context/ValidationException.kt:39-46 | one global warning; the exception's message is that message; no field errors |
| `Validation.OfField` | src/main/kotlin/sample/context/ValidationException.kt:48-60 | one warning on the field, found by `fieldError(field)` when the field has text; for a blank field it is global and becomes the message |
| `Validators.Validator.constructor` | src/main/kotlin/sample/util/Validator.kt:7-8 | a validator starts with an empty builder |
| `Validators.Validator.Check` | src/main/kotlin/sample/util/Validator.kt:11-16 | appends a global warning exactly when the condition is false |
| `Validators.Validator.CheckField` | src/main/kotlin/sample/util/Validator.kt:19-24 | appends a field warning exactly when the condition is false |
| `Validators.Validator.HasWarn` | src/main/kotlin/sample/util/Validator.kt:40 | true exactly when some warning was collected |
| `Validators.Validator.Verify` | src/main/kotlin/sample/util/Validator.kt:33-38 | throws exactly when warnings exist, with all collected warnings |
| `Validators.Validator.VerifyGlobal` | src/main/kotlin/sample/util/Validator.kt:27 | check, then throw all collected warnings if there are any |
| `Validators.Validator.VerifyField` | src/main/kotlin/sample/util/Validator.kt:30-31 | field check, then throw all collected warnings if there are any |
| `Validators.GuardWarn` | src/main/kotlin/sample/util/Validator.kt:11-24 | a failed guard's warning carries its message; a guard without a field gives a global warning |
| `Validators.Validate` | src/main/kotlin/sample/util/Validator.kt:42-48 | running a `validate` block step by step on a `Validator` gives exactly the outcome `Validated` specifies |
| `Validators.RunGuardsFails` | src/main/kotlin/sample/util/Validator.kt:33-46 | a block fails exactly when a warning was already collected or some guard is false |
| `Validators.ValidatedFailsIffSomeGuardFails` | src/main/kotlin/sample/util/Validator.kt:42-48 | a block throws exactly when one of its conditions is false |
| `Validators.FirstFailingVerifyDecides` | src/main/kotlin/sample/util/Validator.kt:27-38 | in a block of `verify` calls, the first false condition alone is reported |
| `Validators.VerifyOneDecides` | src/main/kotlin/sample/util/Validator.kt:27-38 | a single-`verify` block passes when the condition holds, else throws that single warning |
| `Validators.VerifyPairDecides` | src/main/kotlin/sample/util/Validator.kt:27-38 | in a two-`verify` block, the first false condition decides the thrown warning |
| `Validators.ChecksAccumulate` | src/main/kotlin/sample/util/Validator.kt:11-24 | a block of `check` calls reports every false condition, in order |
| `Decimals.RoundToInt` | src/main/kotlin/sample/util/Calculator.kt:137 | rounding to an integer: exact on integers, within one unit, and in the direction each `RoundingMode` prescribes; the three half modes' tie rules are `Decimals.HalfTies` |
| `Decimals.HalfTies` | src/main/kotlin/sample/util/Calculator.kt:137 | on a tie HALF_UP rounds away from zero, HALF_DOWN toward zero, HALF_EVEN to the even neighbour |
| `Decimals.SetScaleHasScale` | src/main/kotlin/sample/util/Calculator.kt:137 | `setScale(s, m)` leaves at most s fraction digits |
| `Decimals.SetScaleExact` | src/main/kotlin/sample/util/Calculator.kt:137 | `setScale` does not change a value that already fits the scale |
| `Decimals.SetScaleError` | src/main/kotlin/sample/util/Calculator.kt:137 | `setScale` moves the value by less than one unit in the last place |
| `Decimals.SetScaleIdempotent` | src/main/kotlin/sample/util/Calculator.kt:77-78 | rounding twice to the same scale is rounding once, whatever the second mode |
| `Decimals.RoundMonotone` | src/main/kotlin/sample/util/Calculator.kt:137 | rounding preserves order |
| `Decimals.SetScaleDownTowardZero` | src/main/kotlin/sample/util/Calculator.kt:16 | DOWN never increases the magnitude and keeps the sign |
| `Decimals.DownAtScaleZeroNonNegative` | src/main/kotlin/sample/model/asset/Asset.kt:28 | at scale 0 with DOWN the result is non-negative exactly when the value is above -1 |
| `Calculators.Int32` | src/main/kotlin/sample/util/Calculator.kt:129 | `toInt` keeps the low 32 bits: the result is in Int range, congruent mod 2^32, and exact when the value fits |
| `Calculators.Int64` | src/main/kotlin/sample/util/Calculator.kt:132 | `toLong` keeps the low 64 bits: the result is in Long range, congruent mod 2^64, and exact when the value fits |
| `Calculators.Calculator.Init` | src/main/kotlin/sample/util/Calculator.kt:12-23 | a new calculator holds the value with scale 0, DOWN, no rounding at every step |
| `Calculators.Calculator.InitZero` | src/main/kotlin/sample/util/Calculator.kt:141 | `init()` starts from zero with the same defaults |
| `Calculators.Calculator.Scale` | src/main/kotlin/sample/util/Calculator.kt:40 | sets the scale, with mode DOWN |
| `Calculators.Calculator.ScaleWith` | src/main/kotlin/sample/util/Calculator.kt:47-51 | sets the scale and the mode, nothing else |
| `Calculators.Calculator.RoundingAlways` | src/main/kotlin/sample/util/Calculator.kt:58-61 | sets the flag, nothing else |
| `Calculators.Calculator.Rounding` | src/main/kotlin/sample/util/Calculator.kt:77-78 | the identity without the flag; with it, a value at the scale that is exact when the input already fits |
| `Calculators.Calculator.Add` | src/main/kotlin/sample/util/Calculator.kt:72-75 | the value becomes the rounding of value + v; the settings are kept |
| `Calculators.Calculator.Subtract` | src/main/kotlin/sample/util/Calculator.kt:89-92 | the value becomes the rounding of value - v |
| `Calculators.Calculator.Multiply` | src/main/kotlin/sample/util/Calculator.kt:103-106 | the value becomes the rounding of value * v |
| `Calculators.Calculator.DivideBy` | src/main/kotlin/sample/util/Calculator.kt:117-126 | the value becomes the quotient set to the configured scale with the flag, or to scale 18 without it |
| `Calculators.Calculator.Decimal` | src/main/kotlin/sample/util/Calculator.kt:135-138 | the read-out has the configured scale, lies within one unit of the value, and is the value when it fits |
| `Calculators.Calculator.IntValue` | src/main/kotlin/sample/util/Calculator.kt:129 | an Int, equal to the truncated read-out whenever that fits |
| `Calculators.Calculator.LongValue` | src/main/kotlin/sample/util/Calculator.kt:132 | a Long, equal to the truncated read-out whenever that fits |
| `Calculators.IntegerChain` | src/test/kotlin/sample/util/CalculatorTest.kt:12-16 | (10 + 2 - 4) * 4 / 8 reads out as 4 |
| `Calculators.WholeAtEighteenDigits` | src/main/kotlin/sample/util/Calculator.kt:117-126 | 32 / 8 at 18 digits is exactly 4 |
| `Calculators.FractionalChain` | src/test/kotlin/sample/util/CalculatorTest.kt:18-23 | (12.4 + 0.033 - 2.33) * 0.3 / 3.3 at scale 2 DOWN reads out as 0.91 |
| `Calculators.QuotientAtEighteenDigits` | src/main/kotlin/sample/util/Calculator.kt:117-126 | 3.0309 / 3.3 truncated at 18 digits |
| `Calculators.QuotientAtTwoDigits` | src/main/kotlin/sample/util/Calculator.kt:135-138 | that quotient reads out as 0.91 at scale 2 |
| `Calculators.RoundingAtTheEnd` | src/test/kotlin/sample/util/CalculatorTest.kt:28-33 | 3.333 + 0.001 + 0.001 at scale 2 HALF_UP reads 3.34 |
| `Calculators.RoundingEveryStep` | src/test/kotlin/sample/util/CalculatorTest.kt:35-40 | the same chain with rounding at every step reads 3.33 |
| `MatchModes.Parse` | src/main/kotlin/sample/context/orm/MatchMode.kt:8-13 | ANYWHERE wraps the pattern in `%`, END appends `%`, START prepends `%`; the pattern is kept verbatim |
| `MatchModes.ParseContainsPattern` | src/main/kotlin/sample/context/orm/MatchMode.kt:8-13 | the parsed pattern contains the original |
| `MatchModes.LikeLiteral` | src/main/kotlin/sample/context/orm/MatchMode.kt:8-13 | a pattern without wildcards matches only itself |
| `MatchModes.LikeLeadingPercent` | src/main/kotlin/sample/context/orm/MatchMode.kt:12 | a leading `%` matches any prefix |
| `MatchModes.LikeTrailingPercent` | src/main/kotlin/sample/context/orm/MatchMode.kt:11 | a trailing `%` matches exactly the strings starting with the literal |
| `MatchModes.AnyMatchesPercent` | src/main/kotlin/sample/context/orm/MatchMode.kt:10-12 | `%` matches every string |
| `MatchModes.EndMatchesPrefix` | src/main/kotlin/sample/context/orm/MatchMode.kt:11 | an END pattern selects exactly the strings starting with it |
| `MatchModes.StartMatchesSuffix` | src/main/kotlin/sample/context/orm/MatchMode.kt:12 | a START pattern selects exactly the strings ending with it |
| `MatchModes.AnywhereMatchesInfix` | src/main/kotlin/sample/context/orm/MatchMode.kt:10 | an ANYWHERE pattern selects exactly the strings containing it |
| `Orm.NotFound` | src/main/kotlin/sample/context/orm/OrmRepository.kt:40-44 | the not-found failure is a global `error.Entity.notFound` with the id as argument |
| `Orm.Get` | src/main/kotlin/sample/context/orm/OrmRepository.kt:37-38 | finds the row exactly when the id is present |
| `Orm.Load` | src/main/kotlin/sample/context/orm/OrmRepository.kt:40-44 | returns the stored row, or fails with not-found exactly when the id is absent |
| `Orm.Insert` | src/main/kotlin/sample/context/orm/OrmRepository.kt:54 | adds exactly the new row and keeps the others; refuses an id already present |
| `Orm.LessIrreflexive` | src/main/kotlin/sample/model/asset/CashInOut.kt:207 | no id sorts before itself |
| `Orm.LessTransitive` | src/main/kotlin/sample/model/asset/CashInOut.kt:207 | the id order is transitive |
| `Orm.LessTotal` | src/main/kotlin/sample/model/asset/CashInOut.kt:207 | any two distinct ids are ordered |
| `Orm.LeastExists` | src/main/kotlin/sample/model/asset/CashInOut.kt:207 | a non-empty id set has a least element |
| `Orm.LeastOfAdded` | src/main/kotlin/sample/model/asset/CashInOut.kt:207 | adding one id to a set keeps the lesser of the old least id and the new one as the least |
| `Orm.AscendingDistinct` | src/main/kotlin/sample/model/asset/CashInOut.kt:207 | an id list in ascending order repeats no id |
| `Orm.SortedIds` | src/main/kotlin/sample/model/asset/CashInOut.kt:207 | `ORDER BY id ASC`: strictly ascending, exactly the given ids |
| `Routing.NoMatch` | src/main/kotlin/sample/context/orm/OrmTemplate.kt:111-114 | a failed condition lookup is a global `error.Entity.notFound` |
| `Routing.LoadFiAccount` | src/main/kotlin/sample/model/account/FiAccount.kt:29-39 | found exactly when some row matches account, category and currency; the result is such a row |
| `Routing.LoadSelfFiAccount` | src/main/kotlin/sample/model/master/SelfFiAccount.kt:28-31 | found exactly when some row matches category and currency; the result is such a row |
| `Accounts.Load` | src/main/kotlin/sample/model/account/Account.kt:25-27 | the stored account, or not-found exactly when absent |
| `Accounts.LoadActive` | src/main/kotlin/sample/model/account/Account.kt:29-35 | succeeds exactly for a stored NORMAL account; a WITHDRAWAL account gives `error.Account.loadActive`; an absent one gives not-found |
| `Accounts.Inactive` | src/main/kotlin/sample/model/account/Account.kt:42-44 | inactive exactly when the status is not NORMAL, that is, WITHDRAWAL |
| `CashBalances.AddedFits` | src/main/kotlin/sample/model/asset/CashBalance.kt:39-41 | the new amount has the currency's digits and is the exact sum whenever the sum already fits |
| `CashBalances.AddedTowardZero` | src/main/kotlin/sample/model/asset/CashBalance.kt:40-41 | round-down never overstates the sum and keeps its sign |
| `CashBalances.AddedWithinUnit` | src/main/kotlin/sample/model/asset/CashBalance.kt:40-41 | the stored amount is within one currency unit of the sum |
| `CashBalances.Add` | src/main/kotlin/sample/model/asset/CashBalance.kt:38-43 | returns the row with the truncated new amount and replaces that same row id, changing nothing else |
| `CashBalances.History` | src/main/kotlin/sample/model/asset/CashBalance.kt:78-83 | the stored rows of the account and currency, of every base day |
| `CashBalances.OfDay` | src/main/kotlin/sample/model/asset/CashBalance.kt:54-61 | the stored rows of the account and currency whose base day is the given day; a part of `History` |
| `CashBalances.LatestExists` | src/main/kotlin/sample/model/asset/CashBalance.kt:73-100 | a non-empty history has a row with the latest base day |
| `CashBalances.Create` | src/main/kotlin/sample/model/asset/CashBalance.kt:70-112 | inserts one new row for today under a fresh id, carrying the latest row's amount forward (zero without history) |
| `CashBalances.GetOrNew` | src/main/kotlin/sample/model/asset/CashBalance.kt:51-68 | returns today's row when one exists, changing nothing; otherwise the carried-forward row it created |
| `CashBalances.GetOrNewTwice` | src/main/kotlin/sample/model/asset/CashBalance.kt:52-67 | asking twice yields the same row and creates at most one |
| `CashBalances.AddScenario` | src/test/kotlin/sample/model/asset/CashBalanceTest.kt:34-50 | 10.02 + 11.51 = 21.53, + 11.516 = 33.04, - 41.51 = -8.47 for a two-digit currency such as USD |
| `Cashflows.Realize` | src/test/kotlin/sample/model/asset/CashflowTest.kt:66-131 | succeeds exactly for an UNPROCESSED entry whose value day has come; status error first, then `error.Cashflow.realizeDay`; on success the entry becomes PROCESSED and its amount is posted to today's balance |
| `Cashflows.Error` | src/main/kotlin/sample/usecase/admin/AssetAdminService.kt:71 | marks an unprocessed entry ERROR; otherwise the status error, with nothing changed |
| `Cashflows.Register` | src/test/kotlin/sample/model/asset/CashflowTest.kt:36-63 | refuses a past value day on field `valueDay`; otherwise stores a new entry and realizes it at once when due |
| `Cashflows.Save` | src/test/kotlin/sample/model/asset/CashflowTest.kt:53-61 | stores a new UNPROCESSED entry under an unused id, dated today unless an event day is given, and changes nothing else |
| `Cashflows.SaveRealized` | src/test/kotlin/sample/model/asset/CashflowTest.kt:134-144 | an entry due today is stored PROCESSED and its amount is posted to today's balance row |
| `Cashflows.FindUnrealize` | src/main/kotlin/sample/model/asset/Asset.kt:21 | the stored UNPROCESSED entries of the account and currency with value day ≤ the target day |
| `Cashflows.FindDoRealize` | src/main/kotlin/sample/usecase/admin/AssetAdminService.kt:64 | the stored UNPROCESSED entries with value day ≤ the given day |
| `Cashflows.DueAreUnrealized` | src/main/kotlin/sample/model/asset/Asset.kt:21 | the realize job's entries for one account and currency are exactly the ones the projection counts |
| `Cashflows.UnrealizeGrows` | src/main/kotlin/sample/model/asset/Asset.kt:21 | a later value day counts every entry an earlier one does |
| `CashInOuts.RegCf` | src/main/kotlin/sample/model/asset/CashInOut.kt:76-89 | a withdrawal becomes a negative `cashOut` cashflow, a deposit a positive `cashIn`, on the same days |
| `CashInOuts.RegCfSign` | src/main/kotlin/sample/model/asset/CashInOut.kt:77-78 | the sign, the type and the absolute amount agree |
| `CashInOuts.Process` | src/main/kotlin/sample/model/asset/CashInOut.kt:59-74 | succeeds exactly when unprocessed with event day ≤ today ≤ value day; each refusal gives its own error; on success the request is PROCESSED and linked to the new cashflow, whose amount is posted to today's balance row when the value day is today, the balances being untouched otherwise |
| `CashInOuts.Cancel` | src/main/kotlin/sample/model/asset/CashInOut.kt:92-106 | succeeds exactly when unprocessing and today is before the event day, giving CANCELLED; otherwise the matching error |
| `CashInOuts.Error` | src/main/kotlin/sample/model/asset/CashInOut.kt:109-121 | marks an unprocessed request ERROR; otherwise the status error |
| `CashInOuts.Find` | src/main/kotlin/sample/model/asset/CashInOut.kt:181-204 | the stored requests of the currency (when one is given), with a status in the set (when it is not empty), and with event day within the given bounds |
| `CashInOuts.IsUpdFromDay` | src/main/kotlin/sample/model/asset/CashInOut.kt:130-138 | true exactly when a bound is missing or the from-day is not after the to-day |
| `CashInOuts.UpdFromDayGuardsFind` | src/main/kotlin/sample/model/asset/CashInOut.kt:130-138 | `isUpdFromDay` holds exactly when the range is open or ordered; a reversed range finds nothing |
| `CashInOuts.FindUnfiltered` | src/main/kotlin/sample/model/asset/CashInOut.kt:181-204 | with no condition, every request is found |
| `CashInOuts.FindByEventDay` | src/main/kotlin/sample/model/asset/CashInOut.kt:181-204 | a date-only search finds exactly the requests whose event day lies in the range |
| `CashInOuts.UnprocessedToday` | src/main/kotlin/sample/model/asset/CashInOut.kt:206-219 | the stored requests whose event day is the given day and whose status is UNPROCESSED, PROCESSING or ERROR |
| `CashInOuts.UnprocessedOf` | src/main/kotlin/sample/model/asset/CashInOut.kt:221-243 | the stored requests of the account, currency and direction whose status is UNPROCESSED, PROCESSING or ERROR |
| `CashInOuts.UnprocessedFor` | src/main/kotlin/sample/model/asset/CashInOut.kt:245-258 | the stored requests of the account whose status is UNPROCESSED, PROCESSING or ERROR |
| `CashInOuts.UnprocessedSplits` | src/main/kotlin/sample/model/asset/CashInOut.kt:221-258 | the withdrawal and deposit selections are disjoint and both lie within the account's selection |
| `CashInOuts.Create` | src/main/kotlin/sample/model/asset/CashInOut.kt:147-174 | an UNPROCESSED withdrawal requested today for the given amount and days, with the two routing accounts' codes, the actor and no cashflow |
| `CashInOuts.FindUnprocessedToday` | src/main/kotlin/sample/model/asset/CashInOut.kt:206-219 | exactly today's unprocessed requests, ascending by id |
| `CashInOuts.FindUnprocessedOf` | src/main/kotlin/sample/model/asset/CashInOut.kt:221-243 | exactly the account's unprocessed requests of that kind, ascending by id |
| `CashInOuts.CreatedIsPending` | src/main/kotlin/sample/model/asset/CashInOut.kt:147-175 | a saved new withdrawal is counted by the next projection as a pending withdrawal |
| `Assets.SumOfRemove` | src/main/kotlin/sample/model/asset/Asset.kt:21-26 | peeling one id off a set sum leaves the rest's sum |
| `Assets.AddAll` | src/main/kotlin/sample/model/asset/Asset.kt:21-23 | the calculator's value grows by the sum of the given cashflow amounts, with no rounding on the way |
| `Assets.SubtractAll` | src/main/kotlin/sample/model/asset/Asset.kt:24-26 | the calculator's value shrinks by the sum of the given requests' amounts, with no rounding on the way |
| `Assets.CanWithdraw` | src/main/kotlin/sample/model/asset/Asset.kt:14-29 | today's row, plus unrealized cashflows, minus pending withdrawals, minus the request, read out at scale 0 DOWN: true exactly when that is non-negative |
| `Assets.WithdrawMonotone` | src/main/kotlin/sample/model/asset/Asset.kt:27-28 | a smaller request is allowed whenever a larger one is |
| `Assets.WholeAmountsTestSign` | src/main/kotlin/sample/model/asset/Asset.kt:28 | on whole amounts the check is exactly "projection ≥ 0" |
| `Assets.AssetScenario` | src/test/kotlin/sample/model/asset/AssetTest.kt:35-50 | balance 10000, cashflows +1000/-2000, pending 8000: 1000 is allowed and 1001 refused |
| `Assets.PendingWithdrawalScenario` | src/test/kotlin/sample/model/asset/CashInOutTest.kt:138-182 | with 300 pending on 1000: 700 allowed, 701 refused, and 700.5 allowed because the scale-0 read-out truncates -0.5 to 0 |
| `Withdrawals.Save` | src/main/kotlin/sample/model/asset/CashInOut.kt:280-284 | succeeds exactly when both routing accounts exist and the id is new; stores the created request |
| `Withdrawals.Withdraw` | src/main/kotlin/sample/model/asset/CashInOut.kt:260-285 | actor mismatch, non-positive amount, or an insufficient projection each fail with their field error, in that order; otherwise `CIO<n>` is stored UNPROCESSED for T to T+3 |
| `AssetAdmin.CloseOne` | src/main/kotlin/sample/usecase/admin/AssetAdminService.kt:40-52 | a request whose value day has not passed ends PROCESSED and adds exactly its `regCf` cashflow under a new id, posted to today's balance row when the value day is today; one whose value day has passed ends ERROR with cashflows and balances untouched; accounts, routing rows and counters never change |
| `AssetAdmin.ClosedStep` | src/main/kotlin/sample/usecase/admin/AssetAdminService.kt:39-53 | closing one more request keeps every request closed so far closed, with its cashflow stored |
| `AssetAdmin.ClosingCashOut` | src/main/kotlin/sample/usecase/admin/AssetAdminService.kt:35-54 | visits today's unprocessed requests in id order; each ends PROCESSED or ERROR; each processed one owns a new cashflow holding its `regCf`, every new cashflow belongs to a visited request, stored cashflows are kept, the balances take the same-day requests in visiting order, and other requests, accounts, routing rows and counters are untouched |
| `AssetAdmin.CloseAll` | src/main/kotlin/sample/usecase/admin/AssetAdminService.kt:39-53 | the forEach loop: after the visits, every listed request is closed and the cashflows and balances are as closing leaves them |
| `AssetAdmin.CashflowsStep` | src/main/kotlin/sample/usecase/admin/AssetAdminService.kt:42 | processing one more request adds its own cashflow only, and keeps every cashflow and ownership already there |
| `AssetAdmin.ClosingPostedStep` | src/main/kotlin/sample/usecase/admin/AssetAdminService.kt:42 | closing one more request posts its amount when its value day is today and changes no balance otherwise |
| `AssetAdmin.ClosingStep` | src/main/kotlin/sample/usecase/admin/AssetAdminService.kt:39-53 | one more visit carries the closed requests, the cashflows and the balances of closing from the first i requests to the first i+1 |
| `AssetAdmin.ClosingDone` | src/main/kotlin/sample/usecase/admin/AssetAdminService.kt:35-54 | the state after the last visit is exactly what the closing job promises, request by request |
| `AssetAdmin.ClosingKeepsOthers` | src/main/kotlin/sample/usecase/admin/AssetAdminService.kt:39-53 | the closing job leaves the balance rows of every account and currency without a same-day visited request as they were |
| `AssetAdmin.RealizeCashflow` | src/main/kotlin/sample/usecase/admin/AssetAdminService.kt:61-78 | every cashflow due today becomes PROCESSED and its amount is posted to its balance row of today, one visited entry after another; other cashflows and all requests are untouched |
| `AssetAdmin.RealizeOne` | src/main/kotlin/sample/usecase/admin/AssetAdminService.kt:66-75 | a due UNPROCESSED entry ends PROCESSED with its amount posted to today's balance row; another unprocessed one ends ERROR; any other is left as it was; balances change only when the entry is posted |
| `AssetAdmin.RealizedStep` | src/main/kotlin/sample/usecase/admin/AssetAdminService.kt:64-77 | realizing one more due entry adds exactly that entry to the realized part, and to the visit list, once |
| `AssetAdmin.RealizeAll` | src/main/kotlin/sample/usecase/admin/AssetAdminService.kt:64-77 | visits each due entry once; all of them end PROCESSED by the actor, each amount posted in visiting order, and every other entry is unchanged |
| `AssetAdmin.PostedAlongStep` | src/main/kotlin/sample/usecase/admin/AssetAdminService.kt:64-67 | posting one more visited entry extends the posted sequence by that entry |
| `AssetAdmin.PostedKeepsOthers` | src/main/kotlin/sample/usecase/admin/AssetAdminService.kt:67 | realizing one entry touches no balance row of another account or currency |
| `AssetAdmin.PostedAlongKeepsOthers` | src/main/kotlin/sample/usecase/admin/AssetAdminService.kt:64-77 | the realize job leaves the balance rows of every account and currency without a visited entry as they were |

## Left out

- Cashflow.kt is not part of this model. `Cashflows` states what the rest of the core depends on:
  - what `register`, `realize` and `error` do, as CashflowTest.kt and the callers show;
  - `realize` checks the status first, then the value day;
  - `realize` accepts only UNPROCESSED;
  - `error` accepts the three unprocessed statuses.
- Locks (`IdLockHandler`), transactions, rollback, auditing and logging are left out.
- `Withdrawals.Withdraw` on a refused request keeps the balance row for today that `getOrNew` inserted. In the source, the surrounding transaction rolls that row back.
- Wall-clock time is left out: `TimePoint.date`, `updateDate`, `requestDate` and `LocalDateTime.now()`. Only business days are modelled.
- `Uid.Unused`: the random UUID is modelled as any id that is not already taken in the target table. Collisions and the hex format are not modelled.
- `findOne` with several matching rows, and `maxByOrNull` over same-day balances: the model picks some matching row. It does not model any particular database order.
- `ORDER BY updateDate DESC` is not modelled, neither in `find` (`CashInOuts.Find`) nor in the per-account unprocessed query (`CashInOuts.UnprocessedFor`). Both are sets.
- The realize job's visiting order is not modelled. Its loop visits the due set in whatever order the choice takes.
- The `Number` overloads of `Calculator` are left out, including the parse fallback that substitutes zero. The decimal overloads are modelled.
- `RoundingMode.UNNECESSARY` is left out. It throws in the source.
- `Calculators.Calculator.DivideBy` requires a divisor other than zero. The source throws `ArithmeticException` there, and no caller divides.
- `java.util.Currency.getInstance(currency).defaultFractionDigits` is the repository parameter `fractionDigits`. An unknown currency code, which throws in the source, is not modelled.
- `Assets.CanWithdraw`: `calc.decimal()` reads out at scale 0 DOWN, so a projection in (-1, 0) passes. `Assets.PendingWithdrawalScenario` shows such a case. On whole amounts this is the same as projection ≥ 0, as `Assets.WholeAmountsTestSign` shows.
- `CashBalances.Add`: `add` keeps the row's `baseDay`. Only the amount changes.
- A duplicate CashInOut id is `Orm.Failure.DuplicateKey`. The counter-based id can clash with a stored one, and the source's `insert` then throws a database error.
- `update` is modelled only for rows that are already stored. Every caller loads the row first.
- `MatchMode.START` yields `%pattern` and `END` yields `pattern%`, the reverse of their names. The model keeps the code's mapping.
- Bean-validation annotations on DTOs are left out: `@AccountId`, `@Currency`, `@AbsAmount` and the date formats. The one derived check, `isUpdFromDay`, is modelled.
- Controllers, mail, report export, security, `MessageAccessor` and the Spring wiring are not part of this model.
