# SassaAlert payday estimator and subscriber store, in Dafny

This project models the two pieces of logic in the SassaAlert signup site, a
front end for SMS payday alerts about South African social grants:

- **The payday estimator** (`getNextPayDates`). From today's day of month,
  month index and year it gives four estimated paydays. They are for the Old
  Age, Disability, Child Support and SRD grants, on days 2, 3, 4 and 25 of one
  target month. Up to the 5th, the target is the current month. After the 5th
  it is the next month, and the year moves on only when that month is taken
  from December. The month name comes from a JavaScript `Date` built with month
  index 12 in that case, which the Date turns into January.
- **The subscriber store** (`saveUser`, `getUserCount`). Signups are kept as
  one list in a single browser-storage slot. A save reads the whole list (an
  absent slot reads as empty), pushes the new record and writes the whole list
  back. The displayed count is the list's length plus 15420.

Modules (one per core source file, plus two helpers):

| file | module | source |
|---|---|---|
| `wrappers.dfy` | `Wrappers` | the `Option` datatype |
| `types.dfy` | `Types` | `types.ts`: grant enumeration, subscription and payday records |
| `text.dfy` | `Text` | how a template literal prints an integer, with parsers that invert it |
| `constants.dfy` | `Constants` | `sassaalert/constants.ts`: the payday estimator |
| `mock_database.dfy` | `MockDatabase` | `services/mockDatabase.ts`: the subscriber store |

The estimator is a pure function over integers. `Constants.ParseDisplayDate`
reads a display date `<month> <day>, <year>` back into its parts. The lemmas
use it to state what each date string denotes. `Constants.NextCalendarMonth` is
an independent definition of "the following calendar month" to compare against.

The store is a class `UserStore` whose field `slot` is the storage slot
(`None` when nothing is stored). `SaveUser` changes it in place.
`GetUserCount` only reads it. `DisplayedCount` (length plus offset) is the
reference that `GetUserCount`'s two-branch computation is proved against.
`AppendedAll` specifies a run of saves.

## Model

| member | source | states |
|---|---|---|
| `Types.FromLabel` | types.ts:1-7 | a string maps to a category only if it is that category's value, and to none when no category has it |
| `Types.LabelRoundTrip` | types.ts:1-7 | every category's string value reads back as that category, so the five values are distinct |
| `Text.NatToString` | sassaalert/constants.ts:18 | a day number prints as a non-empty run of digits that begins with '0' only for zero |
| `Text.ParseNatToString` | sassaalert/constants.ts:18 | the printed day reads back as the same number |
| `Text.IntToString` | sassaalert/constants.ts:18 | a year prints as non-empty text that begins with '-' exactly when it is negative |
| `Text.ParseIntToString` | sassaalert/constants.ts:18 | the printed year reads back as the same integer |
| `Constants.NormalizeMonth` | sassaalert/constants.ts:13 | the month index a Date takes from any month index is in 0..11 and differs from it by whole years (carried into the year) |
| `Constants.LongMonthName` | sassaalert/constants.ts:13 | the name is one of the twelve; month indices 0..11 give their usual names and index 12 gives "January" |
| `Constants.GetNextPayDates` | sassaalert/constants.ts:4-37 | exactly four estimates, in the order Old Age, Disability, Child Support, SRD; each is estimated; no category repeats; Foster Child never appears |
| `Constants.DayAndYearRoundTrip` | sassaalert/constants.ts:18 | the text `<day>, <year>` reads back as exactly that day and year |
| `Constants.FormatDateRoundTrip` | sassaalert/constants.ts:15-36 | a display date built from a month name without spaces, a day and a year reads back as exactly those three parts |
| `Constants.EstimateDate` | sassaalert/constants.ts:10-36 | estimate i reads back as the target month's name, fixed day 2, 3, 4 or 25, and the target year |
| `Constants.EstimatesShareMonthAndYear` | sassaalert/constants.ts:13-36 | all four dates name the same month and the same year |
| `Constants.TargetYearRollsOverOnlyFromDecember` | sassaalert/constants.ts:11 | every printed date reads back with the current year plus one exactly when the day is past the 5th and the month is December, and with the current year otherwise |
| `Constants.NextCalendarMonth` | sassaalert/constants.ts:10-11 | the following calendar month is a month in 0..11 exactly one month later |
| `Constants.EarlyInMonthShowsCurrentMonth` | sassaalert/constants.ts:10-13 | up to the 5th, every date is in the current month's name and the current year |
| `Constants.LateInMonthShowsNextMonth` | sassaalert/constants.ts:10-13 | after the 5th, every date is in the next calendar month and its year; December gives January of the next year |
| `Constants.MarchTenthExample` | sassaalert/constants.ts:4-37 | on 10 March 2024 the four dates are April 2, 3, 4 and 25, 2024, all estimated |
| `Constants.DecemberTenthExample` | sassaalert/constants.ts:4-37 | on 10 December 2024 the four dates are January 2, 3, 4 and 25, 2025 |
| `Constants.DecemberFifthExample` | sassaalert/constants.ts:10-13 | on 5 December 2024 the four dates are December 2, 3, 4 and 25, 2024 |
| `MockDatabase.AppendedKeepsEarlierRecords` | services/mockDatabase.ts:18-22 | one save lengthens the stored list by one, puts the new record last and keeps every earlier record at its place |
| `MockDatabase.AppendedAllReads` | services/mockDatabase.ts:18-22 | a run of saves leaves the stored list equal to the earlier list followed by the saved records in order |
| `MockDatabase.CountAfterSaves` | services/mockDatabase.ts:18-31 | each save raises the displayed count by exactly one, from any starting slot |
| `MockDatabase.CountFromEmptySlot` | services/mockDatabase.ts:18-31 | from an absent slot, N saves give a displayed count of N + 15420 |
| `MockDatabase.UserStore.SaveUser` | services/mockDatabase.ts:7-25 | returns the record built from the given name, phone, category, id and time; the slot afterwards holds the earlier list (empty if absent) with that record appended; the displayed count goes up by one |
| `MockDatabase.UserStore.GetUserCount` | services/mockDatabase.ts:27-32 | the count is the stored length plus 15420, which is 15420 for an empty or absent slot, and never less; the slot is not changed |
| `MockDatabase.SaveAll` | services/mockDatabase.ts:7-25 | saving a sequence of signups one after another appends exactly them in order and raises the displayed count by their number |

## Left out

- The 1200 ms delay and `async`/`await` (services/mockDatabase.ts:5,8) are timing only; `SaveUser` is synchronous.
- JSON text in the storage slot: the slot holds the list itself. In the code a slot that is not valid JSON makes `JSON.parse` throw (there is no `try`/`catch`). The model follows the code and has no "corrupt slot reads as empty" path. In the code a slot holding no text (absent or the empty string) reads as empty, and so does a stored empty list. In the model both `None` and `Some([])` read as empty; there is no separate empty-string case.
- The random id (`Math.random`) and the ISO timestamp (`new Date().toISOString()`) are parameters of `SaveUser`. Nothing makes ids unique, in the code or the model.
- The current date (`new Date()`) is the `Today` parameter. Its fields are not restricted to the ranges a real date has; the estimator is total over all integers.
- The locale-dependent month name (`toLocaleString`) is a fixed table of English long month names.
- `NormalizeMonth` models only the month carry of the `Date` constructor. The constructor also reads years 0..99 as 1900..1999; that does not affect the month index, which is the only part used.
- The `date` field of a payday record is commented as an ISO date string in types.ts, but the code stores display text such as "April 2, 2024". The model follows the code.
- `MockDatabase.UserStore.SaveUser` always succeeds. In the code `localStorage.getItem` (services/mockDatabase.ts:18, 28) can throw where storage is blocked, and `localStorage.setItem` (services/mockDatabase.ts:22) can throw when the storage quota is exceeded. Then `saveUser` rejects, the slot keeps its old value, and the page shows a "try again" alert without raising its count (sassaalert/App.tsx:54-56). The model has no storage-failure path.
- No validation of name or phone is done by the store. The phone pattern is a browser form attribute (sassaalert/App.tsx:260) and is not part of this model.
- The generative-text client (sassaalert/services/geminiService.ts), its fallback strings, and the `MockSms` record are not part of this model.
- The page components (sassaalert/App.tsx, components/Header.tsx, sassaalert/components/MockPhone.tsx) are rendering only and are not part of this model.
