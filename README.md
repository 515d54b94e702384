# Expense tracker ledger, modelled in Dafny

This project models the ledger engine of a console expense tracker: the
`ExpenseTracker` class and its `Transaction` record. The tracker holds three
things:

- a running balance;
- an append-only log of transactions, each with an amount, a category and a
  timestamp;
- a category registry seeded with `Food`, `Transport` and `Utilities`.

It offers three mutators and four queries:

- `addTransaction` refuses a non-empty category that is not registered. It
  files an empty category under `General`.
- `undoLastTransaction` pops the newest transaction.
- `addCategory` refuses a duplicate name.
- `showBalance` returns the balance.
- `showHistory` lists the log, labelling each entry Expense or Income.
- `showBalanceByCategory` and `showBalanceByPeriod` sum filtered amounts.

Files:

- `ledger.dfy` (module `Ledger`) holds the values and the pure definitions:
  the transaction record, the rejection kinds, the reference sum of a log,
  filtering, the per-category and per-window totals, case-insensitive period
  names and the history listing. It also holds the lemmas about them.
- `expense_tracker.dfy` (module `Tracker`) holds the class
  `ExpenseTracker`. Its fields `balance`, `transactions` and `categories` are
  updated in place by the mutators. Its object invariant `Valid()` says
  three things:
  - the balance is the sum of the logged amounts;
  - the registry holds no name twice;
  - every logged transaction is filed under `General` or a registered
    category.

  Every mutator keeps this invariant and states its whole new state. The
  queries are functions that read the object and return a value or a
  rejection instead of printing. Client methods prove the add-then-undo round
  trip and replay the example sessions.

Amounts are whole numbers (cents), so sums are exact. Timestamps are whole
milliseconds. The clock is a parameter `now` of `AddTransaction` and
`ShowBalanceByPeriod`.

## Model

| member | source | states |
|---|---|---|
| `Tracker.ExpenseTracker.constructor` | MainActivity.kt:53-56 | a new tracker has balance 0, an empty log and the registry `Food`, `Transport`, `Utilities`, and satisfies the invariant |
| `Tracker.ExpenseTracker.AddTransaction` | MainActivity.kt:59-68 | refused with UnknownCategory exactly when the category is non-empty and unregistered, and then nothing changes; otherwise exactly one transaction is appended (amount, `General` for an empty category or else the given one, stamp `now`), the balance grows by the amount, earlier entries and the registry are untouched, and the invariant is kept |
| `Tracker.ExpenseTracker.ShowBalance` | MainActivity.kt:70-72 | the reported balance equals the sum of the amounts in the log |
| `Tracker.ExpenseTracker.UndoLastTransaction` | MainActivity.kt:74-82 | refused with EmptyLedger exactly when the log is empty, and then nothing changes; otherwise it removes only the last transaction, returns it and subtracts its amount from the balance, leaving the registry alone and keeping the invariant |
| `Tracker.ExpenseTracker.ShowHistory` | MainActivity.kt:84-88 | one entry per transaction in insertion order, with its timestamp, amount and category; an entry is Income exactly when its amount is not negative, so zero is Income |
| `Tracker.ExpenseTracker.AddCategory` | MainActivity.kt:90-97 | refused with DuplicateCategory exactly when the name is registered, and then nothing changes; otherwise the name is appended at the end; the log and balance never change and the registry stays duplicate-free |
| `Tracker.ExpenseTracker.ShowBalanceByCategory` | MainActivity.kt:99-106 | refused with UnknownCategory exactly when the name is not registered (so `General` unless it was added); otherwise the sum of the amounts whose category equals the name exactly |
| `Tracker.ExpenseTracker.ShowBalanceByPeriod` | MainActivity.kt:108-121 | refused with InvalidPeriod unless the period spells `hour`, `day` or `month` in any case; otherwise the windowed sum from `now` minus 3 600 000, 86 400 000 or 2 592 000 000 ms up to `now` |
| `Tracker.AddThenUndo` | MainActivity.kt:59-82 | a successful add followed by an undo restores the log, the balance and the registry exactly |
| `Tracker.RecordedAtQueryInstant` | MainActivity.kt:119 | a transaction stamped at the query instant `now` does not change that period query's answer |
| `Ledger.EffectiveCategory` | MainActivity.kt:64 | the stored category is never empty: it is the given category when non-empty, `General` otherwise |
| `Ledger.SumAppend` | MainActivity.kt:66 | the sum of two logs joined is the sum of their sums, which is why `balance += amount` keeps the balance equal to the sum of the log |
| `Ledger.SumDropLast` | MainActivity.kt:76-77 | removing the last transaction lowers the sum by exactly its amount, which is why `balance -= amount` keeps the invariant |
| `Ledger.Filter` | MainActivity.kt:104 | the filtered log contains exactly the transactions of the log that the selector accepts, and is no longer than the log |
| `Ledger.FilterAppend` | MainActivity.kt:104 | filtering keeps insertion order: filtering a joined log is joining the filtered parts |
| `Ledger.FilterSplitsSum` | MainActivity.kt:104 | the sum of what a filter keeps plus the sum of what it drops is the whole sum |
| `Ledger.CategoryTotalAppend` | MainActivity.kt:104 | recording a transaction changes a category's balance by its amount when filed under exactly that name and by nothing otherwise |
| `Ledger.CategoryTotalUnused` | MainActivity.kt:104 | a category that no transaction is filed under has balance 0 |
| `Ledger.TotalOverCovers` | MainActivity.kt:104 | over a duplicate-free list of names that covers every transaction's category, the per-name balances add up to the whole sum |
| `Ledger.CategoryBalancesAddUp` | MainActivity.kt:54-66 | on a consistent ledger, the balance of `General` plus the balances of all registered categories equals the overall balance |
| `Ledger.PeriodTotalAppend` | MainActivity.kt:119 | recording a transaction changes a window's sum by its amount exactly when its stamp lies strictly between the window start and `now` |
| `Ledger.PeriodExcludesEndpoints` | MainActivity.kt:119 | a transaction stamped exactly at the window start or exactly at `now` is not counted |
| `Ledger.PeriodTotalAllInside` | MainActivity.kt:119 | when every stamp lies strictly inside the window, the period balance is the whole balance |
| `Ledger.AsciiLower` | MainActivity.kt:110 | lower-casing keeps the length and lowers each character on its own |
| `Ledger.PeriodLength` | MainActivity.kt:110-117 | the window is one hour, one day or thirty days exactly when the period spells `hour`, `day` or `month` up to case; every other period is refused |
| `Ledger.PeriodLengthIgnoresCase` | MainActivity.kt:110 | lower-casing a period first never changes which window it names |
| `Ledger.History` | MainActivity.kt:84-87 | one entry per transaction in insertion order, with the same timestamp, amount and category, labelled Expense exactly when the amount is negative |
| `Ledger.HistoryAppend` | MainActivity.kt:84-87 | recording a transaction adds exactly one entry, at the end of the listing |

## Left out

- `main()` and its menu loop (MainActivity.kt:4-51) are console input parsing. This includes the expense command negating the entered amount.
- Printed messages and the `SimpleDateFormat` rendering of timestamps. Queries return values and rejections return an `Error` value. A history entry carries the raw millisecond timestamp instead of a formatted date.
- The wall clock `Date()` becomes the parameter `now`. The model does not assume that successive stamps increase, because nothing in the tracker enforces it.
- Amounts are exact integers (cents) instead of `Double`. Floating-point rounding of `balance` and of `sumOf` is not modelled.
- `Ledger.AsciiLower` lowers only `A`-`Z`, while `String.lowercase()` lowers all of Unicode. No other character lowers to a letter of `hour`, `day` or `month`, so the set of accepted periods is the same.
- Kotlin's `Long` millisecond arithmetic is modelled on unbounded integers. The window subtraction cannot overflow for realistic clocks.
- Asking the same query twice without a mutation in between gives the same answer. This follows because the queries are functions of the object's fields, so no lemma states it.
