/**
  The values the expense tracker works with: transactions, the outcomes of its
  operations, the running sums its queries compute and the history entries it
  lists. Amounts are whole numbers of cents and timestamps whole milliseconds.
 */
module Ledger {

  /** One recorded monetary event; negative amounts are expenses. */
  datatype Transaction = Transaction(amount: int, category: string, dateTime: int)

  /** The rejections an operation can report; none of them changes any state. */
  datatype Error = UnknownCategory | DuplicateCategory | EmptyLedger | InvalidPeriod

  /** Outcome of a mutator that returns nothing on success. */
  datatype Status = Done | Rejected(error: Error)

  /** Outcome of an operation that returns a value on success. */
  datatype Result<T> = Ok(value: T) | Err(error: Error)

  datatype Option<T> = None | Some(value: T)

  /** Label given to a transaction recorded without a category. */
  const General: string := "General"

  /** Categories a new tracker starts with, in display order. */
  const DefaultCategories: seq<string> := ["Food", "Transport", "Utilities"]

  /** Lengths of the trailing windows of a period query, in milliseconds. */
  const HourMillis: int := 3600 * 1000
  const DayMillis: int := 24 * 3600 * 1000
  const MonthMillis: int := 30 * 24 * 3600 * 1000

  predicate NoDuplicates(names: seq<string>)
  {
    forall i, j :: 0 <= i < j < |names| ==> names[i] != names[j]
  }

  /** The category a transaction is stored under when the caller gives `category`. */
  function EffectiveCategory(category: string): (c: string)
    ensures c != ""
    ensures category != "" ==> c == category
    ensures category == "" ==> c == General
  {
    if category == "" then General else category
  }

  /** Every stored transaction is filed under `General` or a registered category. */
  predicate Filed(ts: seq<Transaction>, categories: seq<string>)
  {
    forall t :: t in ts ==> t.category != "" && (t.category == General || t.category in categories)
  }

  // ---------------------------------------------------------------------------
  // Sums and filters

  /** Sum of the amounts of `ts`, the reference definition of the balance. */
  function Sum(ts: seq<Transaction>): int
  {
    if ts == [] then 0 else ts[0].amount + Sum(ts[1..])
  }

  lemma {:induction false} SumAppend(a: seq<Transaction>, b: seq<Transaction>)
    ensures Sum(a + b) == Sum(a) + Sum(b)
  {
    if a == [] {
      assert a + b == b;
    } else {
      assert (a + b)[1..] == a[1..] + b;
      SumAppend(a[1..], b);
    }
  }

  /** Removing the last transaction takes exactly its amount off the sum. */
  lemma SumDropLast(ts: seq<Transaction>)
    requires ts != []
    ensures Sum(ts[..|ts| - 1]) == Sum(ts) - ts[|ts| - 1].amount
  {
    var init, last := ts[..|ts| - 1], ts[|ts| - 1];
    assert ts == init + [last];
    SumAppend(init, [last]);
  }

  /** The transactions of `ts` that `keep` selects, in their original order. */
  function Filter(ts: seq<Transaction>, keep: Transaction -> bool): (r: seq<Transaction>)
    ensures |r| <= |ts|
    ensures forall t :: t in r <==> t in ts && keep(t)
  {
    if ts == [] then []
    else (if keep(ts[0]) then [ts[0]] else []) + Filter(ts[1..], keep)
  }

  lemma {:induction false} FilterAppend(a: seq<Transaction>, b: seq<Transaction>, keep: Transaction -> bool)
    ensures Filter(a + b, keep) == Filter(a, keep) + Filter(b, keep)
  {
    if a == [] {
      assert a + b == b;
    } else {
      assert (a + b)[1..] == a[1..] + b;
      FilterAppend(a[1..], b, keep);
    }
  }

  /** Appending one transaction adds its amount to a filtered sum exactly when it is selected. */
  lemma FilteredSumAppend(ts: seq<Transaction>, t: Transaction, keep: Transaction -> bool)
    ensures Sum(Filter(ts + [t], keep)) == Sum(Filter(ts, keep)) + (if keep(t) then t.amount else 0)
  {
    FilterAppend(ts, [t], keep);
    SumAppend(Filter(ts, keep), Filter([t], keep));
    assert [t][1..] == [];
  }

  function Not(keep: Transaction -> bool): Transaction -> bool
  {
    (t: Transaction) => !keep(t)
  }

  /** A filter and its complement split the total between them. */
  lemma {:induction false} FilterSplitsSum(ts: seq<Transaction>, keep: Transaction -> bool)
    ensures Sum(Filter(ts, keep)) + Sum(Filter(ts, Not(keep))) == Sum(ts)
  {
    if ts != [] {
      FilterSplitsSum(ts[1..], keep);
      var head := if keep(ts[0]) then [ts[0]] else [];
      var rest := Filter(ts[1..], keep);
      SumAppend(head, rest);
      var head' := if Not(keep)(ts[0]) then [ts[0]] else [];
      var rest' := Filter(ts[1..], Not(keep));
      SumAppend(head', rest');
    }
  }

  // ---------------------------------------------------------------------------
  // Balance by category

  function OfCategory(category: string): Transaction -> bool
  {
    (t: Transaction) => t.category == category
  }

  /** Sum of the amounts filed under exactly `category` (no case folding). */
  function CategoryTotal(ts: seq<Transaction>, category: string): int
  {
    Sum(Filter(ts, OfCategory(category)))
  }

  lemma CategoryTotalEmpty(category: string)
    ensures CategoryTotal([], category) == 0
  {
  }

  lemma CategoryTotalAppend(ts: seq<Transaction>, t: Transaction, category: string)
    ensures CategoryTotal(ts + [t], category)
         == CategoryTotal(ts, category) + (if t.category == category then t.amount else 0)
  {
    FilteredSumAppend(ts, t, OfCategory(category));
  }

  /** A category no transaction is filed under has a zero balance. */
  lemma {:induction false} CategoryTotalUnused(ts: seq<Transaction>, category: string)
    requires forall t :: t in ts ==> t.category != category
    ensures CategoryTotal(ts, category) == 0
  {
    if ts != [] {
      var init, last := ts[..|ts| - 1], ts[|ts| - 1];
      assert ts == init + [last];
      assert forall t :: t in init ==> t in ts;
      CategoryTotalUnused(init, category);
      CategoryTotalAppend(init, last, category);
    }
  }

  /** Sum of the category balances of `names`, taken one name at a time. */
  function TotalOver(ts: seq<Transaction>, names: seq<string>): int
  {
    if names == [] then 0 else CategoryTotal(ts, names[0]) + TotalOver(ts, names[1..])
  }

  lemma {:induction false} TotalOverEmpty(names: seq<string>)
    ensures TotalOver([], names) == 0
  {
    if names != [] {
      CategoryTotalEmpty(names[0]);
      TotalOverEmpty(names[1..]);
    }
  }

  lemma {:induction false} TotalOverAppend(ts: seq<Transaction>, t: Transaction, names: seq<string>)
    requires NoDuplicates(names)
    ensures TotalOver(ts + [t], names)
         == TotalOver(ts, names) + (if t.category in names then t.amount else 0)
  {
    if names != [] {
      assert NoDuplicates(names[1..]) by {
        forall i, j | 0 <= i < j < |names[1..]| ensures names[1..][i] != names[1..][j] {
          assert names[1..][i] == names[i + 1] && names[1..][j] == names[j + 1];
        }
      }
      assert names[0] !in names[1..] by {
        forall k | 0 <= k < |names[1..]| ensures names[1..][k] != names[0] {
          assert names[1..][k] == names[k + 1];
        }
      }
      assert t.category in names <==> t.category == names[0] || t.category in names[1..];
      CategoryTotalAppend(ts, t, names[0]);
      TotalOverAppend(ts, t, names[1..]);
    }
  }

  /** The names a balance-by-category query can be asked about, with `General` included. */
  function Labels(categories: seq<string>): (names: seq<string>)
    ensures General in names
    ensures forall c :: c in categories ==> c in names
    ensures NoDuplicates(categories) ==> NoDuplicates(names)
  {
    if General in categories then categories else [General] + categories
  }

  /** Every transaction of `ts` is filed under some name of `names`, so the
      per-name balances add up to the whole balance. */
  lemma {:induction false} TotalOverCovers(ts: seq<Transaction>, names: seq<string>)
    requires NoDuplicates(names)
    requires forall t :: t in ts ==> t.category in names
    ensures TotalOver(ts, names) == Sum(ts)
  {
    if ts == [] {
      TotalOverEmpty(names);
    } else {
      var init, last := ts[..|ts| - 1], ts[|ts| - 1];
      assert ts == init + [last];
      assert forall t :: t in init ==> t in ts;
      TotalOverCovers(init, names);
      TotalOverAppend(init, last, names);
      SumAppend(init, [last]);
    }
  }

  /** On a consistent ledger the balances of `General` and of every registered
      category add up to the overall balance. */
  lemma CategoryBalancesAddUp(ts: seq<Transaction>, categories: seq<string>)
    requires NoDuplicates(categories) && Filed(ts, categories)
    ensures TotalOver(ts, Labels(categories)) == Sum(ts)
  {
    TotalOverCovers(ts, Labels(categories));
  }

  // ---------------------------------------------------------------------------
  // Balance by period

  /** Selects the transactions stamped strictly after `start` and strictly before `now`. */
  function Within(start: int, now: int): Transaction -> bool
  {
    (t: Transaction) => start < t.dateTime && t.dateTime < now
  }

  function PeriodTotal(ts: seq<Transaction>, start: int, now: int): int
  {
    Sum(Filter(ts, Within(start, now)))
  }

  lemma PeriodTotalAppend(ts: seq<Transaction>, t: Transaction, start: int, now: int)
    ensures PeriodTotal(ts + [t], start, now)
         == PeriodTotal(ts, start, now) + (if start < t.dateTime < now then t.amount else 0)
  {
    FilteredSumAppend(ts, t, Within(start, now));
  }

  /** Both ends of the window are open: a transaction stamped exactly at the
      window start or exactly at the query instant does not count. */
  lemma PeriodExcludesEndpoints(ts: seq<Transaction>, t: Transaction, start: int, now: int)
    requires t.dateTime == start || t.dateTime == now
    ensures PeriodTotal(ts + [t], start, now) == PeriodTotal(ts, start, now)
  {
    PeriodTotalAppend(ts, t, start, now);
  }

  /** With every timestamp inside the window, the period balance is the whole balance. */
  lemma {:induction false} PeriodTotalAllInside(ts: seq<Transaction>, start: int, now: int)
    requires forall t :: t in ts ==> start < t.dateTime < now
    ensures PeriodTotal(ts, start, now) == Sum(ts)
  {
    if ts != [] {
      var init, last := ts[..|ts| - 1], ts[|ts| - 1];
      assert ts == init + [last];
      assert forall t :: t in init ==> t in ts;
      PeriodTotalAllInside(init, start, now);
      PeriodTotalAppend(init, last, start, now);
      SumAppend(init, [last]);
    }
  }

  /** ASCII upper-case letters to lower case; every other character unchanged. */
  function LowerChar(c: char): char
  {
    if 'A' <= c <= 'Z' then (c as int - 'A' as int + 'a' as int) as char else c
  }

  function AsciiLower(s: string): (r: string)
    ensures |r| == |s|
    ensures forall i :: 0 <= i < |s| ==> r[i] == LowerChar(s[i])
  {
    if s == [] then [] else [LowerChar(s[0])] + AsciiLower(s[1..])
  }

  /** `s` spells the lower-case word `word` in any mix of cases. */
  predicate EqualsIgnoringCase(s: string, word: string)
  {
    |s| == |word| && forall i :: 0 <= i < |s| ==> LowerChar(s[i]) == word[i]
  }

  /** Window length named by `period`, or None when it names none of the three. */
  function PeriodLength(period: string): (r: Option<int>)
    ensures r == Some(HourMillis) <==> EqualsIgnoringCase(period, "hour")
    ensures r == Some(DayMillis) <==> EqualsIgnoringCase(period, "day")
    ensures r == Some(MonthMillis) <==> EqualsIgnoringCase(period, "month")
    ensures r.Some? <==>
      (EqualsIgnoringCase(period, "hour") || EqualsIgnoringCase(period, "day")
       || EqualsIgnoringCase(period, "month"))
  {
    var p := AsciiLower(period);
    assert EqualsIgnoringCase(period, "hour") <==> p == "hour";
    assert EqualsIgnoringCase(period, "day") <==> p == "day";
    assert EqualsIgnoringCase(period, "month") <==> p == "month";
    if p == "hour" then Some(HourMillis)
    else if p == "day" then Some(DayMillis)
    else if p == "month" then Some(MonthMillis)
    else None
  }

  lemma AsciiLowerIdempotent(s: string)
    ensures AsciiLower(AsciiLower(s)) == AsciiLower(s)
  {
  }

  /** Lower-casing a period first never changes the answer. */
  lemma PeriodLengthIgnoresCase(period: string)
    ensures PeriodLength(AsciiLower(period)) == PeriodLength(period)
  {
    AsciiLowerIdempotent(period);
  }

  // ---------------------------------------------------------------------------
  // History

  datatype Kind = Expense | Income

  /** One line of the history listing: when, which kind, how much, under what category. */
  datatype Entry = Entry(dateTime: int, kind: Kind, amount: int, category: string)

  function EntryOf(t: Transaction): Entry
  {
    Entry(t.dateTime, if t.amount < 0 then Expense else Income, t.amount, t.category)
  }

  /** The history listing, one entry per transaction in insertion order. */
  function History(ts: seq<Transaction>): (h: seq<Entry>)
    ensures |h| == |ts|
    ensures forall i :: 0 <= i < |ts| ==>
      && h[i].dateTime == ts[i].dateTime
      && h[i].amount == ts[i].amount
      && h[i].category == ts[i].category
      && (h[i].kind == Expense <==> ts[i].amount < 0)
  {
    if ts == [] then [] else [EntryOf(ts[0])] + History(ts[1..])
  }

  /** Recording a transaction adds exactly one entry, at the end of the listing. */
  lemma HistoryAppend(ts: seq<Transaction>, t: Transaction)
    ensures History(ts + [t]) == History(ts) + [EntryOf(t)]
  {
  }
}
