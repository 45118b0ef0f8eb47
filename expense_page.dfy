/**
 * The list logic of the expenses page (src/Pages/ExpensePage.tsx): the
 * client-side filter, the current-month total, the category index and the
 * filter state the page keeps.
 */
module ExpensePage {

  import opened Wrappers
  import Text
  import ExpenseService
  import Sequences

  /**
   * A point in time as `new Date(..)` reports it in local time: `month` is
   * 0-based (0-11) and `millis` counts the milliseconds since midnight;
   * `Normal` states these ranges.
   */
  datatype Date = Date(year: int, month: int, day: int, millis: int)

  /** The ranges the `Date` fields take for a date `new Date(..)` produces. */
  predicate Normal(d: Date)
  {
    0 <= d.month < 12 && 1 <= d.day <= 31 && 0 <= d.millis < 86400000
  }

  /**
   * A number that orders dates as their time values do: months of 31 days,
   * so it is not the time value itself, but it grows with it.
   */
  function TimeKey(d: Date): int
  {
    ((d.year * 12 + d.month) * 31 + (d.day - 1)) * 86400000 + d.millis
  }

  /** `a >= b` on two dates: the later calendar day, or the same day at a later or equal time. */
  function OnOrAfter(a: Date, b: Date): (r: bool)
    ensures a == b ==> r
    ensures a.year > b.year ==> r
    ensures a.year < b.year ==> !r
    ensures Normal(a) && Normal(b) ==> (r <==> TimeKey(a) >= TimeKey(b))
  {
    a.year > b.year
    || (a.year == b.year
        && (a.month > b.month
            || (a.month == b.month && (a.day > b.day || (a.day == b.day && a.millis >= b.millis)))))
  }

  /** Like `>=` on time values, `OnOrAfter` is a total order on dates. */
  lemma OnOrAfterIsTotalOrder(a: Date, b: Date, c: Date)
    ensures OnOrAfter(a, b) || OnOrAfter(b, a)
    ensures OnOrAfter(a, b) && OnOrAfter(b, a) ==> a == b
    ensures OnOrAfter(a, b) && OnOrAfter(b, c) ==> OnOrAfter(a, c)
  {
  }

  /** `new Date(text)`: `None` is an Invalid Date, which compares false with everything. */
  type DateParser = string -> Option<Date>

  /** An expense as the API returns it; `amount` is in the smallest currency unit. */
  datatype Expense = Expense(id: string, expenseType: string, description: string, amount: int, date: string)

  /** A category ("master data") record. */
  datatype MasterData = MasterData(id: string, title: string)

  /** The keys of the client-side filter state (`ExpenseFilters` without `dateTo`). */
  datatype FilterKey = ExpenseType | Description | DateFrom

  /** The client-side filter state; every field may be `undefined`. */
  datatype FrontendFilters = FrontendFilters(expenseType: Option<string>, description: Option<string>, dateFrom: Option<string>)
  {
    function Get(key: FilterKey): Option<string>
    {
      match key
      case ExpenseType => expenseType
      case Description => description
      case DateFrom => dateFrom
    }

    /** `{ ...prev, [key]: value }`: the named key takes the value, the others keep theirs. */
    function With(key: FilterKey, value: Option<string>): (r: FrontendFilters)
      ensures r.Get(key) == value
      ensures forall k :: k != key ==> r.Get(k) == Get(k)
    {
      match key
      case ExpenseType => this.(expenseType := value)
      case Description => this.(description := value)
      case DateFrom => this.(dateFrom := value)
    }

    /** Some field would constrain the list: it is set to a non-empty string. */
    function AnyActive(): (r: bool)
      ensures r <==> exists k :: Text.Truthy(Get(k))
    {
      assert Text.Truthy(expenseType) ==> Text.Truthy(Get(ExpenseType));
      assert Text.Truthy(description) ==> Text.Truthy(Get(Description));
      assert Text.Truthy(dateFrom) ==> Text.Truthy(Get(DateFrom));
      Text.Truthy(expenseType) || Text.Truthy(description) || Text.Truthy(dateFrom)
    }
  }

  /** The empty filter object `{}`. */
  const NoFilters := FrontendFilters(None, None, None)

  // ---------------------------------------------------------------------------
  // The client-side filter (`filteredExpenses`)
  // ---------------------------------------------------------------------------

  /** The type test: an unset or empty filter passes everything; a set one only the same string, case included. */
  function MatchesType(e: Expense, f: FrontendFilters): (r: bool)
    ensures !Text.Truthy(f.expenseType) ==> r
    ensures Text.Truthy(f.expenseType) ==> (r <==> e.expenseType == f.expenseType.value)
  {
    !Text.Truthy(f.expenseType) || e.expenseType == f.expenseType.value
  }

  /** The description test: the lower-cased filter text occurs in the lower-cased description. */
  function MatchesDescription(e: Expense, f: FrontendFilters): (r: bool)
    ensures r <==> !Text.Truthy(f.description)
                   || Text.IsSubstring(Text.ToLower(f.description.value), Text.ToLower(e.description))
  {
    if Text.Truthy(f.description) then
      Text.IncludesIsSubstring(Text.ToLower(e.description), Text.ToLower(f.description.value));
      Text.Includes(Text.ToLower(e.description), Text.ToLower(f.description.value))
    else
      true
  }

  /**
   * The date test: an active bound is inclusive, and an expense date or a
   * bound that is an Invalid Date never passes it.
   */
  function MatchesDateFrom(e: Expense, f: FrontendFilters, parse: DateParser): (r: bool)
    ensures !Text.Truthy(f.dateFrom) ==> r
    ensures Text.Truthy(f.dateFrom) && (parse(e.date).None? || parse(f.dateFrom.value).None?) ==> !r
    ensures Text.Truthy(f.dateFrom) && parse(e.date).Some? && parse(e.date) == parse(f.dateFrom.value) ==> r
    ensures Text.Truthy(f.dateFrom) && parse(e.date).Some? && parse(f.dateFrom.value).Some? ==>
              (r <==> OnOrAfter(parse(e.date).value, parse(f.dateFrom.value).value))
  {
    !Text.Truthy(f.dateFrom)
    || (parse(e.date).Some? && parse(f.dateFrom.value).Some?
        && OnOrAfter(parse(e.date).value, parse(f.dateFrom.value).value))
  }

  /** The callback of `expenses.filter`: all three tests pass. */
  function Matches(e: Expense, f: FrontendFilters, parse: DateParser): (r: bool)
    ensures r <==>
      && (Text.Truthy(f.expenseType) ==> e.expenseType == f.expenseType.value)
      && (Text.Truthy(f.description) ==>
            Text.IsSubstring(Text.ToLower(f.description.value), Text.ToLower(e.description)))
      && (Text.Truthy(f.dateFrom) ==>
            parse(e.date).Some? && parse(f.dateFrom.value).Some?
            && OnOrAfter(parse(e.date).value, parse(f.dateFrom.value).value))
  {
    MatchesType(e, f) && MatchesDescription(e, f) && MatchesDateFrom(e, f, parse)
  }

  /** `expenses.filter(..)`: the expenses that pass, in their original order. */
  function FilteredExpenses(expenses: seq<Expense>, f: FrontendFilters, parse: DateParser): (r: seq<Expense>)
    ensures |r| <= |expenses|
    ensures forall e :: e in r <==> e in expenses && Matches(e, f, parse)
  {
    if expenses == [] then []
    else (if Matches(expenses[0], f, parse) then [expenses[0]] else []) + FilteredExpenses(expenses[1..], f, parse)
  }

  /** `a` can be obtained from `b` by deleting elements. */
  predicate IsSubsequence<T(==)>(a: seq<T>, b: seq<T>)
    decreases |b|
  {
    a == [] || (b != [] && ((a[0] == b[0] && IsSubsequence(a[1..], b[1..])) || IsSubsequence(a, b[1..])))
  }

  /** The filter only deletes: what is left keeps its relative order. */
  lemma {:induction false} FilteredIsSubsequence(expenses: seq<Expense>, f: FrontendFilters, parse: DateParser)
    ensures IsSubsequence(FilteredExpenses(expenses, f, parse), expenses)
  {
    if expenses != [] {
      var rest := FilteredExpenses(expenses[1..], f, parse);
      FilteredIsSubsequence(expenses[1..], f, parse);
      if Matches(expenses[0], f, parse) {
        assert FilteredExpenses(expenses, f, parse) == [expenses[0]] + rest;
        assert ([expenses[0]] + rest)[1..] == rest;
      } else {
        assert FilteredExpenses(expenses, f, parse) == rest;
      }
    }
  }

  /** Every occurrence of a passing expense is kept, and nothing else. */
  lemma {:induction false} FilteredCounts(expenses: seq<Expense>, f: FrontendFilters, parse: DateParser, e: Expense)
    ensures multiset(FilteredExpenses(expenses, f, parse))[e]
            == if Matches(e, f, parse) then multiset(expenses)[e] else 0
  {
    if expenses != [] {
      FilteredCounts(expenses[1..], f, parse, e);
      assert expenses == [expenses[0]] + expenses[1..];
    }
  }

  /**
   * What the three tests mean: the type is compared exactly, with no case
   * folding; the lower-cased filter text occurs in the lower-cased
   * description; the date is on or after `dateFrom`, both being valid dates.
   * A filter field that is unset or empty imposes nothing.
   */
  lemma FilteredMembership(expenses: seq<Expense>, f: FrontendFilters, parse: DateParser, e: Expense)
    ensures e in FilteredExpenses(expenses, f, parse) <==>
      && e in expenses
      && (Text.Truthy(f.expenseType) ==> e.expenseType == f.expenseType.value)
      && (Text.Truthy(f.description) ==>
            Text.IsSubstring(Text.ToLower(f.description.value), Text.ToLower(e.description)))
      && (Text.Truthy(f.dateFrom) ==>
            parse(e.date).Some? && parse(f.dateFrom.value).Some?
            && OnOrAfter(parse(e.date).value, parse(f.dateFrom.value).value))
  {
  }

  /** A list whose every expense passes comes back unchanged. */
  lemma {:induction false} FilteredAllPass(expenses: seq<Expense>, f: FrontendFilters, parse: DateParser)
    requires forall e :: e in expenses ==> Matches(e, f, parse)
    ensures FilteredExpenses(expenses, f, parse) == expenses
  {
    if expenses != [] {
      FilteredAllPass(expenses[1..], f, parse);
    }
  }

  /** With type, description and dateFrom all unset or empty, the filter is the identity. */
  lemma FilteredWithoutFilters(expenses: seq<Expense>, f: FrontendFilters, parse: DateParser)
    requires !f.AnyActive()
    ensures FilteredExpenses(expenses, f, parse) == expenses
  {
    FilteredAllPass(expenses, f, parse);
  }

  /** Filtering twice with the same state is filtering once. */
  lemma FilteredIdempotent(expenses: seq<Expense>, f: FrontendFilters, parse: DateParser)
    ensures FilteredExpenses(FilteredExpenses(expenses, f, parse), f, parse) == FilteredExpenses(expenses, f, parse)
  {
    FilteredAllPass(FilteredExpenses(expenses, f, parse), f, parse);
  }

  // ---------------------------------------------------------------------------
  // The current-month total (`currentMonthTotal`)
  // ---------------------------------------------------------------------------

  /**
   * `getMonth() === month && getFullYear() === year`: the date is a valid
   * one of that month; an Invalid Date, whose parts are NaN, is in no month.
   */
  function InMonth(e: Expense, month: int, year: int, parse: DateParser): (r: bool)
    ensures r <==> exists d :: parse(e.date) == Some(d) && d.month == month && d.year == year
  {
    parse(e.date).Some? && parse(e.date).value.month == month && parse(e.date).value.year == year
  }

  /** The callback of `expenses.reduce`: it adds what the expense contributes to the month's sum. */
  function AddIfInMonth(total: int, e: Expense, month: int, year: int, parse: DateParser): (r: int)
    ensures r == total + SumAmounts(ExpensesInMonth([e], month, year, parse))
  {
    assert [e][1..] == [];
    if InMonth(e, month, year, parse) then total + e.amount else total
  }

  /** `expenses.reduce(callback, total)`, a left fold. */
  function ReduceMonthTotal(total: int, expenses: seq<Expense>, month: int, year: int, parse: DateParser): int
    decreases |expenses|
  {
    if expenses == [] then total
    else ReduceMonthTotal(AddIfInMonth(total, expenses[0], month, year, parse), expenses[1..], month, year, parse)
  }

  /**
   * `currentMonthTotal` for the month and year the clock reports: the fold
   * started at 0. It is the sum of the amounts of exactly the expenses of
   * that month and year; no expense gives 0.
   */
  function CurrentMonthTotal(expenses: seq<Expense>, month: int, year: int, parse: DateParser): (r: int)
    ensures r == SumAmounts(ExpensesInMonth(expenses, month, year, parse))
    ensures expenses == [] ==> r == 0
  {
    ReduceMonthTotalIsSum(0, expenses, month, year, parse);
    ReduceMonthTotal(0, expenses, month, year, parse)
  }

  /** Reference definition: the expenses of the month, in order. */
  function ExpensesInMonth(expenses: seq<Expense>, month: int, year: int, parse: DateParser): seq<Expense>
  {
    if expenses == [] then []
    else (if InMonth(expenses[0], month, year, parse) then [expenses[0]] else [])
         + ExpensesInMonth(expenses[1..], month, year, parse)
  }

  /** Reference definition: the sum of the amounts. */
  function SumAmounts(expenses: seq<Expense>): int
  {
    if expenses == [] then 0 else expenses[0].amount + SumAmounts(expenses[1..])
  }

  lemma {:induction false} ReduceMonthTotalIsSum(total: int, expenses: seq<Expense>, month: int, year: int, parse: DateParser)
    ensures ReduceMonthTotal(total, expenses, month, year, parse)
            == total + SumAmounts(ExpensesInMonth(expenses, month, year, parse))
    decreases |expenses|
  {
    if expenses != [] {
      var e := expenses[0];
      ReduceMonthTotalIsSum(AddIfInMonth(total, e, month, year, parse), expenses[1..], month, year, parse);
      var head := if InMonth(e, month, year, parse) then [e] else [];
      assert ExpensesInMonth(expenses, month, year, parse) == head + ExpensesInMonth(expenses[1..], month, year, parse);
      SumAmountsAppend(head, ExpensesInMonth(expenses[1..], month, year, parse));
      assert SumAmounts(head) == if InMonth(e, month, year, parse) then e.amount else 0 by {
        if InMonth(e, month, year, parse) {
          assert head[1..] == [];
        }
      }
    }
  }

  lemma {:induction false} SumAmountsAppend(a: seq<Expense>, b: seq<Expense>)
    ensures SumAmounts(a + b) == SumAmounts(a) + SumAmounts(b)
  {
    if a == [] {
      assert a + b == b;
    } else {
      SumAmountsAppend(a[1..], b);
      assert (a + b)[1..] == a[1..] + b;
    }
  }

  lemma {:induction false} ExpensesInMonthAppend(a: seq<Expense>, b: seq<Expense>, month: int, year: int, parse: DateParser)
    ensures ExpensesInMonth(a + b, month, year, parse)
            == ExpensesInMonth(a, month, year, parse) + ExpensesInMonth(b, month, year, parse)
  {
    if a == [] {
      assert a + b == b;
    } else {
      ExpensesInMonthAppend(a[1..], b, month, year, parse);
      Sequences.ConsAppend(a, b);
      var head := if InMonth(a[0], month, year, parse) then [a[0]] else [];
      Sequences.Assoc(head, ExpensesInMonth(a[1..], month, year, parse), ExpensesInMonth(b, month, year, parse));
    }
  }

  /** A single expense contributes its amount exactly when it is of the month. */
  lemma CurrentMonthTotalSingle(e: Expense, month: int, year: int, parse: DateParser)
    ensures CurrentMonthTotal([e], month, year, parse) == if InMonth(e, month, year, parse) then e.amount else 0
  {
    assert [e][1..] == [];
    assert ReduceMonthTotal(0, [e], month, year, parse) == AddIfInMonth(0, e, month, year, parse);
  }

  /** The total of a concatenation is the sum of the totals. */
  lemma CurrentMonthTotalAppend(a: seq<Expense>, b: seq<Expense>, month: int, year: int, parse: DateParser)
    ensures CurrentMonthTotal(a + b, month, year, parse)
            == CurrentMonthTotal(a, month, year, parse) + CurrentMonthTotal(b, month, year, parse)
  {
    ExpensesInMonthAppend(a, b, month, year, parse);
    SumAmountsAppend(ExpensesInMonth(a, month, year, parse), ExpensesInMonth(b, month, year, parse));
  }

  /** An expense of another month, or with an invalid date, contributes nothing wherever it stands. */
  lemma OtherMonthContributesNothing(a: seq<Expense>, e: Expense, b: seq<Expense>, month: int, year: int, parse: DateParser)
    requires !InMonth(e, month, year, parse)
    ensures CurrentMonthTotal(a + [e] + b, month, year, parse) == CurrentMonthTotal(a + b, month, year, parse)
  {
    CurrentMonthTotalSingle(e, month, year, parse);
    CurrentMonthTotalAppend(a + [e], b, month, year, parse);
    CurrentMonthTotalAppend(a, [e], month, year, parse);
    CurrentMonthTotalAppend(a, b, month, year, parse);
  }

  /** Taking element `j` out of a list takes one occurrence out of its multiset. */
  lemma MultisetWithout(b: seq<Expense>, j: int)
    requires 0 <= j < |b|
    ensures multiset(b[..j] + b[j + 1..]) == multiset(b) - multiset{b[j]}
  {
    Sequences.SplitAt(b, j);
  }

  /** Dropping the head takes one occurrence of it out of the multiset. */
  lemma MultisetTail(a: seq<Expense>)
    requires a != []
    ensures multiset(a[1..]) == multiset(a) - multiset{a[0]}
  {
    assert a == [a[0]] + a[1..];
  }

  /** A match for `a[0]` in a permutation `b` of `a`. */
  lemma FindFirst(a: seq<Expense>, b: seq<Expense>) returns (j: int)
    requires multiset(a) == multiset(b) && a != []
    ensures 0 <= j < |b| && b[j] == a[0]
  {
    assert a[0] in multiset(a);
    j :| 0 <= j < |b| && b[j] == a[0];
  }

  /** In a permutation of `a`, some `b[j]` is `a[0]`, and the rests are permutations of each other. */
  lemma MatchFirst(a: seq<Expense>, b: seq<Expense>) returns (j: int)
    requires multiset(a) == multiset(b) && a != []
    ensures 0 <= j < |b| && b[j] == a[0]
    ensures multiset(a[1..]) == multiset(b[..j] + b[j + 1..])
  {
    j := FindFirst(a, b);
    calc {
      multiset(a[1..]);
    == { MultisetTail(a); }
      multiset(a) - multiset{a[0]};
    == { assert b[j] == a[0]; }
      multiset(b) - multiset{b[j]};
    == { MultisetWithout(b, j); }
      multiset(b[..j] + b[j + 1..]);
    }
  }

  /** Taking element `j` out takes its contribution out of the total. */
  lemma CurrentMonthTotalRemoveAt(b: seq<Expense>, j: int, month: int, year: int, parse: DateParser)
    requires 0 <= j < |b|
    ensures CurrentMonthTotal(b, month, year, parse)
            == CurrentMonthTotal([b[j]], month, year, parse) + CurrentMonthTotal(b[..j] + b[j + 1..], month, year, parse)
  {
    Sequences.SplitAt(b, j);
    CurrentMonthTotalAppend(b[..j] + [b[j]], b[j + 1..], month, year, parse);
    CurrentMonthTotalAppend(b[..j], [b[j]], month, year, parse);
    CurrentMonthTotalAppend(b[..j], b[j + 1..], month, year, parse);
  }

  /** The total does not depend on the order of the list. */
  lemma {:induction false} CurrentMonthTotalPermutation(a: seq<Expense>, b: seq<Expense>, month: int, year: int, parse: DateParser)
    requires multiset(a) == multiset(b)
    ensures CurrentMonthTotal(a, month, year, parse) == CurrentMonthTotal(b, month, year, parse)
    decreases |a|
  {
    if a == [] {
      assert b == [];
    } else {
      var j := MatchFirst(a, b);
      assert a[..0] + a[1..] == a[1..];
      CurrentMonthTotalPermutation(a[1..], b[..j] + b[j + 1..], month, year, parse);
      CurrentMonthTotalRemoveAt(a, 0, month, year, parse);
      CurrentMonthTotalRemoveAt(b, j, month, year, parse);
    }
  }

  /** With no negative amounts the total is not negative. */
  lemma {:induction false} CurrentMonthTotalNonNegative(expenses: seq<Expense>, month: int, year: int, parse: DateParser)
    requires forall e :: e in expenses ==> e.amount >= 0
    ensures CurrentMonthTotal(expenses, month, year, parse) >= 0
  {
    if expenses != [] {
      CurrentMonthTotalNonNegative(expenses[1..], month, year, parse);
      CurrentMonthTotalAppend([expenses[0]], expenses[1..], month, year, parse);
      assert [expenses[0]] + expenses[1..] == expenses;
      CurrentMonthTotalSingle(expenses[0], month, year, parse);
    }
  }

  // ---------------------------------------------------------------------------
  // The category index (`prepareMasterDataByObject`)
  // ---------------------------------------------------------------------------

  /** No later record of the list has the same id as record `k`. */
  predicate IsLastWithId(masterData: seq<MasterData>, k: int, upTo: int)
    requires 0 <= k < upTo <= |masterData|
  {
    forall j :: k < j < upTo ==> masterData[j].id != masterData[k].id
  }

  /**
   * Builds the id-to-title dictionary: its keys are exactly the ids of the
   * list, and each id maps to the title of the last record carrying it.
   */
  method PrepareMasterDataByObject(masterData: seq<MasterData>) returns (index: map<string, string>)
    ensures index.Keys == set k | 0 <= k < |masterData| :: masterData[k].id
    ensures forall k :: 0 <= k < |masterData| && IsLastWithId(masterData, k, |masterData|)
                        ==> index[masterData[k].id] == masterData[k].title
  {
    index := map[];
    var i := 0;
    while i < |masterData|
      invariant 0 <= i <= |masterData|
      invariant index.Keys == set k | 0 <= k < i :: masterData[k].id
      invariant forall k :: 0 <= k < i && IsLastWithId(masterData, k, i) ==> index[masterData[k].id] == masterData[k].title
    {
      index := index[masterData[i].id := masterData[i].title];
      i := i + 1;
    }
  }

  // ---------------------------------------------------------------------------
  // The page's filter state and category index
  // ---------------------------------------------------------------------------

  /** The state the page keeps with `useState`. */
  class ExpensesPageState {
    var frontendFilters: FrontendFilters
    var backendDateFilter: string
    var masterDataById: map<string, string>

    /** The initial state: `{}`, `''` and `{}`. */
    constructor ()
      ensures frontendFilters == NoFilters && backendDateFilter == "" && masterDataById == map[]
    {
      frontendFilters := NoFilters;
      backendDateFilter := "";
      masterDataById := map[];
    }

    /** `hasActiveFilters`: some client-side filter or the server-side date bound is a non-empty string. */
    function HasActiveFilters(): (r: bool)
      reads this
      ensures r <==> (exists k :: Text.Truthy(frontendFilters.Get(k))) || backendDateFilter != ""
    {
      frontendFilters.AnyActive() || backendDateFilter != ""
    }

    /** The argument the expenses query passes to `getExpenses`. */
    function ExpensesQueryFilters(): (r: Option<ExpenseService.GetExpensesFilters>)
      reads this
      ensures r.Some? <==> backendDateFilter != ""
      ensures r.Some? ==> r.value.dateTo == Some(backendDateFilter)
      ensures ExpenseService.HasDateTo(r) <==> backendDateFilter != ""
    {
      if backendDateFilter != "" then Some(ExpenseService.GetExpensesFilters(Some(backendDateFilter))) else None
    }

    /** `handleFrontendFilterChange`: only the named client-side filter changes. */
    method HandleFrontendFilterChange(key: FilterKey, value: Option<string>)
      modifies this
      ensures frontendFilters == old(frontendFilters).With(key, value)
      ensures backendDateFilter == old(backendDateFilter) && masterDataById == old(masterDataById)
    {
      frontendFilters := frontendFilters.With(key, value);
    }

    /** `handleDateToFilterChange`: records the server-side upper date bound. */
    method HandleDateToFilterChange(dateTo: string)
      modifies this
      ensures backendDateFilter == dateTo
      ensures frontendFilters == old(frontendFilters) && masterDataById == old(masterDataById)
    {
      backendDateFilter := dateTo;
    }

    /** `handleClearFilters`: every filter is reset, after which none is active. */
    method HandleClearFilters()
      modifies this
      ensures frontendFilters == NoFilters && backendDateFilter == ""
      ensures masterDataById == old(masterDataById)
      ensures !HasActiveFilters()
    {
      frontendFilters := NoFilters;
      backendDateFilter := "";
    }

    /**
     * The effect run when the category list changes: a non-empty list
     * rebuilds the index in full; an empty one leaves it as it was.
     */
    method OnMasterDataChange(masterData: seq<MasterData>)
      modifies this
      ensures masterData == [] ==> masterDataById == old(masterDataById)
      ensures masterData != [] ==>
        && masterDataById.Keys == (set k | 0 <= k < |masterData| :: masterData[k].id)
        && (forall k :: 0 <= k < |masterData| && IsLastWithId(masterData, k, |masterData|)
              ==> masterDataById[masterData[k].id] == masterData[k].title)
      ensures frontendFilters == old(frontendFilters) && backendDateFilter == old(backendDateFilter)
    {
      if |masterData| > 0 {
        masterDataById := PrepareMasterDataByObject(masterData);
      }
    }
  }

  /**
   * With no filter active the table shows every fetched expense, and the
   * expenses are fetched without a `dateTo` parameter.
   */
  lemma NoActiveFiltersShowEverything(page: ExpensesPageState, expenses: seq<Expense>, parse: DateParser)
    requires !page.HasActiveFilters()
    ensures FilteredExpenses(expenses, page.frontendFilters, parse) == expenses
    ensures page.ExpensesQueryFilters() == None
  {
    assert !Text.Truthy(page.frontendFilters.Get(ExpenseType));
    assert !Text.Truthy(page.frontendFilters.Get(Description));
    assert !Text.Truthy(page.frontendFilters.Get(DateFrom));
    FilteredWithoutFilters(expenses, page.frontendFilters, parse);
  }

}
