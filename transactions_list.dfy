/** The transactions page: a case-insensitive search over the records, a
    fixed page size of 10 with a slice window per page, income / expense /
    balance totals over the unfiltered records, and the component state
    (search text and current page) that the search box and the pagination
    buttons update. */
module Transactions {
  import opened TransactionTable
  import Pagination

  const ItemsPerPage: nat := 10

  // ---------------------------------------------------------------------
  // Case-insensitive substring search
  // ---------------------------------------------------------------------

  /** `toLowerCase` on one character, restricted to ASCII letters. */
  function LowerChar(c: char): char
  {
    if 'A' <= c <= 'Z' then (c as int + 32) as char else c
  }

  /** Two characters are equal up to ASCII case: the same character, or an
      upper-case letter and its lower-case counterpart. */
  predicate SameIgnoringAsciiCase(a: char, b: char)
  {
    a == b ||
    ('A' <= a <= 'Z' && b as int == a as int + 32) ||
    ('A' <= b <= 'Z' && a as int == b as int + 32)
  }

  /** `toLowerCase`: every upper-case ASCII letter becomes its lower-case
      letter, and every other character is kept. */
  function ToLower(s: string): (r: string)
    ensures |r| == |s|
    ensures forall i :: 0 <= i < |r| ==> !('A' <= r[i] <= 'Z')
    ensures forall i :: 0 <= i < |s| && !('A' <= s[i] <= 'Z') ==> r[i] == s[i]
    ensures forall i :: 0 <= i < |s| ==> SameIgnoringAsciiCase(s[i], r[i])
  {
    seq(|s|, i requires 0 <= i < |s| => LowerChar(s[i]))
  }

  /** Two characters lower-case alike iff they are equal up to ASCII case. */
  lemma LowerCharEqualIff(a: char, b: char)
    ensures LowerChar(a) == LowerChar(b) <==> SameIgnoringAsciiCase(a, b)
  {
  }

  /** Lower-casing identifies exactly the strings that are equal up to ASCII
      case, character by character: this is what makes the search
      case-insensitive. */
  lemma ToLowerEqualIff(a: string, b: string)
    ensures ToLower(a) == ToLower(b) <==>
              |a| == |b| && forall i :: 0 <= i < |a| ==> SameIgnoringAsciiCase(a[i], b[i])
  {
    if |a| == |b| {
      forall i | 0 <= i < |a|
        ensures ToLower(a)[i] == ToLower(b)[i] <==> SameIgnoringAsciiCase(a[i], b[i])
      {
        LowerCharEqualIff(a[i], b[i]);
      }
      if forall i :: 0 <= i < |a| ==> SameIgnoringAsciiCase(a[i], b[i]) {
        assert forall i :: 0 <= i < |a| ==> ToLower(a)[i] == ToLower(b)[i];
      }
    }
  }

  /** `needle` occurs in `hay` starting at index `i`. */
  ghost predicate OccursAt(hay: string, needle: string, i: int)
  {
    0 <= i && i + |needle| <= |hay| && hay[i..i + |needle|] == needle
  }

  /** `hay.includes(needle)`: try every start position from the left. */
  function Includes(hay: string, needle: string): bool
    decreases |hay|
  {
    if |needle| > |hay| then false
    else if hay[..|needle|] == needle then true
    else Includes(hay[1..], needle)
  }

  /** `includes` finds exactly the strings that occur somewhere in `hay`. */
  lemma {:induction false} IncludesIff(hay: string, needle: string)
    ensures Includes(hay, needle) <==> exists i :: OccursAt(hay, needle, i)
    decreases |hay|
  {
    if |needle| > |hay| {
    } else if hay[..|needle|] == needle {
      assert OccursAt(hay, needle, 0);
    } else {
      IncludesIff(hay[1..], needle);
      if Includes(hay, needle) {
        var j :| OccursAt(hay[1..], needle, j);
        assert hay[1..][j..j + |needle|] == hay[j + 1..j + 1 + |needle|];
        assert OccursAt(hay, needle, j + 1);
      }
      if i :| OccursAt(hay, needle, i) {
        assert i != 0;
        assert hay[1..][i - 1..i - 1 + |needle|] == hay[i..i + |needle|];
        assert OccursAt(hay[1..], needle, i - 1);
      }
    }
  }

  /** The empty query occurs in every string. */
  lemma IncludesEmpty(hay: string)
    ensures Includes(hay, "")
  {
  }

  /** The search predicate of the list, applied to one record. */
  predicate Matches(t: Transaction, query: string)
  {
    Includes(ToLower(t.description), ToLower(query)) ||
    Includes(ToLower(t.reference), ToLower(query))
  }

  /** `transactions.filter(t => Matches(t, query))`, in order. */
  function Filter(s: seq<Transaction>, query: string): (r: seq<Transaction>)
    ensures |r| <= |s|
    ensures forall t :: t in r ==> t in s && Matches(t, query)
  {
    if s == [] then []
    else (if Matches(s[0], query) then [s[0]] else []) + Filter(s[1..], query)
  }

  /** `a` is `b` with some elements left out, the rest kept in order. */
  ghost predicate IsSubsequence<T>(a: seq<T>, b: seq<T>)
    decreases |b|
  {
    a == [] ||
    (b != [] && ((a[0] == b[0] && IsSubsequence(a[1..], b[1..])) || IsSubsequence(a, b[1..])))
  }

  /** A record is kept iff its lower-cased description or reference contains
      the lower-cased query. */
  lemma {:induction false} FilterKeepsExactlyMatches(s: seq<Transaction>, query: string, t: Transaction)
    ensures t in Filter(s, query) <==> t in s && Matches(t, query)
  {
    if s != [] {
      FilterKeepsExactlyMatches(s[1..], query, t);
      assert s == [s[0]] + s[1..];
    }
  }

  /** The filter keeps the records in their original order. */
  lemma {:induction false} FilterIsSubsequence(s: seq<Transaction>, query: string)
    ensures IsSubsequence(Filter(s, query), s)
  {
    if s != [] {
      FilterIsSubsequence(s[1..], query);
      var r := Filter(s, query);
      if Matches(s[0], query) {
        assert r[0] == s[0] && r[1..] == Filter(s[1..], query);
      } else {
        assert r == Filter(s[1..], query);
      }
    }
  }

  /** An empty search box keeps every record. */
  lemma {:induction false} FilterEmptyQuery(s: seq<Transaction>)
    ensures Filter(s, "") == s
  {
    if s != [] {
      IncludesEmpty(ToLower(s[0].description));
      FilterEmptyQuery(s[1..]);
    }
  }

  // ---------------------------------------------------------------------
  // Pagination arithmetic
  // ---------------------------------------------------------------------

  /** `Math.ceil(totalItems / itemsPerPage)`. */
  function TotalPages(totalItems: nat): (p: nat)
    ensures p * ItemsPerPage >= totalItems
    ensures totalItems > 0 ==> (p - 1) * ItemsPerPage < totalItems
    ensures totalItems == 0 <==> p == 0
  {
    (totalItems + ItemsPerPage - 1) / ItemsPerPage
  }

  function StartIndex(page: int): int
  {
    (page - 1) * ItemsPerPage
  }

  function EndIndex(page: int): int
  {
    StartIndex(page) + ItemsPerPage
  }

  /** How `Array.prototype.slice` turns an index into a position in a list
      of length `len`: negative indices count from the end, and the result is
      clamped to `[0, len]`. */
  function SliceBound(len: nat, k: int): (b: nat)
    ensures b <= len
    ensures 0 <= k ==> b == Pagination.Min(k, len)
  {
    if k < 0 then (if len + k < 0 then 0 else len + k)
    else if k > len then len
    else k
  }

  /** `s.slice(start, end)`. */
  function Slice<T>(s: seq<T>, start: int, end: int): (r: seq<T>)
    ensures |r| <= |s|
    ensures 0 <= start <= end ==> r == s[Pagination.Min(start, |s|)..Pagination.Min(end, |s|)]
  {
    var b, e := SliceBound(|s|, start), SliceBound(|s|, end);
    if b < e then s[b..e] else []
  }

  /** The records shown on page `page`: `filtered.slice(startIndex, endIndex)`. */
  function PageWindow<T>(filtered: seq<T>, page: int): (r: seq<T>)
    ensures |r| <= ItemsPerPage
    ensures 1 <= page ==>
              r == filtered[Pagination.Min(StartIndex(page), |filtered|)..Pagination.Min(EndIndex(page), |filtered|)]
  {
    Slice(filtered, StartIndex(page), EndIndex(page))
  }

  /** Pages 1 to `k`, one after the other. */
  function PagesUpTo<T>(filtered: seq<T>, k: nat): seq<T>
  {
    if k == 0 then [] else PagesUpTo(filtered, k - 1) + PageWindow(filtered, k)
  }

  lemma {:induction false} PagesUpToIsPrefix<T>(filtered: seq<T>, k: nat)
    ensures PagesUpTo(filtered, k) == filtered[..Pagination.Min(k * ItemsPerPage, |filtered|)]
  {
    if k > 0 {
      PagesUpToIsPrefix(filtered, k - 1);
    }
  }

  /** The windows of pages 1 to `totalPages` put back together are exactly
      the filtered list: nothing is skipped and nothing is shown twice. */
  lemma WindowsPartition<T>(filtered: seq<T>)
    ensures PagesUpTo(filtered, TotalPages(|filtered|)) == filtered
  {
    PagesUpToIsPrefix(filtered, TotalPages(|filtered|));
  }

  /** Page 0 and every page past the last show nothing. */
  lemma WindowOutOfRangeIsEmpty<T>(filtered: seq<T>, page: int)
    requires page == 0 || page > TotalPages(|filtered|)
    ensures PageWindow(filtered, page) == []
  {
  }

  /** For a page in range the caption counts exactly the records in the
      window, and stays within `1..totalItems`. */
  lemma CaptionMatchesWindow<T>(filtered: seq<T>, page: int)
    requires 1 <= page <= TotalPages(|filtered|)
    ensures var v := Pagination.Render(page, TotalPages(|filtered|), |filtered|, StartIndex(page), EndIndex(page));
            1 <= v.first <= v.last <= |filtered| &&
            v.last - v.first + 1 == |PageWindow(filtered, page)| &&
            PageWindow(filtered, page) == filtered[v.first - 1..v.last]
  {
  }

  // ---------------------------------------------------------------------
  // Totals
  // ---------------------------------------------------------------------

  /** `transactions.filter(t => t.type === kind)`. */
  function OfKind(s: seq<Transaction>, kind: Direction): (r: seq<Transaction>)
    ensures forall t :: t in r ==> t.kind == kind
  {
    if s == [] then [] else (if s[0].kind == kind then [s[0]] else []) + OfKind(s[1..], kind)
  }

  /** `.reduce((acc, curr) => acc + curr.amount, 0)`, a left fold. */
  function SumAmounts(s: seq<Transaction>): int
  {
    if s == [] then 0 else SumAmounts(s[..|s| - 1]) + s[|s| - 1].amount
  }

  datatype Stats = Stats(income: int, expenses: int, balance: int)

  function ComputeStats(all: seq<Transaction>): Stats
  {
    var income := SumAmounts(OfKind(all, Credit));
    var expenses := SumAmounts(OfKind(all, Debit));
    Stats(income, expenses, income - expenses)
  }

  /** The amounts of the records of one kind, added front to back. */
  function KindTotal(s: seq<Transaction>, kind: Direction): int
  {
    if s == [] then 0 else (if s[0].kind == kind then s[0].amount else 0) + KindTotal(s[1..], kind)
  }

  /** What the records add to the balance, credits in and debits out, front to back. */
  function NetFlow(s: seq<Transaction>): int
  {
    if s == [] then 0 else (if s[0].kind == Credit then s[0].amount else -s[0].amount) + NetFlow(s[1..])
  }

  lemma {:induction false} SumAmountsAppend(a: seq<Transaction>, b: seq<Transaction>)
    ensures SumAmounts(a + b) == SumAmounts(a) + SumAmounts(b)
    decreases |b|
  {
    if b == [] {
      assert a + b == a;
    } else {
      assert (a + b)[..|a + b| - 1] == a + b[..|b| - 1];
      SumAmountsAppend(a, b[..|b| - 1]);
    }
  }

  /** Filtering by kind and then reducing adds up exactly the amounts of that kind. */
  lemma {:induction false} SumOfKind(s: seq<Transaction>, kind: Direction)
    ensures SumAmounts(OfKind(s, kind)) == KindTotal(s, kind)
  {
    if s != [] {
      SumOfKind(s[1..], kind);
      var head := if s[0].kind == kind then [s[0]] else [];
      SumAmountsAppend(head, OfKind(s[1..], kind));
      assert SumAmounts([s[0]]) == s[0].amount by {
        assert [s[0]][..0] == [];
      }
    }
  }

  lemma {:induction false} NetFlowIsDifference(s: seq<Transaction>)
    ensures NetFlow(s) == KindTotal(s, Credit) - KindTotal(s, Debit)
  {
    if s != [] {
      NetFlowIsDifference(s[1..]);
    }
  }

  /** Income and expenses are the credit and debit totals of all records,
      and the balance is their net flow. */
  lemma BalanceIsNetFlow(all: seq<Transaction>)
    ensures ComputeStats(all).income == KindTotal(all, Credit)
    ensures ComputeStats(all).expenses == KindTotal(all, Debit)
    ensures ComputeStats(all).balance == NetFlow(all)
  {
    SumOfKind(all, Credit);
    SumOfKind(all, Debit);
    NetFlowIsDifference(all);
  }

  /** With no negative amounts, each total is non-negative. */
  lemma {:induction false} TotalsNonNegative(all: seq<Transaction>, kind: Direction)
    requires forall t :: t in all ==> t.amount >= 0
    ensures KindTotal(all, kind) >= 0
  {
    if all != [] {
      assert all[0] in all;
      TotalsNonNegative(all[1..], kind);
    }
  }

  // ---------------------------------------------------------------------
  // The records the list shows
  // ---------------------------------------------------------------------

  const MockTransactions: seq<Transaction> := [
    Transaction("1", 1500000, Credit, "Salary payment - January 2024", "2024-12-20T09:15:00", Completed, "TXN-2024-001234"),
    Transaction("2", 500000, Debit, "Bank transfer to Jane Smith", "2024-12-19T14:32:00", Completed, "TXN-2024-001233"),
    Transaction("3", 250000, Credit, "Payment received from ABC Company", "2024-12-18T11:45:00", Completed, "TXN-2024-001232"),
    Transaction("4", 75000, Debit, "Utility bill payment - December", "2024-12-17T16:20:00", Pending, "TXN-2024-001231"),
    Transaction("5", 1200000, Credit, "Refund from merchant - Order #12345", "2024-12-16T10:30:00", Completed, "TXN-2024-001230"),
    Transaction("6", 35000, Debit, "ATM withdrawal - Branch XYZ", "2024-12-15T08:15:00", Completed, "TXN-2024-001229"),
    Transaction("7", 2000000, Credit, "Investment return payment", "2024-12-14T13:50:00", Completed, "TXN-2024-001228"),
    Transaction("8", 150000, Debit, "Subscription renewal - Premium Plan", "2024-12-13T12:00:00", Completed, "TXN-2024-001227"),
    Transaction("9", 850000, Credit, "Freelance payment - Project Alpha", "2024-12-12T15:25:00", Pending, "TXN-2024-001226"),
    Transaction("10", 45000, Debit, "Mobile airtime purchase", "2024-12-11T07:40:00", Completed, "TXN-2024-001225"),
    Transaction("11", 320000, Debit, "Online purchase - E-commerce Store", "2024-12-10T18:55:00", Completed, "TXN-2024-001224"),
    Transaction("12", 1800000, Credit, "Loan disbursement", "2024-12-09T09:30:00", Completed, "TXN-2024-001223")
  ]

  /** Any twelve records with an empty search: two pages, the second holding the last two. */
  lemma TwelveRecordsEmptyQuery(s: seq<Transaction>)
    requires |s| == 12
    ensures TotalPages(|Filter(s, "")|) == 2
    ensures PageWindow(Filter(s, ""), 2) == s[10..12]
  {
    FilterEmptyQuery(s);
  }

  /** With an empty search the list has two pages, and page 2 holds records 11 and 12. */
  lemma MockPages()
    ensures TotalPages(|Filter(MockTransactions, "")|) == 2
    ensures PageWindow(Filter(MockTransactions, ""), 2) == MockTransactions[10..12]
    ensures MockTransactions[10].id == "11" && MockTransactions[11].id == "12"
  {
    var m := MockTransactions;
    assert |m| == 12;
    TwelveRecordsEmptyQuery(m);
  }

  /** The three cards above the list, for the records it shows. */
  lemma MockStats()
    ensures ComputeStats(MockTransactions) == Stats(7600000, 1125000, 6475000)
  {
    assert KindTotal(MockTransactions, Credit) == 7600000;
    assert KindTotal(MockTransactions, Debit) == 1125000;
    BalanceIsNetFlow(MockTransactions);
  }

  // ---------------------------------------------------------------------
  // Component state
  // ---------------------------------------------------------------------

  /** The list component: the records it shows, the search text and the
      current page. Everything else on the page is derived from these. */
  class TransactionsList {
    const transactions: seq<Transaction>
    var searchQuery: string
    var currentPage: int

    /** The page the user is on exists whenever there is something to show. */
    predicate PageInRange()
      reads this
    {
      1 <= currentPage && (TotalItems() > 0 ==> currentPage <= TotalPagesShown())
    }

    constructor ()
      ensures transactions == MockTransactions && searchQuery == "" && currentPage == 1
      ensures PageInRange()
    {
      transactions := MockTransactions;
      searchQuery := "";
      currentPage := 1;
    }

    function FilteredTransactions(): (r: seq<Transaction>)
      reads this
      ensures forall t :: t in r <==> t in transactions && Matches(t, searchQuery)
    {
      var r := Filter(transactions, searchQuery);
      assert forall t :: t in r <==> t in transactions && Matches(t, searchQuery) by {
        forall t ensures t in r <==> t in transactions && Matches(t, searchQuery) {
          FilterKeepsExactlyMatches(transactions, searchQuery, t);
        }
      }
      r
    }

    function TotalItems(): nat
      reads this
    {
      |FilteredTransactions()|
    }

    function TotalPagesShown(): nat
      reads this
    {
      TotalPages(TotalItems())
    }

    /** The rows the table shows. */
    function CurrentTransactions(): (r: seq<Transaction>)
      reads this
      ensures |r| <= ItemsPerPage
      ensures forall t :: t in r ==> t in transactions && Matches(t, searchQuery)
    {
      PageWindow(FilteredTransactions(), currentPage)
    }

    /** The pagination control is rendered only when something matched. */
    predicate ShowsPagination()
      reads this
    {
      TotalItems() > 0
    }

    /** The totals cards: over every record, whatever the search or the page. */
    function CurrentStats(): (r: Stats)
      reads this
      ensures r.balance == NetFlow(transactions)
    {
      BalanceIsNetFlow(transactions);
      ComputeStats(transactions)
    }

    /** `handlePageChange`: stores the requested page as it is, unclamped. */
    method HandlePageChange(page: int)
      modifies this
      ensures currentPage == page && searchQuery == old(searchQuery)
    {
      currentPage := page;
    }

    /** `handleSearchChange`: new search text, back to page 1. */
    method HandleSearchChange(value: string)
      modifies this
      ensures searchQuery == value && currentPage == 1
      ensures PageInRange()
    {
      searchQuery := value;
      currentPage := 1;
    }

    /** A click on Previous (the control is on screen only when something
        matched): requests the page before, unless disabled. */
    method ClickPrevious()
      requires PageInRange() && ShowsPagination()
      modifies this
      ensures PageInRange() && searchQuery == old(searchQuery)
      ensures currentPage == if old(currentPage) <= 1 then old(currentPage) else old(currentPage) - 1
    {
      var button := Pagination.Previous(currentPage);
      if !button.disabled {
        HandlePageChange(button.target);
      }
    }

    /** A click on Next (the control is on screen only when something
        matched): requests the page after, unless disabled. */
    method ClickNext()
      requires PageInRange() && ShowsPagination()
      modifies this
      ensures PageInRange() && searchQuery == old(searchQuery)
      ensures currentPage == if old(currentPage) >= old(TotalPagesShown()) then old(currentPage) else old(currentPage) + 1
    {
      var button := Pagination.Next(currentPage, TotalPagesShown());
      if !button.disabled {
        HandlePageChange(button.target);
      }
    }
  }
}
