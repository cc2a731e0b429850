/**
 * The student list page (app/students/page.tsx): the pagination arithmetic,
 * the page-button list with its '...' markers, and the page state that the
 * previous/next/click handlers and the user loader update.
 */
module Students {
  import opened Wrappers

  /** Rows fetched per page (`usersPerPage`). */
  const UsersPerPage: int := 10
  /** Pages shown on each side of the current one (`delta` in getVisiblePages). */
  const Delta: int := 2
  /** The message shown when a fetch fails. */
  const FetchErrorMessage: string := "Failed to fetch users. Please try again."

  function Max(a: int, b: int): int { if a >= b then a else b }
  function Min(a: int, b: int): int { if a <= b then a else b }

  // ---------------------------------------------------------------------------
  // Fetch offset, page count and the "Showing X to Y" line
  // ---------------------------------------------------------------------------

  /** The `skip` query parameter for a page. */
  function Skip(page: int): int
  {
    (page - 1) * UsersPerPage
  }

  /** `Math.ceil(total / usersPerPage)`: the fewest pages that hold `total` rows. */
  function PageCount(total: nat): (pages: nat)
    ensures pages * UsersPerPage >= total
    ensures pages == 0 || (pages - 1) * UsersPerPage < total
    ensures pages == 0 <==> total == 0
  {
    (total + UsersPerPage - 1) / UsersPerPage
  }

  /** First row number in "Showing X to Y of N students". */
  function ShowingFrom(currentPage: int): int
  {
    (currentPage - 1) * UsersPerPage + 1
  }

  /** Last row number in "Showing X to Y of N students". */
  function ShowingTo(currentPage: int, totalUsers: int): int
  {
    Min(currentPage * UsersPerPage, totalUsers)
  }

  /** A page inside the page count starts at a row that exists. */
  lemma SkipInsideTotal(page: int, total: nat)
    requires 1 <= page <= PageCount(total)
    ensures 0 <= Skip(page) < total
  {
  }

  /**
   * For a page inside the page count, the "Showing" line names a non-empty
   * range of existing rows, exactly the rows of the fetched slice.
   */
  lemma ShowingRange(currentPage: int, total: nat)
    requires 1 <= currentPage <= PageCount(total)
    ensures ShowingFrom(currentPage) == Skip(currentPage) + 1
    ensures 1 <= ShowingFrom(currentPage) <= ShowingTo(currentPage, total) <= total
    ensures ShowingTo(currentPage, total) - ShowingFrom(currentPage) + 1
            == Min(UsersPerPage, total - Skip(currentPage))
    ensures ShowingTo(currentPage, total) - ShowingFrom(currentPage) + 1 <= UsersPerPage
  {
  }

  // ---------------------------------------------------------------------------
  // The page-button list
  // ---------------------------------------------------------------------------

  /** One entry of the page-button list: a page number or the '...' marker. */
  datatype PageItem = Num(page: int) | Dots

  /** The consecutive pages lo, lo+1, ..., hi; empty when lo > hi. */
  function Consecutive(lo: int, hi: int): (s: seq<int>)
    ensures |s| == if lo <= hi then hi - lo + 1 else 0
    ensures forall k :: 0 <= k < |s| ==> s[k] == lo + k
    decreases hi - lo
  {
    if lo > hi then [] else [lo] + Consecutive(lo + 1, hi)
  }

  /** Extending the window by one page appends that page. */
  lemma ConsecutiveSnoc(lo: int, hi: int)
    requires lo <= hi
    ensures Consecutive(lo, hi) == Consecutive(lo, hi - 1) + [hi]
  {
  }

  /** Page numbers as button entries. */
  function AsItems(s: seq<int>): (items: seq<PageItem>)
    ensures |items| == |s|
    ensures forall k :: 0 <= k < |s| ==> items[k] == Num(s[k])
  {
    if s == [] then [] else [Num(s[0])] + AsItems(s[1..])
  }

  /** The page numbers of a button list, in order, with the markers dropped. */
  function Numbers(items: seq<PageItem>): seq<int>
  {
    if items == [] then []
    else match items[0]
      case Num(p) => [p] + Numbers(items[1..])
      case Dots => Numbers(items[1..])
  }

  lemma {:induction false} NumbersAppend(a: seq<PageItem>, b: seq<PageItem>)
    ensures Numbers(a + b) == Numbers(a) + Numbers(b)
  {
    if a == [] {
      assert a + b == b;
    } else {
      assert (a + b)[0] == a[0];
      assert (a + b)[1..] == a[1..] + b;
      NumbersAppend(a[1..], b);
    }
  }

  /** The numbers of a list that starts and ends with a number. */
  lemma NumbersInterior(r: seq<PageItem>)
    requires |r| >= 2 && r[0].Num? && r[|r| - 1].Num?
    ensures Numbers(r) == [r[0].page] + Numbers(r[1..|r| - 1]) + [r[|r| - 1].page]
  {
    assert r == [r[0]] + r[1..|r| - 1] + [r[|r| - 1]];
    NumbersAppend([r[0]] + r[1..|r| - 1], [r[|r| - 1]]);
    NumbersAppend([r[0]], r[1..|r| - 1]);
    assert Numbers([r[0]]) == [r[0].page];
    assert Numbers([r[|r| - 1]]) == [r[|r| - 1].page];
  }

  /** Dropping the markers from number buttons gives back the numbers. */
  lemma {:induction false} NumbersOfItems(s: seq<int>)
    ensures Numbers(AsItems(s)) == s
  {
    if s != [] {
      assert AsItems(s)[1..] == AsItems(s[1..]);
      NumbersOfItems(s[1..]);
    }
  }

  /** The gap between page 1 and the window is hidden behind '...'. */
  predicate HidesLeading(currentPage: int)
  {
    currentPage - Delta > 2
  }

  /** The gap between the window and the last page is hidden behind '...'. */
  predicate HidesTrailing(currentPage: int, totalPages: int)
  {
    currentPage + Delta < totalPages - 1
  }

  function WindowLo(currentPage: int): int
  {
    Max(2, currentPage - Delta)
  }

  function WindowHi(currentPage: int, totalPages: int): int
  {
    Min(totalPages - 1, currentPage + Delta)
  }

  /**
   * `getVisiblePages`: page 1, an optional '...', the window of pages around
   * the current one, an optional '...', and the last page.
   */
  function VisiblePages(currentPage: int, totalPages: int): (r: seq<PageItem>)
    ensures 2 <= |r| <= 9
    ensures r[0] == Num(1) && r[|r| - 1] == Num(totalPages)
  {
    (if HidesLeading(currentPage) then [Num(1), Dots] else [Num(1)])
    + AsItems(Consecutive(WindowLo(currentPage), WindowHi(currentPage, totalPages)))
    + (if HidesTrailing(currentPage, totalPages) then [Dots, Num(totalPages)] else [Num(totalPages)])
  }

  /**
   * The numbers of the list are page 1, the window max(2, current-2) ..
   * min(total-1, current+2), and the last page; and the list holds exactly one
   * '...' per hidden gap.
   */
  lemma VisibleNumbers(currentPage: int, totalPages: int)
    ensures Numbers(VisiblePages(currentPage, totalPages))
            == [1] + Consecutive(WindowLo(currentPage), WindowHi(currentPage, totalPages)) + [totalPages]
    ensures |VisiblePages(currentPage, totalPages)| - |Numbers(VisiblePages(currentPage, totalPages))|
            == (if HidesLeading(currentPage) then 1 else 0)
             + (if HidesTrailing(currentPage, totalPages) then 1 else 0)
  {
    var lead := if HidesLeading(currentPage) then [Num(1), Dots] else [Num(1)];
    var window := Consecutive(WindowLo(currentPage), WindowHi(currentPage, totalPages));
    var trail := if HidesTrailing(currentPage, totalPages) then [Dots, Num(totalPages)] else [Num(totalPages)];
    assert VisiblePages(currentPage, totalPages) == lead + AsItems(window) + trail;
    NumbersAppend(lead + AsItems(window), trail);
    NumbersAppend(lead, AsItems(window));
    NumbersOfItems(window);
    assert Numbers([Dots]) == [];
    assert Numbers([Num(totalPages)]) == [totalPages];
    assert Numbers(lead) == [1] by {
      assert lead[1..] == [] || lead[1..] == [Dots];
    }
    assert Numbers(trail) == [totalPages] by {
      assert trail[1..] == [] || trail[1..] == [Num(totalPages)];
    }
  }

  /**
   * The numbers strictly between the first and the last entry are exactly the
   * consecutive window max(2, current-2) .. min(total-1, current+2).
   */
  lemma VisibleMiddle(currentPage: int, totalPages: int)
    ensures var r := VisiblePages(currentPage, totalPages);
            Numbers(r[1..|r| - 1]) == Consecutive(WindowLo(currentPage), WindowHi(currentPage, totalPages))
  {
    var r := VisiblePages(currentPage, totalPages);
    var window := Consecutive(WindowLo(currentPage), WindowHi(currentPage, totalPages));
    VisibleNumbers(currentPage, totalPages);
    NumbersInterior(r);
    var ns := Numbers(r);
    assert ns[1..|ns| - 1] == window;
    assert ns[1..|ns| - 1] == Numbers(r[1..|r| - 1]);
  }

  /**
   * For a current page of at least 1, a '...' follows page 1 exactly when
   * current - 2 > 2. A '...' precedes the last page when current + 2 <
   * total - 1, and, for a current page inside the page count, only then.
   */
  lemma VisibleDots(currentPage: int, totalPages: int)
    ensures var r := VisiblePages(currentPage, totalPages);
            1 <= currentPage ==> (r[1] == Dots <==> HidesLeading(currentPage))
    ensures var r := VisiblePages(currentPage, totalPages);
            HidesTrailing(currentPage, totalPages) ==> r[|r| - 2] == Dots
    ensures var r := VisiblePages(currentPage, totalPages);
            1 <= currentPage <= totalPages ==> (r[|r| - 2] == Dots <==> HidesTrailing(currentPage, totalPages))
  {
  }

  predicate StrictlyIncreasing(s: seq<int>)
  {
    forall i, j :: 0 <= i < j < |s| ==> s[i] < s[j]
  }

  /** Page 1, a window inside 2 .. last-1, and the last page: in range, and increasing when last >= 2. */
  lemma FramedWindow(lo: int, hi: int, last: int)
    requires 2 <= lo && hi <= last - 1 && 1 <= last
    ensures var ns := [1] + Consecutive(lo, hi) + [last];
            forall k :: 0 <= k < |ns| ==> 1 <= ns[k] <= last
    ensures last >= 2 ==> StrictlyIncreasing([1] + Consecutive(lo, hi) + [last])
  {
  }

  /**
   * With the current page inside the page count, every button names a page
   * that exists, the current page has a button, and with two pages or more the
   * numbers strictly increase.
   */
  lemma VisiblePagesWellFormed(currentPage: int, totalPages: int)
    requires 1 <= currentPage <= totalPages
    ensures var ns := Numbers(VisiblePages(currentPage, totalPages));
            forall k :: 0 <= k < |ns| ==> 1 <= ns[k] <= totalPages
    ensures currentPage in Numbers(VisiblePages(currentPage, totalPages))
    ensures totalPages >= 2 ==> StrictlyIncreasing(Numbers(VisiblePages(currentPage, totalPages)))
  {
    var lo, hi := WindowLo(currentPage), WindowHi(currentPage, totalPages);
    var window := Consecutive(lo, hi);
    var ns := [1] + window + [totalPages];
    VisibleNumbers(currentPage, totalPages);
    FramedWindow(lo, hi, totalPages);
    if 1 < currentPage < totalPages {
      assert ns[1 + currentPage - lo] == window[currentPage - lo] == currentPage;
    } else if currentPage == totalPages {
      assert ns[|ns| - 1] == currentPage;
    } else {
      assert ns[0] == currentPage;
    }
  }

  /** Every entry that is a number lies in 1 .. totalPages (inside the page count). */
  lemma VisibleEntriesInRange(currentPage: int, totalPages: int, page: int)
    requires 1 <= currentPage <= totalPages
    requires Num(page) in VisiblePages(currentPage, totalPages)
    ensures 1 <= page <= totalPages
  {
  }

  /**
   * With at most one page (and a current page below the first '...'
   * threshold) the list is page 1 followed by the page count: [1, 1] for one
   * page, [1, 0] for none.
   */
  lemma FewPages(currentPage: int, totalPages: int)
    requires 1 <= currentPage <= 4 && 0 <= totalPages <= 1
    ensures VisiblePages(currentPage, totalPages) == [Num(1), Num(totalPages)]
  {
  }

  // ---------------------------------------------------------------------------
  // Page state
  // ---------------------------------------------------------------------------

  /** A row of the student table (the fields the page shows). */
  datatype Student = Student(id: int, firstName: string, lastName: string, username: string,
                             email: string, phone: string, bloodGroup: string)

  /** The body of a successful `/users` response. */
  datatype UsersResponse = UsersResponse(users: seq<Student>, total: nat)

  /** What `fetchUsers` is asked for: `limit` and `skip`. */
  datatype FetchRequest = FetchRequest(limit: int, skip: int)

  /** What the awaited `fetchUsers` call produced: a body, or a thrown error. */
  datatype FetchOutcome = Fetched(response: UsersResponse) | FetchFailed

  /** The state of `StudentsPage`. */
  class StudentsPage {
    var users: seq<Student>
    var loading: bool
    var error: Option<string>
    var currentPage: int
    var totalUsers: nat
    var totalPages: nat

    /** The page count always agrees with the row count it was computed from. */
    ghost predicate Valid()
      reads this
    {
      totalPages == PageCount(totalUsers)
    }

    /** The current page is at least 1 and at most max(1, totalPages). */
    predicate PageInRange()
      reads this
    {
      1 <= currentPage <= Max(1, totalPages)
    }

    constructor ()
      ensures Valid() && PageInRange()
      ensures users == [] && loading && error == None
      ensures currentPage == 1 && totalUsers == 0 && totalPages == 0
    {
      users, loading, error := [], true, None;
      currentPage, totalUsers, totalPages := 1, 0, 0;
    }

    /**
     * `loadUsers(page)` up to the awaited fetch: the request it sends. For a
     * page inside the page count of the rows already known, the offset names
     * one of those rows.
     */
    method BeginLoadUsers(page: int) returns (request: FetchRequest)
      modifies this`loading, this`error
      ensures loading && error == None
      ensures request == FetchRequest(UsersPerPage, Skip(page))
      ensures old(Valid()) && 1 <= page <= totalPages ==> 0 <= request.skip < totalUsers
    {
      loading := true;
      error := None;
      var skip := (page - 1) * UsersPerPage;
      request := FetchRequest(UsersPerPage, skip);
    }

    /** `loadUsers(page)` after the awaited fetch: store the result or the error. */
    method CompleteLoadUsers(outcome: FetchOutcome)
      requires Valid()
      modifies this`users, this`totalUsers, this`totalPages, this`error, this`loading
      ensures Valid() && !loading
      ensures outcome.Fetched? ==>
                users == outcome.response.users && totalUsers == outcome.response.total
                && totalPages == PageCount(outcome.response.total) && error == old(error)
      ensures outcome.FetchFailed? ==>
                error == Some(FetchErrorMessage) && users == old(users)
                && totalUsers == old(totalUsers) && totalPages == old(totalPages)
    {
      match outcome {
        case Fetched(response) =>
          users := response.users;
          totalUsers := response.total;
          totalPages := (response.total + UsersPerPage - 1) / UsersPerPage;
        case FetchFailed =>
          error := Some(FetchErrorMessage);
      }
      loading := false;
    }

    /** `handlePreviousPage`: step back unless on page 1. */
    method HandlePreviousPage()
      modifies this`currentPage
      ensures currentPage == if old(currentPage) > 1 then old(currentPage) - 1 else old(currentPage)
      ensures old(PageInRange()) ==> PageInRange()
    {
      if currentPage > 1 {
        currentPage := currentPage - 1;
      }
    }

    /** `handleNextPage`: step forward unless on the last page. */
    method HandleNextPage()
      modifies this`currentPage
      ensures currentPage == if old(currentPage) < totalPages then old(currentPage) + 1 else old(currentPage)
      ensures old(PageInRange()) ==> PageInRange()
    {
      if currentPage < totalPages {
        currentPage := currentPage + 1;
      }
    }

    /**
     * `handlePageClick`: go to the clicked page. Clicking a number button of
     * the list keeps the current page in range whenever there is a page.
     */
    method HandlePageClick(page: int)
      modifies this`currentPage
      ensures currentPage == page
      ensures (old(PageInRange()) && totalPages >= 1
               && Num(page) in VisiblePages(old(currentPage), totalPages)) ==> PageInRange()
    {
      currentPage := page;
    }

    /** `getVisiblePages`, as the loop that pushes the window and the markers. */
    method GetVisiblePages() returns (items: seq<PageItem>)
      ensures items == VisiblePages(currentPage, totalPages)
    {
      var cur: int, total: int := currentPage, totalPages;
      var lo := Max(2, cur - Delta);
      var hi := Min(total - 1, cur + Delta);
      var range: seq<int> := [];
      var rangeWithDots: seq<PageItem> := [];
      var i := lo;
      while i <= hi
        invariant lo <= i && (i == lo || i <= hi + 1)
        invariant range == Consecutive(lo, i - 1)
      {
        ConsecutiveSnoc(lo, i);
        range := range + [i];
        i := i + 1;
      }

      ghost var lead := if HidesLeading(cur) then [Num(1), Dots] else [Num(1)];
      ghost var trail := if HidesTrailing(cur, total) then [Dots, Num(total)] else [Num(total)];
      assert range == Consecutive(WindowLo(cur), WindowHi(cur, total));

      if cur - Delta > 2 {
        rangeWithDots := rangeWithDots + [Num(1), Dots];
      } else {
        rangeWithDots := rangeWithDots + [Num(1)];
      }
      assert rangeWithDots == lead;
      rangeWithDots := rangeWithDots + AsItems(range);
      if cur + Delta < total - 1 {
        rangeWithDots := rangeWithDots + [Dots, Num(total)];
      } else {
        rangeWithDots := rangeWithDots + [Num(total)];
      }
      assert rangeWithDots == lead + AsItems(range) + trail;
      items := rangeWithDots;
    }
  }

}
