/**
 * The patient dashboard's request list: the search box and status filter
 * that select which requests are shown, and the status and priority
 * mappings used to style each shown request.
 */
module PatientRequests {
  import opened JsText

  datatype RequestItem = RequestItem(
    id: string, bloodType: string, units: int, hospital: string, status: string, priority: string)

  /** The two pieces of filter state: the search text and the status filter. */
  datatype Filters = Filters(searchQuery: string, statusFilter: string)

  const AllStatuses: string := "All"

  /** The query, case-folded, occurs in the hospital, the blood type or the status. */
  predicate MatchesSearch(r: RequestItem, query: string)
    ensures MatchesSearch(r, query) <==> (
      || OccursIn(ToLower(r.hospital), ToLower(query))
      || OccursIn(ToLower(r.bloodType), ToLower(query))
      || OccursIn(ToLower(r.status), ToLower(query)))
  {
    var q := ToLower(query);
    IncludesIffOccurs(ToLower(r.hospital), q);
    IncludesIffOccurs(ToLower(r.bloodType), q);
    IncludesIffOccurs(ToLower(r.status), q);
    Includes(ToLower(r.hospital), q) || Includes(ToLower(r.bloodType), q) || Includes(ToLower(r.status), q)
  }

  /** The filter is "All" or names the request's status exactly. */
  predicate MatchesStatus(r: RequestItem, statusFilter: string) {
    statusFilter == AllStatuses || r.status == statusFilter
  }

  predicate Kept(r: RequestItem, f: Filters) {
    MatchesSearch(r, f.searchQuery) && MatchesStatus(r, f.statusFilter)
  }

  /** `xs` is `ys` with some elements left out and the rest in their order. */
  ghost predicate IsSubsequence<T>(xs: seq<T>, ys: seq<T>)
    decreases |ys|
  {
    if ys == [] then xs == []
    else (xs != [] && xs[0] == ys[0] && IsSubsequence(xs[1..], ys[1..])) || IsSubsequence(xs, ys[1..])
  }

  /**
   * `allRequests.filter(...)`: the requests that match both the search and the
   * status filter, in their original order, each as often as it occurs.
   */
  function FilteredRequests(all: seq<RequestItem>, f: Filters): (r: seq<RequestItem>)
    ensures IsSubsequence(r, all)
    ensures |r| <= |all|
    ensures forall x :: x in r <==> x in all && Kept(x, f)
    ensures forall x :: multiset(r)[x] == if Kept(x, f) then multiset(all)[x] else 0
  {
    if all == [] then []
    else
      assert all == [all[0]] + all[1..];
      var rest := FilteredRequests(all[1..], f);
      if Kept(all[0], f) then
        assert ([all[0]] + rest)[1..] == rest;
        [all[0]] + rest
      else
        rest
  }

  /** `clearSearch`: an empty query and the "All" filter. */
  function ClearSearch(): (f: Filters)
    ensures forall r :: Kept(r, f)
  {
    var f := Filters("", AllStatuses);
    assert ToLower("") == "";
    f
  }

  /** After `clearSearch` every request is shown, in order. */
  lemma {:induction false} ClearSearchShowsAll(all: seq<RequestItem>)
    ensures FilteredRequests(all, ClearSearch()) == all
  {
    if all != [] {
      ClearSearchShowsAll(all[1..]);
      assert [all[0]] + all[1..] == all;
    }
  }

  /** With a status selected, every shown request has exactly that status. */
  lemma StatusFilterIsExact(all: seq<RequestItem>, f: Filters)
    requires f.statusFilter != AllStatuses
    ensures forall x :: x in FilteredRequests(all, f) ==> x.status == f.statusFilter
  {
  }

  /** Queries that fold to the same lower-case text select the same requests. */
  lemma {:induction false} SearchIgnoresCase(all: seq<RequestItem>, q1: string, q2: string, status: string)
    requires ToLower(q1) == ToLower(q2)
    ensures FilteredRequests(all, Filters(q1, status)) == FilteredRequests(all, Filters(q2, status))
  {
    if all != [] {
      SearchIgnoresCase(all[1..], q1, q2, status);
    }
  }

  /** In particular a query and its lower-case form give the same list. */
  lemma SearchLowerCaseSame(all: seq<RequestItem>, q: string, status: string)
    ensures FilteredRequests(all, Filters(q, status)) == FilteredRequests(all, Filters(ToLower(q), status))
  {
    ToLowerIdempotent(q);
    SearchIgnoresCase(all, q, ToLower(q), status);
  }

  /**
   * Choosing a status narrows the list: what is shown under a status filter
   * is a subsequence of what the same query shows under "All".
   */
  lemma {:induction false} StatusNarrowsAll(all: seq<RequestItem>, q: string, status: string)
    ensures IsSubsequence(FilteredRequests(all, Filters(q, status)), FilteredRequests(all, Filters(q, AllStatuses)))
  {
    if all != [] {
      var narrow := FilteredRequests(all, Filters(q, status));
      var wide := FilteredRequests(all, Filters(q, AllStatuses));
      StatusNarrowsAll(all[1..], q, status);
      var narrowRest := FilteredRequests(all[1..], Filters(q, status));
      var wideRest := FilteredRequests(all[1..], Filters(q, AllStatuses));
      if Kept(all[0], Filters(q, status)) {
        assert narrow == [all[0]] + narrowRest && wide == [all[0]] + wideRest;
        assert narrow[1..] == narrowRest && wide[1..] == wideRest;
      } else if Kept(all[0], Filters(q, AllStatuses)) {
        assert wide == [all[0]] + wideRest;
        assert wide[1..] == wideRest;
      }
    }
  }

  /** With an empty search, a request is kept exactly when its status passes the filter. */
  lemma EmptySearchKeeps(r: RequestItem, status: string)
    ensures Kept(r, Filters("", status)) <==> MatchesStatus(r, status)
  {
    assert ToLower("") == "";
  }

  const CriticalStyle: string := "bg-red-50 rounded-lg border-l-4 border-red-500"
  const UrgentStyle: string := "bg-yellow-50 rounded-lg border-l-4 border-yellow-500"
  const FulfilledStyle: string := "bg-green-50 rounded-lg border-l-4 border-green-500"
  const DefaultStyle: string := "bg-gray-50 rounded-lg border-l-4 border-gray-500"

  /** The three statuses a request can have. */
  predicate IsKnownStatus(status: string) {
    status == "Critical" || status == "Urgent" || status == "Fulfilled"
  }

  /**
   * `getRequestStyles`: a colour per known status and grey for any other
   * string; different known statuses get different styles.
   */
  function RequestStyles(status: string): (style: string)
    ensures style == DefaultStyle <==> !IsKnownStatus(status)
    ensures status == "Critical" <==> style == CriticalStyle
    ensures status == "Urgent" <==> style == UrgentStyle
    ensures status == "Fulfilled" <==> style == FulfilledStyle
  {
    match status
    case "Critical" => CriticalStyle
    case "Urgent" => UrgentStyle
    case "Fulfilled" => FulfilledStyle
    case _ => DefaultStyle
  }

  /** `getBadgeVariant`: only "Searching Donors" is shown as destructive. */
  function BadgeVariant(priority: string): (variant: string)
    ensures variant == "destructive" || variant == "outline"
    ensures variant == "destructive" <==> priority == "Searching Donors"
  {
    match priority
    case "Searching Donors" => "destructive"
    case "Donor Matched" => "outline"
    case "Completed" => "outline"
    case _ => "outline"
  }

  /**
   * `getBadgeClassName`: yellow for "Donor Matched", green for "Completed",
   * no extra class otherwise.
   */
  function BadgeClassName(priority: string): (className: string)
    ensures className != "" <==> priority == "Donor Matched" || priority == "Completed"
    ensures className == "border-yellow-600 text-yellow-600" <==> priority == "Donor Matched"
    ensures className == "border-green-600 text-green-600" <==> priority == "Completed"
  {
    match priority
    case "Donor Matched" => "border-yellow-600 text-yellow-600"
    case "Completed" => "border-green-600 text-green-600"
    case _ => ""
  }

  /** A destructive badge never also gets a colour class. */
  lemma DestructiveBadgeHasNoClass(priority: string)
    requires BadgeVariant(priority) == "destructive"
    ensures BadgeClassName(priority) == ""
  {
  }
}
