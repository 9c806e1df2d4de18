/** A student's issue list (IssuesViewModel.kt): a status filter and a search
    over the title and the description. */
module Issues {
  import opened Wrappers
  import opened Text
  import opened Seqs
  import opened Model
  import Admin

  /** This search does not look at the reporter's name. */
  predicate SearchMatches(i: Issue, query: string) {
    || IsBlank(query)
    || ContainsIgnoreCase(i.title, query)
    || ContainsIgnoreCase(i.description, query)
  }

  function Matcher(filter: Option<IssueStatus>, query: string): Issue -> bool {
    (i: Issue) => StatusMatches(i, filter) && SearchMatches(i, query)
  }

  class IssuesViewModel {
    var issues: seq<Issue>
    var selectedFilter: Option<IssueStatus>
    var searchQuery: string
    var isLoading: bool

    /** The state once the initial `LoadIssues` has run. */
    constructor ()
      ensures issues == [] && selectedFilter == None && searchQuery == "" && !isLoading
    {
      issues, selectedFilter, searchQuery, isLoading := [], None, "", false;
    }

    /** Loading is not wired to the backend: whatever the user, the list ends
        empty and loading ends off. */
    method LoadIssues(userId: Option<string>)
      modifies this`issues, this`isLoading
      ensures issues == [] && !isLoading
    {
      isLoading := true;
      issues := [];
      isLoading := false;
    }

    method SetFilter(status: Option<IssueStatus>)
      modifies this`selectedFilter
      ensures selectedFilter == status
    {
      selectedFilter := status;
    }

    method SetSearchQuery(query: string)
      modifies this`searchQuery
      ensures searchQuery == query
    {
      searchQuery := query;
    }

    /** The status filter, then the search, each narrowing the previous
        result. */
    method GetFilteredIssues() returns (filtered: seq<Issue>)
      ensures filtered == Filter(issues, Matcher(selectedFilter, searchQuery))
      ensures IsSubsequence(filtered, issues)
      ensures selectedFilter.None? && IsBlank(searchQuery) ==> filtered == issues
      ensures forall i :: i in filtered ==> selectedFilter.Some? ==> i.status == selectedFilter.value
      ensures forall i :: i in filtered ==> !IsBlank(searchQuery) ==>
        ContainsIgnoreCase(i.title, searchQuery) || ContainsIgnoreCase(i.description, searchQuery)
      ensures forall i :: i in issues && Matcher(selectedFilter, searchQuery)(i) ==> i in filtered
    {
      ghost var keep: Issue -> bool := (_: Issue) => true;
      FilterKeepsAll(issues, keep);
      filtered := issues;

      if selectedFilter.Some? {
        var status := selectedFilter.value;
        var byStatus := (i: Issue) => i.status == status;
        FilterFilter(issues, keep, byStatus);
        filtered := Filter(filtered, byStatus);
        keep := And(keep, byStatus);
      }
      assert forall i :: keep(i) == StatusMatches(i, selectedFilter);

      if !IsBlank(searchQuery) {
        var query := searchQuery;
        var bySearch := (i: Issue) =>
          ContainsIgnoreCase(i.title, query) || ContainsIgnoreCase(i.description, query);
        FilterFilter(issues, keep, bySearch);
        filtered := Filter(filtered, bySearch);
        keep := And(keep, bySearch);
      }

      var spec := Matcher(selectedFilter, searchQuery);
      assert forall i :: keep(i) == spec(i);
      FilterAgrees(issues, keep, spec);
      FilterIsSubsequence(issues, spec);
    }
  }

  /** The dashboard search is this search widened by the reporter's name:
      whatever a student's search finds, the administrator's finds too. */
  lemma SearchWithinAdminSearch(i: Issue, q: string)
    ensures Admin.SearchMatches(i, q) <==> SearchMatches(i, q) || ContainsIgnoreCase(i.reporterName, q)
    ensures SearchMatches(i, q) ==> Admin.SearchMatches(i, q)
  {
  }

  /** With the same status filter and query and no category, the student's
      list is an order-preserving subsequence of the dashboard's list. */
  lemma {:induction false} ListWithinAdminList(issues: seq<Issue>, filter: Option<IssueStatus>, query: string)
    ensures IsSubsequence(Filter(issues, Matcher(filter, query)), Filter(issues, Admin.Matcher(filter, None, query)))
  {
    FilterMonotone(issues, Matcher(filter, query), Admin.Matcher(filter, None, query));
  }

  /** The two issue lists search different fields: an issue found only
      through its reporter's name shows up in the administrator's list and
      not in the student's. */
  lemma ReporterNameSearchedOnlyByAdmin()
    ensures exists i: Issue, q: string ::
      Admin.SearchMatches(i, q) && !SearchMatches(i, q)
  {
    var i := Issue("", "", "", "", IssueLocation("", "", ""), PENDING, "u1", "Ann",
                   None, None, 0, 0);
    var q := "ann";
    assert Lower(i.reporterName) == q && Lower(q) == q;
    ContainsSelf(q);
    assert !IsBlank(q) by { assert !IsWhitespace(q[0]); }
    assert !Contains(Lower(""), Lower(q));
    assert ContainsIgnoreCase(i.reporterName, q);
    assert Admin.SearchMatches(i, q) && !SearchMatches(i, q);
  }
}
