/** The staff directory (StaffViewModel.kt): the staff list, its loading and
    error state, and a search over name and department. Each call of
    `LoadStaff` handles one result that the staff query emits. */
module Staff {
  import opened Wrappers
  import opened Text
  import opened Seqs
  import opened Model
  import opened Results

  predicate StaffMatches(u: User, query: string) {
    ContainsIgnoreCase(u.name, query) || ContainsIgnoreCase(u.department, query)
  }

  /** The directory search as one predicate. */
  function ByQuery(query: string): User -> bool {
    (u: User) => StaffMatches(u, query)
  }

  class StaffViewModel {
    var staffList: seq<User>
    var isLoading: bool
    var error: Option<string>
    var searchQuery: string

    constructor ()
      ensures staffList == [] && !isLoading && error == None && searchQuery == ""
    {
      staffList, isLoading, error, searchQuery := [], false, None, "";
    }

    /** Handles one result of the staff query. */
    method LoadStaff(result: DataResult<seq<User>>)
      modifies this`staffList, this`isLoading, this`error
      ensures staffList == (if result.Success? then result.data else old(staffList))
      ensures error == (if result.Error? then Some(result.error.PeekContent()) else old(error))
      ensures isLoading == match result
                           case Loading => true
                           case Success(_) => false
                           case Error(_) => false
                           case Idle => old(isLoading)
    {
      match result
      case Loading =>
        isLoading := true;
      case Success(users) =>
        staffList := users;
        isLoading := false;
      case Error(e) =>
        error := Some(e.PeekContent());
        isLoading := false;
      case Idle =>
    }

    method SetSearchQuery(query: string)
      modifies this`searchQuery
      ensures searchQuery == query
    {
      searchQuery := query;
    }

    /** The directory as shown: everyone for a blank query, otherwise the
        staff whose name or department contains the query, in list order. */
    function GetFilteredStaff(): (r: seq<User>)
      reads this
      ensures IsBlank(searchQuery) ==> r == staffList
      ensures IsSubsequence(r, staffList)
      ensures !IsBlank(searchQuery) ==> r == Filter(staffList, ByQuery(searchQuery))
      ensures !IsBlank(searchQuery) ==>
        forall u :: u in r <==> u in staffList && StaffMatches(u, searchQuery)
    {
      var query := searchQuery;
      if IsBlank(query) then
        SubsequenceReflexive(staffList);
        staffList
      else
        var byQuery := ByQuery(query);
        FilterIsSubsequence(staffList, byQuery);
        Filter(staffList, byQuery)
    }
  }
}
