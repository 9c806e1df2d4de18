/** The administrator's dashboard state (AdminViewModel.kt): every issue, the
    per-status statistics, the three list filters, and the status changes an
    administrator makes. Each call of `LoadAllIssues` handles one result that
    the issues listener emits. */
module Admin {
  import opened Wrappers
  import opened Text
  import opened Seqs
  import opened Model
  import opened Results

  datatype AdminStats = AdminStats(total: int, pending: int, active: int, resolved: int)

  function HasStatus(status: IssueStatus): Issue -> bool {
    (i: Issue) => i.status == status
  }

  /** Every issue has exactly one of the three statuses, so the per-status
      counts add up to the length of the list. */
  lemma {:induction false} StatusCountsPartition(issues: seq<Issue>)
    ensures Count(issues, HasStatus(PENDING)) + Count(issues, HasStatus(IN_PROGRESS))
            + Count(issues, HasStatus(RESOLVED)) == |issues|
  {
    if issues != [] {
      StatusCountsPartition(issues[1..]);
    }
  }

  /** The dashboard statistics of a list of issues. */
  function StatsOf(issues: seq<Issue>): (st: AdminStats)
    ensures st.total == |issues|
    ensures st.pending == Count(issues, HasStatus(PENDING))
    ensures st.active == Count(issues, HasStatus(IN_PROGRESS))
    ensures st.resolved == Count(issues, HasStatus(RESOLVED))
    ensures 0 <= st.pending && 0 <= st.active && 0 <= st.resolved
    ensures st.pending + st.active + st.resolved == st.total
  {
    StatusCountsPartition(issues);
    AdminStats(
      |issues|,
      Count(issues, HasStatus(PENDING)),
      Count(issues, HasStatus(IN_PROGRESS)),
      Count(issues, HasStatus(RESOLVED)))
  }

  predicate CategoryMatches(i: Issue, category: Option<IssueCategory>) {
    category.None? || EqualsIgnoreCase(i.category, category.value.Name())
  }

  /** The administrator's search looks at the title, the description and the
      reporter's name; a blank query searches nothing. */
  predicate SearchMatches(i: Issue, query: string) {
    || IsBlank(query)
    || ContainsIgnoreCase(i.title, query)
    || ContainsIgnoreCase(i.description, query)
    || ContainsIgnoreCase(i.reporterName, query)
  }

  /** The three filters of the dashboard list, as one predicate. */
  function Matcher(filter: Option<IssueStatus>, category: Option<IssueCategory>, query: string): Issue -> bool {
    (i: Issue) => StatusMatches(i, filter) && CategoryMatches(i, category) && SearchMatches(i, query)
  }

  /** A message template with one `%s` slot, as `String.format` fills it. */
  datatype Template = Template(before: string, after: string) {
    function Format(arg: string): (r: string)
      ensures Contains(r, arg)
      ensures |r| == |before| + |arg| + |after|
    {
      ContainsInConcat(before, arg, after);
      before + arg + after
    }
  }

  /** What an administrator's action asks the backend to do: set the
      issue's status and notify its reporter. */
  datatype StatusChange = StatusChange(
    issueId: string,
    notificationType: NotificationType,
    newStatus: IssueStatus,
    notificationTitle: string,
    message: Template)

  /** Accepting an issue puts it in progress with a status-update
      notification. */
  function AcceptIssue(issueId: string): (c: StatusChange)
    ensures c.issueId == issueId
    ensures c.newStatus == IN_PROGRESS && c.notificationType == STATUS_UPDATE
    ensures c.notificationTitle == "Issue accepted for review"
    ensures forall title ::
              c.message.Format(title) == "Your issue \"" + title + "\" has been reviewed and is now in progress."
  {
    StatusChange(issueId, STATUS_UPDATE, IN_PROGRESS, "Issue accepted for review",
      Template("Your issue \"", "\" has been reviewed and is now in progress."))
  }

  /** Resolving an issue marks it resolved with an issue-resolved
      notification. */
  function ResolveIssue(issueId: string): (c: StatusChange)
    ensures c.issueId == issueId
    ensures c.newStatus == RESOLVED && c.notificationType == ISSUE_RESOLVED
    ensures c.notificationTitle == "Issue resolved"
    ensures forall title :: c.message.Format(title) == "Your issue \"" + title + "\" has been resolved."
  {
    StatusChange(issueId, ISSUE_RESOLVED, RESOLVED, "Issue resolved",
      Template("Your issue \"", "\" has been resolved."))
  }

  /** The write to an issue document: its new status name and the time of
      the change. */
  datatype StatusUpdate = StatusUpdate(issueId: string, status: string, updatedAt: int)

  /** A notification to be stored for the user `recipient`. */
  datatype NotificationRequest = NotificationRequest(recipient: string, notification: Notification)

  class AdminViewModel {
    var allIssues: seq<Issue>
    var allUsers: seq<User>
    var stats: AdminStats
    var selectedFilter: Option<IssueStatus>
    var selectedCategory: Option<IssueCategory>
    var searchQuery: string
    var isLoading: bool

    /** The statistics always describe the current list. */
    ghost predicate Valid()
      reads this
    {
      stats == StatsOf(allIssues)
    }

    constructor ()
      ensures Valid()
      ensures allIssues == [] && allUsers == [] && stats == AdminStats(0, 0, 0, 0)
      ensures selectedFilter == None && selectedCategory == None && searchQuery == ""
      ensures !isLoading
    {
      allIssues, allUsers := [], [];
      stats := AdminStats(0, 0, 0, 0);
      selectedFilter, selectedCategory, searchQuery := None, None, "";
      isLoading := false;
    }

    /** Handles one result of the all-issues listener. */
    method LoadAllIssues(result: DataResult<seq<Issue>>)
      requires Valid()
      modifies this`allIssues, this`stats, this`isLoading
      ensures Valid()
      ensures allIssues == (if result.Success? then result.data else old(allIssues))
      ensures isLoading == match result
                           case Success(_) => false
                           case Error(_) => false
                           case Loading => true
                           case Idle => old(isLoading)
    {
      match result
      case Success(issues) =>
        allIssues := issues;
        UpdateStats();
        isLoading := false;
      case Error(_) =>
        isLoading := false;
      case Loading =>
        isLoading := true;
      case Idle =>
    }

    /** Handles the one-shot fetch of the users collection; a failed fetch
        is only logged. */
    method LoadAllUsers(fetch: Backend<seq<User>>)
      modifies this`allUsers
      ensures allUsers == (if fetch.Done? then fetch.value else old(allUsers))
    {
      if fetch.Done? {
        allUsers := fetch.value;
      }
    }

    method UpdateStats()
      modifies this`stats
      ensures Valid()
    {
      stats := StatsOf(allIssues);
    }

    method SetFilter(status: Option<IssueStatus>)
      modifies this`selectedFilter
      ensures selectedFilter == status
    {
      selectedFilter := status;
    }

    method SetCategoryFilter(category: Option<IssueCategory>)
      modifies this`selectedCategory
      ensures selectedCategory == category
    {
      selectedCategory := category;
    }

    method SetSearchQuery(query: string)
      modifies this`searchQuery
      ensures searchQuery == query
    {
      searchQuery := query;
    }

    /** The backend part of a status change: while it runs the dashboard shows
        loading; `update` is the write of the new status and time to the
        issue document; `outcome` is that write and the re-read of the
        document (`None` when the document no longer exists), and `now` the
        clock. When the issue was read back, its reporter is notified. */
    method UpdateIssueStatus(change: StatusChange, outcome: Backend<Option<Issue>>, now: int)
      returns (update: StatusUpdate, request: Option<NotificationRequest>)
      modifies this`isLoading
      ensures !isLoading
      ensures update.issueId == change.issueId && update.status == change.newStatus.Name()
      ensures update.updatedAt == now
      ensures request.Some? <==> outcome.Done? && outcome.value.Some?
      ensures request.Some? ==>
        var issue := outcome.value.value;
        var n := request.value.notification;
        && request.value.recipient == issue.reportedBy
        && n.notificationType == change.notificationType
        && n.title == change.notificationTitle
        && n.message == change.message.Format(issue.title)
        && n.issueId == Some(change.issueId)
        && n.timestamp == now
        && !n.isRead
    {
      isLoading := true;
      update := StatusUpdate(change.issueId, change.newStatus.Name(), now);
      request := None;
      if outcome.Done? && outcome.value.Some? {
        var issue := outcome.value.value;
        var message := change.message.Format(issue.title);
        var n := Notification("", "", change.notificationType, change.notificationTitle, message,
                              Some(change.issueId), now, false);
        request := Some(NotificationRequest(issue.reportedBy, n));
      }
      isLoading := false;
    }

    /** The dashboard list: the status filter, then the category filter, then
        the search, each narrowing the previous result. */
    method GetFilteredIssues() returns (filtered: seq<Issue>)
      ensures filtered == Filter(allIssues, Matcher(selectedFilter, selectedCategory, searchQuery))
      ensures IsSubsequence(filtered, allIssues)
      ensures selectedFilter.None? && selectedCategory.None? && IsBlank(searchQuery) ==> filtered == allIssues
      ensures forall i :: i in filtered ==> selectedFilter.Some? ==> i.status == selectedFilter.value
      ensures forall i :: i in filtered ==> selectedCategory.Some? ==> Lower(i.category) == Lower(selectedCategory.value.Name())
      ensures forall i :: i in filtered ==> !IsBlank(searchQuery) ==>
        ContainsIgnoreCase(i.title, searchQuery) || ContainsIgnoreCase(i.description, searchQuery)
        || ContainsIgnoreCase(i.reporterName, searchQuery)
      ensures forall i :: i in allIssues && Matcher(selectedFilter, selectedCategory, searchQuery)(i) ==> i in filtered
    {
      ghost var keep: Issue -> bool := (_: Issue) => true;
      FilterKeepsAll(allIssues, keep);
      filtered := allIssues;

      if selectedFilter.Some? {
        var status := selectedFilter.value;
        var byStatus := (i: Issue) => i.status == status;
        FilterFilter(allIssues, keep, byStatus);
        filtered := Filter(filtered, byStatus);
        keep := And(keep, byStatus);
      }
      assert forall i :: keep(i) == StatusMatches(i, selectedFilter);

      if selectedCategory.Some? {
        var category := selectedCategory.value;
        var byCategory := (i: Issue) => EqualsIgnoreCase(i.category, category.Name());
        FilterFilter(allIssues, keep, byCategory);
        filtered := Filter(filtered, byCategory);
        keep := And(keep, byCategory);
      }
      assert forall i :: keep(i) == (StatusMatches(i, selectedFilter) && CategoryMatches(i, selectedCategory));

      if !IsBlank(searchQuery) {
        var query := searchQuery;
        var bySearch := (i: Issue) =>
          ContainsIgnoreCase(i.title, query) || ContainsIgnoreCase(i.description, query)
          || ContainsIgnoreCase(i.reporterName, query);
        FilterFilter(allIssues, keep, bySearch);
        filtered := Filter(filtered, bySearch);
        keep := And(keep, bySearch);
      }

      var spec := Matcher(selectedFilter, selectedCategory, searchQuery);
      assert forall i :: keep(i) == spec(i);
      FilterAgrees(allIssues, keep, spec);
      FilterIsSubsequence(allIssues, spec);
    }
  }
}
