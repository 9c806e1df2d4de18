/** The fault-report form (campuscare ReportViewModel.kt): the chosen
    category and photo, the validation of a submission, the issue it builds,
    and the form state driven by the results of submitting it. */
module Report {
  import opened Wrappers
  import opened Text
  import opened Model
  import Results

  datatype ReportState = Idle | Loading | Success | Error(message: string)

  /** The two guards of `submitReport`, in order: a category must be chosen,
      then the title must not be blank. */
  function ValidateReport(category: Option<IssueCategory>, title: string): (err: Option<string>)
    ensures category.None? ==> err == Some("Please select an issue category")
    ensures category.Some? && IsBlank(title) ==> err == Some("Please provide a brief description")
    ensures err.None? <==> category.Some? && !IsBlank(title)
  {
    if category.None? then Some("Please select an issue category")
    else if IsBlank(title) then Some("Please provide a brief description")
    else None
  }

  /** The form state a submission result leads to. A repository error event
      always carries a message, so the "Failed to submit report" fallback
      never applies. */
  function StateAfter(result: Results.DataResult<()>): (st: ReportState)
    ensures st.Loading? <==> result.Loading?
    ensures st.Success? <==> result.Success?
    ensures st.Idle? <==> result.Idle?
    ensures st.Error? <==> result.Error?
    ensures result.Error? ==> st.message == result.error.content
  {
    match result
    case Loading => Loading
    case Success(_) => Success
    case Error(e) => Error(e.PeekContent())
    case Idle => Idle
  }

  predicate AnySuccess(rs: seq<Results.DataResult<()>>) {
    exists j :: 0 <= j < |rs| && rs[j].Success?
  }

  class ReportViewModel {
    var reportState: ReportState
    var selectedCategory: Option<IssueCategory>
    var photoUri: Option<string>

    constructor ()
      ensures reportState == Idle && selectedCategory == None && photoUri == None
    {
      reportState, selectedCategory, photoUri := Idle, None, None;
    }

    method SelectCategory(category: IssueCategory)
      modifies this`selectedCategory
      ensures selectedCategory == Some(category)
    {
      selectedCategory := Some(category);
    }

    method SetPhotoUri(uri: Option<string>)
      modifies this`photoUri
      ensures photoUri == uri
    {
      photoUri := uri;
    }

    /** Validates and submits a report. `now` is the clock reading that
        stamps the new issue; `emitted` are the results the submission
        emits, and `failure` an exception it throws after them (with its
        nullable message). Returns the issue handed to the repository, if
        any. */
    method SubmitReport(title: string, description: string, block: string, level: string,
                        room: string, userId: string, userName: string, now: int,
                        emitted: seq<Results.DataResult<()>>, failure: Option<Option<string>>)
      returns (submitted: Option<Issue>)
      modifies this`reportState, this`selectedCategory, this`photoUri
      ensures var err := ValidateReport(old(selectedCategory), title);
        err.Some? ==>
          && submitted == None
          && reportState == Error(err.value)
          && selectedCategory == old(selectedCategory) && photoUri == old(photoUri)
      ensures ValidateReport(old(selectedCategory), title).None? ==>
        && submitted.Some?
        && var issue := submitted.value;
        && issue.category == old(selectedCategory).value.Name()
        && issue.title == title && issue.description == description
        && issue.location == IssueLocation(block, level, room)
        && issue.status == PENDING
        && issue.reportedBy == userId && issue.reporterName == userName
        && issue.photoUrl == old(photoUri)
        && issue.id == "" && issue.assignedTo == None
        && issue.createdAt == now && issue.updatedAt == now
      ensures ValidateReport(old(selectedCategory), title).None? ==>
        && reportState == (if failure.Some? then Error(failure.value.GetOr("An unexpected error occurred"))
                           else if emitted == [] then old(reportState)
                           else StateAfter(emitted[|emitted| - 1]))
        && selectedCategory == (if AnySuccess(emitted) then None else old(selectedCategory))
        && photoUri == (if AnySuccess(emitted) then None else old(photoUri))
    {
      var err := ValidateReport(selectedCategory, title);
      if err.Some? {
        reportState := Error(err.value);
        return None;
      }

      var issue := Issue("", selectedCategory.value.Name(), title, description,
                         IssueLocation(block, level, room), PENDING, userId, userName,
                         None, photoUri, now, now);
      submitted := Some(issue);

      for i := 0 to |emitted|
        invariant reportState == (if i == 0 then old(reportState) else StateAfter(emitted[i - 1]))
        invariant selectedCategory == (if AnySuccess(emitted[..i]) then None else old(selectedCategory))
        invariant photoUri == (if AnySuccess(emitted[..i]) then None else old(photoUri))
      {
        assert AnySuccess(emitted[..i + 1]) == (AnySuccess(emitted[..i]) || emitted[i].Success?) by {
          assert forall j :: 0 <= j < i ==> emitted[..i + 1][j] == emitted[..i][j];
        }
        reportState := StateAfter(emitted[i]);
        if emitted[i].Success? {
          selectedCategory := None;
          photoUri := None;
        }
      }
      assert emitted[..|emitted|] == emitted;

      if failure.Some? {
        reportState := Error(failure.value.GetOr("An unexpected error occurred"));
      }
    }

    method ResetState()
      modifies this`reportState
      ensures reportState == Idle
    {
      reportState := Idle;
    }
  }
}
