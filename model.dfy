/** The app's records: issues, notifications and users, as the Firestore
    documents deserialise into them. Timestamps are epoch milliseconds. */
module Model {
  import opened Wrappers

  datatype IssueStatus = PENDING | IN_PROGRESS | RESOLVED {
    /** Kotlin's `Enum.name`, as the status is stored in the issue document. */
    function Name(): string {
      match this
      case PENDING => "PENDING"
      case IN_PROGRESS => "IN_PROGRESS"
      case RESOLVED => "RESOLVED"
    }
  }

  datatype IssueCategory = LIFT | TOILET | WIFI | CLASSROOM | OTHER {
    /** Kotlin's `Enum.name`. */
    function Name(): string {
      match this
      case LIFT => "LIFT"
      case TOILET => "TOILET"
      case WIFI => "WIFI"
      case CLASSROOM => "CLASSROOM"
      case OTHER => "OTHER"
    }
  }

  /** Where an issue is; the optional latitude and longitude are not part of
      this model. */
  datatype IssueLocation = IssueLocation(block: string, level: string, room: string)

  datatype Issue = Issue(
    id: string,
    category: string,
    title: string,
    description: string,
    location: IssueLocation,
    status: IssueStatus,
    reportedBy: string,
    reporterName: string,
    assignedTo: Option<string>,
    photoUrl: Option<string>,
    createdAt: int,
    updatedAt: int)

  /** The status filter of the issue lists: no filter, or exactly this
      status. */
  predicate StatusMatches(i: Issue, filter: Option<IssueStatus>) {
    filter.None? || i.status == filter.value
  }

  datatype NotificationType = ISSUE_RESOLVED | STATUS_UPDATE | NEW_MESSAGE | MAINTENANCE_SCHEDULE

  datatype Notification = Notification(
    id: string,
    userId: string,
    notificationType: NotificationType,
    title: string,
    message: string,
    issueId: Option<string>,
    timestamp: int,
    isRead: bool)

  /** `role` is one of "STUDENT", "STAFF", "ADMIN". */
  datatype User = User(
    userId: string,
    name: string,
    email: string,
    role: string,
    department: string,
    profilePhotoUrl: string)
}
