/** The records the script reads (a Wekan board export and the fetched
    OpenProject statuses) and the requests it sends, with the script's
    hardcoded tables. */
module Records {

  import opened Wrappers

  /** A JSON member that may be missing, `null`, or a string. */
  datatype Field = Absent | Null | Str(text: string)

  /** A Wekan list (board column). */
  datatype WekanList = WekanList(id: string, title: string)

  datatype Card = Card(
    id: string,
    title: string,
    createdAt: string,
    listId: string,
    description: Field,
    dueAt: Field,
    members: seq<string>)

  datatype Comment = Comment(cardId: string, userId: string, createdAt: string, text: string)

  datatype Checklist = Checklist(id: string, cardId: string)

  datatype ChecklistItem = ChecklistItem(checklistId: string, title: string, isFinished: bool)

  /** The part of a Wekan board export the script reads, arrays in stored order. */
  datatype Board = Board(
    format: string,
    lists: seq<WekanList>,
    cards: seq<Card>,
    comments: seq<Comment>,
    checklists: seq<Checklist>,
    items: seq<ChecklistItem>)

  /** One element of `_embedded.elements` of `GET /statuses`. */
  datatype OpStatus = OpStatus(name: string, href: string)

  /** A work-package creation payload; `None` marks a member the payload omits. */
  datatype WorkPackage = WorkPackage(
    subject: string,
    startDate: Option<string>,
    description: Option<string>,  // description.raw
    dueDate: Option<string>,
    status: string,               // _links.status.href
    version: Option<string>,      // _links.version.href
    assignee: Option<string>,     // _links.assignee.href
    parent: Option<string>)       // _links.parent.href

  datatype Body =
    | WorkPackageBody(workPackage: WorkPackage)
    | CommentBody(format: string, raw: string)

  /** A request as the script issues it, with a URL relative to the API endpoint. */
  datatype Request = Get(url: string) | Post(url: string, body: Body)

  /** Every way the script aborts a run, other than a failed HTTP request. */
  datatype Failure =
    | InvalidFormat                     // `_format` is not the expected marker
    | UnknownListTitle(title: string)   // KeyError in wk2op_status_map
    | UnknownStatusName(name: string)   // KeyError in op_statuses
    | UnknownListId(listId: string)     // KeyError in statuses
    | DescriptionNotText(cardId: string) // TypeError: len() of a null description
    | UnknownUser(userId: string)       // KeyError in wk2op_user_map for a comment

  const FORMAT := "wekan-board-1.0.0"

  /** The one OpenProject version every card is filed under. */
  const VERSION := "/api/v3/versions/8"

  /** Wekan user id to OpenProject user href. */
  const USER_MAP: map<string, string> := map[
    "N54tnXfaWQGLFEahb" := "/api/v3/users/5",
    "QMFskvFgCzGZcmurb" := "/api/v3/users/9",
    "aYGB9PxY89dXxEQT5" := "/api/v3/users/11",
    "oMDvEoTZquEPqSzbi" := "/api/v3/users/11"]

  /** Wekan list title to OpenProject status name. */
  const STATUS_MAP: map<string, string> := map[
    "Pool" := "New",
    "Ready" := "New",
    "Doing" := "In progress",
    "Waiting" := "On hold",
    "Done" := "Closed"]

  const STATUSES_URL := "/statuses"

  function WorkPackagesUrl(project: string): string {
    "/projects/" + project + "/work_packages?notify=false"
  }

  function ActivitiesUrl(pkgid: string): string {
    "/work_packages/" + pkgid + "/activities?notify=false"
  }

  function ParentHref(pkgid: string): string {
    "/api/v3/work_packages/" + pkgid
  }
}
