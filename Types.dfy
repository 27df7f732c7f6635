/** The records the components share: subsidy programs, documents,
    notifications and chat messages, with the fields the modelled logic reads.
    String-literal unions become enumerations; optional properties become
    `Option`. */
module Types {
  import opened Wrappers

  datatype Category = Groceries | Fuel | Oku | Elderly | Children | Medical | Selangor | Essentials

  /** The string value of a category as it appears in the program records. */
  function CategoryName(c: Category): string {
    match c
    case Groceries => "groceries"
    case Fuel => "fuel"
    case Oku => "oku"
    case Elderly => "elderly"
    case Children => "children"
    case Medical => "medical"
    case Selangor => "selangor"
    case Essentials => "essentials"
  }

  datatype QuotaUnit = Litres | Visits | RM

  datatype EligibilityStatus = Eligible | NotEligible | EligibilityPending | EligibilityRejected

  datatype ApplicationStatus =
    | Approved | NotStarted | DocumentsRequired | Processing
    | ApplicationRejected | Draft | Submitted

  datatype AlertType = Info | Warning | Urgent

  /** A subsidy program. `quotaUnit` is `None` for the source's `null`. */
  datatype SubsidyProgram = SubsidyProgram(
    id: string,
    programName: string,
    programCode: string,
    category: Category,
    currentBalance: real,
    totalAllocated: real,
    quotaUnit: Option<QuotaUnit>,
    eligibilityStatus: EligibilityStatus,
    applicationStatus: ApplicationStatus,
    programDescription: string,
    alertMessage: Option<string>,
    alertType: Option<AlertType>)

  datatype DocKind = Pdf | Img

  /** A stored document. */
  datatype Doc = Doc(id: string, name: string, date: string, size: string, kind: DocKind, fileUrl: Option<string>)

  datatype NotificationType = Priority | Status | News

  datatype NotificationItem = NotificationItem(
    id: string,
    kind: NotificationType,
    title: string,
    message: string,
    timestamp: string,
    isRead: bool,
    imageUrl: Option<string>)

  datatype Role = User | Model

  /** A chat message; `isEligibilityCard` and `relatedProgramId` are the
      optional properties of the source record. */
  datatype ChatMessage = ChatMessage(
    id: string,
    role: Role,
    text: string,
    isEligibilityCard: Option<bool>,
    relatedProgramId: Option<string>)

  /** How a program is opened: its details, or straight into payment. */
  datatype WalletAction = View | Payment

  /** JavaScript truthiness of an optional string: present and non-empty. */
  predicate Truthy(o: Option<string>) {
    o.Some? && o.value != ""
  }
}
