/** The shared vocabulary of the application: the three enumerations, the chat
    message, the accounting-error record and the dashboard statistics. */
module Types {
  import opened Wrappers

  /** Workflow state of a record. */
  datatype Status = Pending | Processing | Fixed | Rejected

  /** Urgency of a record. */
  datatype Priority = Low | Medium | High | Urgent

  /** Kind of accounting error. */
  datatype Category = Invoice | Payment | Tax | Ledger | System | Other

  /** The string each priority stands for at run time. */
  function PriorityValue(p: Priority): string
  {
    match p
    case Low => "LOW"
    case Medium => "MEDIUM"
    case High => "HIGH"
    case Urgent => "URGENT"
  }

  /** The (Vietnamese) string each category stands for at run time. */
  function CategoryValue(c: Category): string
  {
    match c
    case Invoice => "Hóa đơn"
    case Payment => "Thanh toán"
    case Tax => "Thuế"
    case Ledger => "Sổ cái"
    case System => "Hệ thống"
    case Other => "Khác"
  }

  /** `Object.values(ErrorPriority)`, in declaration order. */
  const PriorityValues: seq<string> := ["LOW", "MEDIUM", "HIGH", "URGENT"]

  /** `Object.values(ErrorCategory)`, in declaration order. */
  const CategoryValues: seq<string> := ["Hóa đơn", "Thanh toán", "Thuế", "Sổ cái", "Hệ thống", "Khác"]

  /** The priority whose run-time string is `s`, if any. */
  function PriorityFromValue(s: string): (r: Option<Priority>)
    ensures r.Some? <==> s in PriorityValues
    ensures r.Some? ==> PriorityValue(r.value) == s
  {
    if s == "LOW" then Some(Low)
    else if s == "MEDIUM" then Some(Medium)
    else if s == "HIGH" then Some(High)
    else if s == "URGENT" then Some(Urgent)
    else None
  }

  /** The category whose run-time string is `s`, if any. */
  function CategoryFromValue(s: string): (r: Option<Category>)
    ensures r.Some? <==> s in CategoryValues
    ensures r.Some? ==> CategoryValue(r.value) == s
  {
    if s == "Hóa đơn" then Some(Invoice)
    else if s == "Thanh toán" then Some(Payment)
    else if s == "Thuế" then Some(Tax)
    else if s == "Sổ cái" then Some(Ledger)
    else if s == "Hệ thống" then Some(System)
    else if s == "Khác" then Some(Other)
    else None
  }

  /** Every priority's string is one of the enumeration's values, and reading it back
      gives the same priority: the value strings identify the members. */
  lemma PriorityRoundTrip(p: Priority)
    ensures PriorityValue(p) in PriorityValues
    ensures PriorityFromValue(PriorityValue(p)) == Some(p)
  {
    match p
    case Low =>
    case Medium =>
    case High =>
    case Urgent =>
  }

  /** Every category's string is one of the enumeration's values, and reading it back
      gives the same category. */
  lemma CategoryRoundTrip(c: Category)
    ensures CategoryValue(c) in CategoryValues
    ensures CategoryFromValue(CategoryValue(c)) == Some(c)
  {
    match c
    case Invoice =>
    case Payment =>
    case Tax =>
    case Ledger =>
    case System =>
    case Other =>
  }

  /** Who wrote a chat turn. */
  datatype Role = User | Model

  /** One chat turn. */
  datatype ChatMessage = ChatMessage(role: Role, text: string)

  /** The amount of money involved. The application holds a JavaScript number here;
      the model keeps it as an exact real and never computes with it. */
  type Amount = real

  /** One tracked accounting error. Optional fields are `Option`s. */
  datatype Record = Record(
    id: string,
    title: string,
    description: string,
    category: Category,
    priority: Priority,
    status: Status,
    createdAt: int,
    reporter: string,
    amount: Option<Amount>,
    voucherNo: Option<string>,
    imageUrl: Option<string>,
    aiSuggestion: Option<string>,
    chatHistory: Option<seq<ChatMessage>>,
    msDynamicsId: Option<string>)

  /** The chat turns of a record, an absent history read as empty
      (`chatHistory || []`). */
  function HistoryOf(r: Record): (h: seq<ChatMessage>)
    ensures r.chatHistory.Some? ==> h == r.chatHistory.value
    ensures r.chatHistory.None? ==> h == []
  {
    r.chatHistory.GetOr([])
  }

  /** The dashboard's counters. There is no counter for rejected records. */
  datatype DashboardStats = DashboardStats(total: nat, pending: nat, processing: nat, fixed: nat)
}
