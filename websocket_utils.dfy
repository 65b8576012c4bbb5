/** The dispatch utility that REST code calls to push events: one builder per
    `send_*` function giving the group and the event it publishes, the single
    publish step they share, and `trigger_loan_status_change`, which pushes the
    status live, then stores an unread notification and pushes the new unread
    count, swallowing any persistence error. */
module WebsocketUtils {
  import opened Common
  import opened Text
  import opened Channels
  import opened NotificationData
  import opened LoanUpdatesConsumers

  /** One `group_send` call: the group and the event. */
  datatype Envelope = Envelope(group: string, event: Event)

  /** `send_chat_message` */
  function ChatMessageEnvelope(conversationId: nat, message: MessagePayload): (env: Envelope)
    ensures env.group == ChatGroup(NatToString(conversationId))
    ensures EventType(env.event) == "chat_message" && env.event.message == message
  {
    Envelope(ChatGroup(NatToString(conversationId)), ChatMessageEvent(message))
  }

  /** `send_notification_to_user` */
  function NotificationEnvelope(userId: UserId, notification: string): (env: Envelope)
    ensures env.group == NotificationsGroup(userId)
    ensures env.event == NotificationEvent(notification)
  {
    Envelope(NotificationsGroup(userId), NotificationEvent(notification))
  }

  /** `send_unread_count_update` */
  function UnreadCountEnvelope(userId: UserId, count: nat): (env: Envelope)
    ensures env.group == NotificationsGroup(userId)
    ensures env.event == UnreadCountEvent(count)
  {
    Envelope(NotificationsGroup(userId), UnreadCountEvent(count))
  }

  /** `send_loan_status_update`; the `message` key is always present. */
  function LoanStatusEnvelope(userId: UserId, loanId: nat, status: string, message: string, now: Timestamp): (env: Envelope)
    ensures env.group == LoanUpdatesGroup(userId)
    ensures env.event == LoanStatusChangedEvent(loanId, status, Some(message), now)
  {
    Envelope(LoanUpdatesGroup(userId), LoanStatusChangedEvent(loanId, status, Some(message), now))
  }

  /** `send_loan_approval`: the amount travels as the decimal's string. */
  function LoanApprovalEnvelope(userId: UserId, loanId: nat, amount: Cents, message: string): (env: Envelope)
    ensures env.group == LoanUpdatesGroup(userId)
    ensures env.event.LoanApprovedEvent? && env.event.approvedLoanId == loanId
    ensures env.event.approvalMessage == Some(message)
    ensures ParseDecimal(env.event.amount) == Some(amount)
  {
    DecimalStringRoundTrip(amount);
    Envelope(LoanUpdatesGroup(userId), LoanApprovedEvent(loanId, DecimalString(amount), Some(message)))
  }

  /** `send_loan_disbursement` */
  function LoanDisbursementEnvelope(userId: UserId, loanId: nat, amount: Cents, accountNumber: string): (env: Envelope)
    ensures env.group == LoanUpdatesGroup(userId)
    ensures env.event.LoanDisbursedEvent? && env.event.disbursedLoanId == loanId
    ensures env.event.accountNumber == Some(accountNumber)
    ensures ParseDecimal(env.event.disbursedAmount) == Some(amount)
  {
    DecimalStringRoundTrip(amount);
    Envelope(LoanUpdatesGroup(userId), LoanDisbursedEvent(loanId, DecimalString(amount), Some(accountNumber)))
  }

  /** `send_payment_received`: both amounts travel as decimal strings. */
  function PaymentReceivedEnvelope(userId: UserId, loanId: nat, paymentId: nat, amount: Cents, remaining: Cents): (env: Envelope)
    ensures env.group == LoanUpdatesGroup(userId)
    ensures env.event.PaymentReceivedEvent? && env.event.paidLoanId == loanId && env.event.paymentId == paymentId
    ensures ParseDecimal(env.event.paidAmount) == Some(amount)
    ensures ParseDecimal(env.event.remainingBalance) == Some(remaining)
  {
    DecimalStringRoundTrip(amount);
    DecimalStringRoundTrip(remaining);
    Envelope(LoanUpdatesGroup(userId), PaymentReceivedEvent(loanId, paymentId, DecimalString(amount), DecimalString(remaining)))
  }

  /** A due date as the caller passes it: a date object, whose ISO form is
      sent, or any other value, whose `str()` is sent. */
  datatype DueDate = Dated(isoForm: string) | Undated(text: string)

  /** `due_date.isoformat() if hasattr(due_date, 'isoformat') else str(due_date)` */
  function DueDateText(d: DueDate): string {
    match d
    case Dated(iso) => iso
    case Undated(t) => t
  }

  /** `send_payment_due_reminder` */
  function PaymentDueReminderEnvelope(userId: UserId, loanId: nat, dueDate: DueDate, amount: Cents): (env: Envelope)
    ensures env.group == LoanUpdatesGroup(userId)
    ensures env.event.PaymentDueReminderEvent? && env.event.dueLoanId == loanId
    ensures env.event.dueDate == (if dueDate.Dated? then dueDate.isoForm else dueDate.text)
    ensures ParseDecimal(env.event.dueAmount) == Some(amount)
  {
    DecimalStringRoundTrip(amount);
    Envelope(LoanUpdatesGroup(userId), PaymentDueReminderEvent(loanId, DueDateText(dueDate), DecimalString(amount)))
  }

  /** The loan-updates consumer of the addressee receives every money field
      of an approval, disbursement or payment exactly: the frame's amount
      strings read back as the amounts the caller passed. */
  lemma LoanFramesCarryExactAmounts(userId: UserId, loanId: nat, paymentId: nat, amount: Cents, remaining: Cents, account: string)
    ensures var f := LoanDeliver(LoanApprovalEnvelope(userId, loanId, amount, "").event).frame;
            f.ApprovedFrame? && f.approvedLoanId == loanId && ParseDecimal(f.amount) == Some(amount)
    ensures var f := LoanDeliver(LoanDisbursementEnvelope(userId, loanId, amount, account).event).frame;
            f.DisbursedFrame? && f.accountNumber == account && ParseDecimal(f.disbursedAmount) == Some(amount)
    ensures var f := LoanDeliver(PaymentReceivedEnvelope(userId, loanId, paymentId, amount, remaining).event).frame;
            f.PaymentReceivedFrame? && ParseDecimal(f.paidAmount) == Some(amount) &&
            ParseDecimal(f.remainingBalance) == Some(remaining)
  {
  }

  /** A push addressed to one user never lands in another user's group. */
  lemma PushesReachOnlyTheAddressee(a: UserId, b: UserId, loanId: nat, status: string, message: string, now: Timestamp, count: nat)
    requires a != b
    ensures LoanStatusEnvelope(a, loanId, status, message, now).group != LoanUpdatesGroup(b)
    ensures UnreadCountEnvelope(a, count).group != NotificationsGroup(b)
    ensures NotificationEnvelope(a, message).group != NotificationsGroup(b)
  {
    PersonalGroupsAreDistinct(a, b);
  }

  /** The one publish every `send_*` function ends with. */
  method Publish(layer: ChannelLayer, env: Envelope)
    modifies layer
    ensures layer.published == old(layer.published) + [Publication(env.group, env.event, old(layer.Members(env.group)))]
    ensures layer.groups == old(layer.groups)
  {
    layer.GroupSend(env.group, env.event);
  }

  // ----- trigger_loan_status_change -----

  /** What the trigger reads of a loan: its id and its customer, who may be
      linked to a user account. */
  datatype LoanRef = LoanRef(id: nat, customerId: nat, customerUserId: Option<UserId>)

  /** The user id pushes go to: the customer's user if linked, else the customer's own id. */
  function Addressee(loan: LoanRef): UserId {
    loan.customerUserId.GetOr(loan.customerId)
  }

  /** The seven statuses with their own notification type and title. */
  predicate KnownStatus(status: string) {
    status in {"APPROVED", "REJECTED", "DISBURSED", "PENDING", "ACTIVE", "COMPLETED", "DEFAULTED"}
  }

  /** `notification_type_map.get(status, 'loan_update')` */
  function NotificationTypeFor(status: string): (t: string)
    ensures !KnownStatus(status) <==> t == "loan_update"
  {
    if status == "APPROVED" then "loan_approved"
    else if status == "REJECTED" then "loan_rejected"
    else if status == "DISBURSED" then "loan_disbursed"
    else if status == "PENDING" then "loan_pending"
    else if status == "ACTIVE" then "loan_active"
    else if status == "COMPLETED" then "loan_completed"
    else if status == "DEFAULTED" then "loan_defaulted"
    else "loan_update"
  }

  /** `notification_title_map.get(status, 'Loan Status Update')` */
  function NotificationTitleFor(status: string): (t: string)
    ensures !KnownStatus(status) <==> t == "Loan Status Update"
  {
    if status == "APPROVED" then "Loan Approved"
    else if status == "REJECTED" then "Loan Rejected"
    else if status == "DISBURSED" then "Loan Disbursed"
    else if status == "PENDING" then "Loan Pending Review"
    else if status == "ACTIVE" then "Loan Activated"
    else if status == "COMPLETED" then "Loan Completed"
    else if status == "DEFAULTED" then "Loan Defaulted"
    else "Loan Status Update"
  }

  /** The type and title maps give distinct values to distinct known statuses. */
  lemma StatusMapsAreInjective(s: string, t: string)
    requires KnownStatus(s) && KnownStatus(t) && s != t
    ensures NotificationTypeFor(s) != NotificationTypeFor(t)
    ensures NotificationTitleFor(s) != NotificationTitleFor(t)
  {
  }

  /** `message or f'Your loan status has been updated to {status}'` */
  function StoredMessage(status: string, message: string): (m: string)
    ensures message != "" ==> m == message
    ensures message == "" ==> m == "Your loan status has been updated to " + status && m != ""
  {
    if message != "" then message else "Your loan status has been updated to " + status
  }

  /** Where persistence fails, if it does: in `create` (nothing stored), or
      in the count that follows it (the row is stored, no count is pushed). */
  datatype FailurePoint = AtCreate | AtCount

  /** The stored notification for a status change: unread, typed and titled by
      the status, with the defaulted message. */
  function StatusNotification(id: nat, loan: LoanRef, status: string, message: string, now: Timestamp): (n: Notification)
    ensures n.id == id && n.user == Addressee(loan) && n.loan == Some(loan.id)
    ensures !n.isRead && n.readAt == None && n.message != ""
    ensures n.kind == NotificationTypeFor(status) && n.title == NotificationTitleFor(status)
  {
    Notification(id, Addressee(loan), NotificationTypeFor(status), NotificationTitleFor(status),
                 StoredMessage(status, message), Some(loan.id), None, false, None, now)
  }

  /** The keywords `trigger_loan_status_change` passes to `create`: the loan
      goes in as `related_loan_id`, a name the model does not declare. */
  const StatusCreateKeywords: set<string> :=
    {"user_id", "notification_type", "title", "message", "related_loan_id", "is_read"}

  /** The same keywords with the loan passed under its field's name. */
  const IntendedCreateKeywords: set<string> :=
    {"user_id", "notification_type", "title", "message", "loan_id", "is_read"}

  /** `create` raises `TypeError` for a keyword the model does not know. */
  predicate CreateAccepts(keywords: set<string>) {
    keywords <= NotificationKeywords
  }

  /** The create as written always raises, and the one passing `loan_id` is
      accepted. */
  lemma RelatedLoanKeywordIsUnknown()
    ensures "related_loan_id" !in NotificationKeywords
    ensures !CreateAccepts(StatusCreateKeywords)
    ensures CreateAccepts(IntendedCreateKeywords)
  {
  }

  /** `trigger_loan_status_change` as written: the status push goes out, then
      `create` raises on `related_loan_id` and the exception is swallowed, so
      no row is ever stored and no unread count is pushed. */
  method TriggerLoanStatusChangeAsWritten(layer: ChannelLayer, table: NotificationTable, loan: LoanRef,
                                          status: string, message: string, now: Timestamp)
    requires table.Valid()
    modifies layer, table
    ensures table.Valid()
    ensures layer.groups == old(layer.groups)
    ensures table.rows == old(table.rows) && table.nextId == old(table.nextId)
    ensures var live := LoanStatusEnvelope(Addressee(loan), loan.id, status, message, now);
            layer.published == old(layer.published) + [Publication(live.group, live.event, old(layer.Members(live.group)))]
  {
    RelatedLoanKeywordIsUnknown();
    var failure := if CreateAccepts(StatusCreateKeywords) then None else Some(AtCreate);
    TriggerLoanStatusChange(layer, table, loan, status, message, now, failure);
  }

  /** `trigger_loan_status_change` as intended, the loan passed as `loan_id`.
      The status push comes first and carries
      the caller's message as given (possibly empty); the stored row and the
      unread-count push follow, and `failure` says where persistence raised, if
      it did: the exception is swallowed, so the method always returns. */
  method TriggerLoanStatusChange(layer: ChannelLayer, table: NotificationTable, loan: LoanRef, status: string,
                                 message: string, now: Timestamp, failure: Option<FailurePoint>)
    requires table.Valid()
    modifies layer, table
    ensures table.Valid()
    ensures layer.groups == old(layer.groups)
    ensures var uid := Addressee(loan);
            var live := LoanStatusEnvelope(uid, loan.id, status, message, now);
            var first := Publication(live.group, live.event, old(layer.Members(live.group)));
            var id := old(table.nextId);
            (failure == Some(AtCreate) ==>
               table.rows == old(table.rows) && table.nextId == id && layer.published == old(layer.published) + [first]) &&
            (failure != Some(AtCreate) ==>
               id !in old(table.rows) && table.nextId == id + 1 &&
               table.rows == old(table.rows)[id := StatusNotification(id, loan, status, message, now)]) &&
            (failure == Some(AtCount) ==> layer.published == old(layer.published) + [first]) &&
            (failure.None? ==>
               var count := UnreadCountEnvelope(uid, UnreadCount(table.rows, uid));
               layer.published == old(layer.published) +
                 [first, Publication(count.group, count.event, old(layer.Members(count.group)))])
  {
    var uid := Addressee(loan);
    Publish(layer, LoanStatusEnvelope(uid, loan.id, status, message, now));
    if failure == Some(AtCreate) {
      return;
    }
    var _ := table.Insert(uid, NotificationTypeFor(status), NotificationTitleFor(status),
                          StoredMessage(status, message), Some(loan.id), now);
    if failure == Some(AtCount) {
      return;
    }
    var count := UnreadCount(table.rows, uid);
    Publish(layer, UnreadCountEnvelope(uid, count));
  }

  /** The unread count pushed after a successful insert is exactly one more
      than the addressee had before the status change. */
  lemma PushedCountIsOneMore(rows: map<nat, Notification>, id: nat, loan: LoanRef, status: string, message: string, now: Timestamp)
    requires id !in rows
    ensures UnreadCount(rows[id := StatusNotification(id, loan, status, message, now)], Addressee(loan))
         == UnreadCount(rows, Addressee(loan)) + 1
  {
    InsertUnreadCounts(rows, StatusNotification(id, loan, status, message, now), Addressee(loan) + 1);
  }
}
