/** The loan-updates WebSocket consumer: one object per connection of a
    signed-in user. It joins `loan_updates_<user id>` and turns each loan event
    into an outbound frame of the same type, filling in `''` for an optional
    field the event leaves out. */
module LoanUpdatesConsumers {
  import opened Common
  import opened Channels

  /** The frames this consumer writes, one per event type. */
  datatype LoanFrame =
    | StatusChangedFrame(loanId: nat, status: string, message: string, updatedAt: Timestamp)
    | ApprovedFrame(approvedLoanId: nat, amount: string, approvalMessage: string)
    | DisbursedFrame(disbursedLoanId: nat, disbursedAmount: string, accountNumber: string)
    | PaymentReceivedFrame(paidLoanId: nat, paymentId: nat, paidAmount: string, remainingBalance: string)
    | DueReminderFrame(dueLoanId: nat, dueDate: string, dueAmount: string)

  /** The outbound `type` key. */
  function LoanFrameType(f: LoanFrame): string {
    match f
    case StatusChangedFrame(_, _, _, _) => "loan_status_changed"
    case ApprovedFrame(_, _, _) => "loan_approved"
    case DisbursedFrame(_, _, _) => "loan_disbursed"
    case PaymentReceivedFrame(_, _, _, _) => "payment_received"
    case DueReminderFrame(_, _, _) => "payment_due_reminder"
  }

  predicate IsLoanEvent(e: Event) {
    e.LoanStatusChangedEvent? || e.LoanApprovedEvent? || e.LoanDisbursedEvent? ||
    e.PaymentReceivedEvent? || e.PaymentDueReminderEvent?
  }

  /** The five event handlers. Each frame has the event's type and copies the
      event's fields; `message` and `account_number` default to `''`. */
  function LoanDeliver(e: Event): (d: Delivery<LoanFrame>)
    ensures d.Send? <==> IsLoanEvent(e)
    ensures !d.Skip?
    ensures d.Send? ==> LoanFrameType(d.frame) == EventType(e)
    ensures e.LoanStatusChangedEvent? ==>
              d == Send(StatusChangedFrame(e.loanId, e.status, e.statusMessage.GetOr(""), e.updatedAt))
    ensures e.LoanApprovedEvent? ==>
              d == Send(ApprovedFrame(e.approvedLoanId, e.amount, e.approvalMessage.GetOr("")))
    ensures e.LoanDisbursedEvent? ==>
              d == Send(DisbursedFrame(e.disbursedLoanId, e.disbursedAmount, e.accountNumber.GetOr("")))
    ensures e.PaymentReceivedEvent? ==>
              d == Send(PaymentReceivedFrame(e.paidLoanId, e.paymentId, e.paidAmount, e.remainingBalance))
    ensures e.PaymentDueReminderEvent? ==>
              d == Send(DueReminderFrame(e.dueLoanId, e.dueDate, e.dueAmount))
  {
    match e
    case LoanStatusChangedEvent(id, s, m, at) => Send(StatusChangedFrame(id, s, m.GetOr(""), at))
    case LoanApprovedEvent(id, a, m) => Send(ApprovedFrame(id, a, m.GetOr("")))
    case LoanDisbursedEvent(id, a, acct) => Send(DisbursedFrame(id, a, acct.GetOr("")))
    case PaymentReceivedEvent(id, p, a, r) => Send(PaymentReceivedFrame(id, p, a, r))
    case PaymentDueReminderEvent(id, d, a) => Send(DueReminderFrame(id, d, a))
    case _ => NoHandler
  }

  /** One WebSocket connection to the user's loan updates. */
  class LoanUpdatesConsumer {
    const channelName: ConnId
    const layer: ChannelLayer
    var user: Option<User>
    var groupName: Option<string>
    var accepted: bool
    var closed: bool
    var sent: seq<LoanFrame>

    constructor (channelName: ConnId, layer: ChannelLayer)
      ensures this.channelName == channelName && this.layer == layer
      ensures user.None? && groupName.None? && !accepted && !closed && sent == []
    {
      this.channelName := channelName;
      this.layer := layer;
      user := None;
      groupName := None;
      accepted := false;
      closed := false;
      sent := [];
    }

    /** `connect`: an absent or anonymous user is closed without joining;
        otherwise join `loan_updates_<id>` and accept. */
    method Connect(scopeUser: Option<User>)
      modifies this, layer
      ensures user == scopeUser && sent == old(sent) && layer.published == old(layer.published)
      ensures !Authenticated(scopeUser) ==>
                closed && accepted == old(accepted) && groupName == old(groupName) && layer.groups == old(layer.groups)
      ensures Authenticated(scopeUser) ==>
                var g := LoanUpdatesGroup(scopeUser.value.id);
                groupName == Some(g) && accepted && closed == old(closed) &&
                layer.groups == Join(old(layer.groups), g, channelName)
    {
      user := scopeUser;
      if !Authenticated(user) {
        closed := true;
        return;
      }
      var g := LoanUpdatesGroup(user.value.id);
      groupName := Some(g);
      layer.GroupAdd(g, channelName);
      accepted := true;
    }

    /** `disconnect`: leave the group only if its name was set. */
    method Disconnect()
      modifies layer
      ensures groupName.None? ==> layer.groups == old(layer.groups)
      ensures groupName.Some? ==> layer.groups == Leave(old(layer.groups), groupName.value, channelName)
      ensures layer.published == old(layer.published)
    {
      if groupName.Some? {
        layer.GroupDiscard(groupName.value, channelName);
      }
    }

    /** A group event arriving at this connection. */
    method OnGroupEvent(e: Event) returns (handled: bool)
      modifies this`sent
      ensures handled == IsLoanEvent(e)
      ensures sent == old(sent) + (if IsLoanEvent(e) then [LoanDeliver(e).frame] else [])
    {
      var d := LoanDeliver(e);
      handled := d.Send?;
      if d.Send? {
        sent := sent + [d.frame];
      }
    }
  }
}
