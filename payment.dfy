/**
 * The `Payment` component: it fetches a QR code and a webhook for the amount,
 * then polls the webhook until the backend reports a final status. The
 * network is not modelled; each fetch outcome and each poll tick is an event.
 */
module PaymentComponent {
  import opened Optional

  /** Status strings the backend can return. */
  datatype PaymentStatus = AwaitingTxStatus | Pending | Success | Invalid | Reverted

  /** Status values that only the client sets. */
  datatype ClientPaymentStatus = GeneratingQRCode | GeneralError

  /**
   * The `status` state. The poll result is cast without a check, so any
   * string can end up here; one that names no status is `Unrecognised`.
   */
  datatype Status =
    | Backend(payment: PaymentStatus)
    | Client(client: ClientPaymentStatus)
    | Unrecognised(raw: string)

  function PaymentStatusText(p: PaymentStatus): string {
    match p
    case AwaitingTxStatus => "AWAITING_TX_HASH"
    case Pending => "PENDING"
    case Success => "SUCCESS"
    case Invalid => "TX_INVALID"
    case Reverted => "TX_REVERTED"
  }

  function ClientStatusText(c: ClientPaymentStatus): string {
    match c
    case GeneratingQRCode => "GENERATING_QR_CODE"
    case GeneralError => "GENERAL_ERROR"
  }

  /** The string a status stands for. */
  function StatusText(s: Status): string {
    match s
    case Backend(p) => PaymentStatusText(p)
    case Client(c) => ClientStatusText(c)
    case Unrecognised(raw) => raw
  }

  /** The seven strings that name a status. */
  const KnownTexts: set<string> := {
    "AWAITING_TX_HASH", "PENDING", "SUCCESS", "TX_INVALID", "TX_REVERTED",
    "GENERATING_QR_CODE", "GENERAL_ERROR"
  }

  /** A status value as the component compares it: `Unrecognised` only for unknown strings. */
  predicate WellFormed(s: Status) {
    s.Unrecognised? ==> s.raw !in KnownTexts
  }

  /**
   * Reads a status string the way the component's `===` comparisons do; a
   * backend string equal to a client status (say `GENERAL_ERROR`) is that status.
   */
  function ParseStatus(raw: string): (s: Status)
    ensures StatusText(s) == raw
    ensures WellFormed(s)
    ensures s.Unrecognised? <==> raw !in KnownTexts
  {
    if raw == "AWAITING_TX_HASH" then Backend(AwaitingTxStatus)
    else if raw == "PENDING" then Backend(Pending)
    else if raw == "SUCCESS" then Backend(Success)
    else if raw == "TX_INVALID" then Backend(Invalid)
    else if raw == "TX_REVERTED" then Backend(Reverted)
    else if raw == "GENERATING_QR_CODE" then Client(GeneratingQRCode)
    else if raw == "GENERAL_ERROR" then Client(GeneralError)
    else Unrecognised(raw)
  }

  /** Parsing the text of a well-formed status gives the status back. */
  lemma ParseStatusText(s: Status)
    requires WellFormed(s)
    ensures ParseStatus(StatusText(s)) == s
  {
  }

  /** `isStatusFinal`: the backend reported a settled payment. */
  predicate IsStatusFinal(s: Status)
    ensures IsStatusFinal(s) ==> s.Backend? && StatusText(s) in {"SUCCESS", "TX_INVALID", "TX_REVERTED"}
    ensures WellFormed(s) && StatusText(s) in {"SUCCESS", "TX_INVALID", "TX_REVERTED"} ==> IsStatusFinal(s)
  {
    s in {Backend(Success), Backend(Invalid), Backend(Reverted)}
  }

  /** Exactly `SUCCESS`, `TX_INVALID` and `TX_REVERTED` are final; no other string is. */
  lemma FinalStatusTexts(raw: string)
    ensures IsStatusFinal(ParseStatus(raw)) <==> raw == "SUCCESS" || raw == "TX_INVALID" || raw == "TX_REVERTED"
    ensures raw == "AWAITING_TX_HASH" || raw == "PENDING" ==> !IsStatusFinal(ParseStatus(raw))
  {
  }

  /** What the component renders; JSX, spinners and icons are reduced to a tag. */
  datatype View =
    | QrSpinner
    | ScanQrCode(code: string)
    | PendingSpinner
    | PaymentSuccess
    | GeneralErrorMessage
    | RevertedMessage
    | InvalidMessage

  /** The status a view is shown for. */
  function ViewStatus(v: View): Status {
    match v
    case QrSpinner => Client(GeneratingQRCode)
    case ScanQrCode(_) => Backend(AwaitingTxStatus)
    case PendingSpinner => Backend(Pending)
    case PaymentSuccess => Backend(Success)
    case GeneralErrorMessage => Client(GeneralError)
    case RevertedMessage => Backend(Reverted)
    case InvalidMessage => Backend(Invalid)
  }

  /**
   * The view for a status and QR code; the statuses are mutually exclusive,
   * so matching on them agrees with the component's chain of checks. The
   * QR code shows only when a non-empty code is present while awaiting the
   * transaction; an unrecognised status, or awaiting without a code, renders
   * nothing.
   */
  function SelectView(status: Status, qrCode: Option<string>): (v: Option<View>)
    ensures v.Some? ==> ViewStatus(v.value) == status
    ensures v.None? <==> status.Unrecognised? || (status == Backend(AwaitingTxStatus) && !Truthy(qrCode))
    ensures v.Some? && v.value.ScanQrCode? ==> qrCode == Some(v.value.code) && v.value.code != ""
  {
    match status
    case Client(GeneratingQRCode) => Some(QrSpinner)
    case Backend(AwaitingTxStatus) => if Truthy(qrCode) then Some(ScanQrCode(qrCode.value)) else None
    case Backend(Pending) => Some(PendingSpinner)
    case Backend(Success) => Some(PaymentSuccess)
    case Client(GeneralError) => Some(GeneralErrorMessage)
    case Backend(Reverted) => Some(RevertedMessage)
    case Backend(Invalid) => Some(InvalidMessage)
    case Unrecognised(_) => None
  }

  /** Different statuses never share a view. */
  lemma DistinctViews(s1: Status, q1: Option<string>, s2: Status, q2: Option<string>)
    requires SelectView(s1, q1).Some? && SelectView(s1, q1) == SelectView(s2, q2)
    ensures s1 == s2
  {
    assert ViewStatus(SelectView(s1, q1).value) == s1;
  }

  /**
   * The component's state: `status`, `qrCode`, `unipayWebhook`, the webhooks
   * that running interval timers poll, and whether it is still mounted.
   */
  datatype Session = Session(
    status: Status,
    qrCode: Option<string>,
    webhook: Option<string>,
    timers: seq<string>,
    mounted: bool)
  {
    predicate Polling() {
      timers != []
    }

    /**
     * At most one timer runs; it polls the current webhook, which is
     * non-empty, of a mounted component whose status is not final.
     */
    predicate Valid() {
      && |timers| <= 1
      && (Polling() ==> mounted && Truthy(webhook) && timers == [webhook.value] && !IsStatusFinal(status))
    }
  }

  /** On mount: generating the QR code, nothing fetched, no timer. */
  const Initial: Session := Session(Client(GeneratingQRCode), None, None, [], true)

  /** What can happen to a mounted component. */
  datatype Event =
    | QrFetched(code: Option<string>, hook: Option<string>)  // the QR request answered
    | QrFetchFailed                                           // the QR request or its JSON failed
    | PollTick(result: string)                                // a poll returned this status string
    | Unmount                                                 // the component was removed

  /**
   * `setUnipayWebhook(hook)` and the effect keyed on the webhook: when the
   * value changes, the old timer is cleared, then a new one starts if the
   * webhook is non-empty.
   */
  function ChangeWebhook(s: Session, hook: Option<string>): (r: Session)
    ensures r.status == s.status && r.qrCode == s.qrCode && r.mounted == s.mounted && r.webhook == hook
    ensures hook != s.webhook ==> r.timers == (if Truthy(hook) then [hook.value] else [])
    ensures hook == s.webhook ==> r.timers == s.timers
  {
    if hook == s.webhook then s
    else
      var cleared := s.(timers := []);
      var started := if Truthy(hook) then cleared.timers + [hook.value] else cleared.timers;
      cleared.(webhook := hook, timers := started)
  }

  /** The state after one event; an unmounted component ignores every event. */
  function Step(s: Session, e: Event): (r: Session)
    ensures !s.mounted ==> r == s
    ensures r.mounted <==> s.mounted && !e.Unmount?
    ensures r.Polling() && !s.Polling() ==> e.QrFetched?
    ensures s.mounted && s.Polling() && e.PollTick? ==> r.status == ParseStatus(e.result)
  {
    if !s.mounted then s
    else
      match e
      case QrFetched(code, hook) =>
        ChangeWebhook(s.(qrCode := code, status := Backend(AwaitingTxStatus)), hook)
      case QrFetchFailed =>
        s.(status := Client(GeneralError))
      case PollTick(result) =>
        if !s.Polling() then s
        else
          var status := ParseStatus(result);
          s.(status := status, timers := if IsStatusFinal(status) then [] else s.timers)
      case Unmount =>
        s.(mounted := false, timers := [])
  }

  /** The state after a sequence of events. */
  function Run(s: Session, events: seq<Event>): Session
    decreases |events|
  {
    if events == [] then s else Run(Step(s, events[0]), events[1..])
  }

  lemma InitialValid()
    ensures Initial.Valid() && !Initial.Polling()
    ensures SelectView(Initial.status, Initial.qrCode) == Some(QrSpinner)
  {
  }

  /** Every event keeps at most one timer, polling the current webhook. */
  lemma StepValid(s: Session, e: Event)
    requires s.Valid()
    ensures Step(s, e).Valid()
  {
  }

  lemma {:induction false} RunValid(s: Session, events: seq<Event>)
    requires s.Valid()
    ensures Run(s, events).Valid()
    decreases |events|
  {
    if events != [] {
      StepValid(s, events[0]);
      RunValid(Step(s, events[0]), events[1..]);
    }
  }

  /** A successful QR fetch stores code and webhook, awaits the transaction, and polls a non-empty webhook. */
  lemma QrFetchedFromInitial(code: Option<string>, hook: Option<string>)
    ensures var s := Step(Initial, QrFetched(code, hook));
      && s.status == Backend(AwaitingTxStatus) && s.qrCode == code && s.webhook == hook
      && (s.Polling() <==> Truthy(hook))
  {
  }

  /**
   * A failed QR fetch shows the general error. No later event other than a
   * successful fetch (which the component never issues again) starts a
   * timer, sets a webhook or moves the status away from the error.
   */
  lemma {:induction false} FailedFetchNeverPolls(events: seq<Event>)
    requires forall i :: 0 <= i < |events| ==> !events[i].QrFetched?
    ensures var s := Run(Step(Initial, QrFetchFailed), events);
      && !s.Polling() && s.webhook == None
      && s.status == Client(GeneralError)
      && SelectView(s.status, s.qrCode) == Some(GeneralErrorMessage)
  {
    var failed := Step(Initial, QrFetchFailed);
    assert failed.status == Client(GeneralError);
    NoTimerWithoutFetch(failed, events);
    NoFetchKeepsStatus(failed, events);
  }

  /**
   * Without a successful fetch and without a running timer, the status either
   * stays as it is or becomes the general error; in particular it never
   * reaches `AWAITING_TX_HASH` from elsewhere.
   */
  lemma {:induction false} NoFetchKeepsStatus(s: Session, events: seq<Event>)
    requires !s.Polling()
    requires forall i :: 0 <= i < |events| ==> !events[i].QrFetched?
    ensures Run(s, events).status in {s.status, Client(GeneralError)}
    decreases |events|
  {
    if events != [] {
      assert !events[0].QrFetched?;
      var next := Step(s, events[0]);
      assert next.status in {s.status, Client(GeneralError)};
      NoFetchKeepsStatus(next, events[1..]);
    }
  }

  lemma {:induction false} NoTimerWithoutFetch(s: Session, events: seq<Event>)
    requires !s.Polling()
    requires forall i :: 0 <= i < |events| ==> !events[i].QrFetched?
    ensures !Run(s, events).Polling() && Run(s, events).webhook == s.webhook
    decreases |events|
  {
    if events != [] {
      assert !events[0].QrFetched?;
      NoTimerWithoutFetch(Step(s, events[0]), events[1..]);
    }
  }

  /** Each tick while polling sets the status to the returned value before checking it. */
  lemma TickSetsStatus(s: Session, result: string)
    requires s.mounted && s.Polling()
    ensures Step(s, PollTick(result)).status == ParseStatus(result)
    ensures Step(s, PollTick(result)).Polling() <==> !IsStatusFinal(ParseStatus(result))
    ensures var t := Step(s, PollTick(result));
      t.qrCode == s.qrCode && t.webhook == s.webhook && t.mounted
  {
  }

  /** While the backend keeps answering `AWAITING_TX_HASH`, the QR code stays on screen and polling goes on. */
  lemma AwaitingTickKeepsQrCode(s: Session, code: string)
    requires s.Valid() && s.Polling() && SelectView(s.status, s.qrCode) == Some(ScanQrCode(code))
    ensures var t := Step(s, PollTick("AWAITING_TX_HASH"));
      SelectView(t.status, t.qrCode) == Some(ScanQrCode(code)) && t.Polling()
  {
  }

  /** Once no timer runs, ticks change nothing. */
  lemma {:induction false} TicksWithoutTimer(s: Session, ticks: seq<Event>)
    requires !s.Polling()
    requires forall i :: 0 <= i < |ticks| ==> ticks[i].PollTick?
    ensures Run(s, ticks) == s
    decreases |ticks|
  {
    if ticks != [] {
      assert ticks[0].PollTick?;
      TicksWithoutTimer(s, ticks[1..]);
    }
  }

  /** A final status clears the timer, and no further tick changes the state. */
  lemma FinalTickStopsPolling(s: Session, result: string, ticks: seq<Event>)
    requires s.mounted && s.Polling() && IsStatusFinal(ParseStatus(result))
    requires forall i :: 0 <= i < |ticks| ==> ticks[i].PollTick?
    ensures var t := Step(s, PollTick(result));
      !t.Polling() && t.status == ParseStatus(result) && Run(t, ticks) == t
  {
    TicksWithoutTimer(Step(s, PollTick(result)), ticks);
  }

  /** An unmounted component ignores every event. */
  lemma {:induction false} UnmountedIgnoresEvents(s: Session, events: seq<Event>)
    requires !s.mounted
    ensures Run(s, events) == s
    decreases |events|
  {
    if events != [] {
      UnmountedIgnoresEvents(s, events[1..]);
    }
  }

  /** After unmounting, no timer runs and no event changes anything. */
  lemma UnmountSilences(s: Session, events: seq<Event>)
    requires s.Valid()
    ensures var t := Step(s, Event.Unmount);
      !t.Polling() && !t.mounted && Run(t, events) == t
  {
    UnmountedIgnoresEvents(Step(s, Event.Unmount), events);
  }

  /** The component instance, its state held in fields that event handlers overwrite. */
  class Payment {
    const amount: string
    var status: Status
    var qrCode: Option<string>
    var webhook: Option<string>
    var timers: seq<string>
    var mounted: bool

    function State(): Session
      reads this
    {
      Session(status, qrCode, webhook, timers, mounted)
    }

    ghost predicate Valid()
      reads this
    {
      State().Valid()
    }

    /** Mounting: generating the QR code with no code, no webhook and no timer. */
    constructor(amount: string)
      ensures Valid()
      ensures this.amount == amount && State() == Initial
    {
      this.amount := amount;
      status := Client(GeneratingQRCode);
      qrCode := None;
      webhook := None;
      timers := [];
      mounted := true;
    }

    /** The view for the current state. */
    function Render(): (v: Option<View>)
      reads this
      ensures v == SelectView(status, qrCode)
    {
      SelectView(status, qrCode)
    }

    /** `setUnipayWebhook` followed by the effect keyed on the webhook. */
    method SetWebhook(hook: Option<string>)
      requires Valid() && mounted && !IsStatusFinal(status)
      modifies this
      ensures Valid()
      ensures State() == ChangeWebhook(old(State()), hook)
    {
      if hook == webhook {
        return;
      }
      timers := [];  // the effect's cleanup clears the previous interval
      webhook := hook;
      if Truthy(hook) {
        timers := timers + [hook.value];
      }
    }

    /** The QR request answered with `code` and `hook`. */
    method OnQrFetched(code: Option<string>, hook: Option<string>)
      requires Valid()
      modifies this
      ensures Valid()
      ensures State() == Step(old(State()), QrFetched(code, hook))
    {
      StepValid(State(), QrFetched(code, hook));
      if !mounted {
        return;
      }
      qrCode := code;
      status := Backend(AwaitingTxStatus);
      SetWebhook(hook);
    }

    /** The QR request failed. */
    method OnQrFetchFailed()
      requires Valid()
      modifies this
      ensures Valid()
      ensures State() == Step(old(State()), QrFetchFailed)
    {
      if !mounted {
        return;
      }
      status := Client(GeneralError);
    }

    /** The running interval's poll returned `result` as its status. */
    method OnPollTick(result: string)
      requires Valid()
      modifies this
      ensures Valid()
      ensures State() == Step(old(State()), PollTick(result))
    {
      if !mounted || timers == [] {
        return;
      }
      status := ParseStatus(result);
      if IsStatusFinal(status) {
        timers := [];
      }
    }

    /** Unmounting clears the timer; later answers are ignored. */
    method Unmount()
      requires Valid()
      modifies this
      ensures Valid()
      ensures State() == Step(old(State()), Event.Unmount)
    {
      if !mounted {
        return;
      }
      mounted := false;
      timers := [];
    }
  }
}
