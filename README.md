# Point-of-sale checkout and payment status, modelled in Dafny

This project models the two pieces of logic in the UniPay demo point-of-sale page:

- **Amount entry** (`src/pages/index.tsx`). `sanitizedAmountInput` turns a typed amount into
  `dollars.cc`: it splits on `.` (`AmountInput.Split`, JavaScript's `split`), keeps the text before
  the first point, and cuts or pads the text between the first and second point to exactly two
  characters (`AmountInput.Cents`). `Home` holds `amount` and `confirmedAmount`, and three handlers
  change them: the input's change handler, "Checkout" and "Start over". `Home.Render` picks the entry
  form or the "Paying $…" screen. Its invariant shows that the payment component only ever receives
  a `dollars.cc` string.
- **Payment status** (`src/components/Payment.tsx`).
  - Statuses are a tagged union. It has the five backend statuses, the two client statuses and an
    `Unrecognised` fallback for any other string, because the poll result is cast without a check.
  - `SelectView` chooses the rendered view.
  - The component state is a `Session` value: status, QR code, webhook, the webhooks that running
    interval timers poll, and whether the component is mounted.
  - `Step` applies one event: the QR fetch succeeds, the QR fetch fails, a poll tick returns a
    status string, or the component unmounts. `Run` applies a sequence of events.
  - The `Payment` class keeps the same state in fields. Its event methods are proved to change it
    exactly as `Step` says.
  - The interval timer is a sequence of polled webhooks, not a bare flag. This makes "at most one
    timer, polling the current webhook" an invariant that every event must preserve.
    `Session.Polling()` is the flag.

The amount is never checked to be numeric; the sanitiser accepts any string. Only the `type="number"`
input restricts what is typed. The shape "`<digits>.<two digits>`" is therefore proved as "exactly one
point, followed by exactly two characters", with no claim that they are digits.
The component's awaiting status is `AWAITING_TX_HASH`, and nothing retries a failed QR fetch.

`HomePage.CheckoutScenario` is a client of `Home`: typing `5` and checking out displays "Paying $5.00".

A status string that the backend returns is compared by value. If it equals a client status, for
example `GENERAL_ERROR`, it is that status (`ParseStatus`). After unmounting, React ignores the
state setters of late answers, so an unmounted `Session` ignores every event.

## Model

| member | source | states |
|---|---|---|
| AmountInput.Split | src/pages/index.tsx:11 | the pieces contain no separator and joined with it give back the input (at least one piece) |
| AmountInput.SplitUnique | src/pages/index.tsx:11 | any separator-free pieces are exactly what splitting their join returns, so the contract of Split determines it |
| AmountInput.SplitAfterPiece | src/pages/index.tsx:11 | text without a point, then a point: that text is the first piece, and the rest is split on its own |
| AmountInput.FirstPiece | src/pages/index.tsx:11 | text without a point, followed by nothing or by a point, is exactly the first piece |
| AmountInput.Cents | src/pages/index.tsx:12-17 | exactly two characters: the i-th is the raw fraction's i-th when it exists, else `0`; truncation, no rounding |
| AmountInput.Sanitize | src/pages/index.tsx:8-19 | the result always has exactly one point, followed by exactly two characters |
| AmountInput.SanitizeWithoutPoint | src/pages/index.tsx:9 | an amount without a point becomes the amount followed by `.00` |
| AmountInput.SanitizeWithPoint | src/pages/index.tsx:11-18 | the text before the first point is kept verbatim, the text up to a second point becomes the cents, and anything after a second point is discarded |
| AmountInput.FractionCases | src/pages/index.tsx:13-16 | more than two fraction characters keep the first two; two are kept; one is padded with `0`; none gives `00` |
| AmountInput.SanitizeIdempotent | src/pages/index.tsx:8-19 | sanitising a sanitised amount returns it unchanged |
| AmountInput.TruncateExample | src/pages/index.tsx:13 | `12.999` gives `12.99` |
| AmountInput.SecondPointExample | src/pages/index.tsx:11 | `1.2.3` gives `1.20` |
| AmountInput.PadExample | src/pages/index.tsx:15 | `5.1` gives `5.10` |
| AmountInput.EmptyFractionExample | src/pages/index.tsx:16 | `5.` gives `5.00` |
| HomePage.Home.constructor | src/pages/index.tsx:22-23 | both amounts start unset |
| HomePage.Home.Render | src/pages/index.tsx:56-91 | the paying screen shows exactly when an amount is confirmed; the amount handed to the payment component is the confirmed amount, in `dollars.cc` form, and the heading is `Paying $` + it; otherwise Checkout is enabled exactly when the typed amount is set and non-empty |
| HomePage.Home.SetAmount | src/pages/index.tsx:74-75 | typing stores the value as the amount and leaves the confirmed amount alone |
| HomePage.Home.OnStartOver | src/pages/index.tsx:40-43 | both amounts become unset, whatever the prior state |
| HomePage.Home.OnCheckout | src/pages/index.tsx:45-50 | an unset or empty amount changes nothing; otherwise the confirmed amount becomes the sanitised amount and the typed amount is kept |
| PaymentComponent.ParseStatus | src/components/Payment.tsx:7-19 | the parsed status stands for exactly the string read, and is `Unrecognised` exactly for strings that name none of the seven statuses |
| PaymentComponent.ParseStatusText | src/components/Payment.tsx:7-19 | parsing the text of a well-formed status returns that status |
| PaymentComponent.FinalStatusTexts | src/components/Payment.tsx:21-27 | a status is final exactly for `SUCCESS`, `TX_INVALID` and `TX_REVERTED`; `AWAITING_TX_HASH` and `PENDING` are not |
| PaymentComponent.IsStatusFinal | src/components/Payment.tsx:21-27 | a final status is a backend status whose text is `SUCCESS`, `TX_INVALID` or `TX_REVERTED`, and every well-formed status with one of those texts is final |
| PaymentComponent.SelectView | src/components/Payment.tsx:73-143 | every view belongs to the current status; nothing is rendered exactly for an unrecognised status or for awaiting without a non-empty QR code; the QR view shows the stored code |
| PaymentComponent.DistinctViews | src/components/Payment.tsx:73-143 | two different statuses never select the same view |
| PaymentComponent.ChangeWebhook | src/components/Payment.tsx:56-71 | a changed webhook clears the old timer and starts one exactly when the new webhook is non-empty; an unchanged webhook does not re-run the effect |
| PaymentComponent.Step | src/components/Payment.tsx:37-71 | an unmounted component ignores every event; only unmounting unmounts it; only a successful QR fetch starts a timer; a tick while polling sets the status to the parsed result |
| PaymentComponent.InitialValid | src/components/Payment.tsx:30-34 | on mount: generating the QR code, no timer, the spinner view |
| PaymentComponent.StepValid | src/components/Payment.tsx:37-71 | every event keeps at most one timer, polling the current non-empty webhook of a mounted component whose status is not final |
| PaymentComponent.RunValid | src/components/Payment.tsx:56-71 | the one-timer invariant holds after any sequence of events |
| PaymentComponent.QrFetchedFromInitial | src/components/Payment.tsx:43-46 | a successful QR fetch stores code and webhook, moves to `AWAITING_TX_HASH`, and polls exactly when the webhook is non-empty |
| PaymentComponent.FailedFetchNeverPolls | src/components/Payment.tsx:47-57 | a failed QR fetch sets the status to `GENERAL_ERROR`, which selects the error view; after it, no further event except a successful fetch starts a timer, sets a webhook or changes that status |
| PaymentComponent.NoFetchKeepsStatus | src/components/Payment.tsx:43-48 | without a successful fetch and a running timer, the status stays as it is or becomes `GENERAL_ERROR`; it reaches `AWAITING_TX_HASH` only through a successful fetch |
| PaymentComponent.NoTimerWithoutFetch | src/components/Payment.tsx:56-57 | without a successful fetch, no timer starts and the webhook does not change |
| PaymentComponent.TickSetsStatus | src/components/Payment.tsx:59-67 | a tick sets the status to the returned value, and polling goes on exactly when that value is not final; the QR code and the webhook are unchanged and the component stays mounted |
| PaymentComponent.AwaitingTickKeepsQrCode | src/components/Payment.tsx:59-93 | while the QR view is shown, a tick answering `AWAITING_TX_HASH` keeps the same QR view and keeps polling |
| PaymentComponent.TicksWithoutTimer | src/components/Payment.tsx:59-68 | with no running timer, any number of ticks leaves the state unchanged |
| PaymentComponent.FinalTickStopsPolling | src/components/Payment.tsx:63-67 | a final status clears the timer and no later tick changes the state |
| PaymentComponent.UnmountedIgnoresEvents | src/components/Payment.tsx:70 | an unmounted component's state no longer changes: line 70 clears the interval, and React (not this file) discards the setters that late fetch answers call after unmount |
| PaymentComponent.UnmountSilences | src/components/Payment.tsx:70 | unmounting clears the timer, and no later event changes the state |
| PaymentComponent.Payment.constructor | src/components/Payment.tsx:30-34 | mounting gives the initial state |
| PaymentComponent.Payment.Render | src/components/Payment.tsx:73-143 | the rendered view is the one `SelectView` fixes for the current status and QR code |
| PaymentComponent.Payment.SetWebhook | src/components/Payment.tsx:56-71 | on a mounted component with a non-final status, setting the webhook and re-running its effect change the fields as `ChangeWebhook` and keep the one-timer invariant |
| PaymentComponent.Payment.OnQrFetched | src/components/Payment.tsx:43-46 | the fields change as `Step` for a successful fetch, keeping the one-timer invariant |
| PaymentComponent.Payment.OnQrFetchFailed | src/components/Payment.tsx:47-48 | the fields change as `Step` for a failed fetch, keeping the invariant |
| PaymentComponent.Payment.OnPollTick | src/components/Payment.tsx:59-67 | the fields change as `Step` for a poll tick, keeping the invariant |
| PaymentComponent.Payment.Unmount | src/components/Payment.tsx:70 | the fields change as `Step` for unmounting, keeping the invariant |

## Left out

- The network requests, their URLs and `res.json()`. Only their outcomes are events: a QR answer with its optional code and webhook, a failure, or a poll's status string.
- A poll request that fails inside the interval leaves the state unchanged, so it is the same as no tick and has no event of its own. A JSON answer without a string `status` is treated as some unrecognised string.
- The 2-second period of `setInterval`. Ticks are atomic events, so the model does not capture a slow poll answer that arrives after its timer was cleared, or answers that overlap.
- React scheduling: batching of state setters and when effects run. An effect's cleanup and re-run are folded into the event that changes its dependency.
- The QR fetch effect re-runs when the `amount` prop changes. Here the amount is a constant of the component, because `Home` hides the input while a payment is shown.
- JSX markup, spinners, icons and the QR image. Views are tags.
- The focus, blur and click handlers and refs of `Home`, which are UI plumbing.
- The check-in page. It is signature recovery, payload encoding, clipboard and polling, all foreign or I/O calls.
- The older inline `Payment` in `src/pages/index.tsx`. The component in `src/components/Payment.tsx` supersedes it.
- JavaScript string lengths count UTF-16 code units, but here a character is a Unicode scalar value. The two differ only for characters outside the Basic Multilingual Plane, which the numeric input never produces.
