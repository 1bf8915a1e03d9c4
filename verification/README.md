# Talento Local payment core, modelled in Dafny

Talento Local is a services marketplace. A client pays for a booked service
through the payment processor (MercadoPago), and the platform withholds a 5%
commission. The reservation is recorded in the `reservas` table. The
processor's webhook later confirms the payment, and a confirmation email goes
to two fixed placeholder addresses (`cliente@ejemplo.com` and
`talento@ejemplo.com`), not yet to the reservation's own client and talent.
Clients can also submit a review that names a reservation; the code does not
check that the reservation exists, is approved or belongs to the client.

This project models the three request handlers of `server.js` and their two
helpers as pure functions over immutable tables:

- `Options`: the optional value, used for nullable columns and absent keys.
- `Fees`: the commission, `Math.round(amount * 0.05)`, computed over naturals
  as `(amount * 5 + 50) / 100` and described as the integer nearest to
  `amount / 20`, with a tie going up.
- `Charges`: the charge payload and its defaults. A falsy installment count
  becomes 1. A falsy payer email becomes `test_user@test.com`.
- `Reservations`: reservation rows, the unconditional approval update, and the
  `.single()` lookup by payment id.
- `Payments`: the payment endpoint. A row is appended only after the
  processor accepts the charge. The row's state is the processor's reply,
  not an assumed `pending`.
- `Webhook` and `Notifier`: the webhook. Events that are not payments are
  acknowledged and ignored. The status is taken from the re-fetch, never from
  the body. Approval rewrites every matching row. The mail is best effort.
- `Reviews`: the review guard and the insert, with JavaScript truthiness and
  the numeric coercion of `<` and `>` written out in `JsValues`.
- `Traces`: any sequence of requests, starting from consistent tables (for
  example, empty ones). Each row's commission always matches
  its amount, and every stored review passed the guard. Both tables are
  append-only. An approved reservation stays approved, and a set approval
  stamp is never cleared. Every added row carries an id the processor
  returned.

Calls to the processor, the database and the mail transport are parameters:
the processor's reply, a success flag per store call, a success flag for the
send, and the clock's timestamp. Each handler returns the new table, the HTTP
response and, for the webhook, what happened to the confirmation mail.

What the code does, and the model with it:

- Amounts are not validated. The model takes a `nat` and does not reject zero.
- The approval update is unconditional. There is no pending-only
  compare-and-set. A replayed approval re-stamps `fecha_aprobacion` and sends
  the mail again (`Webhook.ReplayedApproval`).
- Duplicate payment ids are not rejected on insert.
- The code never writes a `failed` state. A row may be created in any state the
  processor reports, including `approved` or `rejected`, and a later approval
  overwrites it. A row the processor approves at once is stored as approved
  with no approval stamp (`Payments.StateComesFromProcessor`).
- Reviews do not recompute a rating average or count.
- The review guard accepts fractional ratings such as 4.5. It also accepts a
  rating that is not a number at all, such as `"excelente"` or a plain object,
  because NaN fails both comparisons (`Reviews.NonNumericRatingPasses`).

## Model

| member | source | states |
|---|---|---|
| Fees.Commission | server.js:64 | The commission is what `Math.round` gives for 5% of the amount (nearest integer, ties up), and never exceeds the amount |
| Fees.MathRoundUnique | server.js:64 | At most one integer is the `Math.round` of a rational, so the rounding is determined |
| Fees.CommissionIsTheRounding | server.js:64 | An integer is the rounding of 5% of the amount if and only if it is the commission |
| Fees.CommissionMonotone | server.js:64 | A larger amount never yields a smaller commission |
| Fees.CommissionExamples | server.js:64 | 0.45 rounds to 0, 0.5 to 1, 1.5 to 2, and 1000 carries a commission of 50 |
| JsValues.OrKeepsTruthy | server.js:71-72 | With a truthy default, the defaulting `or` of the source is truthy, and it keeps `a` exactly when `a` is truthy (or equals the default) |
| JsValues.DigitStringCompares | server.js:201 | A non-empty digit string compares as its decimal value |
| Charges.BuildPaymentData | server.js:66-74 | The payload passes the amount, token and method through. Its `application_fee` is the rounded 5% and at most the amount. Installments and payer email are the request's when truthy and 1 / `test_user@test.com` otherwise, so both are always truthy. The description is the fixed prefix followed by the talent id |
| Charges.DescriptionNamesTalent | server.js:69 | The description is the fixed prefix followed by the rendered talent id, which can be read back |
| Charges.ChargeOfThousand | server.js:64-73 | A charge of 1000 with no installments and no payer withholds 50 and asks for one installment billed to the placeholder address |
| Reservations.ApproveAll | server.js:132-135 | The update keeps every row's booking columns and the row count. Every row with the notified payment id becomes approved with the new timestamp, whatever its prior state. Every other row is unchanged |
| Reservations.ApproveAllRow | server.js:132-135 | Each row after the update is the approved-and-stamped row if its id matches, else the original row |
| Reservations.ApproveAllTwice | server.js:128-135 | Two updates equal one with the later timestamp. The state column is idempotent, the approval timestamp is not |
| Reservations.MatchIndices | server.js:184-186 | The positions of the rows with a given payment id are exactly those rows, in increasing order |
| Reservations.SingleMatchIndices | server.js:186-187 | When exactly one row carries the id, the match list is that one position |
| Reservations.FindByPaymentId | server.js:182-195 | The `.single()` lookup returns a row if and only if the store answers and exactly one row matches. The row it returns is that row's selected columns |
| Reservations.ApproveAllKeepsMatches | server.js:132-135 | The update does not change which rows carry a payment id, so the lookup succeeds after it exactly when it did before |
| Notifier.MailText | server.js:170 | The message body is the greeting, the service date, the hour label `\nHora: `, the service time and the closing, in that order and at fixed offsets. A missing column renders as `null` |
| Notifier.SendConfirmation | server.js:151-179 | The mail is attempted if and only if the lookup succeeds. It goes to both fixed addresses with the fixed subject and the reservation's date and time. It is delivered exactly when the transport succeeds. Otherwise nothing is sent |
| Webhook.HandleWebhook | server.js:112-148 | A non-payment event is answered 200 `Evento no procesado` and touches nothing; every other reply is 200 `OK` or 500 `Error`. The reply is 500 exactly for missing data, a failed re-fetch or a failed update, and those leave the table unchanged with no mail. A re-fetched status other than approved changes nothing. Approval rewrites exactly the matching rows and then tries the mail. No other path changes the table or sends mail |
| Webhook.StatusInBodyIsIgnored | server.js:121-135 | The outcome does not depend on any status in the body. A forged "approved" body for a payment the processor reports pending leaves the table unchanged |
| Webhook.MailOutcomeIsIsolated | server.js:139-143 | A failed lookup or a failed send never changes the reply or the table. An applied approval always answers 200 |
| Webhook.ReplayedApproval | server.js:128-143 | Delivering the same approval twice leaves the state column as after one delivery. The timestamp is the second delivery's, and the mail is attempted again whenever the second lookup succeeds |
| Webhook.ReplayedUpdate | server.js:132-140 | At table level, a second update equals a single update with the later stamp and leaves every state as the first left it. The mail attempted after the first is attempted again after the second whenever its lookup succeeds |
| Payments.ProcessPayment | server.js:60-108 | The charge posted is always the payload `Charges.BuildPaymentData` builds: the amount and the commission, the token and method passed through, installments and payer email defaulted to 1 / `test_user@test.com` when falsy, and the templated description. The reply is 200 with the processor's status and id exactly when the processor accepts and the insert succeeds. Otherwise it is 500 and the table is unchanged. On success exactly one row is appended, recording the amount, the commission, the processor's status and id, the request's parties and service date and time, and the creation time, with no approval time |
| Payments.StateComesFromProcessor | server.js:86-96 | The new row's state is the processor's status (approved, in_process, ...), not a fixed pending. A row approved at creation carries no approval stamp, because the insert writes none |
| Reviews.SubmitReview | server.js:198-217 | The reply is 400 if and only if the guard fails, and then nothing is stored. The reply is 200 exactly when the guard passes and the insert succeeds, and then exactly one review carrying the body's fields and the time is appended. A store failure answers 500 and stores nothing |
| Reviews.NumericRatingGuard | server.js:201-203 | For a numeric rating, the guard holds if and only if the three ids are truthy and the rating lies in [1, 5] |
| Reviews.RatingBoundaries | server.js:201-203 | Ratings 0 and 6 are answered 400 and nothing is stored |
| Reviews.NonNumericRatingPasses | server.js:201 | A non-numeric rating (a word or a plain object) passes the guard, because NaN fails both comparisons |
| Reviews.DigitStringRating | server.js:201 | The rating string "3" passes the guard and "7" is refused |
| Traces.StepKeepsConsistent | server.js:84-96 | One request of any kind keeps every row's commission equal to the rounding of its amount, and every stored review valid |
| Traces.StepExtends | server.js:132-135 | One request never removes or rewrites booking columns, and only ever changes a state to approved |
| Traces.RunKeepsConsistent | server.js:60-217 | Starting from consistent tables (for example, empty ones), after any sequence of requests, with any outside answers, commissions match amounts and stored reviews satisfy the guard |
| Traces.RunExtends | server.js:60-217 | Over any sequence of requests both tables are append-only and booking columns never change. An approved reservation stays approved, and a set approval stamp is never cleared |
| Traces.RowsComeFromAcceptedCharges | server.js:76-107 | Over any sequence of requests, at most one row is added per accepted charge, and every added row carries an id the processor returned |
| Traces.EscrowScenario | server.js:60-148 | Charging 1000 with a pending reply records a commission of 50 in state pending. A later approval notification makes it approved, stamps it, answers 200 and sends one confirmation with the service date |

## Left out

- `api/improve.js` is not part of this model. It only orchestrates calls to GitHub, an AI service and the database.
- Express routing, the `/` route, the environment-variable checks, client and transporter construction, logging and `app.listen` (server.js:5-57, 219-226) are configuration and I/O.
- HTTP, database and SMTP calls are parameters: the processor's reply, one success flag per store call, and one for the send. Error messages in 500 bodies (`details`) are not modelled.
- Floating point: `amount * 0.05` is computed in integers. A binary rounding of the product that would tip a result across .5 is not modelled.
- Timestamps are opaque strings taken from the clock as inputs.
- The `from` address (an environment variable) is not part of `Mail`.
- Request fields: the amount is a `nat`, so a string or fractional amount is not modelled. Reservation identifiers and service date and time are optional strings. Other JSON types in those fields are not modelled.
- JsValues.ToNumber: string-to-number coercion covers blank strings (0) and plain decimal digit strings. Signs, fractions, exponents, hexadecimal, `"Infinity"` and surrounding blanks coerce to NaN in the model, although JavaScript parses them; so the model's guard accepts a rating `"Infinity"` that JavaScript refuses as above 5. Only space, tab, CR and LF count as blank: a string of other JavaScript whitespace (form feed, vertical tab, no-break space and the other Unicode spaces) coerces to 0 in JavaScript, which refuses it as a rating below 1, but to NaN in the model, whose guard accepts it. Arrays are treated like objects (NaN), although `[3]` coerces to 3. An object whose own `toString` is not a function (`{"toString": 1}`) makes `rating < 1` throw a TypeError at server.js:201, before the `try` of the handler, so the code answers neither 200 nor 400 and stores nothing, while the model reads it as NaN and stores it.
- A webhook whose `data` object lacks `id` is not modelled. The model's `data` always carries an id, and a missing or null `data` answers 500.
- Concurrent duplicate webhook deliveries are not modelled. The code has no mechanism for them, and each delivery is modelled as one atomic step.
- The code has no rating-average or rating-count recomputation, no pending-only conditional update, no duplicate-payment-id check, no `failed` transition and no positive-amount check. The model has none of them either.
