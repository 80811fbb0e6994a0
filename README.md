# Cart ledger and payment-status model of the travel-booking backend

This project models the core of a Django travel-booking backend. That core is
the cart/order ledger (`Carrito` rows) and the payment-status state machine
driven by the Mercado Pago checkout, plus the registration and login checks
of its serializers. It is written in Dafny and verified.

- **Ledger.** `Carts.Row` is one `Carrito` row: user, destination, payment
  method, `cantidad`, `estado_pago`, the three Mercado Pago ids and the
  timestamps. The table is a `map<RowId, Row>`, held by the class
  `CartViews.Ledger`. Each handler of `backend/backend/views.py` is a method
  of that class and updates the map in place:
  - `AddToCart` is `agregar_al_carrito`.
  - `UpdateQuantity` is `CarritoViewSet.actualizar_cantidad`.
  - `RemoveItem` is `eliminar_item_carrito`.
  - `LegacyCheckout` is `checkout`.
  - `CreatePreference` is `create_preference`.
  - `ReceiveNotification` is `mercadopago_notifications`.
- **Checkout preference builder.** The payload loop is the method's `while`
  loop. Its specification is the pure walk `Carts.Reserve`, and the whole
  call is specified by `Carts.CreatePreferenceSpec`. The two batch writes
  are `Carts.Stamp` (success) and `Carts.Revert` (failure).
  - Each payload item is accepted only when all of these hold: a truthy
    `id_destino`; a `cantidadComprada` that is a positive `int` (a JSON
    `true` counts, since `bool` is an `int` in Python); an existing
    destination; and exactly one `cart_active` row for that user and
    destination. With two such rows, `get` raises `MultipleObjectsReturned`,
    which the generic handler swallows, so the item is skipped.
  - An exception that escapes the atomic block rolls the table back and
    answers 500. Four cases reach it: a payload item that is not a JSON
    object (`item_payload.get` raises `AttributeError`, views.py:418); a
    destination id the ORM cannot convert; a gateway call that raises
    (views.py:497), the reply variant `CallRaised`; and a success answer
    missing `id` or `init_point` (views.py:506-514).
- **Notification receiver.** `Carts.NotificationSpec` specifies it. One
  batch update (`Carts.ApplyPayment`) writes the reported status verbatim
  and the payment id. `fecha_compra` is stamped only for `approved`.
  - A payment lookup that raises or answers without `status`, and missing
    keys in the fetched payment, answer 400.
  - A non-payment topic, a failed fetch, a missing reference, no matching
    row, or an error in the database block each answer 200 and change
    nothing.
- **Request values.** `Payload` models the JSON values the handlers read,
  and how Python reads them: truthiness, `isinstance(x, int)`, `int(x)`,
  and the ORM's integer conversion for primary-key lookups.
- **Accounts.** `Accounts` holds `RegisterSerializer.validate` and
  `create`, and `LoginSerializer.validate`, over a user table whose
  usernames are unique. `Profiles` holds the whitelisted partial profile
  update.

The gateway answers, the fresh external reference, clock readings and the
result of `authenticate` are parameters of the operations.

Behaviour of the code that the model keeps as written:

- A missing row in `actualizar_cantidad` answers 500. `get_object`
  raises `Http404`, which is caught by `except Exception`
  (views.py:134-136). The `Carrito.DoesNotExist` branch at views.py:132-133
  is never taken.
- The legacy `checkout` sets the attribute `estado`, not `estado_pago`
  (views.py:247). `estado` is not one of the ledger's columns, so saving
  leaves every row as it was. Rows stay where they were.
- `agregar_al_carrito` leaves `estado_pago` to the model's default, here
  the parameter `Ledger.defaultStatus`.
- `agregar_al_carrito` stores `cantidad` unchecked (it may be 0 or
  negative), and it always inserts a new row. When the default status is
  `cart_active`, a second add of the same destination therefore makes that
  destination uncheckable by `create_preference` (`Scenarios.DuplicateCartLinesAreSkipped`).
- The notification receiver overwrites the status of every row with the
  reference, whatever that row's previous status and owner. It does not
  check for `in_process` first.
- A missing key in the fetched payment data raises `KeyError`, which the
  outer handler answers with 400 (views.py:648-650).

## Model

| member | source | states |
|---|---|---|
| Payload.PyInt | backend/backend/views.py:126-129 | `int(v)`: `int(n) == n`, `int(True) == 1`, `int(False) == 0`, so for ints and booleans truthiness is "non-zero"; undefined (an exception) for null, lists and objects; strings go through the decimal parser |
| Payload.Truthy | backend/backend/views.py:422 | Python truthiness: the falsy values are exactly `None`, `False`, `0`, `""` and an empty container |
| Payload.IsPyInt | backend/backend/views.py:422 | `isinstance(v, int)`: an integer counts as an `int`, and so does a boolean; a string, however numeric, `None` and containers do not |
| Payload.ParseDecimalRoundTrip | backend/backend/views.py:126-129 | the string conversion accepts the canonical spelling of every integer and returns that integer: `int(str(n)) == n` |
| Payload.PkLookup | backend/backend/views.py:150-155 | a primary-key lookup matches nothing exactly for `None`, finds a key exactly when `int()` converts the value, and raises otherwise; a truthy value never becomes the no-key lookup |
| Carts.Step | backend/backend/views.py:417-466 | one loop iteration only grows the walk: the table keeps its keys, the reserved rows and lines gain at most one entry each, in step, and a raised walk is left alone |
| Carts.Reserve | backend/backend/views.py:416-466 | the payload loop keeps the table's keys and yields one reserved row per gateway line, at most one per payload item |
| Carts.Stamp | backend/backend/views.py:509-510 | the success write changes only the preference id, setting it on exactly the rows with the call's reference and user |
| Carts.Revert | backend/backend/views.py:523-524 | the failure write puts the rows with the call's reference and user back in `cart_active` with reference and preference id cleared, changes no other row, and leaves the reference only on other users' rows |
| Carts.CreatePreferenceSpec | backend/backend/views.py:391-539 | the handler keeps the table's keys; only a created preference answers 200, and it echoes the reference and was sent; a sent request carries the call's reference, a known user and at least one line |
| Carts.Pay | backend/backend/views.py:595-615 | the batch update writes status, payment id and update time, `fecha_compra` only for `approved`, and nothing else of the row |
| Carts.ApplyPayment | backend/backend/views.py:579-615 | every row with the reference is paid, whoever owns it; other rows are untouched; the set of rows with the reference is the same afterwards |
| Carts.NotificationSpec | backend/backend/views.py:543-651 | the receiver keeps the table's keys and never changes a row's owner, destination, quantity, payment method, reference or preference id |
| CartLaws.ReserveAccounted | backend/backend/views.py:417-466 | the payload loop reserves one distinct row per accepted item. Each reserved row was the user's `cart_active` row for an existing destination; only its quantity (now positive), status (`in_process`) and reference changed; its gateway line carries its destination and new quantity. Each line comes from its own payload item, in payload order, whose destination and `cantidadComprada` it carries. Every other row is untouched |
| CartLaws.ItemReservedIffQualifies | backend/backend/views.py:417-466 | the loop takes an item exactly when, against the table so far, it passes the guard, its destination exists and the user has exactly one `cart_active` row for it; that row becomes `in_process` with the item's quantity and the reference, and the line is added. Any other object changes nothing; only a non-object item or an unconvertible destination id raises |
| CartLaws.ReservedRowsAreCartLines | backend/backend/views.py:436-447 | every reserved row was the user's `cart_active` row for an existing destination, and only its quantity, status and reference changed |
| CartLaws.LinesFromPayload | backend/backend/views.py:417-466 | gateway line `k` belongs to reserved row `k` and to payload item `src[k]`, in payload order, with the destination and positive quantity that item asked for |
| CartLaws.RaisedIsFinal | backend/backend/views.py:426-431 | once a lookup raises out of the loop, no later payload item is processed |
| CartLaws.ReferenceMarksReserved | backend/backend/views.py:412-447 | with a fresh per-call reference, after the loop a row carries that reference exactly when the loop reserved it, and every such row belongs to the calling user |
| CartLaws.NoLinesNoChange | backend/backend/views.py:469-471 | when no item was accepted, the table is unchanged |
| CartLaws.RevertLaw | backend/backend/views.py:517-524 | the failure revert puts exactly the reserved rows back in `cart_active` with reference and preference id cleared. They keep the quantity set at line 443; all other rows equal the pre-call table |
| CartLaws.RevertRestoresAllButQuantity | backend/backend/views.py:443-524 | if the reserved rows had no reference or preference id before, the revert gives back the pre-call table except for `cantidad` |
| CartLaws.StampLaw | backend/backend/views.py:504-510 | the success write puts the preference id on exactly the reserved rows; all other rows equal the pre-call table |
| CartLaws.RevertedBatchIsUnreachable | backend/backend/views.py:523-524 | after the revert, no row carries the call's reference |
| PaymentLaws.FailedCallsLeaveTableAlone | backend/backend/views.py:391-539 | every answer other than a created preference or a gateway rejection leaves the table as it was, including exceptions rolled back by the atomic block |
| PaymentLaws.GatewayNotContacted | backend/backend/views.py:401-471 | an empty payload, an unknown user, or no accepted item is answered 400 (404 for the user) without sending a request; the result is the same whatever the gateway would answer |
| PaymentLaws.PreferenceAnswers | backend/backend/views.py:391-539 | which answer each input gets: an empty payload 400; a missing or unknown user 404; an unconvertible user id, an exception in the loop, a raising gateway call, or a success answer lacking `id` or `init_point` 500 with the table restored; no accepted item 400; a 200/201 answer with a body holding both keys a created preference; any other answer the 400 rejection |
| PaymentLaws.SentLinesMatchReservedRows | backend/backend/views.py:450-497 | a sent request carries the call's reference, the user, and one line per reserved row, at least one. Line `k` has its row's destination and new quantity, and comes from payload item `src[k]` with strictly increasing `src`: that item passed the guard, its `id_destino` converts to the line's destination, and its `cantidadComprada` is the line's positive quantity |
| PaymentLaws.CreatedStampsBatch | backend/backend/views.py:504-516 | on a created preference the answer echoes the reference. Each reserved row was the user's `cart_active` row for an existing destination and is now `in_process` with the requested quantity, the reference and the returned preference id, its other fields unchanged; every other row equals the pre-call table |
| PaymentLaws.RejectedRevertsBatch | backend/backend/views.py:517-530 | on a gateway rejection (400) each reserved row, which was the user's `cart_active` row, is as before the call except for the requested quantity and cleared reference and preference id; every other row equals the pre-call table. No row carries the reference |
| PaymentLaws.NotificationNoOps | backend/backend/views.py:559-651 | which answer each input gets: merchant-order and unknown topics, a failed fetch, a complete payment without a truthy reference, a database error and a reference matching no row are each acknowledged with 200; 400 exactly for a payment lookup that raises or whose answer lacks `status` (views.py:561-562, answered by the outer handler at 648-650) and for a fetched payment lacking a key read with `[]`; only an applied notification changes the table |
| PaymentLaws.NotificationApplies | backend/backend/views.py:559-616 | a notification is applied exactly when it is a payment, the fetch answered 200 with every key, the reference is truthy and matches some row, and the database block does not fail. It then writes the reported status verbatim and the payment id to every row with the reference, stamps the update time, and sets `fecha_compra` only for `approved` (an earlier one is kept otherwise); nothing else changes |
| PaymentLaws.UnmatchedReferenceChangesNothing | backend/backend/views.py:579-591 | a notification whose reference matches no row changes nothing and is not applied |
| PaymentLaws.ApplyPaymentIdempotent | backend/backend/views.py:595-615 | applying the same batch update twice equals applying it once |
| PaymentLaws.NotificationRedelivery | backend/backend/views.py:577-631 | when neither delivery's database block fails, a re-delivered notification gets the same answer and leaves the same statuses, ids and references; with the same clock readings the table is unchanged |
| PaymentLaws.LateNotificationAfterRejection | backend/backend/views.py:517-591 | after a rejected preference, a notification for its reference never matches a row and changes nothing |
| CartViews.Ledger.AddToCart | backend/backend/views.py:140-172 | a falsy destination gives 400; an unconvertible destination key gives 500; an unknown destination gives 404. Then an unconvertible method key gives 500 and an unknown method 404, and a `cantidad` the integer column cannot take gives 500. Otherwise one new row under a fresh id with the default status, the given or first payment method, and quantity 1 or the converted value; on every error nothing changes |
| CartViews.Ledger.UpdateQuantity | backend/backend/views.py:121-136 | a missing row gives 500. A falsy or below-1 quantity gives 400; an unconvertible one gives 500. Otherwise only `cantidad` of that row is overwritten, and the answer carries the updated row |
| CartViews.Ledger.RemoveItem | backend/backend/views.py:186-194 | the row is deleted exactly when it exists and belongs to the requester; otherwise 404 and no change |
| CartViews.Ledger.LegacyCheckout | backend/backend/views.py:238-254 | the table is unchanged in every case. The answer is 200 exactly when the payment method exists and the user has rows; 400 for an unknown or null method and for an empty cart; 500 without `metodo_pago` or for an unconvertible method key |
| CartViews.Ledger.ReservePayload | backend/backend/views.py:416-466 | the payload loop stops at the first exception and otherwise reserves each qualifying item's cart line; its result and the new table are exactly those of `Reserve` |
| CartViews.Ledger.CreatePreference | backend/backend/views.py:391-539 | the whole handler, payload loop and batch writes included, produces exactly the answer, the table and the sent request of `CreatePreferenceSpec` |
| CartViews.Ledger.ReceiveNotification | backend/backend/views.py:543-651 | the answer and the new table are exactly those of `NotificationSpec` |
| Scenarios.CheckoutThenApproval | backend/backend/views.py:417-615 | a cart line checked out with quantity 2 and a created preference becomes `in_process` with reference and preference id; an `approved` payment then stamps status, payment id and purchase time |
| Scenarios.CheckoutThenGatewayFailure | backend/backend/views.py:517-591 | the same line after a gateway 400 is back in the cart with quantity 2, and a later notification for the reference matches nothing |
| Scenarios.BooleanQuantityIsAccepted | backend/backend/views.py:422-447 | `cantidadComprada: true` passes the `isinstance(..., int)` guard and is stored as quantity 1 |
| Scenarios.DuplicateCartLinesAreSkipped | backend/backend/views.py:436-466 | two `cart_active` rows for one user and destination make the item be skipped, so the call answers "no valid items" and changes nothing |
| Accounts.ValidateRegistration | backend/backend/serializers.py:54-63 | returns the attributes unchanged exactly when no user has the e-mail as username and the passwords match. A taken e-mail is reported first, even when the passwords differ |
| Accounts.UserTable.Create | backend/backend/serializers.py:65-81 | re-checks for a duplicate. It inserts exactly when the e-mail is free and both names are present; a free e-mail with a missing name is the missing-field error (a `KeyError`), not the e-mail error; the new active user has `username == email ==` the given e-mail and the given password. Usernames stay unique; on error nothing changes |
| Accounts.ValidateLogin | backend/backend/serializers.py:87-105 | rejects failed authentication and inactive users; otherwise attaches the authenticated user, whose username is the given e-mail, to the unchanged attributes |
| Accounts.LoginFindsRegisteredUser | backend/backend/serializers.py:72-105 | with unique usernames, a successful login for an e-mail attaches the user registered under that e-mail |
| Profiles.Permitted | backend/backend/views.py:328-329 | the request data restricted to `telephone`, `dni`, `address`, with values unchanged and nothing else kept |
| Profiles.MergeKeepsOtherFields | backend/backend/views.py:328-339 | a partial update stores every whitelisted field of the request; every other field, whitelisted but absent from the request or outside the whitelist, keeps its presence and value |
| Profiles.ProfileTable.UpdatePartial | backend/backend/views.py:324-348 | no profile gives 404; no permitted field gives 400; data the serializer rejects gives 500. Otherwise the permitted fields are merged into the user's profile and no other profile changes |

## Left out

- HTTP plumbing: request-method dispatch (the webhook's GET health check and the 405 answers), JSON decoding errors (400), `csrf_exempt`, and the redirect views at views.py:654-682.
- The Mercado Pago SDK calls `sdk.preference().create` and `sdk.payment().get`. Their answers are operation inputs, and only the keys the handlers read are modelled.
- The request body's `items` is taken to be a list. A string or object there would be iterated differently, which is not modelled.
- The external reference `order-<user>-<uuid4>` is an input assumed to occur in no row. `timezone.now()` readings are inputs too.
- `transaction.atomic`: only its rollback of an escaping exception is modelled. No claim is made about isolation or concurrent requests.
- The rest of each `items_mp` entry is not modelled: title, description, currency, picture and the `float` unit price. The same goes for the payer e-mail, back URLs and notification URL. A sent request keeps its lines, reference and user.
- `CartViews.Ledger.CreatePreference`: assumes the `float(...)` conversion at views.py:458 succeeds. If it raised, the row would already be `in_process` with the reference and yet add no gateway line.
- `Payload.PyInt`: JSON numbers with a fraction are not represented. Strings with surrounding spaces, underscores or non-ASCII digits, which Python's `int()` accepts, are treated as unconvertible.
- The `Carrito` model's defaults and database constraints are not part of this model. The default `estado_pago` is a parameter. The Mercado Pago fields and dates of a new row start empty. The column checks on `cantidad` and on a missing payment method are not modelled.
- `CartViews.Ledger.ReceiveNotification`: `dbFails` stands for an exception raised before the batch update. A failure of the `count()` logged after the update (views.py:616) is not modelled.
- `CartViews.Ledger.LegacyCheckout`: anonymous callers are not modelled (the handler has no permission class). The requester is a user id.
- Read-only or out-of-core handlers: `obtener_carrito`, `listar_compras`, `actualizar_fecha_salida`, the profile, Nosotros and Destinos CRUD, `RegisterView`, `LoginView` and `token_refresh`.
- `Accounts.ValidateLogin`: its `requires` encodes the lookup by username of Django's `ModelBackend`: an authenticated user's username is the given e-mail. For another backend that need not hold, and `LoginFindsRegisteredUser` rests on the same assumption.
- Password hashing and `authenticate` are abstract. A user record keeps the password given at registration, and `authenticate`'s result is an input. Django's default backend already refuses inactive users, so `InactiveAccount` arises only with another backend.
- `Accounts.ValidateRegistration`: e-mails are compared exactly. The database's collation and the serializer's field-level format checks are not modelled.
- `Profiles.ProfileTable.UpdatePartial`: whether `ProfileSerializer` accepts the data is an input, since the profile fields' types are not part of this model.
- Logging, and the configuration in `settings.py`, `urls.py` and `accounts/admin.py`.
