/** The cart/order ledger: the `Carrito` rows and the pure definitions of what
    the checkout-preference builder and the payment-notification receiver do
    to them. The handlers themselves are the methods of `CartViews.Ledger`;
    they are proved to agree with the definitions here. */
module Carts {
  import opened Optional
  import opened Payload
  import Accounts

  type UserId = Accounts.UserId
  type DestId = int
  type MethodId = int
  type PaymentId = int
  /** `id_compra`, the primary key of a row. */
  type RowId = nat
  /** Timestamps are opaque: the model only stores them. */
  type Time = int

  const CartActive: string := "cart_active"
  const InProcess: string := "in_process"
  const Approved: string := "approved"

  /** One `Carrito` row. `status` is `estado_pago`, a free string: the
      notification receiver writes the gateway's status into it verbatim. */
  datatype Row = Row(
    user: UserId,
    destination: DestId,                 // id_destino
    paymentMethod: Option<MethodId>,     // id_metodoPago
    quantity: int,                       // cantidad
    status: string,                      // estado_pago
    externalReference: Option<string>,   // mercadopago_external_reference
    preferenceId: Option<string>,        // mercadopago_preference_id
    paymentId: Option<PaymentId>,        // mercadopago_payment_id
    createdAt: Time,                     // fecha_creacion
    statusUpdatedAt: Option<Time>,       // fecha_pago_actualizacion
    purchasedAt: Option<Time>)           // fecha_compra

  type Table = map<RowId, Row>

  /** The rows `Carrito.objects.get(user=user, id_destino=d,
      estado_pago='cart_active')` looks among. */
  function CartActiveRows(rows: Table, user: UserId, d: DestId): set<RowId> {
    set id | id in rows && rows[id].user == user && rows[id].destination == d && rows[id].status == CartActive
  }

  /** The rows `filter(mercadopago_external_reference=ref)` selects. */
  function WithReference(rows: Table, ref: string): set<RowId> {
    set id | id in rows && rows[id].externalReference == Some(ref)
  }

  /** The batch filter `filter(mercadopago_external_reference=ref, user=user)`. */
  predicate InBatch(r: Row, ref: string, user: UserId) {
    r.externalReference == Some(ref) && r.user == user
  }

  /** A checkout reference is fresh when no row carries it yet. */
  ghost predicate FreshReference(rows: Table, ref: string) {
    forall id :: id in rows ==> rows[id].externalReference != Some(ref)
  }

  // ---------------------------------------------------------------------
  // Checkout preference builder

  /** One entry of the request's `items` list: an object, of which the
      handler reads `id_destino` and `cantidadComprada`, or any other JSON
      value, on which `item_payload.get` raises `AttributeError`. */
  datatype Item = Item(destination: Json, quantity: Json) | NotAnObject

  /** What the model keeps of one `items_mp` entry sent to the gateway. */
  datatype Line = Line(destination: DestId, quantity: int)

  /** The state of the walk over the payload: the table so far, the rows
      moved to `in_process` and the gateway lines, in payload order, and
      whether an exception escaped the walk. */
  datatype Walk = Walk(rows: Table, reserved: seq<RowId>, lines: seq<Line>, raised: bool)

  /** The payload guard: a truthy `id_destino` and a positive `int`
      `cantidadComprada`. */
  predicate WellFormed(item: Item) {
    item.Item? && Truthy(item.destination) && IsPyInt(item.quantity) && PyInt(item.quantity).value > 0
  }

  /** The items the loop accepts, given the table so far: well-formed, for
      an existing destination with exactly one `cart_active` row of the
      user. */
  predicate Qualifies(rows: Table, destinations: set<DestId>, user: UserId, item: Item) {
    && WellFormed(item)
    && PkLookup(item.destination).Key?
    && PkLookup(item.destination).pk in destinations
    && |CartActiveRows(rows, user, PkLookup(item.destination).pk)| == 1
  }

  /** One iteration of the payload loop. An item is skipped when the guard
      fails, when the destination does not exist, or when the `get` of its
      cart line finds no row or more than one (`MultipleObjectsReturned` is
      caught by the generic handler). An item that is not an object, and a
      destination id the ORM cannot convert, raise out of the loop. The walk
      only grows: the table keeps its keys and at most one row and one line
      are added. */
  ghost function Step(w: Walk, destinations: set<DestId>, user: UserId, ref: string, item: Item): (r: Walk)
    ensures r.rows.Keys == w.rows.Keys
    ensures w.raised ==> r == w
    ensures |r.reserved| - |w.reserved| == |r.lines| - |w.lines| <= 1
    ensures |w.reserved| <= |r.reserved| && r.reserved[..|w.reserved|] == w.reserved
    ensures |w.lines| <= |r.lines| && r.lines[..|w.lines|] == w.lines
  {
    if w.raised then w
    else if item.NotAnObject? then w.(raised := true)
    else if !WellFormed(item) then w
    else match PkLookup(item.destination)
      case Unconvertible => w.(raised := true)
      case NoKey => w
      case Key(d) =>
        var candidates := CartActiveRows(w.rows, user, d);
        if d !in destinations || |candidates| != 1 then w
        else
          var id :| id in candidates;
          var q := PyInt(item.quantity).value;
          Walk(w.rows[id := w.rows[id].(quantity := q, status := InProcess, externalReference := Some(ref))],
               w.reserved + [id], w.lines + [Line(d, q)], false)
  }

  /** The whole payload loop, from the table as it was: the table keeps
      its keys, and there is one reserved row per gateway line and at most
      one per payload item. */
  ghost function Reserve(rows: Table, destinations: set<DestId>, user: UserId, ref: string, items: seq<Item>): (r: Walk)
    ensures r.rows.Keys == rows.Keys
    ensures |r.reserved| == |r.lines| <= |items|
    decreases |items|
  {
    if items == [] then Walk(rows, [], [], false)
    else Step(Reserve(rows, destinations, user, ref, items[..|items| - 1]), destinations, user, ref, items[|items| - 1])
  }

  /** The success write: the preference id onto the batch's rows, and
      nothing else. */
  function Stamp(rows: Table, ref: string, user: UserId, preference: string): (r: Table)
    ensures r.Keys == rows.Keys
    ensures forall id :: id in rows ==> r[id] == rows[id].(preferenceId := r[id].preferenceId)
    ensures forall id :: id in rows && InBatch(rows[id], ref, user) ==> r[id].preferenceId == Some(preference)
    ensures forall id :: id in rows && !InBatch(rows[id], ref, user) ==> r[id] == rows[id]
  {
    map id | id in rows :: if InBatch(rows[id], ref, user) then rows[id].(preferenceId := Some(preference)) else rows[id]
  }

  /** The failure write: the batch's rows back to `cart_active` with
      reference and preference id cleared; `cantidad` is not reset. */
  function Revert(rows: Table, ref: string, user: UserId): (r: Table)
    ensures r.Keys == rows.Keys
    ensures forall id :: id in rows && InBatch(rows[id], ref, user) ==>
      r[id] == rows[id].(status := CartActive, externalReference := None, preferenceId := None)
    ensures forall id :: id in rows && !InBatch(rows[id], ref, user) ==> r[id] == rows[id]
    ensures forall id :: id in r && r[id].externalReference == Some(ref) ==> r[id].user != user
  {
    map id | id in rows ::
      if InBatch(rows[id], ref, user)
      then rows[id].(status := CartActive, externalReference := None, preferenceId := None)
      else rows[id]
  }

  /** The part of the gateway's answer the handler reads: its `status` and
      its `response`, `None` when that is missing or empty. */
  datatype PreferenceReply =
    | PreferenceReply(status: int, response: Option<PreferenceBody>)
    | CallRaised   // `sdk.preference().create` raised (a network error, a time-out)
  datatype PreferenceBody = PreferenceBody(id: Option<string>, initPoint: Option<string>)

  predicate GatewayAccepted(reply: PreferenceReply) {
    reply.PreferenceReply? && (reply.status == 200 || reply.status == 201) && reply.response.Some?
  }

  /** What the model keeps of the preference sent to the gateway: its item
      lines, the external reference and the user id in its metadata. */
  datatype PreferenceRequest = PreferenceRequest(lines: seq<Line>, externalReference: string, user: UserId)

  datatype PreferenceOutcome =
    | EmptyPayload                 // 'No items in cart'
    | UserNotFound
    | NoValidItems
    | Created(initPoint: string, preferenceId: string, externalReference: string)
    | GatewayRejected(reply: PreferenceReply)
    | ServerError                  // an exception reached the outer handler
  {
    function Code(): int {
      match this
      case EmptyPayload => 400
      case UserNotFound => 404
      case NoValidItems => 400
      case Created(_, _, _) => 200
      case GatewayRejected(_) => 400
      case ServerError => 500
    }
  }

  /** The result of one call: the answer, the table afterwards, and the
      request sent to the gateway, if one was sent. */
  datatype Checkout = Checkout(outcome: PreferenceOutcome, rows: Table, sent: Option<PreferenceRequest>)

  /** `create_preference` on a POST whose body parsed. `ref` is the call's
      fresh external reference and `reply` what the gateway answers when it
      is called. An exception out of the atomic block (an item that is not
      an object; an unconvertible destination id; a gateway call that
      raises; a success answer without `id` or `init_point`) rolls the
      table back. Only a created preference answers 200, and a sent request
      always carries the call's reference, a known user and some line. */
  ghost function CreatePreferenceSpec(rows: Table, destinations: set<DestId>, users: set<UserId>,
                                      ref: string, items: seq<Item>, userKey: Json, reply: PreferenceReply): (c: Checkout)
    ensures c.rows.Keys == rows.Keys
    ensures c.outcome.Code() == 200 <==> c.outcome.Created?
    ensures c.outcome.Created? ==> c.outcome.externalReference == ref && c.sent.Some?
    ensures c.sent.Some? ==> c.sent.value.externalReference == ref && c.sent.value.user in users && c.sent.value.lines != []
  {
    if items == [] then Checkout(EmptyPayload, rows, None)
    else match PkLookup(userKey)
      case Unconvertible => Checkout(ServerError, rows, None)
      case NoKey => Checkout(UserNotFound, rows, None)
      case Key(u) =>
        if u !in users then Checkout(UserNotFound, rows, None)
        else
          var w := Reserve(rows, destinations, u, ref, items);
          if w.raised then Checkout(ServerError, rows, None)
          else if w.lines == [] then Checkout(NoValidItems, w.rows, None)
          else
            var sent := Some(PreferenceRequest(w.lines, ref, u));
            if reply.CallRaised? then Checkout(ServerError, rows, sent)
            else if !GatewayAccepted(reply) then Checkout(GatewayRejected(reply), Revert(w.rows, ref, u), sent)
            else
              var body := reply.response.value;
              if body.id.None? || body.initPoint.None? then Checkout(ServerError, rows, sent)
              else Checkout(Created(body.initPoint.value, body.id.value, ref), Stamp(w.rows, ref, u, body.id.value), sent)
  }

  // ---------------------------------------------------------------------
  // Payment-notification receiver

  /** The payment as the gateway's lookup returns it; `None` marks a key
      that is missing (`transaction_amount` is only read, so only its
      presence matters). */
  datatype PaymentData = PaymentData(
    status: Option<string>, id: Option<PaymentId>, externalReference: Option<string>, hasAmount: bool)

  /** The payment lookup's answer: its `status` and its `response`; or
      `FetchRaised` when `sdk.payment().get` raises or its answer has no
      `status` key, both of which reach the outer handler. */
  datatype PaymentLookup =
    | PaymentLookup(status: int, response: Option<PaymentData>)
    | FetchRaised

  /** Why a notification was acknowledged with 200. */
  datatype Ack = MerchantOrder | UnknownTopic | FetchFailed | NoReference | NoMatchingRows | DatabaseError | Applied

  datatype NotificationOutcome = Acknowledged(ack: Ack) | BadNotification
  {
    function Code(): int {
      if Acknowledged? then 200 else 400
    }
  }

  /** The batch update's effect on one matched row: status, payment id and
      update time are written, `fecha_compra` only for `approved`; nothing
      else changes. */
  function Pay(r: Row, status: string, payment: PaymentId, updatedAt: Time, purchasedAt: Time): (p: Row)
    ensures p.status == status && p.paymentId == Some(payment) && p.statusUpdatedAt == Some(updatedAt)
    ensures p.purchasedAt == if status == Approved then Some(purchasedAt) else r.purchasedAt
    ensures p.(status := r.status, paymentId := r.paymentId, statusUpdatedAt := r.statusUpdatedAt, purchasedAt := r.purchasedAt) == r
  {
    r.(status := status, paymentId := Some(payment), statusUpdatedAt := Some(updatedAt),
       purchasedAt := if status == Approved then Some(purchasedAt) else r.purchasedAt)
  }

  /** `filter(mercadopago_external_reference=ref).update(**update_fields)`:
      every row with the reference is paid, whatever its owner or status;
      the other rows are untouched and no row changes its reference. */
  function ApplyPayment(rows: Table, ref: string, status: string, payment: PaymentId, updatedAt: Time, purchasedAt: Time): (r: Table)
    ensures r.Keys == rows.Keys
    ensures WithReference(r, ref) == WithReference(rows, ref)
    ensures forall id :: id in rows && rows[id].externalReference == Some(ref) ==>
      r[id].status == status && r[id].paymentId == Some(payment) && r[id].externalReference == Some(ref)
    ensures forall id :: id in rows && rows[id].externalReference != Some(ref) ==> r[id] == rows[id]
  {
    map id | id in rows ::
      if rows[id].externalReference == Some(ref) then Pay(rows[id], status, payment, updatedAt, purchasedAt) else rows[id]
  }

  /** `mercadopago_notifications` on a POST whose body parsed. `lookup` is
      the gateway's answer for the notified resource, `dbFails` whether the
      database block raises, and `updatedAt`, `purchasedAt` the two clock
      readings it takes. The receiver never adds or removes a row, and
      never changes a row's owner, destination, quantity, payment method,
      reference or preference id. */
  function NotificationSpec(rows: Table, topic: Option<string>, lookup: PaymentLookup, dbFails: bool,
                            updatedAt: Time, purchasedAt: Time): (r: (NotificationOutcome, Table))
    ensures r.1.Keys == rows.Keys
    ensures forall id :: id in rows ==>
      && r.1[id].user == rows[id].user && r.1[id].destination == rows[id].destination
      && r.1[id].quantity == rows[id].quantity && r.1[id].paymentMethod == rows[id].paymentMethod
      && r.1[id].externalReference == rows[id].externalReference && r.1[id].preferenceId == rows[id].preferenceId
  {
    if topic == Some("merchant_order") then (Acknowledged(MerchantOrder), rows)
    else if topic != Some("payment") then (Acknowledged(UnknownTopic), rows)
    else if lookup.FetchRaised? then (BadNotification, rows)
    else if lookup.status != 200 then (Acknowledged(FetchFailed), rows)
    else if lookup.response.None? then (BadNotification, rows)
    else
      var p := lookup.response.value;
      if p.status.None? || p.id.None? || !p.hasAmount then (BadNotification, rows)
      else if p.externalReference.None? || p.externalReference.value == "" then (Acknowledged(NoReference), rows)
      else if dbFails then (Acknowledged(DatabaseError), rows)
      else
        var ref := p.externalReference.value;
        if WithReference(rows, ref) == {} then (Acknowledged(NoMatchingRows), rows)
        else (Acknowledged(Applied), ApplyPayment(rows, ref, p.status.value, p.id.value, updatedAt, purchasedAt))
  }
}
