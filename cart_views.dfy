/** The cart handlers of `views.py` as methods of one object that owns the
    `Carrito` table. The other tables the handlers read (destinations,
    payment methods, users) are fixed for the life of the object. */
module CartViews {
  import opened Optional
  import opened Payload
  import opened Carts
  import opened CartLaws

  datatype AddOutcome =
    | Added(id: RowId)        // 201
    | MissingDestination      // 400: falsy id_destino
    | DestinationNotFound     // 404
    | MethodNotFound          // 404
    | AddFailed               // 500
  {
    function Code(): int {
      match this
      case Added(_) => 201
      case MissingDestination => 400
      case DestinationNotFound => 404
      case MethodNotFound => 404
      case AddFailed => 500
    }
  }

  datatype QuantityOutcome =
    | QuantityUpdated(row: Row)   // 200
    | InvalidQuantity             // 400
    | QuantityFailed              // 500
  {
    function Code(): int {
      match this
      case QuantityUpdated(_) => 200
      case InvalidQuantity => 400
      case QuantityFailed => 500
    }
  }

  datatype RemoveOutcome = Removed | ItemNotFound
  {
    function Code(): int {
      if Removed? then 204 else 404
    }
  }

  datatype LegacyOutcome = Purchased | EmptyCart | InvalidMethod | LegacyFailed
  {
    function Code(): int {
      match this
      case Purchased => 200
      case EmptyCart => 400
      case InvalidMethod => 400
      case LegacyFailed => 500
    }
  }

  /** A model instance in memory: its columns, and attributes set on it
      that are not columns. `save()` writes back the columns only. */
  datatype Instance = Instance(columns: Row, attributes: map<string, string>)

  function Saved(item: Instance): Row {
    item.columns
  }

  /** The rows `Carrito.objects.filter(user=user)` selects. */
  function RowsOf(rows: Table, user: UserId): set<RowId> {
    set id | id in rows && rows[id].user == user
  }

  class Ledger {
    var rows: Table
    /** The next primary key the table hands out. */
    var nextId: RowId
    const destinations: set<DestId>
    /** The `MetodoPago` keys in primary-key order (what `first()` sees). */
    const paymentMethods: seq<MethodId>
    const users: set<UserId>
    /** The `estado_pago` a new row gets from the model's default. */
    const defaultStatus: string

    ghost predicate Valid()
      reads this
    {
      forall id :: id in rows ==> id < nextId
    }

    constructor (rows: Table, nextId: RowId, destinations: set<DestId>, paymentMethods: seq<MethodId>,
                 users: set<UserId>, defaultStatus: string)
      requires forall id :: id in rows ==> id < nextId
      ensures Valid()
      ensures this.rows == rows && this.nextId == nextId && this.destinations == destinations
      ensures this.paymentMethods == paymentMethods && this.users == users && this.defaultStatus == defaultStatus
    {
      this.rows := rows;
      this.nextId := nextId;
      this.destinations := destinations;
      this.paymentMethods := paymentMethods;
      this.users := users;
      this.defaultStatus := defaultStatus;
    }

    /** `agregar_al_carrito`: always inserts a new row, even when the user
        already has one for the destination. `quantity` is `None` when the
        request has no `cantidad` (it defaults to 1); otherwise the value is
        stored unchecked, as the integer column converts it. */
    method AddToCart(user: UserId, destKey: Json, quantity: Option<Json>, methodKey: Json, now: Time)
      returns (out: AddOutcome)
      requires Valid()
      modifies this
      ensures Valid()
      ensures !Truthy(destKey) ==> out == MissingDestination
      ensures Truthy(destKey) && PkLookup(destKey).Unconvertible? ==> out == AddFailed
      ensures Truthy(destKey) && PkLookup(destKey).Key? && PkLookup(destKey).pk !in destinations ==> out == DestinationNotFound
      ensures Truthy(destKey) && PkLookup(destKey).Key? && PkLookup(destKey).pk in destinations && Truthy(methodKey) ==>
        && (PkLookup(methodKey).Unconvertible? ==> out == AddFailed && out.Code() == 500)
        && (PkLookup(methodKey).Key? && PkLookup(methodKey).pk !in paymentMethods ==> out == MethodNotFound && out.Code() == 404)
      ensures (&& Truthy(destKey) && PkLookup(destKey).Key? && PkLookup(destKey).pk in destinations
               && (Truthy(methodKey) ==> PkLookup(methodKey).Key? && PkLookup(methodKey).pk in paymentMethods)
               && quantity.Some? && PyInt(quantity.value).None?) ==> out == AddFailed && out.Code() == 500
      ensures out.Added? <==>
        && Truthy(destKey) && PkLookup(destKey).Key? && PkLookup(destKey).pk in destinations
        && (Truthy(methodKey) ==> PkLookup(methodKey).Key? && PkLookup(methodKey).pk in paymentMethods)
        && (quantity.Some? ==> PyInt(quantity.value).Some?)
      ensures out.Added? ==>
        && out.id == old(nextId) && out.id !in old(rows) && nextId == old(nextId) + 1
        && rows == old(rows)[out.id := Row(
             user, PkLookup(destKey).pk,
             if Truthy(methodKey) then Some(PkLookup(methodKey).pk)
             else if paymentMethods != [] then Some(paymentMethods[0]) else None,
             if quantity.None? then 1 else PyInt(quantity.value).value,
             defaultStatus, None, None, None, now, None, None)]
      ensures !out.Added? ==> rows == old(rows) && nextId == old(nextId)
    {
      if !Truthy(destKey) {
        return MissingDestination;
      }
      var d: DestId;
      match PkLookup(destKey) {
        case Unconvertible => return AddFailed;
        case NoKey => return DestinationNotFound;
        case Key(k) =>
          if k !in destinations {
            return DestinationNotFound;
          }
          d := k;
      }
      var method_: Option<MethodId>;
      if Truthy(methodKey) {
        match PkLookup(methodKey) {
          case Unconvertible => return AddFailed;
          case NoKey => return MethodNotFound;
          case Key(m) =>
            if m !in paymentMethods {
              return MethodNotFound;
            }
            method_ := Some(m);
        }
      } else {
        method_ := if paymentMethods != [] then Some(paymentMethods[0]) else None;
      }
      var q: int;
      if quantity.None? {
        q := 1;
      } else {
        match PyInt(quantity.value) {
          case None => return AddFailed;
          case Some(n) => q := n;
        }
      }
      var id := nextId;
      rows := rows[id := Row(user, d, method_, q, defaultStatus, None, None, None, now, None, None)];
      nextId := nextId + 1;
      out := Added(id);
    }

    /** `CarritoViewSet.actualizar_cantidad`. The row is fetched first; a
        missing row raises `Http404` from `get_object`, which the generic
        handler turns into 500. There is no ownership check. */
    method UpdateQuantity(pk: RowId, value: Json) returns (out: QuantityOutcome)
      requires Valid()
      modifies this
      ensures Valid() && nextId == old(nextId)
      ensures pk !in old(rows) ==> out == QuantityFailed
      ensures pk in old(rows) && !Truthy(value) ==> out == InvalidQuantity
      ensures pk in old(rows) && Truthy(value) && PyInt(value).None? ==> out == QuantityFailed
      ensures pk in old(rows) && Truthy(value) && PyInt(value).Some? && PyInt(value).value < 1 ==> out == InvalidQuantity
      ensures out.QuantityUpdated? <==>
        pk in old(rows) && Truthy(value) && PyInt(value).Some? && PyInt(value).value >= 1
      ensures out.QuantityUpdated? ==>
        && rows == old(rows)[pk := old(rows)[pk].(quantity := PyInt(value).value)]
        && out.row == rows[pk] && out.row.quantity >= 1
      ensures !out.QuantityUpdated? ==> rows == old(rows)
    {
      if pk !in rows {
        return QuantityFailed;
      }
      if !Truthy(value) {
        return InvalidQuantity;
      }
      match PyInt(value) {
        case None => return QuantityFailed;
        case Some(n) =>
          if n < 1 {
            return InvalidQuantity;
          }
          rows := rows[pk := rows[pk].(quantity := n)];
          out := QuantityUpdated(rows[pk]);
      }
    }

    /** `eliminar_item_carrito`: deletes the row only when it belongs to the
        requesting user. */
    method RemoveItem(user: UserId, id: RowId) returns (out: RemoveOutcome)
      requires Valid()
      modifies this
      ensures Valid() && nextId == old(nextId)
      ensures out == Removed <==> id in old(rows) && old(rows)[id].user == user
      ensures rows == if out == Removed then old(rows) - {id} else old(rows)
    {
      if id in rows && rows[id].user == user {
        rows := rows - {id};
        out := Removed;
      } else {
        out := ItemNotFound;
      }
    }

    /** The legacy `checkout`. `methodKey` is `None` when the body has no
        `metodo_pago` (a `KeyError`, hence 500). Each of the user's rows is
        saved after setting the attribute `estado`, which is not a column:
        no column changes, and every row keeps its `estado_pago`. */
    method LegacyCheckout(user: UserId, methodKey: Option<Json>) returns (out: LegacyOutcome)
      requires Valid()
      modifies this
      ensures Valid() && nextId == old(nextId)
      ensures rows == old(rows)
      ensures methodKey.None? ==> out == LegacyFailed
      ensures methodKey.Some? && PkLookup(methodKey.value).Unconvertible? ==> out == LegacyFailed && out.Code() == 500
      ensures methodKey.Some? && !PkLookup(methodKey.value).Unconvertible? &&
              !(PkLookup(methodKey.value).Key? && PkLookup(methodKey.value).pk in paymentMethods) ==>
              out == InvalidMethod && out.Code() == 400
      ensures out == Purchased <==>
        && methodKey.Some? && PkLookup(methodKey.value).Key? && PkLookup(methodKey.value).pk in paymentMethods
        && RowsOf(old(rows), user) != {}
      ensures (&& methodKey.Some? && PkLookup(methodKey.value).Key? && PkLookup(methodKey.value).pk in paymentMethods
               && RowsOf(old(rows), user) == {}) ==> out == EmptyCart
    {
      if methodKey.None? {
        return LegacyFailed;
      }
      match PkLookup(methodKey.value) {
        case Unconvertible => return LegacyFailed;
        case NoKey => return InvalidMethod;
        case Key(m) =>
          if m !in paymentMethods {
            return InvalidMethod;
          }
      }
      var todo := RowsOf(rows, user);
      if todo == {} {
        return EmptyCart;
      }
      while todo != {}
        invariant Valid() && nextId == old(nextId)
        invariant todo <= rows.Keys
        invariant rows == old(rows)
        decreases |todo|
      {
        var id :| id in todo;
        var item := Instance(rows[id], map["estado" := "comprado"]);
        rows := rows[id := Saved(item)];
        todo := todo - {id};
      }
      out := Purchased;
    }

    /** The payload loop of `create_preference`: it stops at the first
        exception, and otherwise moves each qualifying item's cart line to
        `in_process` and collects its gateway line. */
    method ReservePayload(items: seq<Item>, user: UserId, ref: string)
      returns (reserved: seq<RowId>, lines: seq<Line>, raised: bool)
      requires Valid()
      modifies this
      ensures Valid() && nextId == old(nextId)
      ensures Walk(rows, reserved, lines, raised) == Reserve(old(rows), destinations, user, ref, items)
    {
      reserved, lines, raised := [], [], false;
      var i := 0;
      while i < |items| && !raised
        invariant 0 <= i <= |items|
        invariant Walk(rows, reserved, lines, raised) == Reserve(old(rows), destinations, user, ref, items[..i])
        invariant rows.Keys == old(rows).Keys && nextId == old(nextId)
      {
        var item := items[i];
        if item.NotAnObject? {
          raised := true;
        } else if WellFormed(item) {
          match PkLookup(item.destination) {
            case Unconvertible =>
              raised := true;
            case NoKey =>
            case Key(d) =>
              var candidates := CartActiveRows(rows, user, d);
              if d in destinations && |candidates| == 1 {
                var id :| id in candidates;
                SingletonChoice(candidates, id);
                var q := PyInt(item.quantity).value;
                rows := rows[id := rows[id].(quantity := q, status := InProcess, externalReference := Some(ref))];
                reserved := reserved + [id];
                lines := lines + [Line(d, q)];
              }
          }
        }
        assert items[..i + 1][..i] == items[..i];
        i := i + 1;
      }
      if raised {
        RaisedIsFinal(old(rows), destinations, user, ref, items, i);
      } else {
        assert items[..i] == items;
      }
    }

    /** `create_preference`. `ref` stands for the call's
        `order-<user>-<uuid4>` reference, which no row carries yet, and
        `reply` for the gateway's answer to the preference request. */
    method CreatePreference(items: seq<Item>, userKey: Json, ref: string, reply: PreferenceReply)
      returns (out: PreferenceOutcome, sent: Option<PreferenceRequest>)
      requires Valid()
      requires FreshReference(rows, ref)
      modifies this
      ensures Valid() && nextId == old(nextId)
      ensures Checkout(out, rows, sent) == CreatePreferenceSpec(old(rows), destinations, users, ref, items, userKey, reply)
    {
      if items == [] {
        return EmptyPayload, None;
      }
      var user: UserId;
      match PkLookup(userKey) {
        case Unconvertible => return ServerError, None;
        case NoKey => return UserNotFound, None;
        case Key(u) =>
          if u !in users {
            return UserNotFound, None;
          }
          user := u;
      }
      var before := rows;
      var reserved, lines, raised := ReservePayload(items, user, ref);
      if raised {
        rows := before;
        return ServerError, None;
      }
      if lines == [] {
        return NoValidItems, None;
      }
      sent := Some(PreferenceRequest(lines, ref, user));
      if reply.CallRaised? {
        rows := before;
        return ServerError, sent;
      }
      if GatewayAccepted(reply) {
        var body := reply.response.value;
        if body.id.None? || body.initPoint.None? {
          rows := before;
          return ServerError, sent;
        }
        rows := Stamp(rows, ref, user, body.id.value);
        out := Created(body.initPoint.value, body.id.value, ref);
      } else {
        rows := Revert(rows, ref, user);
        out := GatewayRejected(reply);
      }
    }

    /** `mercadopago_notifications` on a POST whose body parsed. */
    method ReceiveNotification(topic: Option<string>, lookup: PaymentLookup, dbFails: bool,
                               updatedAt: Time, purchasedAt: Time)
      returns (out: NotificationOutcome)
      requires Valid()
      modifies this
      ensures Valid() && nextId == old(nextId)
      ensures (out, rows) == NotificationSpec(old(rows), topic, lookup, dbFails, updatedAt, purchasedAt)
    {
      if topic == Some("merchant_order") {
        return Acknowledged(MerchantOrder);
      }
      if topic != Some("payment") {
        return Acknowledged(UnknownTopic);
      }
      if lookup.FetchRaised? {
        return BadNotification;
      }
      if lookup.status != 200 {
        return Acknowledged(FetchFailed);
      }
      if lookup.response.None? {
        return BadNotification;
      }
      var payment := lookup.response.value;
      if payment.status.None? || payment.id.None? || !payment.hasAmount {
        return BadNotification;
      }
      if payment.externalReference.None? || payment.externalReference.value == "" {
        return Acknowledged(NoReference);
      }
      if dbFails {
        return Acknowledged(DatabaseError);
      }
      var ref := payment.externalReference.value;
      if WithReference(rows, ref) == {} {
        return Acknowledged(NoMatchingRows);
      }
      rows := ApplyPayment(rows, ref, payment.status.value, payment.id.value, updatedAt, purchasedAt);
      out := Acknowledged(Applied);
    }
  }
}
