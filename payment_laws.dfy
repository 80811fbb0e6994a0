/** End-to-end guarantees of `create_preference` and of the notification
    receiver, stated of `CreatePreferenceSpec` and `NotificationSpec`. */
module PaymentLaws {
  import opened Optional
  import opened Payload
  import opened Carts
  import opened CartLaws

  /** Every answer other than a created preference or a gateway rejection
      leaves the table exactly as it was: early rejections, an empty batch,
      and exceptions, which roll the atomic block back. */
  lemma FailedCallsLeaveTableAlone(rows: Table, destinations: set<DestId>, users: set<UserId>,
                                   ref: string, items: seq<Item>, userKey: Json, reply: PreferenceReply)
    ensures var c := CreatePreferenceSpec(rows, destinations, users, ref, items, userKey, reply);
      !c.outcome.Created? && !c.outcome.GatewayRejected? ==> c.rows == rows
  {
    if items != [] && PkLookup(userKey).Key? {
      NoLinesNoChange(rows, destinations, PkLookup(userKey).pk, ref, items);
    }
  }

  /** An empty payload, an unknown user, or a payload with no acceptable
      item is answered without contacting the gateway: nothing is sent, the
      answer is 400 (404 for the user), and the result does not depend on
      what the gateway would have answered. */
  lemma GatewayNotContacted(rows: Table, destinations: set<DestId>, users: set<UserId>, ref: string,
                            items: seq<Item>, userKey: Json, reply: PreferenceReply, other: PreferenceReply)
    ensures var c := CreatePreferenceSpec(rows, destinations, users, ref, items, userKey, reply);
      c.outcome in {EmptyPayload, UserNotFound, NoValidItems} ==>
        && c.sent == None
        && c.outcome.Code() == (if c.outcome == UserNotFound then 404 else 400)
        && c == CreatePreferenceSpec(rows, destinations, users, ref, items, userKey, other)
  {
  }

  /** Which answer each input gets. An empty payload is 400; a missing or
      unknown user is 404; an unconvertible user id is 500. For a known
      user: an exception in the payload loop is a 500 rollback; a loop that
      accepts nothing is 400 with nothing sent; otherwise the accepted lines
      are sent, and a raising gateway call or a success answer without `id`
      or `init_point` is a 500 rollback, a success answer with both is a
      created preference, and any other answer is a 400 rejection. */
  lemma PreferenceAnswers(rows: Table, destinations: set<DestId>, users: set<UserId>, ref: string,
                          items: seq<Item>, userKey: Json, reply: PreferenceReply)
    ensures var c := CreatePreferenceSpec(rows, destinations, users, ref, items, userKey, reply);
      && (items == [] ==> c == Checkout(EmptyPayload, rows, None) && c.outcome.Code() == 400)
      && (items != [] && PkLookup(userKey).Unconvertible? ==> c == Checkout(ServerError, rows, None))
      && (items != [] && (PkLookup(userKey).NoKey? || (PkLookup(userKey).Key? && PkLookup(userKey).pk !in users)) ==>
            c == Checkout(UserNotFound, rows, None) && c.outcome.Code() == 404)
      && (items != [] && PkLookup(userKey).Key? && PkLookup(userKey).pk in users ==>
            var u := PkLookup(userKey).pk;
            var w := Reserve(rows, destinations, u, ref, items);
            && (w.raised ==> c == Checkout(ServerError, rows, None))
            && (!w.raised && w.lines == [] ==> c == Checkout(NoValidItems, rows, None) && c.outcome.Code() == 400)
            && (!w.raised && w.lines != [] ==>
                  && c.sent == Some(PreferenceRequest(w.lines, ref, u))
                  && (reply.CallRaised? ==> c.outcome == ServerError && c.rows == rows)
                  && (GatewayAccepted(reply) && (reply.response.value.id.None? || reply.response.value.initPoint.None?) ==>
                        c.outcome == ServerError && c.rows == rows)
                  && (GatewayAccepted(reply) && reply.response.value.id.Some? && reply.response.value.initPoint.Some? ==>
                        c.outcome == Created(reply.response.value.initPoint.value, reply.response.value.id.value, ref))
                  && (reply.PreferenceReply? && !GatewayAccepted(reply) ==>
                        c.outcome == GatewayRejected(reply) && c.outcome.Code() == 400)))
  {
    if items != [] && PkLookup(userKey).Key? {
      NoLinesNoChange(rows, destinations, PkLookup(userKey).pk, ref, items);
    }
  }

  /** A sent request carries the call's reference, the user, and one line
      per row the payload loop moved to `in_process`, at least one. Line `k`
      has that row's destination and new quantity, and comes from payload
      item `src[k]`, in payload order: the item asked for that destination
      and that quantity. */
  lemma SentLinesMatchReservedRows(rows: Table, destinations: set<DestId>, users: set<UserId>, ref: string,
                                   items: seq<Item>, userKey: Json, reply: PreferenceReply)
    ensures var c := CreatePreferenceSpec(rows, destinations, users, ref, items, userKey, reply);
      c.sent.Some? ==>
        && PkLookup(userKey).Key?
        && var u := PkLookup(userKey).pk;
           var w := Reserve(rows, destinations, u, ref, items);
           var src := Sources(rows, destinations, u, ref, items);
           && c.sent.value == PreferenceRequest(w.lines, ref, u)
           && |w.lines| == |w.reserved| == |src| > 0
           && w.rows.Keys == rows.Keys
           && (forall k :: 0 <= k < |w.lines| ==>
                 && w.reserved[k] in rows && rows[w.reserved[k]].user == u
                 && w.lines[k] == Line(rows[w.reserved[k]].destination, w.rows[w.reserved[k]].quantity)
                 && src[k] < |items| && WellFormed(items[src[k]])
                 && PkLookup(items[src[k]].destination) == Key(w.lines[k].destination)
                 && w.lines[k].quantity == PyInt(items[src[k]].quantity).value > 0)
           && (forall j, k :: 0 <= j < k < |src| ==> src[j] < src[k])
  {
    var c := CreatePreferenceSpec(rows, destinations, users, ref, items, userKey, reply);
    if c.sent.Some? {
      var u := PkLookup(userKey).pk;
      var w := Reserve(rows, destinations, u, ref, items);
      assert c.sent.value == PreferenceRequest(w.lines, ref, u) && w.lines != [];
      LinesFromPayload(rows, destinations, u, ref, items);
    }
  }

  /** A created preference: each reserved row was the user's `cart_active`
      row for an existing destination and is now `in_process` with the
      requested quantity, the call's reference and the gateway's preference
      id; every other row is exactly as before the call. */
  lemma CreatedStampsBatch(rows: Table, destinations: set<DestId>, users: set<UserId>, ref: string,
                           items: seq<Item>, userKey: Json, reply: PreferenceReply)
    requires FreshReference(rows, ref)
    ensures var c := CreatePreferenceSpec(rows, destinations, users, ref, items, userKey, reply);
      c.outcome.Created? ==>
        && PkLookup(userKey).Key?
        && var u := PkLookup(userKey).pk;
           var w := Reserve(rows, destinations, u, ref, items);
           && c.outcome.externalReference == ref
           && c.rows.Keys == rows.Keys
           && (forall id :: id in w.reserved ==>
                 id in rows && ReservedRow(rows[id], w.rows[id], destinations, u, ref))
           && (forall id :: id in rows ==>
                 c.rows[id] == if id in w.reserved then w.rows[id].(preferenceId := Some(c.outcome.preferenceId))
                               else rows[id])
  {
    var c := CreatePreferenceSpec(rows, destinations, users, ref, items, userKey, reply);
    if c.outcome.Created? {
      var u := PkLookup(userKey).pk;
      var w := Reserve(rows, destinations, u, ref, items);
      assert c.rows == Stamp(w.rows, ref, u, c.outcome.preferenceId);
      StampLaw(rows, destinations, u, ref, items, c.outcome.preferenceId);
      ReservedRowsAreCartLines(rows, destinations, u, ref, items);
    }
  }

  /** A rejected preference: the reserved rows are back in `cart_active`
      without reference or preference id, keeping the requested quantity;
      every other row is exactly as before, and no notification can reach
      the batch. */
  lemma RejectedRevertsBatch(rows: Table, destinations: set<DestId>, users: set<UserId>, ref: string,
                             items: seq<Item>, userKey: Json, reply: PreferenceReply)
    requires FreshReference(rows, ref)
    ensures var c := CreatePreferenceSpec(rows, destinations, users, ref, items, userKey, reply);
      c.outcome.GatewayRejected? ==>
        && PkLookup(userKey).Key?
        && var u := PkLookup(userKey).pk;
           var w := Reserve(rows, destinations, u, ref, items);
           && c.outcome.Code() == 400
           && c.rows.Keys == rows.Keys
           && WithReference(c.rows, ref) == {}
           && (forall id :: id in w.reserved ==>
                 id in rows && ReservedRow(rows[id], w.rows[id], destinations, u, ref))
           && (forall id :: id in rows ==>
                 c.rows[id] == if id in w.reserved
                               then rows[id].(quantity := w.rows[id].quantity, externalReference := None, preferenceId := None)
                               else rows[id])
  {
    var c := CreatePreferenceSpec(rows, destinations, users, ref, items, userKey, reply);
    if c.outcome.GatewayRejected? {
      var u := PkLookup(userKey).pk;
      var w := Reserve(rows, destinations, u, ref, items);
      assert c.rows == Revert(w.rows, ref, u);
      RevertLaw(rows, destinations, u, ref, items);
      RevertedBatchIsUnreachable(rows, destinations, u, ref, items);
      ReservedRowsAreCartLines(rows, destinations, u, ref, items);
    }
  }

  /** The fetched payment carries every key the receiver reads with `[]`. */
  predicate PaymentComplete(lookup: PaymentLookup) {
    && lookup.PaymentLookup?
    && lookup.response.Some?
    && lookup.response.value.status.Some?
    && lookup.response.value.id.Some?
    && lookup.response.value.hasAmount
  }

  /** The reference a complete payment reports, when it is truthy. */
  predicate HasReference(lookup: PaymentLookup) {
    && lookup.PaymentLookup?
    && lookup.response.Some?
    && lookup.response.value.externalReference.Some?
    && lookup.response.value.externalReference.value != ""
  }

  /** Which answer each notification gets, and that only an applied one
      changes the table. A merchant-order or unknown topic, a failed fetch,
      a missing reference, a database error and a reference matching no row
      are all acknowledged with 200; exactly a payment lookup that raises
      or lacks its `status`, and a fetched payment that lacks a key read
      with `[]`, are answered 400. */
  lemma NotificationNoOps(rows: Table, topic: Option<string>, lookup: PaymentLookup, dbFails: bool,
                          updatedAt: Time, purchasedAt: Time)
    ensures var (out, rows') := NotificationSpec(rows, topic, lookup, dbFails, updatedAt, purchasedAt);
      && (out != Acknowledged(Applied) ==> rows' == rows)
      && (out == BadNotification <==>
            topic == Some("payment") && (lookup.FetchRaised? || (lookup.status == 200 && !PaymentComplete(lookup))))
      && (topic == Some("merchant_order") ==> out == Acknowledged(MerchantOrder) && out.Code() == 200)
      && (topic != Some("merchant_order") && topic != Some("payment") ==> out == Acknowledged(UnknownTopic) && out.Code() == 200)
      && (topic == Some("payment") && lookup.FetchRaised? ==> out == BadNotification && out.Code() == 400)
      && (topic == Some("payment") && lookup.PaymentLookup? && lookup.status != 200 ==>
            out == Acknowledged(FetchFailed) && out.Code() == 200)
      && (topic == Some("payment") && lookup.PaymentLookup? && lookup.status == 200 && PaymentComplete(lookup) ==>
            && (!HasReference(lookup) ==> out == Acknowledged(NoReference) && out.Code() == 200)
            && (HasReference(lookup) && dbFails ==> out == Acknowledged(DatabaseError) && out.Code() == 200)
            && (HasReference(lookup) && !dbFails && WithReference(rows, lookup.response.value.externalReference.value) == {} ==>
                  out == Acknowledged(NoMatchingRows) && out.Code() == 200))
  {
  }

  /** A notification is applied exactly when it is a payment whose lookup
      succeeded with every key, whose reference is truthy and matches some
      row, and whose database block does not fail. Then the reported status
      and the payment id land verbatim on every row with the reference, the
      update time is stamped, `fecha_compra` is set only for `approved` (an
      earlier one is kept otherwise), and nothing else changes. */
  lemma NotificationApplies(rows: Table, topic: Option<string>, lookup: PaymentLookup, dbFails: bool,
                            updatedAt: Time, purchasedAt: Time)
    ensures var (out, rows') := NotificationSpec(rows, topic, lookup, dbFails, updatedAt, purchasedAt);
      && (out == Acknowledged(Applied) <==>
            && topic == Some("payment") && lookup.PaymentLookup? && lookup.status == 200 && PaymentComplete(lookup)
            && HasReference(lookup) && !dbFails
            && WithReference(rows, lookup.response.value.externalReference.value) != {})
      && (out == Acknowledged(Applied) ==>
            var p := lookup.response.value;
            && rows'.Keys == rows.Keys
            && forall id :: id in rows ==>
                 if rows[id].externalReference == p.externalReference then
                   && rows'[id].status == p.status.value
                   && rows'[id].paymentId == p.id
                   && rows'[id].statusUpdatedAt == Some(updatedAt)
                   && (p.status.value == Approved ==> rows'[id].purchasedAt == Some(purchasedAt))
                   && (p.status.value != Approved ==> rows'[id].purchasedAt == rows[id].purchasedAt)
                   && rows'[id].(status := rows[id].status, paymentId := rows[id].paymentId,
                                 statusUpdatedAt := rows[id].statusUpdatedAt, purchasedAt := rows[id].purchasedAt) == rows[id]
                 else rows'[id] == rows[id])
  {
  }

  /** Applying the same payment twice is the same as applying it once. */
  lemma {:induction false} ApplyPaymentIdempotent(rows: Table, ref: string, status: string, payment: PaymentId,
                                                  updatedAt: Time, purchasedAt: Time)
    ensures var once := ApplyPayment(rows, ref, status, payment, updatedAt, purchasedAt);
      ApplyPayment(once, ref, status, payment, updatedAt, purchasedAt) == once
  {
    var once := ApplyPayment(rows, ref, status, payment, updatedAt, purchasedAt);
    var twice := ApplyPayment(once, ref, status, payment, updatedAt, purchasedAt);
    assert twice.Keys == once.Keys;
    forall id | id in once ensures twice[id] == once[id] {
      if rows[id].externalReference == Some(ref) {
        assert once[id].externalReference == Some(ref);
      }
    }
  }

  /** Re-delivery of a notification, when neither delivery's database
      block fails: the second delivery gets the same answer, and leaves every row with the same status, ids and reference
      as the first; with the same clock readings it changes nothing at all. */
  lemma NotificationRedelivery(rows: Table, topic: Option<string>, lookup: PaymentLookup,
                               t1: Time, t2: Time, t1': Time, t2': Time)
    ensures var (out1, rows1) := NotificationSpec(rows, topic, lookup, false, t1, t2);
      var (out2, rows2) := NotificationSpec(rows1, topic, lookup, false, t1', t2');
      && out2 == out1
      && rows2.Keys == rows1.Keys
      && (forall id :: id in rows1 ==>
            rows2[id].(statusUpdatedAt := rows1[id].statusUpdatedAt, purchasedAt := rows1[id].purchasedAt) == rows1[id])
      && (t1 == t1' && t2 == t2' ==> rows2 == rows1)
  {
    var (out1, rows1) := NotificationSpec(rows, topic, lookup, false, t1, t2);
    if out1 == Acknowledged(Applied) {
      var p := lookup.response.value;
      var ref := p.externalReference.value;
      var id :| id in WithReference(rows, ref);
      assert id in WithReference(rows1, ref);
      if t1 == t1' && t2 == t2' {
        ApplyPaymentIdempotent(rows, ref, p.status.value, p.id.value, t1, t2);
      }
    }
  }

  /** A notification arriving after a rejected preference never matches the
      reverted rows: the table stays as the revert left it. */
  lemma LateNotificationAfterRejection(rows: Table, destinations: set<DestId>, users: set<UserId>, ref: string,
                                       items: seq<Item>, userKey: Json, reply: PreferenceReply,
                                       topic: Option<string>, lookup: PaymentLookup, dbFails: bool, t1: Time, t2: Time)
    requires FreshReference(rows, ref)
    requires lookup.PaymentLookup? && lookup.response.Some? && lookup.response.value.externalReference == Some(ref)
    ensures var c := CreatePreferenceSpec(rows, destinations, users, ref, items, userKey, reply);
      c.outcome.GatewayRejected? ==>
        var (out, rows') := NotificationSpec(c.rows, topic, lookup, dbFails, t1, t2);
        rows' == c.rows && out != Acknowledged(Applied)
  {
    var c := CreatePreferenceSpec(rows, destinations, users, ref, items, userKey, reply);
    if c.outcome.GatewayRejected? {
      var u := PkLookup(userKey).pk;
      var w := Reserve(rows, destinations, u, ref, items);
      assert c.rows == Revert(w.rows, ref, u);
      RevertedBatchIsUnreachable(rows, destinations, u, ref, items);
      UnmatchedReferenceChangesNothing(c.rows, topic, lookup, dbFails, t1, t2);
    }
  }

  /** A notification whose reference matches no row changes nothing. */
  lemma UnmatchedReferenceChangesNothing(rows: Table, topic: Option<string>, lookup: PaymentLookup, dbFails: bool,
                                         t1: Time, t2: Time)
    requires lookup.PaymentLookup? && lookup.response.Some? && lookup.response.value.externalReference.Some?
    requires WithReference(rows, lookup.response.value.externalReference.value) == {}
    ensures var (out, rows') := NotificationSpec(rows, topic, lookup, dbFails, t1, t2);
      rows' == rows && out != Acknowledged(Applied)
  {
  }
}
