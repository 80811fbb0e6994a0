/** Worked cases of the checkout and notification flow on small tables. */
module Scenarios {
  import opened Optional
  import opened Payload
  import opened Carts

  function CartLine(user: UserId, destination: DestId): Row {
    Row(user, destination, None, 1, CartActive, None, None, None, 0, None, None)
  }

  /** User 42's cart line for destination 7 is checked out with quantity 2,
      the gateway creates preference "Y", and an `approved` payment for the
      reference then completes the purchase. */
  lemma CheckoutThenApproval(ref: string, t1: Time, t2: Time)
    requires ref != ""
    ensures var rows := map[1 := CartLine(42, 7)];
      var reply := PreferenceReply(201, Some(PreferenceBody(Some("Y"), Some("https://pay/Y"))));
      var c := CreatePreferenceSpec(rows, {7}, {42}, ref, [Item(JInt(7), JInt(2))], JInt(42), reply);
      && c.outcome == Created("https://pay/Y", "Y", ref)
      && c.rows == map[1 := CartLine(42, 7).(quantity := 2, status := InProcess, externalReference := Some(ref), preferenceId := Some("Y"))]
      && var lookup := PaymentLookup(200, Some(PaymentData(Some("approved"), Some(99), Some(ref), true)));
         var (out, after) := NotificationSpec(c.rows, Some("payment"), lookup, false, t1, t2);
         && out == Acknowledged(Applied)
         && after[1].status == Approved && after[1].purchasedAt == Some(t2) && after[1].paymentId == Some(99)
  {
    var rows := map[1 := CartLine(42, 7)];
    assert CartActiveRows(rows, 42, 7) == {1};
    var w := Reserve(rows, {7}, 42, ref, [Item(JInt(7), JInt(2))]);
    assert [Item(JInt(7), JInt(2))][..0] == [];
    var reserved := rows[1 := CartLine(42, 7).(quantity := 2, status := InProcess, externalReference := Some(ref))];
    assert w == Walk(reserved, [1], [Line(7, 2)], false);
    var stamped := Stamp(reserved, ref, 42, "Y");
    assert stamped == map[1 := reserved[1].(preferenceId := Some("Y"))];
    assert 1 in WithReference(stamped, ref);
  }

  /** The same cart line, but the gateway answers 400: the line is back in
      the cart without reference, with the new quantity, and a later
      notification for the reference finds nothing. */
  lemma CheckoutThenGatewayFailure(ref: string, t1: Time, t2: Time)
    requires ref != ""
    ensures var rows := map[1 := CartLine(42, 7)];
      var reply := PreferenceReply(400, None);
      var c := CreatePreferenceSpec(rows, {7}, {42}, ref, [Item(JInt(7), JInt(2))], JInt(42), reply);
      && c.outcome == GatewayRejected(reply)
      && c.rows == map[1 := CartLine(42, 7).(quantity := 2)]
      && var lookup := PaymentLookup(200, Some(PaymentData(Some("approved"), Some(99), Some(ref), true)));
         NotificationSpec(c.rows, Some("payment"), lookup, false, t1, t2) == (Acknowledged(NoMatchingRows), c.rows)
  {
    var rows := map[1 := CartLine(42, 7)];
    assert CartActiveRows(rows, 42, 7) == {1};
    var w := Reserve(rows, {7}, 42, ref, [Item(JInt(7), JInt(2))]);
    assert [Item(JInt(7), JInt(2))][..0] == [];
    var reserved := rows[1 := CartLine(42, 7).(quantity := 2, status := InProcess, externalReference := Some(ref))];
    assert w == Walk(reserved, [1], [Line(7, 2)], false);
    var reverted := Revert(reserved, ref, 42);
    assert reverted == map[1 := CartLine(42, 7).(quantity := 2)];
    assert WithReference(reverted, ref) == {};
  }

  /** `true` passes `isinstance(..., int)` and is stored as quantity 1. */
  lemma BooleanQuantityIsAccepted(ref: string)
    ensures var rows := map[1 := CartLine(42, 7)];
      var w := Reserve(rows, {7}, 42, ref, [Item(JInt(7), JBool(true))]);
      w.reserved == [1] && w.rows[1].quantity == 1 && w.rows[1].status == InProcess
  {
    var rows := map[1 := CartLine(42, 7)];
    assert CartActiveRows(rows, 42, 7) == {1};
    assert [Item(JInt(7), JBool(true))][..0] == [];
  }

  /** Two cart lines for the same user and destination make the line's
      `get` raise `MultipleObjectsReturned`: the item is skipped, and with
      no other item the call answers "no valid items" without a change. */
  lemma DuplicateCartLinesAreSkipped(ref: string, reply: PreferenceReply)
    ensures var rows := map[1 := CartLine(42, 7), 2 := CartLine(42, 7)];
      CreatePreferenceSpec(rows, {7}, {42}, ref, [Item(JInt(7), JInt(2))], JInt(42), reply)
        == Checkout(NoValidItems, rows, None)
  {
    var rows := map[1 := CartLine(42, 7), 2 := CartLine(42, 7)];
    assert CartActiveRows(rows, 42, 7) == {1, 2};
    assert [Item(JInt(7), JInt(2))][..0] == [];
  }
}
