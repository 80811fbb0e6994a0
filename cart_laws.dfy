/** What the checkout-preference builder and the notification receiver
    guarantee about the ledger, proved of the definitions in `Carts`. */
module CartLaws {
  import opened Optional
  import opened Payload
  import opened Carts

  /** `after` is `before` moved into a checkout batch: it was the user's
      `cart_active` row for an existing destination, and only its quantity
      (now positive), its status and its reference changed. */
  ghost predicate ReservedRow(before: Row, after: Row, destinations: set<DestId>, user: UserId, ref: string) {
    && before.status == CartActive
    && before.user == user
    && before.destination in destinations
    && after.quantity > 0
    && after == before.(quantity := after.quantity, status := InProcess, externalReference := Some(ref))
  }

  /** `line` is what the payload item asked for: the item passed the guard,
      its destination id converts to the line's destination, and the line's
      quantity is the item's `cantidadComprada`. */
  ghost predicate Requested(item: Item, line: Line) {
    && WellFormed(item)
    && PkLookup(item.destination) == Key(line.destination)
    && line.quantity == PyInt(item.quantity).value
  }

  /** The payload indices of the items the loop accepted, in order. */
  ghost function Sources(rows: Table, destinations: set<DestId>, user: UserId, ref: string, items: seq<Item>): seq<nat>
    decreases |items|
  {
    if items == [] then []
    else
      var init := items[..|items| - 1];
      var w := Reserve(rows, destinations, user, ref, init);
      var w' := Step(w, destinations, user, ref, items[|items| - 1]);
      Sources(rows, destinations, user, ref, init) + if |w'.reserved| == |w.reserved| then [] else [|items| - 1]
  }

  /** The walk so far accounts for every change it made to `rows0`: one
      reserved row per gateway line, no row reserved twice, each reserved
      row changed as `ReservedRow` says and carried by its line, and every
      other row untouched. */
  ghost predicate Accounted(rows0: Table, w: Walk, destinations: set<DestId>, user: UserId, ref: string) {
    && w.rows.Keys == rows0.Keys
    && |w.reserved| == |w.lines|
    && (forall k :: 0 <= k < |w.reserved| ==>
          && w.reserved[k] in rows0
          && ReservedRow(rows0[w.reserved[k]], w.rows[w.reserved[k]], destinations, user, ref)
          && w.lines[k] == Line(rows0[w.reserved[k]].destination, w.rows[w.reserved[k]].quantity))
    && (forall j, k :: 0 <= j < k < |w.reserved| ==> w.reserved[j] != w.reserved[k])
    && (forall id :: id in rows0 && id !in w.reserved ==> w.rows[id] == rows0[id])
  }

  /** Each gateway line of the walk comes from its own payload item
      `items[src[k]]`, in payload order, with that item's destination and
      quantity. */
  ghost predicate Traced(w: Walk, items: seq<Item>, src: seq<nat>) {
    && |src| == |w.lines|
    && (forall k :: 0 <= k < |src| ==> src[k] < |items| && Requested(items[src[k]], w.lines[k]))
    && (forall j, k :: 0 <= j < k < |src| ==> src[j] < src[k])
  }

  lemma StatusesDiffer()
    ensures CartActive != InProcess
  {
    assert CartActive[0] != InProcess[0];
  }

  lemma SingletonChoice(s: set<RowId>, x: RowId)
    requires |s| == 1 && x in s
    ensures s == {x}
  {
    assert |s - {x}| == 0;
  }

  /** One loop iteration keeps the account. */
  lemma StepAccounted(rows0: Table, w: Walk, destinations: set<DestId>, user: UserId, ref: string, item: Item)
    requires Accounted(rows0, w, destinations, user, ref)
    ensures Accounted(rows0, Step(w, destinations, user, ref, item), destinations, user, ref)
  {
    var w' := Step(w, destinations, user, ref, item);
    if !w.raised && item.Item? && WellFormed(item) && PkLookup(item.destination).Key? {
      var d := PkLookup(item.destination).pk;
      var candidates := CartActiveRows(w.rows, user, d);
      if d in destinations && |candidates| == 1 {
        var id :| id in candidates;
        SingletonChoice(candidates, id);
        StatusesDiffer();
        forall k | 0 <= k < |w.reserved| ensures w.reserved[k] != id {
          assert w.rows[w.reserved[k]].status == InProcess;
        }
        assert w.rows[id] == rows0[id];
        assert w'.reserved == w.reserved + [id];
        forall k | 0 <= k < |w'.reserved|
          ensures w'.reserved[k] in rows0
          ensures ReservedRow(rows0[w'.reserved[k]], w'.rows[w'.reserved[k]], destinations, user, ref)
          ensures w'.lines[k] == Line(rows0[w'.reserved[k]].destination, w'.rows[w'.reserved[k]].quantity)
        {
          if k < |w.reserved| {
            assert w'.reserved[k] == w.reserved[k] != id;
          }
        }
      }
    }
  }

  /** One loop iteration keeps every line traced to its payload item; a new
      line comes from the item just read. */
  lemma StepTraced(w: Walk, destinations: set<DestId>, user: UserId, ref: string,
                   items: seq<Item>, src: seq<nat>, item: Item)
    requires Traced(w, items, src)
    ensures var w' := Step(w, destinations, user, ref, item);
      Traced(w', items + [item], src + if |w'.lines| == |w.lines| then [] else [|items|])
  {
    var w' := Step(w, destinations, user, ref, item);
    var items' := items + [item];
    var src' := src + if |w'.lines| == |w.lines| then [] else [|items|];
    if |w'.lines| != |w.lines| {
      var d := PkLookup(item.destination).pk;
      assert w'.lines == w.lines + [Line(d, PyInt(item.quantity).value)];
    }
    forall k | 0 <= k < |src'|
      ensures src'[k] < |items'| && Requested(items'[src'[k]], w'.lines[k])
    {
      if k < |src| {
        assert items'[src[k]] == items[src[k]];
        assert w'.lines[k] == w.lines[k];
      }
    }
  }

  /** The payload loop changes exactly the rows it reserves, one per
      accepted item, each as `ReservedRow` says, with the quantity its item
      asked for. */
  lemma {:induction false} ReserveAccounted(rows0: Table, destinations: set<DestId>, user: UserId, ref: string, items: seq<Item>)
    ensures var w := Reserve(rows0, destinations, user, ref, items);
      && Accounted(rows0, w, destinations, user, ref)
      && Traced(w, items, Sources(rows0, destinations, user, ref, items))
    decreases |items|
  {
    if items != [] {
      var init := items[..|items| - 1];
      var w := Reserve(rows0, destinations, user, ref, init);
      ReserveAccounted(rows0, destinations, user, ref, init);
      StepAccounted(rows0, w, destinations, user, ref, items[|items| - 1]);
      StepTraced(w, destinations, user, ref, init, Sources(rows0, destinations, user, ref, init), items[|items| - 1]);
      assert init + [items[|items| - 1]] == items;
    }
  }

  /** Every row the loop reserved was the user's `cart_active` row for an
      existing destination, and only its quantity, status and reference
      changed. */
  lemma ReservedRowsAreCartLines(rows0: Table, destinations: set<DestId>, user: UserId, ref: string, items: seq<Item>)
    ensures var w := Reserve(rows0, destinations, user, ref, items);
      forall id :: id in w.reserved ==> id in rows0 && ReservedRow(rows0[id], w.rows[id], destinations, user, ref)
  {
    var w := Reserve(rows0, destinations, user, ref, items);
    ReserveAccounted(rows0, destinations, user, ref, items);
    forall id | id in w.reserved
      ensures id in rows0 && ReservedRow(rows0[id], w.rows[id], destinations, user, ref)
    {
      var k :| 0 <= k < |w.reserved| && w.reserved[k] == id;
    }
  }

  /** Gateway line `k` belongs to reserved row `k` and to payload item
      `src[k]`, in payload order: it carries the row's destination and new
      quantity, which are the destination and quantity the item asked for. */
  lemma LinesFromPayload(rows0: Table, destinations: set<DestId>, user: UserId, ref: string, items: seq<Item>)
    ensures var w := Reserve(rows0, destinations, user, ref, items);
      var src := Sources(rows0, destinations, user, ref, items);
      && |w.lines| == |w.reserved| == |src|
      && (forall k :: 0 <= k < |w.lines| ==>
            && w.reserved[k] in rows0 && rows0[w.reserved[k]].user == user
            && w.lines[k] == Line(rows0[w.reserved[k]].destination, w.rows[w.reserved[k]].quantity)
            && src[k] < |items| && WellFormed(items[src[k]])
            && PkLookup(items[src[k]].destination) == Key(w.lines[k].destination)
            && w.lines[k].quantity == PyInt(items[src[k]].quantity).value > 0)
      && (forall j, k :: 0 <= j < k < |src| ==> src[j] < src[k])
  {
    var w := Reserve(rows0, destinations, user, ref, items);
    var src := Sources(rows0, destinations, user, ref, items);
    ReserveAccounted(rows0, destinations, user, ref, items);
    forall k | 0 <= k < |w.lines|
      ensures w.reserved[k] in rows0 && rows0[w.reserved[k]].user == user
      ensures src[k] < |items| && Requested(items[src[k]], w.lines[k])
    {
      assert ReservedRow(rows0[w.reserved[k]], w.rows[w.reserved[k]], destinations, user, ref);
    }
  }

  /** The converse: the loop takes an item exactly when it qualifies
      against the table so far; a qualifying item moves its one
      `cart_active` row to `in_process` with the item's quantity and adds
      its line; any other object is skipped without a change; and only an
      item that is not an object or an unconvertible destination id raises. */
  lemma ItemReservedIffQualifies(rows0: Table, destinations: set<DestId>, user: UserId, ref: string,
                                 items: seq<Item>, item: Item)
    ensures var w := Reserve(rows0, destinations, user, ref, items);
      var w' := Reserve(rows0, destinations, user, ref, items + [item]);
      && (|w'.reserved| > |w.reserved| <==> !w.raised && Qualifies(w.rows, destinations, user, item))
      && (w'.raised <==> w.raised || item.NotAnObject? || (WellFormed(item) && PkLookup(item.destination).Unconvertible?))
      && (!w.raised && item.Item? && !Qualifies(w.rows, destinations, user, item) && !w'.raised ==> w' == w)
      && (|w'.reserved| > |w.reserved| ==>
            var d := PkLookup(item.destination).pk;
            var q := PyInt(item.quantity).value;
            var id := w'.reserved[|w.reserved|];
            && CartActiveRows(w.rows, user, d) == {id}
            && w' == Walk(w.rows[id := w.rows[id].(quantity := q, status := InProcess, externalReference := Some(ref))],
                          w.reserved + [id], w.lines + [Line(d, q)], false))
  {
    var w := Reserve(rows0, destinations, user, ref, items);
    assert (items + [item])[..|items|] == items;
    var w' := Reserve(rows0, destinations, user, ref, items + [item]);
    assert w' == Step(w, destinations, user, ref, item);
    if !w.raised && Qualifies(w.rows, destinations, user, item) {
      var d := PkLookup(item.destination).pk;
      var candidates := CartActiveRows(w.rows, user, d);
      var id :| id in candidates && w' == Walk(w.rows[id := w.rows[id].(quantity := PyInt(item.quantity).value, status := InProcess, externalReference := Some(ref))],
                                              w.reserved + [id], w.lines + [Line(d, PyInt(item.quantity).value)], false);
      SingletonChoice(candidates, id);
    }
  }

  /** Once an exception escapes the loop, the rest of the payload is not
      looked at. */
  lemma {:induction false} RaisedIsFinal(rows: Table, destinations: set<DestId>, user: UserId, ref: string, items: seq<Item>, k: nat)
    requires k <= |items|
    requires Reserve(rows, destinations, user, ref, items[..k]).raised
    ensures Reserve(rows, destinations, user, ref, items) == Reserve(rows, destinations, user, ref, items[..k])
    decreases |items|
  {
    if k < |items| {
      var init := items[..|items| - 1];
      assert init[..k] == items[..k];
      RaisedIsFinal(rows, destinations, user, ref, init, k);
    } else {
      assert items[..k] == items;
    }
  }

  /** A row of the walk carries the reference exactly when the walk
      reserved it, and every reserved row is the user's. */
  ghost predicate MarksReserved(w: Walk, user: UserId, ref: string) {
    forall id :: id in w.rows ==>
      && (w.rows[id].externalReference == Some(ref) <==> id in w.reserved)
      && (id in w.reserved ==> w.rows[id].user == user)
  }

  /** With a fresh reference, a row carries the reference after the loop
      exactly when the loop reserved it, and every such row is the user's. */
  lemma ReferenceMarksReserved(rows0: Table, destinations: set<DestId>, user: UserId, ref: string, items: seq<Item>)
    requires FreshReference(rows0, ref)
    ensures MarksReserved(Reserve(rows0, destinations, user, ref, items), user, ref)
  {
    var w := Reserve(rows0, destinations, user, ref, items);
    ReserveAccounted(rows0, destinations, user, ref, items);
    forall id | id in w.rows
      ensures w.rows[id].externalReference == Some(ref) <==> id in w.reserved
      ensures id in w.reserved ==> w.rows[id].user == user
    {
      if id in w.reserved {
        var k :| 0 <= k < |w.reserved| && w.reserved[k] == id;
        assert ReservedRow(rows0[id], w.rows[id], destinations, user, ref);
      }
    }
  }

  /** A payload from which no item is accepted leaves the table as it was. */
  lemma NoLinesNoChange(rows0: Table, destinations: set<DestId>, user: UserId, ref: string, items: seq<Item>)
    ensures var w := Reserve(rows0, destinations, user, ref, items);
      w.lines == [] ==> w.rows == rows0
  {
    ReserveAccounted(rows0, destinations, user, ref, items);
  }

  /** The revert law: after a failed gateway call the reserved rows are back
      in `cart_active` with reference and preference id cleared, but keep
      the quantity the payload asked for; every other row is as it was. */
  lemma RevertLaw(rows0: Table, destinations: set<DestId>, user: UserId, ref: string, items: seq<Item>)
    requires FreshReference(rows0, ref)
    ensures var w := Reserve(rows0, destinations, user, ref, items);
      var r := Revert(w.rows, ref, user);
      && r.Keys == rows0.Keys
      && forall id :: id in rows0 ==>
           r[id] == if id in w.reserved
                    then rows0[id].(quantity := w.rows[id].quantity, externalReference := None, preferenceId := None)
                    else rows0[id]
  {
    var w := Reserve(rows0, destinations, user, ref, items);
    ReserveAccounted(rows0, destinations, user, ref, items);
    ReferenceMarksReserved(rows0, destinations, user, ref, items);
    forall id | id in rows0 && id in w.reserved
      ensures ReservedRow(rows0[id], w.rows[id], destinations, user, ref)
    {
      var k :| 0 <= k < |w.reserved| && w.reserved[k] == id;
    }
  }

  /** When the reserved rows carried no reference and no preference id
      before the call, the revert restores the table except for quantities. */
  lemma RevertRestoresAllButQuantity(rows0: Table, destinations: set<DestId>, user: UserId, ref: string, items: seq<Item>)
    requires FreshReference(rows0, ref)
    requires forall id :: id in rows0 && rows0[id].status == CartActive ==>
               rows0[id].externalReference == None && rows0[id].preferenceId == None
    ensures var w := Reserve(rows0, destinations, user, ref, items);
      var r := Revert(w.rows, ref, user);
      && r.Keys == rows0.Keys
      && forall id :: id in rows0 ==> r[id] == rows0[id].(quantity := w.rows[id].quantity)
  {
    var w := Reserve(rows0, destinations, user, ref, items);
    RevertLaw(rows0, destinations, user, ref, items);
    ReserveAccounted(rows0, destinations, user, ref, items);
    forall id | id in rows0 && id in w.reserved
      ensures rows0[id].status == CartActive
    {
      var k :| 0 <= k < |w.reserved| && w.reserved[k] == id;
    }
  }

  /** On success the preference id lands on exactly the reserved rows; all
      other rows are as they were before the call. */
  lemma StampLaw(rows0: Table, destinations: set<DestId>, user: UserId, ref: string, items: seq<Item>, preference: string)
    requires FreshReference(rows0, ref)
    ensures var w := Reserve(rows0, destinations, user, ref, items);
      var s := Stamp(w.rows, ref, user, preference);
      && s.Keys == rows0.Keys
      && forall id :: id in rows0 ==>
           s[id] == if id in w.reserved then w.rows[id].(preferenceId := Some(preference)) else rows0[id]
  {
    ReserveAccounted(rows0, destinations, user, ref, items);
    ReferenceMarksReserved(rows0, destinations, user, ref, items);
  }

  /** A reverted batch no longer carries its reference, so no notification
      for that reference can match any row. */
  lemma RevertedBatchIsUnreachable(rows0: Table, destinations: set<DestId>, user: UserId, ref: string, items: seq<Item>)
    requires FreshReference(rows0, ref)
    ensures var w := Reserve(rows0, destinations, user, ref, items);
      WithReference(Revert(w.rows, ref, user), ref) == {}
  {
    var w := Reserve(rows0, destinations, user, ref, items);
    ReferenceMarksReserved(rows0, destinations, user, ref, items);
    assert MarksReserved(w, user, ref);
    var r := Revert(w.rows, ref, user);
    forall id | id in r ensures r[id].externalReference != Some(ref) {
      assert id in w.rows;
      if w.rows[id].externalReference == Some(ref) {
        assert id in w.reserved;
        assert InBatch(w.rows[id], ref, user);
      }
    }
  }
}
