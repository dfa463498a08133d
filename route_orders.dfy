/** The inline `/orders` route handlers of the Sequelize revision. The order
    row is created first and the product lines are attached to it one at a
    time, so a missing product stops the request halfway. */
module RouteOrders {
  import opened Base
  import opened Catalog
  import opened OrderModel
  import opened OrderRequests

  /** `O valor do campo "status" deve ser um dos seguintes: ...` */
  function InvalidStatusMessage(): string
  {
    "O valor do campo \"status\" deve ser um dos seguintes: " + AllowedList()
  }

  /** The order as `findOne` with its products returns it: each attached
      product that still exists, with the line's quantity. */
  datatype OrderView = OrderView(order: OrderRow, products: map<int, ProductLine>)

  function View(row: OrderRow, attached: map<int, int>, catalog: map<int, Product>): (v: OrderView)
    ensures v.order == row
    ensures forall pid :: pid in v.products <==> pid in attached && pid in catalog
    ensures forall pid :: pid in v.products ==> v.products[pid] == ProductLine(catalog[pid], attached[pid])
  {
    OrderView(row, map pid | pid in attached && pid in catalog :: ProductLine(catalog[pid], attached[pid]))
  }

  /** `order.addProduct(product, { through: { quantity } })` one request after
      the other. The join row is keyed by product, so attaching a product that
      is already on the order replaces its quantity. */
  function Attach(lines: map<int, int>, reqs: seq<LineRequest>): map<int, int>
    decreases |reqs|
  {
    if reqs == [] then lines
    else Attach(lines[reqs[0].productId := reqs[0].qty], reqs[1..])
  }

  /** Attaching one more request is one more write on top of the earlier ones. */
  lemma {:induction false} AttachSnoc(lines: map<int, int>, reqs: seq<LineRequest>, x: LineRequest)
    ensures Attach(lines, reqs + [x]) == Attach(lines, reqs)[x.productId := x.qty]
    decreases |reqs|
  {
    if reqs == [] {
      assert reqs + [x] == [x];
    } else {
      assert (reqs + [x])[1..] == reqs[1..] + [x];
      AttachSnoc(lines[reqs[0].productId := reqs[0].qty], reqs[1..], x);
    }
  }

  function RequestedIds(reqs: seq<LineRequest>): set<int>
  {
    set i | 0 <= i < |reqs| :: reqs[i].productId
  }

  /** The order ends up with exactly one line per requested product, and
      keeps the lines it had for products not requested. */
  lemma {:induction false} AttachKeys(lines: map<int, int>, reqs: seq<LineRequest>)
    ensures Attach(lines, reqs).Keys == lines.Keys + RequestedIds(reqs)
    ensures forall pid :: pid in lines && pid !in RequestedIds(reqs) ==> Attach(lines, reqs)[pid] == lines[pid]
    decreases |reqs|
  {
    if reqs != [] {
      var next := lines[reqs[0].productId := reqs[0].qty];
      AttachKeys(next, reqs[1..]);
      assert RequestedIds(reqs) == {reqs[0].productId} + RequestedIds(reqs[1..]) by {
        forall pid | pid in RequestedIds(reqs) ensures pid in {reqs[0].productId} + RequestedIds(reqs[1..]) {
          var i :| 0 <= i < |reqs| && reqs[i].productId == pid;
          if i > 0 { assert reqs[1..][i - 1].productId == pid; }
        }
        forall pid | pid in RequestedIds(reqs[1..]) ensures pid in RequestedIds(reqs) {
          var i :| 0 <= i < |reqs[1..]| && reqs[1..][i].productId == pid;
          assert reqs[i + 1].productId == pid;
        }
      }
    }
  }

  /** The quantity a product ends with is the one of its last request. */
  lemma {:induction false} AttachLast(lines: map<int, int>, reqs: seq<LineRequest>, i: nat)
    requires i < |reqs|
    requires forall j :: i < j < |reqs| ==> reqs[j].productId != reqs[i].productId
    ensures reqs[i].productId in Attach(lines, reqs)
    ensures Attach(lines, reqs)[reqs[i].productId] == reqs[i].qty
    decreases |reqs|
  {
    var next := lines[reqs[0].productId := reqs[0].qty];
    if i == 0 {
      AttachKeys(next, reqs[1..]);
      forall j | 0 <= j < |reqs[1..]| ensures reqs[1..][j].productId != reqs[0].productId {
        assert reqs[1..][j] == reqs[j + 1];
      }
      assert reqs[0].productId !in RequestedIds(reqs[1..]);
    } else {
      forall j | i - 1 < j < |reqs[1..]| ensures reqs[1..][j].productId != reqs[1..][i - 1].productId {
        assert reqs[1..][j] == reqs[j + 1];
      }
      AttachLast(next, reqs[1..], i - 1);
    }
  }

  /** The index of the first request naming an unknown product, or the
      number of requests when every product is known. */
  function FirstUnknown(reqs: seq<LineRequest>, catalog: map<int, Product>): (k: nat)
    ensures k <= |reqs|
    ensures forall i :: 0 <= i < k ==> reqs[i].productId in catalog
    ensures k < |reqs| ==> reqs[k].productId !in catalog
  {
    if reqs == [] then 0
    else if reqs[0].productId !in catalog then 0
    else 1 + FirstUnknown(reqs[1..], catalog)
  }

  /** The Orders table with its OrderProducts join rows. */
  class OrderTable {
    var orders: map<int, OrderRow>
    /** orderId -> productId -> quantity */
    var lines: map<int, map<int, int>>
    var nextId: int

    ghost predicate Valid()
      reads this
    {
      && nextId >= 1
      && lines.Keys == orders.Keys
      && forall id :: id in orders ==> 1 <= id < nextId && orders[id].id == id
    }

    constructor ()
      ensures Valid() && orders == map[] && lines == map[] && nextId == 1
    {
      orders, lines, nextId := map[], map[], 1;
    }

    /** GET /orders/:orderId */
    method GetOrder(id: int, catalog: map<int, Product>) returns (r: Reply<OrderView>)
      requires Valid()
      ensures id !in orders ==> r == Err(404, OrderNotFoundMessage)
      ensures id in orders ==> r == Ok(200, View(orders[id], lines[id], catalog))
    {
      if id !in orders {
        return Err(404, OrderNotFoundMessage);
      }
      r := Ok(200, View(orders[id], lines[id], catalog));
    }

    /** POST /orders. The row is stored with status Pendente before any product
        is looked up; the products are then attached in request order, and the
        first unknown one ends the request with a 404 while the row and the
        lines attached so far stay stored. */
    method CreateOrder(req: CreateRequest, userIds: set<int>, catalog: map<int, Product>, now: Timestamp)
      returns (r: Reply<OrderRow>)
      requires Valid()
      modifies this
      ensures Valid()
      ensures !Complete(req) ==>
                r == Err(400, IncompleteMessage) && unchanged(this)
      ensures Complete(req) && req.userId.value !in userIds ==>
                r == Err(404, UserNotFoundMessage(req.userId.value)) && unchanged(this)
      ensures Complete(req) && req.userId.value in userIds ==>
                var id := old(nextId);
                var row := OrderRow(id, req.userId.value, req.client.value, Pendente, now, None);
                var reqs := req.products.value;
                var k := FirstUnknown(reqs, catalog);
                && id !in old(orders)
                && orders == old(orders)[id := row]
                && lines == old(lines)[id := Attach(map[], reqs[..k])]
                && nextId == id + 1
                && (k < |reqs| ==> r == Err(404, ProductNotFoundMessage(reqs[k].productId)))
                && (k == |reqs| ==> r == Ok(201, row))
    {
      if !Complete(req) {
        return Err(400, IncompleteMessage);
      }
      var userId := req.userId.value;
      if userId !in userIds {
        return Err(404, UserNotFoundMessage(userId));
      }
      var id := nextId;
      var row := OrderRow(id, userId, req.client.value, Pendente, now, None);
      orders := orders[id := row];
      lines := lines[id := map[]];
      nextId := nextId + 1;

      var reqs := req.products.value;
      var i := 0;
      while i < |reqs|
        invariant 0 <= i <= FirstUnknown(reqs, catalog)
        invariant orders == old(orders)[id := row] && nextId == id + 1
        invariant lines == old(lines)[id := Attach(map[], reqs[..i])]
      {
        var p := reqs[i];
        if p.productId !in catalog {
          return Err(404, ProductNotFoundMessage(p.productId));
        }
        AttachSnoc(map[], reqs[..i], p);
        assert reqs[..i + 1] == reqs[..i] + [p];
        lines := lines[id := lines[id][p.productId := p.qty]];
        i := i + 1;
      }
      r := Ok(201, row);
    }

    /** PUT /orders/:orderId. The handler assigns the status and saves; the
        save runs the `beforeUpdate` hook, whose returned copy nobody uses, so
        `dateProcessed` keeps whatever it held. */
    method UpdateStatus(id: int, status: Option<string>, now: Timestamp) returns (r: Reply<OrderRow>)
      requires Valid()
      modifies this
      ensures Valid() && lines == old(lines) && nextId == old(nextId)
      ensures ParseStatus(status).None? ==>
                r == Err(400, InvalidStatusMessage()) && orders == old(orders)
      ensures ParseStatus(status).Some? && id !in old(orders) ==>
                r == Err(404, OrderNotFoundMessage) && orders == old(orders)
      ensures ParseStatus(status).Some? && id in old(orders) ==>
                && orders == old(orders)[id := old(orders)[id].(status := ParseStatus(status).value)]
                && r == Ok(200, orders[id])
    {
      var s := ParseStatus(status);
      if s.None? {
        return Err(400, InvalidStatusMessage());
      }
      if id !in orders {
        return Err(404, OrderNotFoundMessage);
      }
      var order := orders[id];
      var loaded := order.status;
      order := order.(status := s.value);
      var hookResult := BeforeUpdate(loaded, order, now);
      orders := orders[id := order];
      r := Ok(200, order);
    }

    /** The same PUT with the hook's copy saved, as the hook evidently intends:
        moving into Concluído stamps `dateProcessed`. */
    method UpdateStatusStamped(id: int, status: Option<string>, now: Timestamp) returns (r: Reply<OrderRow>)
      requires Valid()
      modifies this
      ensures Valid() && lines == old(lines) && nextId == old(nextId)
      ensures ParseStatus(status).None? ==>
                r == Err(400, InvalidStatusMessage()) && orders == old(orders)
      ensures ParseStatus(status).Some? && id !in old(orders) ==>
                r == Err(404, OrderNotFoundMessage) && orders == old(orders)
      ensures ParseStatus(status).Some? && id in old(orders) ==>
                var before := old(orders)[id];
                var s := ParseStatus(status).value;
                && orders == old(orders)[id := orders[id]]
                && orders[id].(dateProcessed := before.dateProcessed) == before.(status := s)
                && orders[id].dateProcessed ==
                     (if before.status != Concluido && s == Concluido then Some(now) else before.dateProcessed)
                && r == Ok(200, orders[id])
    {
      var s := ParseStatus(status);
      if s.None? {
        return Err(400, InvalidStatusMessage());
      }
      if id !in orders {
        return Err(404, OrderNotFoundMessage);
      }
      var order := orders[id];
      var loaded := order.status;
      order := order.(status := s.value);
      order := StampOnConclusion(loaded, order, now);
      orders := orders[id := order];
      r := Ok(200, order);
    }

    /** DELETE /orders/:orderId: the row goes with its join rows. */
    method DeleteOrder(id: int) returns (r: Reply<string>)
      requires Valid()
      modifies this
      ensures Valid() && nextId == old(nextId)
      ensures id !in old(orders) ==> r == Err(404, OrderNotFoundMessage) && unchanged(this)
      ensures id in old(orders) ==>
                && r == Ok(200, OrderDeletedMessage)
                && orders == old(orders) - {id} && lines == old(lines) - {id}
    {
      if id !in orders {
        return Err(404, OrderNotFoundMessage);
      }
      orders := orders - {id};
      lines := lines - {id};
      r := Ok(200, OrderDeletedMessage);
    }
  }

  /** The hook's result is dropped: a Pendente order put to Concluído is
      saved without a processed date, although the hook built a copy with one. */
  lemma HookResultDropped(row: OrderRow, now: Timestamp)
    requires row.status == Pendente && row.dateProcessed.None?
    ensures BeforeUpdate(Pendente, row.(status := Concluido), now).Some?
    ensures BeforeUpdate(Pendente, row.(status := Concluido), now).value.dateProcessed == Some(now)
    ensures row.(status := Concluido).dateProcessed.None?
  {
  }

  /** Non-atomic creation: with a known first product and an unknown second
      one, the request fails with 404 and the order stays stored with the
      first line only. */
  lemma PartialCreation(known: int, unknown: int, catalog: map<int, Product>)
    requires known in catalog && unknown !in catalog
    ensures var reqs := [LineRequest(known, 3), LineRequest(unknown, 1)];
            && FirstUnknown(reqs, catalog) == 1
            && Attach(map[], reqs[..1]) == map[known := 3]
  {
    var reqs := [LineRequest(known, 3), LineRequest(unknown, 1)];
    assert reqs[1..][0] == reqs[1];
    assert reqs[..1] == [reqs[0]];
  }

  /** As written, a PUT that concludes a Pendente order answers 200 and saves
      the order with no processed date. */
  method ConcludedWithoutStamp(now: Timestamp, later: Timestamp) returns (r: Reply<OrderRow>, saved: OrderRow)
    ensures r.Ok? && r.status == 200 && r.body.status == Concluido
    ensures saved.status == Concluido && saved.dateProcessed.None?
  {
    var table := new OrderTable();
    var catalog := map[15 := Product(15, "Suco", 5, "suco.png", "bebida")];
    var created := table.CreateOrder(CreateRequest(Some(1), Some("Jude Milhon"), Some([LineRequest(15, 1)])), {1}, catalog, now);
    ParseLabel(Concluido, "Concluído");
    r := table.UpdateStatus(1, Some("Concluído"), later);
    saved := table.orders[1];
  }

  /** With the hook's copy saved, the same PUT stamps the processed date. */
  method ConcludedStamped(now: Timestamp, later: Timestamp) returns (r: Reply<OrderRow>, saved: OrderRow)
    ensures r.Ok? && r.status == 200 && r.body.status == Concluido
    ensures saved.status == Concluido && saved.dateProcessed == Some(later)
  {
    var table := new OrderTable();
    var catalog := map[15 := Product(15, "Suco", 5, "suco.png", "bebida")];
    var created := table.CreateOrder(CreateRequest(Some(1), Some("Jude Milhon"), Some([LineRequest(15, 1)])), {1}, catalog, now);
    ParseLabel(Concluido, "Concluído");
    r := table.UpdateStatusStamped(1, Some("Concluído"), later);
    saved := table.orders[1];
  }

  /** A POST whose second product is unknown answers 404 naming it, and
      leaves the order stored as Pendente with the first product's line. */
  method PartialOrderStays(now: Timestamp) returns (r: Reply<OrderRow>, stored: OrderRow, attached: map<int, int>)
    ensures r == Err(404, ProductNotFoundMessage(99))
    ensures stored == OrderRow(1, 1, "Jude Milhon", Pendente, now, None)
    ensures attached == map[18 := 3]
  {
    var table := new OrderTable();
    var catalog := map[18 := Product(18, "Duplo", 10, "duplo.png", "lanche")];
    PartialCreation(18, 99, catalog);
    r := table.CreateOrder(CreateRequest(Some(1), Some("Jude Milhon"), Some([LineRequest(18, 3), LineRequest(99, 1)])), {1}, catalog, now);
    stored := table.orders[1];
    attached := table.lines[1];
  }
}
