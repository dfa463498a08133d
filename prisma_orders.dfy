/** The Prisma order service: list, detail, create, status update and delete
    of orders, each order owning its product lines, and the shaping of the
    order that every reply carries. */
module PrismaOrders {
  import opened Base
  import opened Keys
  import opened Catalog
  import opened OrderModel
  import opened OrderRequests

  /** One product line of an order: which product, how many. */
  datatype OrderProduct = OrderProduct(productId: int, quantity: int)

  datatype Order = Order(
    id: int, userId: int, client: string, status: Status,
    dateEntry: Timestamp, dateProcessed: Option<Timestamp>,
    products: seq<OrderProduct>)

  /** `O valor do campo status deve ser um dos seguintes: ${allowed.join(', ')}` */
  function InvalidStatusMessage(): string
  {
    "O valor do campo status deve ser um dos seguintes: " + AllowedList()
  }

  /** A JSON key that a reply either carries (possibly as null) or leaves out. */
  datatype Field<T> = Omitted | Included(value: T)

  /** The order as the replies render it; each line is the product's
      id, name, price, image and type with `OrderProducts.quantity`. */
  datatype OrderDto = OrderDto(
    id: int, userId: int, client: string, status: Status, dateEntry: Timestamp,
    dateProcessed: Field<Option<Timestamp>>, products: seq<ProductLine>)

  /** Which handler shapes the reply: getOrders/getOrderById, createOrder, updateOrder. */
  datatype View = Listed | Created | Updated

  /** The lines written for a create body, one per requested product, in request order. */
  function Lines(reqs: seq<LineRequest>): (lines: seq<OrderProduct>)
    ensures |lines| == |reqs|
    ensures forall i :: 0 <= i < |reqs| ==>
              lines[i].productId == reqs[i].productId && lines[i].quantity == reqs[i].qty
  {
    seq(|reqs|, i requires 0 <= i < |reqs| => OrderProduct(reqs[i].productId, reqs[i].qty))
  }

  predicate Known(catalog: map<int, Product>, lines: seq<OrderProduct>)
  {
    forall i :: 0 <= i < |lines| ==> lines[i].productId in catalog
  }

  /** `order.products.map(...)`: each line with its product row. A line whose
      product row is gone dereferences null, and the mapping throws. */
  function ResolveLines(catalog: map<int, Product>, lines: seq<OrderProduct>): (r: Option<seq<ProductLine>>)
    ensures r.Some? <==> Known(catalog, lines)
    ensures r.Some? ==> |r.value| == |lines| && forall i :: 0 <= i < |lines| ==>
              r.value[i] == ProductLine(catalog[lines[i].productId], lines[i].quantity)
  {
    if lines == [] then Some([])
    else if lines[0].productId !in catalog then None
    else
      match ResolveLines(catalog, lines[1..])
      case None => None
      case Some(rest) => Some([ProductLine(catalog[lines[0].productId], lines[0].quantity)] + rest)
  }

  /** The `dateProcessed` key of each reply: in the list and detail replies
      only for a Concluído order, never in the create reply, always (possibly
      null) in the update reply. */
  function ProcessedField(view: View, o: Order): (f: Field<Option<Timestamp>>)
    ensures view == Listed ==> (f.Included? <==> o.status == Concluido)
    ensures view == Created ==> f == Omitted
    ensures view == Updated ==> f.Included?
    ensures f.Included? ==> f.value == o.dateProcessed
  {
    match view
    case Listed => if o.status == Concluido then Included(o.dateProcessed) else Omitted
    case Created => Omitted
    case Updated => Included(o.dateProcessed)
  }

  /** The reply body for `o`; None when one of its lines cannot be resolved. */
  function Assemble(o: Order, catalog: map<int, Product>, view: View): (r: Option<OrderDto>)
    ensures r.Some? <==> Known(catalog, o.products)
    ensures r.Some? ==>
              && r.value.id == o.id && r.value.userId == o.userId && r.value.client == o.client
              && r.value.status == o.status && r.value.dateEntry == o.dateEntry
              && r.value.dateProcessed == ProcessedField(view, o)
              && |r.value.products| == |o.products|
              && forall i :: 0 <= i < |o.products| ==>
                   r.value.products[i] == ProductLine(catalog[o.products[i].productId], o.products[i].quantity)
  {
    match ResolveLines(catalog, o.products)
    case None => None
    case Some(lines) => Some(OrderDto(o.id, o.userId, o.client, o.status, o.dateEntry, ProcessedField(view, o), lines))
  }

  /** The list reply: every order shaped, or None when one of them cannot be. */
  function AssembleAll(os: seq<Order>, catalog: map<int, Product>): (r: Option<seq<OrderDto>>)
    ensures r.Some? <==> forall i :: 0 <= i < |os| ==> Known(catalog, os[i].products)
    ensures r.Some? ==> |r.value| == |os| && forall i :: 0 <= i < |os| ==>
              Assemble(os[i], catalog, Listed) == Some(r.value[i])
  {
    if os == [] then Some([])
    else
      match (Assemble(os[0], catalog, Listed), AssembleAll(os[1..], catalog))
      case (Some(d), Some(rest)) => Some([d] + rest)
      case _ => None
  }

  /** A shaped body is sent with `status`; a mapping that threw goes to `next(error)`. */
  function Send(status: int, dto: Option<OrderDto>): (r: Reply<OrderDto>)
    ensures dto.Some? <==> r.Ok?
    ensures r.Ok? ==> r.status == status && r.body == dto.value
    ensures r.Thrown? || r.Ok?
  {
    match dto
    case Some(d) => Ok(status, d)
    case None => Thrown
  }

  /** `dateProcessed: status === 'Concluído' ? new Date() : null`, applied on
      every update whatever the previous status was. */
  function Processed(s: Status, now: Timestamp): (d: Option<Timestamp>)
    ensures d == Some(now) <==> s == Concluido
    ensures d.None? <==> s != Concluido
  {
    if s == Concluido then Some(now) else None
  }

  /** The order an update writes: status and processed date, nothing else. */
  function WithStatus(o: Order, s: Status, now: Timestamp): (r: Order)
    ensures r.status == s && r.dateProcessed == Processed(s, now)
    ensures r.id == o.id && r.userId == o.userId && r.client == o.client
    ensures r.dateEntry == o.dateEntry && r.products == o.products
  {
    o.(status := s, dateProcessed := Processed(s, now))
  }

  /** The order a complete create body produces under `id`. */
  function NewOrder(id: int, req: CreateRequest, now: Timestamp): (o: Order)
    requires Complete(req)
    ensures o.id == id && o.status == Pendente && o.dateEntry == now && o.dateProcessed.None?
    ensures o.userId == req.userId.value && o.client == req.client.value
    ensures o.products == Lines(req.products.value)
  {
    Order(id, req.userId.value, req.client.value, Pendente, now, None, Lines(req.products.value))
  }

  /** The pairs a reply shows per line: product id and quantity. */
  function ShownPairs(lines: seq<ProductLine>): (r: seq<(int, int)>)
    ensures |r| == |lines|
    ensures forall i :: 0 <= i < |lines| ==> r[i] == (lines[i].product.id, lines[i].quantity)
  {
    seq(|lines|, i requires 0 <= i < |lines| => (lines[i].product.id, lines[i].quantity))
  }

  function RequestedPairs(reqs: seq<LineRequest>): (r: seq<(int, int)>)
    ensures |r| == |reqs|
    ensures forall i :: 0 <= i < |reqs| ==> r[i] == (reqs[i].productId, reqs[i].qty)
  {
    seq(|reqs|, i requires 0 <= i < |reqs| => (reqs[i].productId, reqs[i].qty))
  }

  predicate KeyedById(catalog: map<int, Product>)
  {
    forall k :: k in catalog ==> catalog[k].id == k
  }

  /** Round trip: the order a create stores, shaped by any reply, shows
      exactly the requested (product id, quantity) pairs, in request order. */
  lemma CreatedOrderShowsRequest(id: int, req: CreateRequest, now: Timestamp,
                                 catalog: map<int, Product>, view: View)
    requires Complete(req) && KeyedById(catalog)
    requires Known(catalog, Lines(req.products.value))
    ensures Assemble(NewOrder(id, req, now), catalog, view).Some?
    ensures ShownPairs(Assemble(NewOrder(id, req, now), catalog, view).value.products)
            == RequestedPairs(req.products.value)
  {
    var d := Assemble(NewOrder(id, req, now), catalog, view).value;
    var reqs := req.products.value;
    assert forall i :: 0 <= i < |reqs| ==> ShownPairs(d.products)[i] == RequestedPairs(reqs)[i];
  }

  /** The order table (`prisma.order` with its `products` relation). */
  class OrderStore {
    var orders: map<int, Order>
    var nextId: int

    /** Rows sit under their own id, below the autoincrement counter, and
        every order has at least one line (creation refuses an empty list). */
    ghost predicate Valid()
      reads this
    {
      && nextId >= 1
      && forall id :: id in orders ==>
           1 <= id < nextId && orders[id].id == id && |orders[id].products| > 0
    }

    /** The stored ids, in increasing id order (the model's choice: `findMany`
        without `orderBy` promises no order). */
    function Ids(): (ids: seq<int>)
      reads this
      requires Valid()
      ensures forall id :: id in orders <==> id in ids
      ensures StrictlyIncreasing(ids)
    {
      IdsBelow(orders, nextId)
    }

    constructor ()
      ensures Valid() && orders == map[] && nextId == 1
    {
      orders := map[];
      nextId := 1;
    }

    /** getOrders: every stored order, once each, shaped for the list. */
    method GetOrders(catalog: map<int, Product>) returns (r: Reply<seq<OrderDto>>)
      requires Valid()
      ensures r.Ok? || r.Thrown?
      ensures r.Ok? <==> forall id :: id in orders ==> Known(catalog, orders[id].products)
      ensures r.Ok? ==> r.status == 200 && |r.body| == |Ids()|
      ensures r.Ok? ==> forall i :: 0 <= i < |Ids()| ==>
                r.body[i].id == Ids()[i] && Assemble(orders[Ids()[i]], catalog, Listed) == Some(r.body[i])
    {
      var ids := Ids();
      var rows := RowsOf(orders, ids);
      var all := AssembleAll(rows, catalog);
      if all.Some? {
        r := Ok(200, all.value);
      } else {
        r := Thrown;
        assert !forall i :: 0 <= i < |rows| ==> Known(catalog, rows[i].products);
      }
      assert all.Some? ==> forall id :: id in orders ==> Known(catalog, orders[id].products) by {
        if all.Some? {
          forall id | id in orders ensures Known(catalog, orders[id].products) {
            var i :| 0 <= i < |ids| && ids[i] == id;
            assert rows[i] == orders[id];
          }
        }
      }
    }

    /** getOrderById: 404 for an unknown id, otherwise the order shaped for the detail. */
    method GetOrderById(id: int, catalog: map<int, Product>) returns (r: Reply<OrderDto>)
      requires Valid()
      ensures id !in orders ==> r == Err(404, OrderNotFoundMessage)
      ensures id in orders ==> r == Send(200, Assemble(orders[id], catalog, Listed))
    {
      if id !in orders {
        return Err(404, OrderNotFoundMessage);
      }
      r := Send(200, Assemble(orders[id], catalog, Listed));
    }

    /** createOrder: header and lines go to the store in one nested create,
        which connects each line to its product and rolls back as a whole when
        a product does not exist. */
    method CreateOrder(req: CreateRequest, userIds: set<int>, catalog: map<int, Product>, now: Timestamp)
      returns (r: Reply<OrderDto>)
      requires Valid()
      modifies this
      ensures Valid()
      ensures !r.Ok? ==> orders == old(orders) && nextId == old(nextId)
      ensures !Complete(req) ==> r == Err(400, IncompleteMessage)
      ensures Complete(req) && req.userId.value !in userIds ==>
                r == Err(404, UserNotFoundMessage(req.userId.value))
      ensures Complete(req) && req.userId.value in userIds && !Known(catalog, Lines(req.products.value)) ==>
                r == Thrown
      ensures Complete(req) && req.userId.value in userIds && Known(catalog, Lines(req.products.value)) ==>
                && orders == old(orders)[old(nextId) := NewOrder(old(nextId), req, now)]
                && old(nextId) !in old(orders)
                && nextId == old(nextId) + 1
                && r == Send(201, Assemble(NewOrder(old(nextId), req, now), catalog, Created))
                && r.Ok?
    {
      if !Complete(req) {
        return Err(400, IncompleteMessage);
      }
      var userId := req.userId.value;
      if userId !in userIds {
        return Err(404, UserNotFoundMessage(userId));
      }
      var lines := Lines(req.products.value);
      if !Known(catalog, lines) {
        return Thrown;
      }
      var order := NewOrder(nextId, req, now);
      orders := orders[nextId := order];
      nextId := nextId + 1;
      r := Send(201, Assemble(order, catalog, Created));
    }

    /** updateOrder: the status is checked before the store is touched; the
        update of an unknown id raises in the store. */
    method UpdateOrder(id: int, status: Option<string>, catalog: map<int, Product>, now: Timestamp)
      returns (r: Reply<OrderDto>)
      requires Valid()
      modifies this
      ensures Valid() && nextId == old(nextId)
      ensures ParseStatus(status).None? ==> r == Err(400, InvalidStatusMessage()) && orders == old(orders)
      ensures ParseStatus(status).Some? && id !in old(orders) ==> r == Thrown && orders == old(orders)
      ensures ParseStatus(status).Some? && id in old(orders) ==>
                && orders == old(orders)[id := WithStatus(old(orders)[id], ParseStatus(status).value, now)]
                && r == Send(200, Assemble(orders[id], catalog, Updated))
    {
      var s := ParseStatus(status);
      if s.None? {
        return Err(400, InvalidStatusMessage());
      }
      if id !in orders {
        return Thrown;
      }
      var order := WithStatus(orders[id], s.value, now);
      orders := orders[id := order];
      r := Send(200, Assemble(order, catalog, Updated));
    }

    /** deleteOrder: the order goes together with its lines; deleting an
        unknown id raises in the store. */
    method DeleteOrder(id: int) returns (r: Reply<string>)
      requires Valid()
      modifies this
      ensures Valid() && nextId == old(nextId)
      ensures id !in old(orders) ==> r == Thrown && orders == old(orders)
      ensures id in old(orders) ==> r == Ok(200, OrderDeletedMessage) && orders == old(orders) - {id}
    {
      if id !in orders {
        return Thrown;
      }
      orders := orders - {id};
      r := Ok(200, OrderDeletedMessage);
    }
  }
}
