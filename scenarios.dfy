/** Request sequences against the Prisma order service, stated as methods
    on a fresh store. */
module Scenarios {
  import opened Base
  import opened Catalog
  import opened OrderModel
  import opened OrderRequests
  import opened PrismaOrders

  /** User 1 orders three of product 18 and one of product 15 for
      "Jude Milhon"; the order is concluded, deleted, and then looked up. */
  method JudeMilhonOrder(catalog: map<int, Product>, now: Timestamp, later: Timestamp)
    returns (created: Reply<OrderDto>, concluded: Reply<OrderDto>, deleted: Reply<string>, lookedUp: Reply<OrderDto>)
    requires 15 in catalog && 18 in catalog && KeyedById(catalog)
    ensures created.Ok? && created.status == 201
    ensures created.body.status == Pendente && created.body.client == "Jude Milhon" && created.body.dateEntry == now
    ensures ShownPairs(created.body.products) == [(18, 3), (15, 1)]
    ensures concluded.Ok? && concluded.body.status == Concluido
    ensures concluded.body.dateProcessed == Included(Some(later))
    ensures deleted == Ok(200, OrderDeletedMessage)
    ensures lookedUp == Err(404, OrderNotFoundMessage)
  {
    var store := new OrderStore();
    var req := CreateRequest(Some(1), Some("Jude Milhon"), Some([LineRequest(18, 3), LineRequest(15, 1)]));
    created := store.CreateOrder(req, {1}, catalog, now);
    CreatedOrderShowsRequest(1, req, now, catalog, Created);
    ParseLabel(Concluido, "Concluído");
    concluded := store.UpdateOrder(1, Some("Concluído"), catalog, later);
    deleted := store.DeleteOrder(1);
    lookedUp := store.GetOrderById(1, catalog);
  }

  /** An order moved to Processando keeps a null processed date. */
  method ProcessingKeepsNull(catalog: map<int, Product>, now: Timestamp, later: Timestamp)
    returns (updated: Reply<OrderDto>)
    requires 15 in catalog
    ensures updated.Ok? && updated.body.status == Processando
    ensures updated.body.dateProcessed == Included(None)
  {
    var store := new OrderStore();
    var req := CreateRequest(Some(1), Some("Jude Milhon"), Some([LineRequest(15, 1)]));
    var created := store.CreateOrder(req, {1}, catalog, now);
    ParseLabel(Processando, "Processando");
    updated := store.UpdateOrder(1, Some("Processando"), catalog, later);
  }

  /** Two lookups with no write between them reply the same. */
  method LookupTwice(store: OrderStore, id: int, catalog: map<int, Product>)
    returns (first: Reply<OrderDto>, second: Reply<OrderDto>)
    requires store.Valid()
    ensures first == second
    ensures id in store.orders <==> !first.Err?
  {
    first := store.GetOrderById(id, catalog);
    second := store.GetOrderById(id, catalog);
  }
}
