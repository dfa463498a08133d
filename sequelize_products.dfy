/** The Sequelize product handlers. Several of them signal an error through
    `next(...)` without returning, so one request can emit several signals;
    each handler therefore returns the signals it emits, in order. */
module SequelizeProducts {
  import opened Base
  import opened Keys
  import opened Catalog

  datatype Body = Row(product: Product) | Rows(products: seq<Product>) | Message(text: string)

  /** `resp.status(status).json(body)` or `next({ status, message })`. */
  datatype Signal = Respond(status: int, body: Body) | Next(status: int, message: string)

  const ProductNotFound: string := "Produto não encontrado"
  const FieldsRequired: string := "Todos os campos são obrigatórios."
  const ProductDeleted: string := "Produto excluído com sucesso!"
  const Forbidden: string := "Acesso proibido"
  /** The update and delete catch blocks use this wording, without a period. */
  const InternalError: string := "Erro interno do servidor"

  /** `!isAdmin(req) && req.product.id !== parseInt(uid, 10)` */
  predicate Refused(id: int, isAdmin: bool, callerProductId: int)
  {
    !isAdmin && callerProductId != id
  }

  /** The product table (`Product` model). */
  class ProductTable {
    var products: map<int, Product>
    var nextId: int

    ghost predicate Valid()
      reads this
    {
      && nextId >= 1
      && forall id :: id in products ==> 1 <= id < nextId && products[id].id == id
    }

    constructor ()
      ensures Valid() && products == map[] && nextId == 1
    {
      products, nextId := map[], 1;
    }

    /** getProducts: every stored product, in increasing id order (the
        model's choice: `findAll()` promises no order). */
    method GetProducts() returns (out: seq<Signal>)
      requires Valid()
      ensures |out| == 1 && out[0].Respond? && out[0].status == 200 && out[0].body.Rows?
      ensures Lists(out[0].body.products, products, nextId)
    {
      out := [Respond(200, Rows(RowsOf(products, IdsBelow(products, nextId))))];
    }

    /** getProductById: the 404 is answered directly and returns. */
    method GetProductById(id: int) returns (out: seq<Signal>)
      requires Valid()
      ensures id !in products ==> out == [Respond(404, Message(ProductNotFound))]
      ensures id in products ==> out == [Respond(200, Row(products[id]))]
    {
      if id !in products {
        return [Respond(404, Message(ProductNotFound))];
      }
      out := [Respond(200, Row(products[id]))];
    }

    /** createProduct: a missing field is answered with 400 and nothing is created. */
    method CreateProduct(input: ProductInput) returns (out: seq<Signal>)
      requires Valid()
      modifies this
      ensures Valid()
      ensures !AllFieldsGiven(input) ==>
                out == [Respond(400, Message(FieldsRequired))] && unchanged(this)
      ensures AllFieldsGiven(input) ==>
                && old(nextId) !in old(products)
                && products == old(products)[old(nextId) := Fresh(old(nextId), input)]
                && nextId == old(nextId) + 1
                && out == [Respond(201, Row(Fresh(old(nextId), input)))]
    {
      if !AllFieldsGiven(input) {
        return [Respond(400, Message(FieldsRequired))];
      }
      var p := Fresh(nextId, input);
      products := products[nextId := p];
      nextId := nextId + 1;
      out := [Respond(201, Row(p))];
    }

    /** updateProduct as written. The 403 is signalled without returning, so
        the update goes on; a missing product is signalled with 404 without
        returning, and reading its fields then throws, which the catch turns
        into a 500. An existing product is changed field by field and saved. */
    method UpdateProduct(id: int, input: ProductInput, isAdmin: bool, callerProductId: int)
      returns (out: seq<Signal>)
      requires Valid()
      modifies this
      ensures Valid() && nextId == old(nextId)
      ensures var gate := if Refused(id, isAdmin, callerProductId) then [Next(403, Forbidden)] else [];
              && (id !in old(products) ==>
                    out == gate + [Next(404, ProductNotFound), Next(500, InternalError)]
                    && products == old(products))
              && (id in old(products) ==>
                    && products == old(products)[id := Merge(old(products)[id], input)]
                    && out == gate + [Respond(200, Row(products[id]))])
    {
      out := [];
      if Refused(id, isAdmin, callerProductId) {
        out := out + [Next(403, Forbidden)];
      }
      if id !in products {
        out := out + [Next(404, ProductNotFound)];
        out := out + [Next(500, InternalError)];
        return;
      }
      var product := products[id];
      product := product.(name := Or(input.name, product.name));
      product := product.(price := OrNumber(input.price, product.price));
      product := product.(image := Or(input.image, product.image));
      product := product.(kind := Or(input.kind, product.kind));
      products := products[id := product];
      out := out + [Respond(200, Row(product))];
    }

    /** updateProduct with a `return` after each `next(...)`, as evidently
        intended: every request gets one signal, and a refused or missing
        product causes no write. */
    method UpdateProductGuarded(id: int, input: ProductInput, isAdmin: bool, callerProductId: int)
      returns (out: seq<Signal>)
      requires Valid()
      modifies this
      ensures Valid() && nextId == old(nextId)
      ensures |out| == 1
      ensures out[0].Respond? <==> products != old(products) || (id in old(products) && !Refused(id, isAdmin, callerProductId))
      ensures Refused(id, isAdmin, callerProductId) ==>
                out == [Next(403, Forbidden)] && products == old(products)
      ensures !Refused(id, isAdmin, callerProductId) && id !in old(products) ==>
                out == [Next(404, ProductNotFound)] && products == old(products)
      ensures !Refused(id, isAdmin, callerProductId) && id in old(products) ==>
                && products == old(products)[id := Merge(old(products)[id], input)]
                && out == [Respond(200, Row(products[id]))]
    {
      if Refused(id, isAdmin, callerProductId) {
        return [Next(403, Forbidden)];
      }
      if id !in products {
        return [Next(404, ProductNotFound)];
      }
      var product := products[id];
      product := product.(name := Or(input.name, product.name));
      product := product.(price := OrNumber(input.price, product.price));
      product := product.(image := Or(input.image, product.image));
      product := product.(kind := Or(input.kind, product.kind));
      products := products[id := product];
      out := [Respond(200, Row(product))];
    }

    /** deleteProduct as written: a missing product is signalled with 404
        without returning, and destroying null then throws into a 500. */
    method DeleteProduct(id: int) returns (out: seq<Signal>)
      requires Valid()
      modifies this
      ensures Valid() && nextId == old(nextId)
      ensures id !in old(products) ==>
                out == [Next(404, ProductNotFound), Next(500, InternalError)] && products == old(products)
      ensures id in old(products) ==>
                out == [Respond(200, Message(ProductDeleted))] && products == old(products) - {id}
    {
      if id !in products {
        out := [Next(404, ProductNotFound)];
        out := out + [Next(500, InternalError)];
        return;
      }
      products := products - {id};
      out := [Respond(200, Message(ProductDeleted))];
    }

    /** deleteProduct with the missing `return`: one signal per request. */
    method DeleteProductGuarded(id: int) returns (out: seq<Signal>)
      requires Valid()
      modifies this
      ensures Valid() && nextId == old(nextId)
      ensures |out| == 1
      ensures id !in old(products) ==> out == [Next(404, ProductNotFound)] && products == old(products)
      ensures id in old(products) ==>
                out == [Respond(200, Message(ProductDeleted))] && products == old(products) - {id}
    {
      if id !in products {
        return [Next(404, ProductNotFound)];
      }
      products := products - {id};
      out := [Respond(200, Message(ProductDeleted))];
    }
  }

  /** A non-admin caller whose id differs from the product's is refused with
      403, and the product is rewritten and a 200 follows anyway. */
  method RefusedUpdateStillWrites() returns (out: seq<Signal>, stored: Product)
    ensures |out| == 2 && out[0] == Next(403, Forbidden) && out[1].Respond? && out[1].status == 200
    ensures stored.name == "Duplo"
  {
    var table := new ProductTable();
    var created := table.CreateProduct(ProductInput(Some("Simples"), Some(10), Some("simples.png"), Some("lanche")));
    out := table.UpdateProduct(1, ProductInput(Some("Duplo"), None, None, None), false, 7);
    stored := table.products[1];
  }

  /** The same request against the corrected handler is refused and writes nothing. */
  method RefusedUpdateGuarded() returns (out: seq<Signal>, stored: Product)
    ensures out == [Next(403, Forbidden)]
    ensures stored.name == "Simples"
  {
    var table := new ProductTable();
    var created := table.CreateProduct(ProductInput(Some("Simples"), Some(10), Some("simples.png"), Some("lanche")));
    out := table.UpdateProductGuarded(1, ProductInput(Some("Duplo"), None, None, None), false, 7);
    stored := table.products[1];
  }

  /** Deleting from an empty table signals twice: 404, then 500. */
  method MissingDeleteSignalsTwice() returns (out: seq<Signal>)
    ensures out == [Next(404, ProductNotFound), Next(500, InternalError)]
  {
    var table := new ProductTable();
    out := table.DeleteProduct(1);
  }

  /** Updating a product that is not there signals twice: 404, then 500. */
  method MissingUpdateSignalsTwice() returns (out: seq<Signal>)
    ensures out == [Next(404, ProductNotFound), Next(500, InternalError)]
  {
    var table := new ProductTable();
    out := table.UpdateProduct(1, ProductInput(Some("Duplo"), None, None, None), true, 1);
  }
}
