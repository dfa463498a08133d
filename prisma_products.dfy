/** The Prisma product handlers: list, detail, create, field-merging update
    and delete on the product table. */
module PrismaProducts {
  import opened Base
  import opened Keys
  import opened Catalog

  const ProductNotFound: string := "Produto não encontrado"
  /** updateProduct's own wording ends with a period. */
  const ProductNotFoundOnUpdate: string := "Produto não encontrado."
  const FieldsRequired: string := "Todos os campos são obrigatórios."
  const ProductDeleted: string := "Produto excluído com sucesso!"

  /** The product table (`prisma.product`). */
  class ProductTable {
    var products: map<int, Product>
    var nextId: int

    ghost predicate Valid()
      reads this
    {
      && nextId >= 1
      && forall id :: id in products ==> 1 <= id < nextId && products[id].id == id
    }

    constructor ()
      ensures Valid() && products == map[] && nextId == 1
    {
      products, nextId := map[], 1;
    }

    /** getProducts: every stored product, once each, in increasing id order
        (the model's choice: `findMany()` promises no order). */
    method GetProducts() returns (r: Reply<seq<Product>>)
      requires Valid()
      ensures r.Ok? && r.status == 200
      ensures Lists(r.body, products, nextId)
      ensures forall p :: p in r.body <==> p in products.Values
    {
      var ids := IdsBelow(products, nextId);
      var rows := RowsOf(products, ids);
      r := Ok(200, rows);
      assert forall p :: p in products.Values ==> p in rows by {
        forall p | p in products.Values ensures p in rows {
          var id :| id in products && products[id] == p;
          var i :| 0 <= i < |ids| && ids[i] == id;
          assert rows[i] == p;
        }
      }
    }

    /** getProductById */
    method GetProductById(id: int) returns (r: Reply<Product>)
      requires Valid()
      ensures id !in products ==> r == Err(404, ProductNotFound)
      ensures id in products ==> r == Ok(200, products[id]) && r.body.id == id
    {
      if id !in products {
        return Err(404, ProductNotFound);
      }
      r := Ok(200, products[id]);
    }

    /** createProduct: the four fields are all required and are stored as given. */
    method CreateProduct(input: ProductInput) returns (r: Reply<Product>)
      requires Valid()
      modifies this
      ensures Valid()
      ensures !AllFieldsGiven(input) ==>
                r == Err(400, FieldsRequired) && products == old(products) && nextId == old(nextId)
      ensures AllFieldsGiven(input) ==>
                && old(nextId) !in old(products)
                && products == old(products)[old(nextId) := Fresh(old(nextId), input)]
                && nextId == old(nextId) + 1
                && r == Ok(201, Fresh(old(nextId), input))
    {
      if !AllFieldsGiven(input) {
        return Err(400, FieldsRequired);
      }
      var p := Fresh(nextId, input);
      products := products[nextId := p];
      nextId := nextId + 1;
      r := Ok(201, p);
    }

    /** updateProduct: looked up first; a missing product is not written. */
    method UpdateProduct(id: int, input: ProductInput) returns (r: Reply<Product>)
      requires Valid()
      modifies this
      ensures Valid() && nextId == old(nextId)
      ensures id !in old(products) ==> r == Err(404, ProductNotFoundOnUpdate) && products == old(products)
      ensures id in old(products) ==>
                && products == old(products)[id := Merge(old(products)[id], input)]
                && r == Ok(200, products[id])
    {
      if id !in products {
        return Err(404, ProductNotFoundOnUpdate);
      }
      var updated := Merge(products[id], input);
      MergeFields(products[id], input);
      products := products[id := updated];
      r := Ok(200, updated);
    }

    /** deleteProduct */
    method DeleteProduct(id: int) returns (r: Reply<string>)
      requires Valid()
      modifies this
      ensures Valid() && nextId == old(nextId)
      ensures id !in old(products) ==> r == Err(404, ProductNotFound) && products == old(products)
      ensures id in old(products) ==> r == Ok(200, ProductDeleted) && products == old(products) - {id}
    {
      if id !in products {
        return Err(404, ProductNotFound);
      }
      products := products - {id};
      r := Ok(200, ProductDeleted);
    }
  }
}
