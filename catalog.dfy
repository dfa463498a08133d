/** The product row shared by both product revisions and read by the order
    handlers: id, name, price, image and type (`type` is `kind` here, since
    `type` is a Dafny keyword). */
module Catalog {
  import opened Base

  /** DECIMAL(10,2) kept opaque; the handlers only test it for truthiness,
      which for a number means "not 0". */
  type Price = int

  datatype Product = Product(id: int, name: string, price: Price, image: string, kind: string)

  /** The `name, price, image, type` fields of a create or update body. */
  datatype ProductInput = ProductInput(
    name: Option<string>, price: Option<Price>, image: Option<string>, kind: Option<string>)

  /** `!name || !price || !image || !type` is false. */
  predicate AllFieldsGiven(input: ProductInput)
  {
    Given(input.name) && GivenNumber(input.price) && Given(input.image) && Given(input.kind)
  }

  /** The row a create with a complete body stores under `id`. */
  function Fresh(id: int, input: ProductInput): (p: Product)
    requires AllFieldsGiven(input)
    ensures p.id == id
    ensures Some(p.name) == input.name && Some(p.price) == input.price
    ensures Some(p.image) == input.image && Some(p.kind) == input.kind
  {
    Product(id, input.name.value, input.price.value, input.image.value, input.kind.value)
  }

  /** `field: input || current` for each of the four fields. */
  function Merge(p: Product, input: ProductInput): Product
  {
    p.(name := Or(input.name, p.name),
       price := OrNumber(input.price, p.price),
       image := Or(input.image, p.image),
       kind := Or(input.kind, p.kind))
  }

  /** Each field takes the new value exactly when it is truthy; the id never changes. */
  lemma MergeFields(p: Product, input: ProductInput)
    ensures Merge(p, input).id == p.id
    ensures Merge(p, input).name == (if Given(input.name) then input.name.value else p.name)
    ensures Merge(p, input).price == (if GivenNumber(input.price) then input.price.value else p.price)
    ensures Merge(p, input).image == (if Given(input.image) then input.image.value else p.image)
    ensures Merge(p, input).kind == (if Given(input.kind) then input.kind.value else p.kind)
  {
  }

  /** A body with no truthy field leaves the product as it was. */
  lemma MergeNothing(p: Product, input: ProductInput)
    requires !Given(input.name) && !GivenNumber(input.price)
    requires !Given(input.image) && !Given(input.kind)
    ensures Merge(p, input) == p
  {
  }

  /** Sending the same update twice stores what sending it once stores. */
  lemma MergeIdempotent(p: Product, input: ProductInput)
    ensures Merge(Merge(p, input), input) == Merge(p, input)
  {
  }

  /** A complete body replaces every field, whatever the product held. */
  lemma MergeComplete(p: Product, input: ProductInput)
    requires AllFieldsGiven(input)
    ensures Merge(p, input) == Fresh(p.id, input)
  {
  }

  /** The line of an order response: the product's fields plus the line's quantity. */
  datatype ProductLine = ProductLine(product: Product, quantity: int)
}
