/** What the two order revisions share: the create body and the reply
    messages. */
module OrderRequests {
  import opened Base
  import opened Text

  /** `{ qty, product: { id } }` of a create body. */
  datatype LineRequest = LineRequest(productId: int, qty: int)

  /** `{ userId, client, products }` of a create body. */
  datatype CreateRequest = CreateRequest(
    userId: Option<int>, client: Option<string>, products: Option<seq<LineRequest>>)

  /** `!userId || !client || !products || !products.length` is false. */
  predicate Complete(req: CreateRequest)
  {
    GivenNumber(req.userId) && Given(req.client) && req.products.Some? && |req.products.value| > 0
  }

  const IncompleteMessage: string := "Dados incompletos na requisição."
  const OrderNotFoundMessage: string := "Ordem não encontrada"
  const OrderDeletedMessage: string := "Ordem excluída com sucesso!"

  const UserPrefix: string := "Usuário com ID "
  const ProductPrefix: string := "Produto com ID "
  const NotFoundSuffix: string := " não encontrado."

  /** `Usuário com ID ${userId} não encontrado.` */
  function UserNotFoundMessage(userId: int): string
  {
    UserPrefix + IntToString(userId) + NotFoundSuffix
  }

  /** `Produto com ID ${product.id} não encontrado.` */
  function ProductNotFoundMessage(productId: int): string
  {
    ProductPrefix + IntToString(productId) + NotFoundSuffix
  }

  /** The id a "not found" message was built from, read back out of it. */
  function NamedId(message: string, prefix: string): Option<int>
  {
    if |message| >= |prefix| + |NotFoundSuffix| then
      ParseInt(message[|prefix|..|message| - |NotFoundSuffix|])
    else None
  }

  /** The user message names the offending id and can be told apart from the
      message for every other id. */
  lemma UserMessageNamesId(userId: int)
    ensures NamedId(UserNotFoundMessage(userId), UserPrefix) == Some(userId)
  {
    var m := UserNotFoundMessage(userId);
    assert m[|UserPrefix|..|m| - |NotFoundSuffix|] == IntToString(userId);
    IntRoundTrip(userId);
  }

  lemma ProductMessageNamesId(productId: int)
    ensures NamedId(ProductNotFoundMessage(productId), ProductPrefix) == Some(productId)
  {
    var m := ProductNotFoundMessage(productId);
    assert m[|ProductPrefix|..|m| - |NotFoundSuffix|] == IntToString(productId);
    IntRoundTrip(productId);
  }
}
