# Burger Queen API: orders, products and users

A model of the restaurant backend's request handlers over its three tables:

- orders, each with its product lines;
- products;
- users.

Most handlers have the same shape. A validation gate answers 400, 403 or 404 before any write. Then comes one insert, field-merging update, upsert, find-or-create or delete on a keyed table. Three handlers break that shape:

- the Sequelize order creation (`routes/orders.js`) writes the order row and some of its lines, and only then answers 404 for an unknown product;
- the Sequelize product update (`controller/products.js`) signals 403 and still writes;
- the Prisma order update and delete (`src/controller/orders.js`) have no 404 gate, and an unknown id makes the store throw.

For orders there is also:

- a status vocabulary (`Pendente`, `Processando`, `Concluído`);
- a rule that derives `dateProcessed`;
- a rule that shapes the order carried by each reply.

The repository holds two revisions of these handlers, and each is modelled on its own:

- **Prisma revision** (`src/controller/*.js`):
  - module `PrismaOrders`: the order service;
  - module `PrismaProducts`: the product handlers;
  - module `PrismaUsers`: the user handlers, with an admin bootstrap by upsert.
- **Sequelize revision**:
  - module `RouteOrders`: the inline `/orders` routes (`routes/orders.js`);
  - module `OrderModel`: the `Order` schema with its status enumeration and `beforeUpdate` hook (`models/modelOrder.js`);
  - module `SequelizeProducts`: `controller/products.js`;
  - module `SequelizeUsers`: `controller/users.js`, with an admin bootstrap by find-or-create.

Shared modules:

- `Base`:
  - optional request fields, and JavaScript truthiness on them (`Given`, `GivenNumber`, and `Or` for `a || b`);
  - `Reply`, what a handler sends: `Ok(status, body)`, `Err(status, message)`, or `Thrown`. `Thrown` means the store raised and the raw error went to `next(error)`.
- `Text`: decimal rendering of ids inside messages, with its parser and round trip.
- `Keys`: listing an autoincrement table, in increasing id order, and lookup by a non-key column.
- `Catalog`: the product row and the field merge that both product revisions use.
- `OrderRequests`: the create body and the messages both order revisions share.
- `Accounts`: the user row, the user table with its unique email column, and the lookup by email, which both user revisions share.
- `Scenarios`: request sequences stated as methods on a fresh Prisma order store, with their outcomes proved.

How the model represents the system:

- **Tables.** Each table is a class holding a `map<int, Row>` and an autoincrement counter `nextId`. Its `Valid()` says that every row sits under its own id, below the counter. The user tables also keep emails unique. The Prisma order table also says every order has at least one line.
- **Handlers.** Each handler is a method on its table class. It returns the reply and states the new table contents in full.
- **Sequelize product handlers.** Several of them call `next(...)` without returning. They therefore return the whole sequence of signals they emit (`Respond` or `Next`).
- **Side inputs.** Each of these becomes a parameter:
  - the clock, as `now`;
  - bcrypt, as an uninterpreted `hash: string -> string`;
  - the authorisation middleware's verdict, as `isAdmin` and the caller's id;
  - the set of existing user ids;
  - the product catalog read by the order handlers.

Behaviour of the code that the model keeps as written:

- **Prisma `updateOrder` and `dateProcessed`.** The Prisma `updateOrder` writes `now` for Concluído and null for every other status, on every update, whatever the previous status was. So an order that leaves Concluído loses its processed date (`Processed`, `WithStatus`).
- **Route creation is not atomic.** The Sequelize route creation stores the order row first and attaches the lines one by one. A missing product therefore leaves a partial order (`RouteOrders.OrderTable.CreateOrder`, `PartialCreation`).
- **The Sequelize hook never stamps.** The Sequelize revision never sets `dateProcessed` at all, because the hook's result is dropped (see Findings).
- **The seed order's status.** The order seeder writes the status `'pending'`, which the `Order` enumeration does not contain. The model's `Status` type admits only the three declared values.
- **The product tests.** `controller/products.js` is followed as written wherever its tests expect something else. For example, the tests expect the update 404 to be answered through `resp` with a period in the message.

## Model

| member | source | states |
|---|---|---|
| OrderModel.AllowedLabels | src/controller/orders.js:164 | the allowed labels are exactly the three statuses' labels, in declaration order |
| OrderModel.ParseStatus | src/controller/orders.js:164-166 | a status value is accepted iff it is one of the three allowed labels, and the accepted status carries that label |
| OrderModel.ParseLabel | routes/orders.js:80-86 | each status is accepted under its own label and under no other string |
| OrderModel.AllowedList | src/controller/orders.js:168-170 | the 400 message lists the values as "Pendente, Processando, Concluído" |
| OrderModel.BeforeUpdate | models/modelOrder.js:25-30 | the hook acts iff the status changed and the new status is Concluído; its copy has dateProcessed = now and every other field equal to the order's |
| OrderModel.StampOnConclusion | models/modelOrder.js:25-30 | corrected hook: the saved row gets dateProcessed = now exactly on a change into Concluído, and keeps every other field |
| OrderRequests.UserMessageNamesId | src/controller/orders.js:103-107 | the user 404 message names the user id: reading the id back out of it gives that id |
| OrderRequests.ProductMessageNamesId | routes/orders.js:59-61 | the product 404 message names the product id: reading the id back out of it gives that id |
| Text.IntRoundTrip | src/controller/orders.js:106 | an id rendered into a message parses back to the same id |
| Text.IntToStringInjective | src/controller/orders.js:106 | distinct ids render to distinct texts |
| Catalog.Fresh | src/controller/products.js:43-52 | a created product holds exactly the four given fields under its id |
| Catalog.MergeFields | src/controller/products.js:74-82 | each field takes the new value exactly when it is truthy, else keeps the old one; the id never changes |
| Catalog.MergeNothing | controller/products.js:76-79 | a body with no truthy field leaves the product as it was |
| Catalog.MergeIdempotent | src/controller/products.js:76-81 | sending the same update twice stores what sending it once stores |
| Catalog.MergeComplete | src/controller/products.js:76-81 | a complete body replaces every field, the same as creating the product afresh under its id |
| Keys.IdsBelow | src/controller/products.js:7 | the ids a listing covers: every stored id once and nothing else, in increasing order (an order the model chooses) |
| PrismaOrders.Lines | src/controller/orders.js:115-122 | one line per requested product, in request order, with quantity = qty |
| PrismaOrders.ResolveLines | src/controller/orders.js:26-35 | the lines resolve iff every product still exists; each resolved line is the product's row with the line's quantity |
| PrismaOrders.ProcessedField | src/controller/orders.js:23-25 | the list and detail replies carry dateProcessed iff the status is Concluído; the create reply never does; the update reply always does |
| PrismaOrders.Assemble | src/controller/orders.js:62-81 | a reply carries the order's id, user, client, status and entry date, the view's dateProcessed rule, and one product line per order line; it throws iff a line's product is gone |
| PrismaOrders.AssembleAll | src/controller/orders.js:17-36 | the list reply shapes every order as the detail does, and throws iff some order cannot be shaped |
| PrismaOrders.Send | src/controller/orders.js:83-86 | a shaped body is sent with the given status; a failed shaping goes to next(error) |
| PrismaOrders.Processed | src/controller/orders.js:178 | dateProcessed becomes now iff the new status is Concluído, and null otherwise |
| PrismaOrders.WithStatus | src/controller/orders.js:174-179 | an update changes status and dateProcessed only; id, user, client, entry date and lines are kept |
| PrismaOrders.NewOrder | src/controller/orders.js:109-124 | a new order is Pendente with dateEntry = now, no processed date, the body's user and client, and the requested lines |
| PrismaOrders.CreatedOrderShowsRequest | src/controller/orders.js:109-151 | round trip: a created order, shaped by any reply, shows exactly the requested (product id, quantity) pairs |
| PrismaOrders.OrderStore.GetOrders | src/controller/orders.js:5-41 | the list holds every stored order once, in id order, as Assemble shapes it; it throws iff some order has a line whose product is gone |
| PrismaOrders.OrderStore.GetOrderById | src/controller/orders.js:44-87 | 404 "Ordem não encontrada" for an unknown id, otherwise 200 with the order shaped for the detail |
| PrismaOrders.OrderStore.CreateOrder | src/controller/orders.js:89-157 | 400 for a missing field or an empty list, 404 naming an unknown user, a throw for an unknown product; every failure leaves the store unchanged; success adds exactly NewOrder under the next id, replies 201, and leaves other orders untouched |
| PrismaOrders.OrderStore.UpdateOrder | src/controller/orders.js:159-212 | 400 listing the allowed values before any store access; a throw with no change for an unknown id; otherwise only that order becomes WithStatus, and the reply is shaped for the update |
| PrismaOrders.OrderStore.DeleteOrder | src/controller/orders.js:214-226 | deleting an unknown id throws and changes nothing; otherwise the order is removed together with its lines, and the reply is 200 "Ordem excluída com sucesso!" |
| RouteOrders.View | routes/orders.js:14-20 | the detail carries the row and each attached product that still exists, with the line's quantity |
| RouteOrders.AttachSnoc | routes/orders.js:55-64 | attaching one more request is one more write on top of the earlier ones |
| RouteOrders.AttachKeys | routes/orders.js:55-64 | the order has exactly one line per requested product, and lines for products not requested are kept |
| RouteOrders.AttachLast | routes/orders.js:63 | a product requested more than once ends with the quantity of its last request |
| RouteOrders.FirstUnknown | routes/orders.js:55-61 | products are looked up in request order; the loop stops at the first unknown one |
| RouteOrders.OrderTable.GetOrder | routes/orders.js:11-31 | 404 "Ordem não encontrada" for an unknown id, otherwise 200 with the row and its products |
| RouteOrders.OrderTable.CreateOrder | routes/orders.js:34-71 | 400 and 404 for an unknown user change nothing. Otherwise the request writes, in order: (1) the Pendente row with dateEntry = now, before any product lookup; (2) the lines of the products before the first unknown one; (3) then either 404 naming that product, with the row and those lines left stored, or 201 |
| RouteOrders.OrderTable.UpdateStatus | routes/orders.js:75-103 | 400 before the lookup; 404 with no change; otherwise only the status field changes, dateProcessed included, and no line changes |
| RouteOrders.OrderTable.UpdateStatusStamped | models/modelOrder.js:25-30 | corrected PUT: only the status changes, and dateProcessed becomes now exactly on a change into Concluído |
| RouteOrders.OrderTable.DeleteOrder | routes/orders.js:107-123 | 404 with no change for an unknown id; otherwise the row and its join rows are removed, and the reply is 200 "Ordem excluída com sucesso!" |
| RouteOrders.HookResultDropped | models/modelOrder.js:25-30 | a Pendente order put to Concluído is saved with a null dateProcessed, although the hook built a copy stamped with now |
| RouteOrders.PartialCreation | routes/orders.js:47-64 | a known product followed by an unknown one stops at the second request, with the first one's line attached |
| RouteOrders.ConcludedWithoutStamp | routes/orders.js:94-98 | as written, a PUT that concludes a Pendente order answers 200 and the saved order's dateProcessed stays null |
| RouteOrders.ConcludedStamped | models/modelOrder.js:25-30 | with the hook's copy saved, the same PUT saves dateProcessed = now |
| RouteOrders.PartialOrderStays | routes/orders.js:47-61 | a POST with a known first product and an unknown second one answers 404 naming the second; the order stays stored as Pendente with the first product's line only |
| PrismaProducts.ProductTable.GetProducts | src/controller/products.js:5-12 | the reply holds every stored product once, in id order, and nothing else |
| PrismaProducts.ProductTable.GetProductById | src/controller/products.js:14-29 | 404 "Produto não encontrado" for an unknown id, otherwise 200 with that product |
| PrismaProducts.ProductTable.CreateProduct | src/controller/products.js:31-56 | 400 "Todos os campos são obrigatórios." with no change when a field is falsy; otherwise exactly Fresh is added under the next id, and the reply is 201 |
| PrismaProducts.ProductTable.UpdateProduct | src/controller/products.js:58-88 | 404 "Produto não encontrado." with no write for an unknown id; otherwise only that product becomes Merge, and the reply is 200 |
| PrismaProducts.ProductTable.DeleteProduct | src/controller/products.js:90-109 | 404 with no change for an unknown id; otherwise only that product is removed, and the reply is 200 "Produto excluído com sucesso!" |
| SequelizeProducts.ProductTable.GetProducts | controller/products.js:6-14 | a single 200 reply with every stored product, in id order |
| SequelizeProducts.ProductTable.GetProductById | controller/products.js:16-29 | a single 404 "Produto não encontrado" reply for an unknown id, otherwise 200 with that product |
| SequelizeProducts.ProductTable.CreateProduct | controller/products.js:31-53 | 400 with no change when a field is falsy; otherwise exactly Fresh is added under the next id, with a single 201 |
| SequelizeProducts.ProductTable.UpdateProduct | controller/products.js:55-88 | as written: a refused caller gets a 403 signal and the handler goes on; an unknown id gets 404 then 500, with no write; an existing product is merged field by field and saved, and a 200 follows |
| SequelizeProducts.ProductTable.UpdateProductGuarded | controller/products.js:55-88 | corrected: exactly one signal per request; a refusal (403) or an unknown id (404) writes nothing; otherwise the only write is Merge |
| SequelizeProducts.ProductTable.DeleteProduct | controller/products.js:90-106 | as written: an unknown id gets 404 then 500 and changes nothing; an existing product is destroyed with a 200 |
| SequelizeProducts.ProductTable.DeleteProductGuarded | controller/products.js:90-106 | corrected: exactly one signal per request, and 404 alone for an unknown id |
| SequelizeProducts.RefusedUpdateStillWrites | controller/products.js:58-60 | a refused caller's update emits 403, then 200, and the product's name is rewritten |
| SequelizeProducts.RefusedUpdateGuarded | controller/products.js:58-60 | with the return in place, the same request emits 403 alone and the name is kept |
| SequelizeProducts.MissingUpdateSignalsTwice | controller/products.js:72-76 | updating an absent product with an admin caller signals 404 and then 500 |
| SequelizeProducts.MissingDeleteSignalsTwice | controller/products.js:95-99 | deleting an absent product signals 404 and then 500 |
| Accounts.ByEmail | src/controller/users.js:20-21 | the lookup by email finds a user holding that email, or reports that none does; the Sequelize `findOne` on the email (controller/users.js:18-21) is the same lookup |
| PrismaUsers.Upsert | src/controller/users.js:19-24 | afterwards exactly one user holds the email, and it is the given record. A user that had the email becomes the record under its own id, and the counter is kept. Otherwise the record is created under the next id and the counter moves on. Every other user is kept as it was, and no other user appears |
| PrismaUsers.UpsertTwice | src/controller/users.js:19-24 | two upserts of the same email and name equal one upsert with the second password |
| PrismaUsers.MergedFields | src/controller/users.js:96-103 | email, name and role keep the stored value when the new one is falsy; the password becomes hash(new) only when one is given; the id is kept |
| PrismaUsers.MergedNothing | src/controller/users.js:96-103 | an update body with no truthy field writes the user back unchanged |
| PrismaUsers.UserTable.InitAdminUser | src/controller/users.js:6-30 | without both settings nothing changes; otherwise the table becomes the upsert of (Admin, adminEmail, hash(adminPassword), admin) |
| PrismaUsers.UserTable.GetUsers | src/controller/users.js:32-40 | every stored user once, in id order |
| PrismaUsers.UserTable.GetUserById | src/controller/users.js:42-57 | 404 "Usuário não encontrado" for an unknown id, otherwise 200 with that user |
| PrismaUsers.UserTable.CreateUser | src/controller/users.js:59-82 | 400 with no change when any of email, password, role or name is falsy; 500 with no change when the email is taken; otherwise one user is added with hash(password), never the plain text, and the reply is 201 |
| PrismaUsers.UserTable.UpdateUser | src/controller/users.js:84-111 | 404 with no write for an unknown id; 500 with no write when the merged email belongs to another user; otherwise only that user becomes Merged, and the reply is 200 |
| PrismaUsers.UserTable.DeleteUser | src/controller/users.js:113-132 | 404 with no change for an unknown id; otherwise only that user is removed, and the reply is 200 "Usuário excluído com sucesso!" |
| SequelizeUsers.FindOrCreate | controller/users.js:18-21 | a user with the email exists afterwards. An existing one is left exactly as it was (the whole table is). Otherwise one user built from the defaults is added under the next id, and nothing else changes |
| SequelizeUsers.FindOrCreateTwice | controller/users.js:18-21 | running find-or-create a second time, with any defaults, leaves the table as running it once |
| SequelizeUsers.UserTable.InitAdminUser | controller/users.js:6-24 | without both settings nothing changes; otherwise the table becomes the find-or-create of (adminEmail, hash(adminPassword), admin) |
| SequelizeUsers.UserTable.GetUsers | controller/users.js:26-34 | every stored user once, in id order |
| SequelizeUsers.UserTable.GetUserById | controller/users.js:36-49 | 404 "Usuário não encontrado" for an unknown id, otherwise 200 with that user |
| SequelizeUsers.UserTable.CreateUser | controller/users.js:51-68 | 400 with no change when email, password or role is falsy; 500 with no change when the email is taken; otherwise one user is added with hash(password), and the reply is 201 |
| SequelizeUsers.UserTable.UpdateUser | controller/users.js:70-97 | 403 "Acesso proibido" before any lookup when the caller is neither admin nor the user; then 404 with no write; otherwise email and role keep the stored value when falsy and the password is rehashed only when given, or 500 with no write when the email belongs to another user |
| SequelizeUsers.UserTable.DeleteUser | controller/users.js:99-114 | 404 with no change for an unknown id; otherwise only that user is destroyed, and the reply is 200 "Usuário excluído com sucesso!" |
| Scenarios.JudeMilhonOrder | src/controller/orders.js:89-226 | user 1 orders 18×3 and 15×1 for "Jude Milhon". The create replies 201, Pendente, with exactly those pairs. Concluding it stamps dateProcessed. The delete replies 200, and a later lookup is 404 |
| Scenarios.ProcessingKeepsNull | src/controller/orders.js:174-195 | an order moved to Processando shows a null dateProcessed in the update reply |
| Scenarios.LookupTwice | src/controller/orders.js:44-87 | two lookups with no write between them give the same reply |

## Left out

- Authentication and authorisation (`requireAuth`, `isAdmin`, JWT handling) are not part of this model. Their verdict is an input: `isAdmin` plus the caller's id.
- HTTP plumbing (routing, request parsing, JSON rendering, key names such as `Products` and `OrderProducts.quantity`) is left out. A reply is a `Reply` value, or a `Signal` sequence for the Sequelize products file.
- Async execution and concurrency are left out, including the un-awaited `findOrCreate` in `controller/users.js`. Each handler runs as one sequential step.
- `parseInt` of path parameters is left out: ids arrive as integers, and a non-numeric id, which would be NaN, is not modelled.
- The error middleware that receives `next(...)` is not part of this model. A raw store exception is `Thrown`.
- Timestamps (`createdAt`, `updatedAt`, `Date`) are left out. `now` is an opaque integer, and the model never does arithmetic on it.
- Prices (DECIMAL) are kept as integers, and are only tested for truthiness.
- `hash` is uninterpreted, so bcrypt's random salt is not modelled. No idempotence is claimed for the password field of the Prisma upsert.
- Foreign keys are not modelled: deleting a user or product that orders refer to, and join rows left behind by a product deletion. A Prisma order delete removes its lines with it.
- The GET `/orders` list of the Sequelize revision goes through `controller/orders.js`, a pass-through, and is not modelled.
- The order of `Products` in a Sequelize include is unspecified, so `RouteOrders.View` keys them by product id.
- Keys.IdsBelow fixes increasing id order for listings, although `findMany()` and `findAll()` name no order. So the order of the lists in PrismaOrders.OrderStore.GetOrders, PrismaProducts.ProductTable.GetProducts, SequelizeProducts.ProductTable.GetProducts, PrismaUsers.UserTable.GetUsers and SequelizeUsers.UserTable.GetUsers is the model's choice. Their contents are what the store holds.
- PrismaOrders.Lines, PrismaOrders.Assemble and PrismaOrders.CreatedOrderShowsRequest keep an order's lines in request order, although the `include` of the lines names no order. The model fixes that order; the store promises none.
- The `Order` column default `'Pendente'` (`models/modelOrder.js:16`) is not modelled on its own. Both create paths set the status explicitly, so no row is ever written without one.
- The store failures behind the `routes/orders.js` catch blocks (lines 27-29, 67-69, 99-101 and 119-121) are not modelled, so neither is their 500 "Erro interno do servidor".
- 500 replies and their wording:
  - the `controller/products.js` update and delete 500s are modelled, with the wording of lines 86 and 104, "Erro interno do servidor" without a period (`SequelizeProducts.InternalError`);
  - the email-clash 500s of both user revisions are modelled, with the wording "Erro interno do servidor." (`Accounts.InternalError`);
  - the other catch blocks of `controller/products.js`, `controller/users.js` and `src/controller/users.js` use that same wording with a period, and the store failures behind them are not modelled;
  - the `initAdminUser` catch at `src/controller/users.js:25-26` passes the raw error to `next` with no message, and is not modelled (see the PrismaUsers.UserTable.InitAdminUser line).
- PrismaOrders.OrderStore.CreateOrder is modelled as one atomic nested create that connects each line to its product and fails as a whole on an unknown product. Whether Prisma accepts `connect` inside `createMany` is not modelled.
- PrismaOrders.OrderStore.GetOrders does not model a store failure: the catch-all `next(error)` arises only from a line whose product is gone.
- PrismaUsers.UserTable.InitAdminUser does not model a failing upsert, after which the source calls `next` twice. With emails unique the model's upsert cannot fail.
- Accounts.EmailsUnique, for the Prisma revision, is taken from the upsert's `where: { email }`, which requires a unique column. The user migration declares no such constraint, and the Prisma schema file is not part of this model.
- SequelizeUsers.UserTable.CreateUser, SequelizeUsers.FindOrCreate and SequelizeUsers.UserTable.InitAdminUser assign the new user the next integer id. In the source, `models/modelUser.js:5-10` declares `id` as a STRING primary key with `allowNull: false` and no default. Since neither `User.create({ email, password, role })` (`controller/users.js:58-62`) nor the `findOrCreate` defaults (`controller/users.js:18-21`) carries an id, Sequelize's not-null validation would refuse both inserts. The model instead follows `controller/__tests__/users.spec.js:152-170`, which expects the create to answer 201 with the new user.
- SequelizeUsers.UserTable.UpdateUser takes the caller's id as an input. In the source, `controller/users.js:74` reads `req.user.id` inside the `try`, and `middleware/auth.js` never sets `req.user`. As written, a caller who is not admin therefore gets a 500 from the catch, not the 403 or 404 the model gives.
- SequelizeProducts.ProductTable.UpdateProduct takes the caller's product id as an input. In the source `req.product` is never set by any middleware shown, and reading `req.product.id` would throw before the `try`.
- RouteOrders.OrderTable.CreateOrder does not model the 500 the catch-all returns when the store itself fails.
- RouteOrders.OrderTable.UpdateStatus does not model `order.changed('status')` beyond comparing with the loaded status.

## Findings

| source | as written | input that shows it | evidently intended | confidence | as-written member | corrected member |
|---|---|---|---|---|---|---|
| controller/products.js:58-60 | the 403 is signalled with `next` but not returned, so the update goes on | a non-admin caller updating another product: 403, then the product is rewritten and 200 follows | return after the 403, with no write | high, not executed | SequelizeProducts.RefusedUpdateStillWrites | SequelizeProducts.ProductTable.UpdateProductGuarded |
| controller/products.js:72-76 | the 404 is signalled but not returned; `product.name` on null then throws into a 500 | an update of an absent id: 404, then 500 | return after the 404 | high, not executed | SequelizeProducts.MissingUpdateSignalsTwice | SequelizeProducts.ProductTable.UpdateProductGuarded |
| controller/products.js:95-99 | the 404 is signalled but not returned; `product.destroy()` on null then throws into a 500 | a delete of an absent id on an empty table: 404, then 500 | return after the 404 | high, not executed | SequelizeProducts.MissingDeleteSignalsTwice | SequelizeProducts.ProductTable.DeleteProductGuarded |
| models/modelOrder.js:25-30 | the hook returns a stamped copy, and nothing uses a hook's return value, so `dateProcessed` is never set | a Pendente order put to Concluído: saved with dateProcessed null | stamp `dateProcessed` on the row being saved when the status becomes Concluído | medium, not executed | RouteOrders.ConcludedWithoutStamp | RouteOrders.OrderTable.UpdateStatusStamped |
