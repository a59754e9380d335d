# GreenEats products: a verified model of the product back end

GreenEats keeps its catalogue of fruit and vegetables in an Airtable
table and serves it through a small Express API. This project models the
three pieces of that back end that hold its logic, and proves what they
promise:

- **The validator** (`validarProduto`). It runs five independent checks
  (title, description, price, category, stock) over a loosely typed
  request body. It collects the Portuguese error messages in a fixed
  order and reports `valido` exactly when no check fired.
  - `ProdutoValidator.ValidarProduto` is the imperative method that grows
    the error list one `if` at a time.
  - It is proved equal to `Erros`, a declarative account of the same
    checks. `Erros` is the messages of the rules that fire, in rule order.
- **The field mapper** in the Airtable service.
  - `mapearProduto` reads a store record (capitalised columns) into an
    API product, defaulting missing or falsy values.
  - `montarCampos` builds the columns to write from the camelCase
    properties that are present.
  - On create, `criarProduto` stamps the current time when the client
    gave no date.
- **The request handlers.** They validate and answer 200/400/201. A lookup
  miss is answered 404. An update merges the body over the stored product
  and validates the merged whole before writing. A delete checks existence
  first.
  - The Airtable table is the class `AirtableService.Tabela`, which holds
    a map from record id to record.
  - The handlers that write are methods that modify it. Their contracts
    state the whole new table, including "nothing written" on every
    400/404/fault path.

JavaScript values are modelled in `JsValues` as the datatype `JsValue`:
`undefined`, `null`, booleans, numbers, strings and objects. The module
also defines:

- `Number(v)` as `ToNumber`, into NaN, a finite exact real, or ±Infinity.
  For strings this includes the ECMAScript numeric-literal grammar, with
  `trim`, signs, `Infinity`, fractions, exponents and `0x`/`0o`/`0b`.
- Truthiness, which decides `||` and `if (v)`.
- `String.prototype.trim`, with the ECMAScript whitespace set.

A property read of a missing key yields `Undefined`, as in JavaScript.

Three behaviours of the code are worth stating outright, and the model
has each of them:

- **Non-string titles.** A non-string title is treated as `''`
  (`src/validators/produtoValidator.js:5`), so it always fails the title
  check. It is not coerced to a string.
- **Client-writable dates.** `montarCampos` copies a present
  `dataCriacao` into `DataCriacao` (`src/services/airtableService.js:35`),
  so the date is client-writable. `criarProduto` always writes it, as the
  client's truthy value or else the current time
  (`src/services/airtableService.js:49-52`). An update writes back the
  merged product's date as well.
- **Store failures.** The handlers pass every fault that is not a 404
  lookup to `next(error)` (`src/controllers/produtosController.js:19-21`
  and the other `catch` blocks). In the model such a fault surfaces as
  `Err(fault)` and leaves the table unchanged.

## Model

| member | source | states |
|---|---|---|
| JsValues.TrimSpec | src/validators/produtoValidator.js:5 | `trim(s)` is the infix `s[i..j]` left after cutting a whitespace prefix `s[..i]` and a whitespace suffix `s[j..]`; it is `''` exactly for an all-whitespace string and otherwise starts and ends on non-whitespace |
| JsValues.ToNumberFacts | src/validators/produtoValidator.js:29 | `Number(undefined)` is NaN, while `Number(null)` and `Number` of any blank string are 0 |
| ProdutoValidator.ValidarProduto | src/validators/produtoValidator.js:3-37 | the returned `erros` is exactly the messages of the checks that fire, in the order title, description, price, category, stock, and `valido` holds iff `erros` is empty |
| ProdutoValidator.ErrosAsChecks | src/validators/produtoValidator.js:11-31 | the error list is the concatenation of the five independent checks, each contributing its message exactly when its own condition holds (no short-circuit) |
| ProdutoValidator.ErrorsInRuleOrder | src/validators/produtoValidator.js:11-31 | the i-th message is the message of the i-th fired rule, and the fired rules appear in strictly increasing rule order |
| ProdutoValidator.ErrorIffFires | src/validators/produtoValidator.js:11-31 | a rule's message is in the list iff that rule's condition holds on its field |
| ProdutoValidator.ValidIffNoRuleFires | src/validators/produtoValidator.js:33-36 | the product is valid iff no rule fires |
| ProdutoValidator.AtMostFiveErrors | src/validators/produtoValidator.js:19-23 | at most five messages, because the two price messages exclude each other |
| ProdutoValidator.TitleErrors | src/validators/produtoValidator.js:5-13 | no title error iff `titulo` is a string whose trimmed length is at least 5; any non-string title fails |
| ProdutoValidator.DescriptionErrors | src/validators/produtoValidator.js:15-17 | the description error fires iff the value is truthy and not a string (`true`, a non-zero non-NaN number, an object); absent, `''`, null, 0 and false never fire |
| ProdutoValidator.PriceErrors | src/validators/produtoValidator.js:7-23 | "número" iff `Number(preco)` is NaN; "maior que zero" iff it is a number ≤ 0; never both; neither iff it is positive; an absent price gives "número" |
| ProdutoValidator.CategoryErrors | src/validators/produtoValidator.js:25-27 | no category error iff the value is exactly the string Fruta, Legume or Verdura |
| ProdutoValidator.StockErrors | src/validators/produtoValidator.js:29-31 | no stock error iff stock is undefined or `Number(estoque)` is a number ≥ 0; null and blank strings pass |
| ProdutoValidator.ErrosDependOnlyOnFields | src/validators/produtoValidator.js:5-9 | the verdict depends only on the five validated properties |
| ProdutoValidator.EmptyCandidate | src/validators/produtoValidator.js:3-37 | `{}` gives exactly the title, price-"número" and category errors |
| ProdutoValidator.InvalidCandidate | src/validators/produtoValidator.js:11-27 | title "Ab", price -1 and category "Carne" give the title, price-"maior que zero" and category errors |
| ProdutoValidator.MinimalValidCandidate | src/validators/produtoValidator.js:33-36 | title "Maçã Fuji", price 3.5 and category "Fruta" alone are valid |
| AirtableService.MapearTextDefaults | src/services/airtableService.js:14-21 | title, description and category keep a truthy stored value and are `''` otherwise; a record without `fields` maps like one with empty fields |
| AirtableService.MapearPreco | src/services/airtableService.js:20 | the price is never NaN: 0 when `Number(Preco)` is NaN or 0, else `Number(Preco)` |
| AirtableService.MapearEstoque | src/services/airtableService.js:22 | `estoque` is undefined exactly when `Estoque` is undefined, else `Number(Estoque)` |
| AirtableService.MapearIdAndDate | src/services/airtableService.js:17-23 | the id is copied; `dataCriacao` is `DataCriacao` when truthy, else the record's `createdTime` |
| AirtableService.MontarCampos | src/services/airtableService.js:27-38 | the conditional assignments build exactly `Campos(dados)`: one column per defined property and no other key |
| AirtableService.CamposPresence | src/services/airtableService.js:30-35 | each column is present iff its property is not undefined; text values are copied unchanged, while `Preco` and `Estoque` are `Number` of the value |
| AirtableService.CamposIgnoresOtherKeys | src/services/airtableService.js:27-38 | any other property (for example `id`) is never copied and does not affect the fields; only the six columns can appear |
| AirtableService.ReadBack | src/services/airtableService.js:13-38 | fields built from an object and read back give the object's values with the read defaults applied |
| AirtableService.RoundTrip | src/services/airtableService.js:13-38 | mapping a record, building fields from the product and mapping again (same id and `createdTime`) gives the same product |
| AirtableService.CreateTimestamp | src/services/airtableService.js:49-52 | on create, `DataCriacao` is always written: the client's truthy `dataCriacao`, else the current time |
| AirtableService.BuscarTriState | src/services/airtableService.js:58-68 | a lookup gives "no product" exactly on a 404 (missing id, or a 404 fault), the mapped record on success (carrying the requested id whenever the table is well formed), and every other fault unchanged |
| AirtableService.ListarEveryRecordOnce | src/services/airtableService.js:40-46 | when the store returns every record's id exactly once, the list has as many products as the table has records, the i-th is the mapping of the i-th returned record, every record's product appears, and (in a well-formed table) no two share an id |
| AirtableService.Tabela.CriarProduto | src/services/airtableService.js:48-56 | a new record holding `Campos` of the body stamped with the date default is added under the new id, and its mapping is returned; on a fault the table is unchanged |
| AirtableService.Tabela.AtualizarProduto | src/services/airtableService.js:70-74 | the columns built from the data are merged over the record's fields (columns not written keep their values) and the mapped record is returned; an unknown id is a 404 fault and leaves the table unchanged |
| AirtableService.Tabela.DeletarProduto | src/services/airtableService.js:76-78 | exactly that id is removed; an unknown id is a 404 fault and removes nothing |
| ProdutosController.ValidarProdutoHandler | src/controllers/produtosController.js:4-8 | the body is the validator's result for `req.body` (an absent body counts as `{}`), with status 200 iff valid and 400 iff invalid |
| ProdutosController.CriarProdutoHandler | src/controllers/produtosController.js:10-22 | an invalid body gets 400 with the validator result and writes nothing; a valid one adds exactly one record and gets 201 with the created product; a store fault propagates with nothing written |
| ProdutosController.CreatedProductReflectsBody | src/controllers/produtosController.js:12-18 | the product created from a valid body has the body's title, price and category, its description or `''`, its stock iff given, and its date or else the current time |
| ProdutosController.CreatedFromBody | src/services/airtableService.js:48-56 | what any body becomes once created and read back, field by field |
| ProdutosController.ValidBodyIsTruthy | src/validators/produtoValidator.js:11-27 | a valid body has a truthy title and category and a positive price |
| ProdutosController.CreateScenario | src/controllers/produtosController.js:12-18 | the body `{titulo: "Maçã Fuji", preco: 3.5, categoria: "Fruta"}` is valid and creates exactly that product with an empty description, no stock and the current time |
| ProdutosController.ListarHandlerSpec | src/controllers/produtosController.js:24-31 | 200 with exactly one mapped product per record of the table, in the store's order; a store fault is passed on |
| ProdutosController.BuscarHandlerSpec | src/controllers/produtosController.js:33-46 | 404 with "Produto não encontrado." iff the lookup finds nothing, 200 with the record's product when it exists (with the requested id in a well-formed table), and any other fault propagated rather than turned into 404 |
| ProdutosController.NotFoundAfterDelete | src/controllers/produtosController.js:36-40 | once an id is gone from the table (as after a 204 delete), looking it up answers 404 |
| ProdutosController.AtualizarProdutoHandler | src/controllers/produtosController.js:48-69 | an unknown id gets 404 with no validation and no write; the merged product is validated whole, and 400 leaves the table unchanged; a valid merge replaces only that record's written columns and answers 200 with the mapped result; faults propagate with the table unchanged |
| ProdutosController.CombinarSpec | src/controllers/produtosController.js:57 | in the merge, each body key overrides the stored product, and every key the body omits keeps the product's value |
| ProdutosController.PatchPrecoOnly | src/controllers/produtosController.js:57-65 | patching only `preco` (to a positive value) changes only the price; every other field reads back unchanged |
| ProdutosController.EmptyPatchKeepsProduct | src/controllers/produtosController.js:57-65 | an update with an empty body writes the stored product back so that it reads back identical |
| ProdutosController.DeletarProdutoHandler | src/controllers/produtosController.js:71-85 | an unknown id gets 404 and removes nothing; an existing id is removed (exactly that id) and gets 204 with an empty body; faults propagate with nothing removed |

## Left out

- Logging (`src/logger.js`), the Express application and its error
  middleware (`src/app.js`), the server start-up (`src/index.js`) and the
  route table (`src/routes/produtosRoutes.js`) are not part of this model.
  They are output and wiring with no product logic. A fault that a
  handler passes on is the model's `Err(fault)`. The `statusCode || 500`
  answer that the middleware builds from it is not modelled.
- The Airtable client is not modelled: configuration, the environment
  checks and the network calls of `select`, `create`, `find`, `update`
  and `destroy`. Instead:
  - The table is a map from id to record.
  - Each call takes its possible failure as a parameter.
  - The store assigns the new record's id and `createdTime`; the model
    takes both as parameters and requires the id to be fresh.
  - The wall clock (`new Date().toISOString()`) is the parameter `agora`.
- AirtableService.Tabela.ListarProdutos: the descending sort by
  `DataCriacao` is performed by the store. The model takes the order in
  which the store returns ids as a parameter and does not prove
  sortedness. The list properties assume that this order names every
  record exactly once, which is what `select(...).all()` returns.
- ProdutosController.CreatedProductReflectsBody: the date clause is stated
  only for a non-empty current time. The ISO timestamp the code uses is
  never empty; an empty one would fall back to `createdTime`.
- Numbers are exact reals. IEEE-754 rounding, overflow to Infinity, `-0`
  and precision loss in `Number(string)` are not modelled.
- JSON's writing of NaN and ±Infinity as `null` on the way to the store
  is not modelled; the store keeps the number the model computed. The
  validator accepts an infinite price (`"Infinity"`, or a literal such as
  `1e400`) and an infinite stock, because Infinity is neither NaN nor
  ≤ 0 nor < 0. In the program such a value is sent as `null`, so the
  column is cleared. A product created or updated with an infinite price
  then reads back with price 0 (`Number(undefined) || 0`), and one with an
  infinite stock reads back with no stock. The model keeps Infinity in
  both places. The same holds for a stored NaN stock, which reads back as
  NaN in the model. This affects
  ProdutosController.CriarProdutoHandler,
  ProdutosController.AtualizarProdutoHandler,
  ProdutosController.CreatedProductReflectsBody and
  ProdutosController.PatchPrecoOnly. Each is exact for every finite price
  and stock.
- String lengths count Unicode scalar values, not the UTF-16 code units
  of JavaScript's `length`. A title with characters outside the Basic
  Multilingual Plane can therefore count differently.
- Objects are abstracted as always truthy and never strings, with a
  fixed `Number` value standing in for `valueOf`/`toString`. Request
  bodies that are not objects (a JSON array or scalar) are not modelled.
  `{}` stands for an absent body, as `req.body || {}` does.
- async scheduling is not modelled, including the read-then-write race
  between concurrent updates or deletes. Each handler runs atomically
  over the table.
