# Melo Engenharia procurement front-end: order pricing and request forms

This project models the three pieces of the procurement front-end that compute
something rather than relay it to the REST API:

- **The purchase-order ("pedido") editor** (`src/pages/Pedido.js`), module `Pedido`.
  An order holds a site (`obra`), a supplier (`fornecedor`), a note (`observacao`),
  an ordered list of lines, a freight value (`frete`) and a grand total (`totalGeral`).
  Each line holds `discriminacao`, `quantidade`, `unidade`, `precoUnitario` and `precoTotal`.
  The order is the class `PedidoForm`. Adding a line and editing a line are methods
  that recompute the grand total from scratch with the same left fold as the
  front-end (`ReduceTotals`). That fold is proved equal to the specification
  `GrandTotal(frete, items) = (frete or 0) + Σ (line total or 0)`, and every such
  method re-establishes `TotalsAgree()`. Choosing a description prices the line
  from the first catalog entry with exactly that description. When no entry
  matches, the unit price is reset to 0 and the unit to "". Changing the freight
  stores it and leaves the total stale. The list filters are cleaned by a loop
  that deletes the keys with empty values.
- **Turning a purchase request ("solicitação") into an order**
  (`src/pages/SolicitacoesAdmin.js`), module `SolicitacoesAdmin`. This is a pure
  record transformation. It builds one order line per request line, in order. Its
  `totalGeral` fold is proved equal to the sum of the built lines' totals. That
  total leaves the freight out, and `CriarPedidoOmitsFrete` shows that it agrees
  with the editor's grand total exactly when the freight is zero.
- **The purchase-request form** (`src/pages/Solicitacoes.js`), module `Solicitacoes`.
  It keeps a list of `{itemId, quantidade}` lines that can be appended, removed by
  index and edited field by field. The save handler first rejects a missing site,
  then an empty list or a line without an item, and reduces an accepted request to
  the payload `{itens: [{itemId, quantidade}], obra}`.

Numbers are `real`. A numeric form field is `Num = Option<real>`: `None` is a
missing or empty value, and `OrZero` is the front-end's `value || 0` fallback.
Shared values are in module `Records`.

In four places the code does something a reader might not expect, and the model
follows the code:
- an unknown description resets unit price and unit instead of keeping them;
- the order editor has no "remove line" operation;
- changing the freight does not recompute the grand total;
- a request converted by the administrator screen gets a total without freight.

An edited request whose stored `itens` is an empty list keeps the empty list. The
default line is used only when the list is missing, because the code's fallback
treats an empty array as present.

## Model

| member | source | states |
|---|---|---|
| `Pedido.ReduceTotalsIsSum` | src/pages/Pedido.js:190-194 | the `reduce` left fold of stored line totals (missing as 0) from a start value equals that start plus the reference sum of the line totals |
| `Pedido.SumTotalsAppend` | src/pages/Pedido.js:159-163 | appending a line adds exactly its stored total (missing as 0) to the sum |
| `Pedido.SumTotalsUpdate` | src/pages/Pedido.js:169-170 | replacing line i changes the sum by the new line's total minus the old one's, so a full recompute equals an incremental update |
| `Pedido.FindByDiscriminacao` | src/pages/Pedido.js:173-175 | `find` by exact description: a result is an index whose entry matches and no earlier entry matches; no result means no entry matches |
| `Pedido.EditItem` | src/pages/Pedido.js:168-188 | the edited field takes the value and the others keep theirs; a description takes price and unit from its first exact catalog match, or resets them to 0 and "" when none matches; after a quantity, price or description edit the line total is quantity × price (missing as 0); a unit edit keeps the stored total; a consistent line stays consistent |
| `Pedido.PedidoForm.constructor` | src/pages/Pedido.js:85-95 | a new order has empty site, supplier and note, no lines, freight 0 and total 0, so the totals invariant holds from the start |
| `Pedido.PedidoForm.AddItem` | src/pages/Pedido.js:149-165 | appends exactly the line {"", 1, "", 0, 0} at the end; header fields and freight unchanged; the total becomes freight plus the line totals, and it equals the old total when the invariant held before |
| `Pedido.PedidoForm.ItemChange` | src/pages/Pedido.js:168-196 | only line `index` changes, as `EditItem` says; header fields and freight unchanged; the total is recomputed as freight plus all stored line totals, untouched lines counting their stored totals |
| `Pedido.PedidoForm.SelectItem` | src/pages/Pedido.js:476-491 | the description selector, a description edit followed by a unit edit, leaves the line as the description edit priced it, the other lines unchanged and both totals consistent |
| `Pedido.PedidoForm.SetFrete` | src/pages/Pedido.js:541-549 | stores the freight and keeps the old total; a consistent order stays consistent exactly when the freight's value is unchanged |
| `Pedido.RemoveEmptyFilters` | src/pages/Pedido.js:39-45 | the query parameters hold exactly the filter keys with non-empty values, each with its value unchanged |
| `SolicitacoesAdmin.ToLine` | src/pages/SolicitacoesAdmin.js:33-43 | quantity is the request quantity or 0, unit price the catalog price or 0, and the line total is their product; description and unit are the catalog item's when non-empty, otherwise "Desconhecido" and "N/A" |
| `SolicitacoesAdmin.BuildLines` | src/pages/SolicitacoesAdmin.js:33 | one order line per request line, in the same order |
| `SolicitacoesAdmin.ReduceRequestIsLineSum` | src/pages/SolicitacoesAdmin.js:47-54 | the `totalGeral` fold, which recomputes quantity × price, equals its start plus the sum of the built lines' stored totals |
| `SolicitacoesAdmin.SupplierRef` | src/pages/SolicitacoesAdmin.js:44 | the supplier is the populated document's id when it has one, else the raw value when it is truthy, else null |
| `SolicitacoesAdmin.CriarPedido` | src/pages/SolicitacoesAdmin.js:31-55 | the built order has the site's id, one line per request line in order, the supplier reference, the note or "", the freight or 0, and a total equal to the sum of its line totals, with no freight |
| `SolicitacoesAdmin.CriarPedidoOmitsFrete` | src/pages/SolicitacoesAdmin.js:46-54 | the built total equals freight plus line totals exactly when the freight is 0 |
| `Solicitacoes.EditFormItem` | src/pages/Solicitacoes.js:132-135 | the edited field takes the value; the other field and any other stored fields are unchanged |
| `Solicitacoes.Without` | src/pages/Solicitacoes.js:128-130 | `filter` by index drops exactly the element at the index and keeps the rest in order; an out-of-range index leaves the list unchanged |
| `Solicitacoes.HasMissingId` | src/pages/Solicitacoes.js:82 | `some` item has an empty `itemId` exactly when such an index exists |
| `Solicitacoes.ToPayloadItems` | src/pages/Solicitacoes.js:88-91 | the payload lines are the form lines, same length and order, each reduced to its `itemId` and `quantidade` |
| `Solicitacoes.SaveSolicitacao` | src/pages/Solicitacoes.js:74-93 | a missing site is rejected with "Selecione uma obra." before any item check; an empty list or a line without an item is rejected next; otherwise, and only otherwise, the payload holds the site and the reduced lines in order |
| `Solicitacoes.SolicitacaoForm.constructor` | src/pages/Solicitacoes.js:14-17 | the form starts with the single line {itemId: "", quantidade: 1}, no site and no request being edited |
| `Solicitacoes.SolicitacaoForm.NewSolicitacao` | src/pages/Solicitacoes.js:65-72 | resets to the single default line and no site, and such a form is rejected with "Selecione uma obra." |
| `Solicitacoes.SolicitacaoForm.LoadForEdit` | src/pages/Solicitacoes.js:186-190 | loads the stored lines, or the single default line when the request has no line list, and the site id or "" |
| `Solicitacoes.SolicitacaoForm.SetObra` | src/pages/Solicitacoes.js:212-214 | the site selector sets the site and nothing else |
| `Solicitacoes.SolicitacaoForm.AddItem` | src/pages/Solicitacoes.js:124-126 | appends {itemId: "", quantidade: 1} at the end; existing lines unchanged |
| `Solicitacoes.SolicitacaoForm.RemoveItem` | src/pages/Solicitacoes.js:128-130 | the new list is the old one without the element at the index, as `Without` states |
| `Solicitacoes.SolicitacaoForm.ItemChange` | src/pages/Solicitacoes.js:132-135 | only line `index` changes, as `EditFormItem` says; all other lines are unchanged |
| `Solicitacoes.RemoveAfterAdd` | src/pages/Solicitacoes.js:124-130 | removing the line just added gives back the original list |

## Left out

- All calls to the REST API (`src/services/api.js`): listing, saving, deleting and duplicating orders and requests, fetching the catalog, sites and suppliers. The catalog is a parameter of the edits that read it. Success and error messages, `alert` and console output are left out too.
- The choice between creating and updating on save, by the presence of an id, is only a choice of HTTP call.
- The PDF export of an order: it is page rendering, image loading and two-decimal float formatting.
- JSX rendering and React hook mechanics. Each handler is one state transition. The description selector's two `handleItemChange` calls are two sequential transitions (`SelectItem`). The model does not capture the stale closure and the shared line objects mutated in place that the code relies on.
- Line objects shared with the listed order or request: both pages' item edits mutate a line object in place, and that object is also held by the listed record, so an edit that is then cancelled stays in the list (for an order, with the old `totalGeral`). The model edits a copy, and this sharing is not modelled.
- Number parsing: `Num` has no NaN. A non-empty, non-numeric quantity or price, which yields NaN in the front-end, is not modelled. Floating-point rounding is not modelled either; numbers are exact reals.
- Pedido.PedidoForm.ItemChange: models only the four fields the form edits (`discriminacao`, `quantidade`, `unidade`, `precoUnitario`), not an arbitrary field name.
- The order's `obra` and `fornecedor` are ids (strings). A loaded order whose site or supplier is a populated document is not modelled, and neither are the selectors that set these two fields or the note.
- Pedido.PedidoForm.ItemChange and Solicitacoes.SolicitacaoForm.ItemChange require an index inside the list. The front-end throws on any other index, and its controls only pass indices of rendered lines.
- SolicitacoesAdmin.CriarPedido: a populated site or item is assumed to carry its fields. A request whose line `itemId` is an unpopulated id string reads like `None`, as in the code.
- The CRUD pages for suppliers, users, catalog items, sites and engineers, the login page, route guards, sidebar, header and welcome page. They only wire form fields to REST calls.
