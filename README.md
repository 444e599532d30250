# compras-front in Dafny

A verified model of the client-side logic of **compras-front**. It is the web front end of a
small grocery shop ("Compras Angostura"): customers browse products, fill a cart and place orders
inside the shop's opening hours or as advance orders ("encargos"). Administrators manage products,
categories, users, orders, delivery locations and opening hours.

The model covers:

- the two state stores: the shopping cart (`Cart`, src/store/cart.ts) and the session
  (`Auth`, src/store/auth.ts);
- the HTTP interceptors (`Api`, src/lib/api.ts) and the route guard (`AuthProvider`);
- the barcode keyboard-wedge field (`BarcodeInput`);
- the decision logic of every page: home, cart/checkout, login, user profile, and the admin
  screens for products, orders, hours, categories, users and locations.

Each page is a `class` whose fields are the page's React state. Its handlers are methods that
`modify` those fields. The pure computations behind them (filtering, sorting, validation,
opening-hours evaluation, request building) are functions. Lemmas prove what the pages promise:

- cart operations keep product ids unique and quantities positive, and move totals by exactly the
  line added or removed;
- an order is never sent without a user, items, a location, or a date when one is required, and a
  date must be at least one hour ahead;
- the shop is "open" exactly when the minute lies in the first active entry's inclusive window;
- the admin product list is a sorted permutation of the filtered products;
- the remaining-time label decomposes the difference exactly into days, hours and minutes;
- the session token in state and in browser storage stay in step.

Modules:

- `Wrappers`: `Option`.
- `Text`: ASCII `toLowerCase`, `includes`, `trim`, `indexOf`, decimal digits, lexicographic
  comparison.
- `Seqs`: order-preserving `filter`.
- `Types`: the entities of src/types/index.ts.
- `Schedule`: weekday numbering, the active-entry lookup and the `HH:MM` window shared by the
  home and cart pages.
- One module per page, component or store.

Network calls, the clock, and browser storage reads become parameters. A response is an
`Option` (`None` = the request failed) or a `bool` success flag. The current time is a
millisecond timestamp, a weekday index and a minute of the day. Each handler that talks to the
server returns the request it sends, so contracts can say what is sent.

Where the code departs from its documented behaviour, the model follows the code:

- The response interceptor of src/lib/api.ts only shows a toast and rejects. It does not clear
  the session token on a 401.
- On the cart page, the form schema (`ubicacionEnvio` of length at least 1) runs before
  `onSubmitPedido`. A form without a location is therefore rejected before the "no user" and
  "empty cart" checks. `Checkout.CarritoPage.Submit` models this gate.

Behaviours of the code the proofs make visible:

- `checkAuth` treats a stored empty token as absent but leaves it in storage. The invariant
  `Auth.AuthStore.Synced` is stated accordingly.
- On checkout, the out-of-hours check tests `!data.fechaEncargo`, while the stock check trims the
  date first. A date of only blanks therefore passes the first and fails the second
  (`Checkout.BlankDateAsymmetry`).
- A date text that does not parse is never rejected by the one-hour check, because comparing an
  `Invalid Date` is always false (`Checkout.AceptadoIff`, with `fechaMs` None).
- The barcode field's 100 ms reset never fires. Each appended key changes `buffer`, a dependency
  of the effect, so the re-render runs the effect's cleanup, which cancels the timer the handler
  has just armed. A code typed slowly by hand is therefore kept, pause after pause, until Enter
  (`BarcodeInput.BarcodeField.HandleKeyPress`, `BarcodeInput.BarcodeField.Timeout`,
  `BarcodeInput.BufferPendiente`).

## Model

| member | source | states |
|---|---|---|
| Cart.Find | src/store/cart.ts:22 | `items.find` by product id: None exactly when no line has the id, otherwise the first such line |
| Cart.Bumped | src/store/cart.ts:26-30 | the `map` that adds the amount to the product's line and keeps every other line; characterised by `Cart.BumpedShape` and `Cart.BumpedTotals` |
| Cart.Added | src/store/cart.ts:20-35 | the items `addItem` leaves: the bumped cart when the product is present, otherwise one line appended; characterised by `Cart.AddExistingIncrements`, `Cart.AddNewAppends` and `Cart.AddTwiceAddsSum` |
| Cart.Removed | src/store/cart.ts:37-39 | the items `removeItem` leaves: the lines of other products, in order; characterised by `Cart.RemoveProperties` and `Cart.RemovedAt` |
| Cart.WithQuantity | src/store/cart.ts:41-51 | the items `updateQuantity` leaves: a removal when the quantity is 0 or less, otherwise the product's lines set to it; characterised by `Cart.SetQuantityOverwrites` |
| Cart.Total | src/store/cart.ts:55-60 | `getTotal`, the sum of price times quantity; characterised by `Cart.TotalAppend` and `Cart.SplitTotals` |
| Cart.ItemCount | src/store/cart.ts:62-64 | `getItemCount`, the sum of the quantities; characterised by `Cart.ItemCountAppend` and `Cart.ItemCountAtLeastLength` |
| Cart.CartStore.constructor | src/store/cart.ts:18 | the cart starts empty |
| Cart.CartStore.AddItem | src/store/cart.ts:20-35 | the new items are `Added(old items, producto, cantidad)` (bump the existing line, else append) |
| Cart.CartStore.RemoveItem | src/store/cart.ts:37-39 | the new items are the old ones without any line of that product, order kept |
| Cart.CartStore.UpdateQuantity | src/store/cart.ts:41-51 | a quantity <= 0 removes the product; otherwise every line of the product gets the new quantity |
| Cart.CartStore.ClearCart | src/store/cart.ts:53 | the cart becomes empty, with total and item count 0 |
| Cart.AddExistingIncrements | src/store/cart.ts:24-31 | adding a product already present keeps the length, adds the quantity to its line and leaves every other line unchanged |
| Cart.AddNewAppends | src/store/cart.ts:32-34 | adding an absent product appends exactly one line `{producto, cantidad}` after the old lines |
| Cart.AddTwiceMerges | src/store/cart.ts:20-35 | adding the same new product twice yields one line with the summed quantity |
| Cart.AddTwiceAddsSum | src/store/cart.ts:20-35 | for a product already in the cart or not, adding a and then b units gives the same cart as adding a + b at once |
| Cart.AddPreservesUnique | src/store/cart.ts:20-35 | adding keeps product ids unique |
| Cart.AddPreservesPositive | src/store/cart.ts:20-35 | adding a positive quantity keeps every quantity positive |
| Cart.RemoveProperties | src/store/cart.ts:37-39 | after removal the id is absent, the result is a subsequence of the old items, every other line survives, and removing an absent id changes nothing |
| Cart.FilterPreservesUnique | src/store/cart.ts:38 | filtering keeps product ids unique |
| Cart.RemovePreservesUnique | src/store/cart.ts:37-39 | removal keeps product ids unique |
| Cart.RemovePreservesPositive | src/store/cart.ts:37-39 | removal keeps quantities positive |
| Cart.SetQuantityOverwrites | src/store/cart.ts:44-49 | a positive update keeps the length, sets the product's lines to the quantity and leaves the others unchanged |
| Cart.SetQuantityPreservesUnique | src/store/cart.ts:41-51 | updating keeps product ids unique |
| Cart.SetQuantityPreservesPositive | src/store/cart.ts:41-51 | updating keeps quantities positive (zero or less removes) |
| Cart.TotalAppend | src/store/cart.ts:55-60 | `getTotal` is 0 on an empty cart and additive over concatenation |
| Cart.ItemCountAppend | src/store/cart.ts:62-64 | `getItemCount` is 0 on an empty cart and additive over concatenation |
| Cart.ItemCountAtLeastLength | src/store/cart.ts:62-64 | with positive quantities the item count is at least the number of lines |
| Cart.SplitTotals | src/store/cart.ts:55-64 | total and count split around any line |
| Cart.LineTotalBump | src/store/cart.ts:57 | raising a line's quantity by d raises its subtotal by price * d |
| Cart.BumpedShape | src/store/cart.ts:26-30 | bumping the single line of a product changes that line's quantity by d and leaves every other line and the length unchanged |
| Cart.ChangedAtTotals | src/store/cart.ts:55-64 | changing one line's quantity by d moves the count by d and the total by that line's price times d |
| Cart.BumpedTotals | src/store/cart.ts:26-30 | bumping the single line of a product moves the count by d and the total by price * d |
| Cart.AddedTotalsExisting | src/store/cart.ts:24-31 | adding to an existing line moves the count by the quantity and the total by that line's price times it |
| Cart.AddedTotalsNew | src/store/cart.ts:32-34 | adding a new product moves the count by the quantity and the total by its price times it |
| Cart.AddedTotals | src/store/cart.ts:20-35 | with unique ids, adding always raises the count by the quantity, and the total by the matching price |
| Cart.RemovedAt | src/store/cart.ts:37-39 | with unique ids, removing a line's product deletes exactly that line |
| Cart.RemovedTotals | src/store/cart.ts:37-39 | removing a line lowers the count by its quantity and the total by its subtotal |
| Cart.ClearedTotals | src/store/cart.ts:53-64 | an emptied cart has total 0 and item count 0 |
| Checkout.CantidadAceptadaCases | src/app/carrito/page.tsx:116-133 | a quantity change is accepted iff the product is in the cart, the quantity is positive, and it is within stock when stock > 0 or the product allows advance orders when stock is 0 or less |
| Checkout.TieneProductosSinStock | src/app/carrito/page.tsx:45 | some line is an advance order: stock 0 and advance orders allowed; used by `Checkout.AceptadoIff` |
| Checkout.CantidadAceptada | src/app/carrito/page.tsx:116-133 | the quantity check of `handleUpdateQuantity`; characterised by `Checkout.CantidadAceptadaCases` |
| Checkout.AcceptedUpdateRespectsStock | src/app/carrito/page.tsx:116-133 | after an accepted change the line holds the new quantity (>= 1), which never exceeds positive stock; with no stock it is an advance order |
| Checkout.BuscarUbicacion | src/app/carrito/page.tsx:229 | the first location whose name is the selection; None iff no location has that name |
| Checkout.CostoEnvio | src/app/carrito/page.tsx:229-230 | the selected location's cost, or 0 when none matches; characterised by `Checkout.TotalPedidoIs` |
| Checkout.TotalPedido | src/app/carrito/page.tsx:228-231 | the cart total plus the shipping cost; characterised by `Checkout.TotalPedidoIs` |
| Checkout.TotalPedidoIs | src/app/carrito/page.tsx:228-231 | the order total is the cart total plus the cost of the first location with the selected name, or the cart total when none matches |
| Checkout.AlwaysRejected | src/app/carrito/page.tsx:141-183 | no user, an empty cart, a missing location, or a blank date with out-of-stock items always reject |
| Checkout.Validar | src/app/carrito/page.tsx:141-196 | the guards of `onSubmitPedido`, in the code's order, returning the first rejection; characterised by `Checkout.AlwaysRejected`, `Checkout.AceptadoIff` and `Checkout.OneHourRule` |
| Checkout.AceptadoIff | src/app/carrito/page.tsx:141-196 | an order passes every check iff: user, non-empty cart, a date when out of hours, a location, a non-blank date for backorders, and a parsable date at least 1 h ahead |
| Checkout.BlankDateAsymmetry | src/app/carrito/page.tsx:152-183 | an all-blank date passes the out-of-hours check but counts as empty for the stock check |
| Checkout.OneHourRule | src/app/carrito/page.tsx:185-196 | a valid date earlier than now + 1 h is rejected, one at least 1 h ahead is accepted (the boundary included) |
| Checkout.ItemsPedido | src/app/carrito/page.tsx:205-208 | the order items mirror the cart lines one to one: same product id, same quantity |
| Checkout.RequestPedido | src/app/carrito/page.tsx:205-216 | the body posted to /pedidos: the order items, the location, the date and notes only when non-empty, and the shipping cost; `Checkout.CarritoPage.OnSubmitPedido` states it is sent exactly when the order is accepted |
| Checkout.CarritoPage.constructor | src/app/carrito/page.tsx:34-42 | initial page state: in hours, no schedule, no location, no errors, not loading |
| Checkout.CarritoPage.VerificarHorario | src/app/carrito/page.tsx:87-114 | today's entry is the first active one for today's weekday; the in-hours flag is `Schedule.DentroDeHorario` |
| Checkout.CarritoPage.CargarHorarios | src/app/carrito/page.tsx:64-75 | a failed fetch changes nothing; a successful one stores the schedule and evaluates it |
| Checkout.CarritoPage.HandleUpdateQuantity | src/app/carrito/page.tsx:116-133 | the cart becomes `WithQuantity` exactly when the change is accepted, otherwise it is unchanged |
| Checkout.SchemaValido | src/app/carrito/page.tsx:22-26 | the checkout schema's one binding rule, a shipping location of at least one character; characterised by `Checkout.CarritoPage.Submit`, under which a form failing it changes nothing and one passing it reaches `onSubmitPedido` |
| Checkout.MensajeFecha | src/app/carrito/page.tsx:152-192 | the date field's message for each rejection: the out-of-hours, backorder-without-date and less-than-an-hour texts, and none for the other rejections; characterised by `Checkout.CarritoPage.OnSubmitPedido`, which leaves exactly this message (or the old one) in the field |
| Checkout.CarritoPage.OnSubmitPedido | src/app/carrito/page.tsx:140-226 | a rejected order sets the matching error, sends nothing and leaves the cart and the loading flag as they were; an accepted one clears both errors and sends the request; a successful send empties the cart and a failed one keeps it |
| Checkout.CarritoPage.Submit | src/app/carrito/page.tsx:22-226 | `form.handleSubmit(onSubmitPedido)` (the form at line 440): a form that fails the schema changes nothing; a valid one gets exactly `onSubmitPedido`'s outcome, i.e. the first failing check's rejection with its error and the cart and loading flag untouched, or, when every check passes, the request sent, with the cart emptied on success and kept on failure |
| Schedule.DiaDeIndiceBijective | src/app/carrito/page.tsx:77-85 | `getDay()` 0 is Sunday and 6 is Saturday, and the map is a bijection onto the weekdays |
| Schedule.DiaDeIndice | src/app/carrito/page.tsx:77-85 | the weekday table indexed by `getDay()`; characterised by `Schedule.DiaDeIndiceBijective` |
| Schedule.HorarioDelDia | src/app/carrito/page.tsx:92 | the first entry for the day that is active; None iff none is |
| Schedule.HorarioDelDiaIsActive | src/app/carrito/page.tsx:92 | the entry found is for that day and active |
| Schedule.Pad2Number | src/app/carrito/page.tsx:107-108 | a two-digit field reads back as its number |
| Schedule.NumberOf | src/app/carrito/page.tsx:107-108 | `Number` on one side of the colon: blank reads 0, digits read as their value, anything else NaN; see `Schedule.Pad2Number` |
| Schedule.ParseHora | src/app/carrito/page.tsx:107-110 | `split(':').map(Number)` and `h * 60 + m`, None for NaN; characterised by `Schedule.ParseFormatHora` |
| Schedule.ParseFormatHora | src/app/carrito/page.tsx:107-110 | `HH:MM` text reads back as h * 60 + m minutes |
| Schedule.OpenIffInWindow | src/app/carrito/page.tsx:107-112 | with an open entry whose times parse, the shop is open iff opening <= now <= closing |
| Schedule.EnVentana | src/app/carrito/page.tsx:111 | both bounds inclusive, false when a time is NaN; characterised by `Schedule.OpenIffInWindow` |
| Schedule.Evaluar | src/app/carrito/page.tsx:94-112 | no entry, closed all day, open or outside the window; characterised by `Schedule.OpenIffInWindow`, `Schedule.NotOpenCases` and `Schedule.FirstActiveDecides` |
| Schedule.DentroDeHorario | src/app/carrito/page.tsx:111-112 | the flag set by `verificarHorario`: open exactly in state Abierto; characterised by `Schedule.OpenIffInWindow` and `Schedule.NotOpenCases` |
| Schedule.NotOpenCases | src/app/carrito/page.tsx:94-112 | no active entry, a closed day, an unparsable time, or closing before opening each mean "not open" |
| Schedule.FirstActiveDecides | src/app/carrito/page.tsx:92-112 | the first active entry for the day alone decides the state; later entries are ignored |
| Schedule.FormattedWindowEdges | src/app/carrito/page.tsx:102-112 | a day saved as `HH:MM` times (e.g. 09:00-18:00) is open at its closing minute, outside the window one minute later, and "closed all day" when marked closed |
| Home.Listado | src/app/page.tsx:95-112 | a product is listed iff it is active and (in stock or orderable), matches the term in name or brand, and is in the selected category |
| Home.Visible | src/app/page.tsx:97 | active, and in stock or open to advance orders; used by `Home.Listado` |
| Home.Busca | src/app/page.tsx:99-105 | the lowered name or brand contains the lowered term; used by `Home.Listado` and `Home.CategoryNameNotSearched` |
| Home.Visibles | src/app/page.tsx:97 | the first filter: the visible products in catalogue order; used by `Home.Listado` |
| Home.PorBusqueda | src/app/page.tsx:99-105 | the search filter, applied only for a non-empty term; used by `Home.Listado` |
| Home.PorCategoria | src/app/page.tsx:107-109 | the category filter, applied unless 'all'; used by `Home.Listado` |
| Home.ListadoIsSubsequence | src/app/page.tsx:95-112 | the listing keeps the catalogue order (it is a subsequence) |
| Home.NoFilterListsAllVisible | src/app/page.tsx:97-109 | with no term and category "all", exactly the visible products are listed |
| Home.CategoryNameNotSearched | src/app/page.tsx:99-105 | a product matching the term in neither name nor brand is not listed |
| Home.ListedProductsCanBeAdded | src/app/page.tsx:320 | no listed product has its "add" button disabled |
| Home.BadgeIffNonEmpty | src/app/page.tsx:189 | with positive quantities, the cart badge shows iff the cart has lines |
| Home.HomePage.constructor | src/app/page.tsx:21-28 | initial state: no products, empty term, category "all", in hours |
| Home.HomePage.FilterProductos | src/app/page.tsx:95-112 | the filtered list becomes `Listado` of the current state |
| Home.HomePage.HandleAddToCart | src/app/page.tsx:114-117 | the cart becomes `Added(old items, producto, 1)` |
| Home.HomePage.CargarHorario | src/app/page.tsx:64-93 | a failed fetch changes nothing; otherwise today's entry and the in-hours flag follow `Schedule` |
| AdminProductos.Filtrados | src/app/admin/productos/page.tsx:143-151 | a product is kept iff it is listed and matches the term in name, brand or category name, and the category filter |
| AdminProductos.CoincideBusqueda | src/app/admin/productos/page.tsx:144-147 | the lowered name, brand or category name contains the lowered term; used by `AdminProductos.Filtrados` |
| AdminProductos.EmptyTermMatchesAll | src/app/admin/productos/page.tsx:143-151 | an empty term with "all" keeps the whole list unchanged |
| AdminProductos.CompararDescInvierte | src/app/admin/productos/page.tsx:152-169 | 'desc' orders two products exactly as 'asc' orders them swapped, and 'asc' puts `a` first (or ties) iff its name is not after `b`'s, or its price, stock or profit is not larger |
| AdminProductos.Comparar | src/app/admin/productos/page.tsx:152-169 | the sort comparator of the product table; characterised by `AdminProductos.CompararDescInvierte`, `AdminProductos.CompararTotal` and `AdminProductos.CompararTrans` |
| AdminProductos.CompararTotal | src/app/admin/productos/page.tsx:152-169 | the comparator is total: of any two products, one sorts no later |
| AdminProductos.CompararTrans | src/app/admin/productos/page.tsx:152-169 | the comparator is transitive |
| AdminProductos.Insertar | src/app/admin/productos/page.tsx:152 | insertion adds exactly one copy of the product |
| AdminProductos.Ordenar | src/app/admin/productos/page.tsx:152 | sorting is a permutation |
| AdminProductos.OrdenadoCons | src/app/admin/productos/page.tsx:152-169 | prefixing a product that sorts before all others keeps the list sorted |
| AdminProductos.InsertarOrdenado | src/app/admin/productos/page.tsx:152-169 | inserting into a sorted list keeps it sorted |
| AdminProductos.OrdenarOrdenado | src/app/admin/productos/page.tsx:152-169 | the sorted list is ordered under the comparator |
| AdminProductos.Ordenado | src/app/admin/productos/page.tsx:152-169 | no pair out of order under the comparator; `AdminProductos.OrdenadoPorClave` states what that means per field |
| AdminProductos.OrdenadoPorClave | src/app/admin/productos/page.tsx:155-165 | in a sorted list, names, prices, stock or margin are non-decreasing (asc) or non-increasing (desc) |
| AdminProductos.VistaProperties | src/app/admin/productos/page.tsx:143-169 | the displayed list is a sorted permutation of the filtered products, with the same members |
| AdminProductos.Vista | src/app/admin/productos/page.tsx:143-169 | the filtered products, sorted; characterised by `AdminProductos.VistaProperties` |
| AdminProductos.Toggled | src/app/admin/productos/page.tsx:171-178 | the sort field becomes the clicked one |
| AdminProductos.ToggledProperties | src/app/admin/productos/page.tsx:171-178 | re-clicking flips the direction, a new field starts ascending, and two clicks on the same field restore the order |
| AdminProductos.ToggleActivo | src/app/admin/productos/page.tsx:315-323 | the patch is for that id and flips `activo` |
| AdminProductos.ToggleActivoTwice | src/app/admin/productos/page.tsx:315-323 | toggling twice restores the flag |
| AdminProductos.ProductosPage.constructor | src/app/admin/productos/page.tsx:54-67 | initial state: sort by name ascending, scanner in create mode, no selection |
| AdminProductos.ProductosPage.ToggleSort | src/app/admin/productos/page.tsx:171-178 | the new sort order is `Toggled(old order, field)` |
| AdminProductos.ProductosPage.HandleBarcodeScanned | src/app/admin/productos/page.tsx:105-113 | in create or edit mode the barcode fills the form; in stock mode it triggers a lookup and the form is untouched |
| AdminProductos.ProductosPage.OnAgregarStock | src/app/admin/productos/page.tsx:269-289 | with no selection nothing is sent; otherwise the patch holds the old stock plus the amount (NaN when the amount is not a number), and the dialog closes only on success |
| AdminPedidos.YaPasoIff | src/app/admin/pedidos/page.tsx:116-136 | "already passed" iff the difference is negative; zero shows 0 minutes |
| AdminPedidos.GetTiempoRestante | src/app/admin/pedidos/page.tsx:116-136 | the countdown text's four forms; characterised by `AdminPedidos.YaPasoIff`, `AdminPedidos.TiempoRestanteBreakdown` and `AdminPedidos.TwentyFourHoursBoundary` |
| AdminPedidos.TiempoRestanteBreakdown | src/app/admin/pedidos/page.tsx:121-135 | the days/hours/minutes shown are the exact floor decomposition of the difference, in the branch the hour count selects |
| AdminPedidos.TwentyFourHoursBoundary | src/app/admin/pedidos/page.tsx:128-134 | exactly 24 h still shows hours and minutes; 25 h shows 1 d 1 h; under an hour shows minutes |
| AdminPedidos.AccionesExclusivas | src/app/admin/pedidos/page.tsx:218-240 | "take" and "on the way" are never offered together, and neither is offered in the other states |
| AdminPedidos.MuestraTomar | src/app/admin/pedidos/page.tsx:218 | the take button shows for pending orders; see `AdminPedidos.AccionesExclusivas` |
| AdminPedidos.MuestraEnCamino | src/app/admin/pedidos/page.tsx:229 | the on-the-way button shows for orders in preparation; see `AdminPedidos.AccionesExclusivas` |
| AdminPedidos.SolicitudTomar | src/app/admin/pedidos/page.tsx:74-84 | a take request is sent iff there is a user with a non-empty id, and it names the order |
| AdminPedidos.IdCorto | src/app/admin/pedidos/page.tsx:184 | the short id is the first min(8, length) characters of the id |
| AdminHorarios.DiasSemanaOrder | src/app/admin/horarios/page.tsx:29-37 | the table lists the seven weekdays once each, Monday first and Sunday last |
| AdminHorarios.FormPorDefectoTexts | src/app/admin/horarios/page.tsx:98-104 | the default form is 09:00-18:00, open |
| AdminHorarios.FormDeHorasWindow | src/app/admin/horarios/page.tsx:98-104 | a form filled from hours and minutes reads back as those minutes of the day, so the 09:00-18:00 default opens from minute 540 to 1080 |
| AdminHorarios.Solicitud | src/app/admin/horarios/page.tsx:108-141 | save updates the first active entry for the day when there is one, otherwise creates one for that day; either way it carries the form |
| AdminHorarios.InactiveNeverUpdated | src/app/admin/horarios/page.tsx:86-88 | an inactive entry is never the one updated |
| AdminHorarios.HorariosPage.constructor | src/app/admin/horarios/page.tsx:52-59 | initial state: no schedule, no day in edit, empty form |
| AdminHorarios.HorariosPage.AbrirEdicion | src/app/admin/horarios/page.tsx:90-106 | the form is loaded from the day's active entry or set to the default, and the day is in edit |
| AdminHorarios.HorariosPage.GuardarHorario | src/app/admin/horarios/page.tsx:108-149 | with no day in edit nothing is sent; otherwise the request is `Solicitud`, and the edit closes only on success |
| BarcodeInput.KeyStep | src/components/BarcodeInput.tsx:39-62 | the handler alone: Enter with a non-empty buffer emits the buffer and clears it; any other one-character key is appended and arms the reset timer; other keys change nothing |
| BarcodeInput.EscribirAppends | src/components/BarcodeInput.tsx:52-55 | typing a word appends it to the buffer |
| BarcodeInput.ScanEmitsCode | src/components/BarcodeInput.tsx:39-55 | a scanned word followed by Enter is emitted whole and leaves an empty buffer |
| BarcodeInput.DesdeUltimoEnter | src/components/BarcodeInput.tsx:39-50 | the keys after the last Enter: a suffix of the keys with no Enter in it, preceded by an Enter when shorter than them |
| BarcodeInput.BufferPendiente | src/components/BarcodeInput.tsx:29-73 | the buffer after any sequence of focused keys is exactly the one-character keys typed since the last Enter |
| BarcodeInput.EnterEmitePendiente | src/components/BarcodeInput.tsx:40-49 | Enter hands on exactly those keys, and nothing when there are none |
| BarcodeInput.BarcodeField.constructor | src/components/BarcodeInput.tsx:25-26 | the buffer starts empty, with no timer and no keys received |
| BarcodeInput.BarcodeField.HandleKeyPress | src/components/BarcodeInput.tsx:29-73 | unfocused keys are ignored; otherwise the buffer follows `KeyStep`, `onChange` gets each emitted code and `onBarcodeScanned` gets it when present; the effect's re-run on the changed buffer cancels the armed timer, so none is pending afterwards and the buffer stays the fold of the keys received |
| BarcodeInput.BarcodeField.PendienteTrasTeclas | src/components/BarcodeInput.tsx:29-73 | at any point the field holds the one-character keys typed since the last Enter |
| BarcodeInput.BarcodeField.EfectoLimpiado | src/components/BarcodeInput.tsx:67-72 | the effect's cleanup leaves no timer pending |
| BarcodeInput.BarcodeField.Timeout | src/components/BarcodeInput.tsx:59-61 | a pending timer would clear the buffer, but between keypresses none is pending, so a pause leaves the buffer and the invariant as they were |
| Auth.StoredToken | src/store/auth.ts:75 | the stored token is present iff the "token" key is, and is its value |
| Auth.AuthStore.constructor | src/store/auth.ts:16-19 | no user, no token, loading |
| Auth.AuthStore.SetUser | src/store/auth.ts:21 | sets the user only |
| Auth.AuthStore.SetToken | src/store/auth.ts:23-30 | a truthy token is stored, any other removes the key; state and storage are in step |
| Auth.AuthStore.Login | src/store/auth.ts:32-67 | the token is stored and set and loading ends; the user is the given one, else the fetched profile, else unchanged |
| Auth.AuthStore.Logout | src/store/auth.ts:69-72 | removes the key and clears user and token |
| Auth.AuthStore.CheckAuth | src/store/auth.ts:74-90 | with no truthy stored token the session is cleared; with one, a fetched profile logs in and a failed fetch clears the key and the session |
| AuthProvider.Guard | src/components/providers/AuthProvider.tsx:18-50 | spinner while loading; children iff a user is present whose role is allowed; redirect to /login without a user and to / with a disallowed role |
| AuthProvider.GuardRoles | src/components/providers/AuthProvider.tsx:32-47 | an empty role list rejects everyone, no list admits everyone, and [ADMIN] admits exactly admins |
| Api.Interceptar | src/lib/api.ts:9-17 | in the browser with a truthy stored token the header becomes `Bearer <token>`; otherwise the headers are unchanged |
| Api.Mensaje | src/lib/api.ts:24 | the body's message when truthy, else the error's own message |
| Api.Clasificar | src/lib/api.ts:35-45 | a status is classified iff it is present and at least 400 |
| Api.ClasificarCases | src/lib/api.ts:35-45 | 401, 403, 404 and 500 get their own category; any other status >= 400 is generic |
| Api.Texto | src/lib/api.ts:35-45 | a toast text is never empty; it ends with the server message when there is one, and for a generic status it is exactly that message |
| Api.ManejarError | src/lib/api.ts:20-49 | the error is always rejected unchanged; a toast is shown iff the status is at least 400 |
| Api.UnauthorizedToast | src/lib/api.ts:35-36 | a 401 toast shows the server message, or the fallback when there is none; a redirect status shows none |
| Login.LoginPage.constructor | src/app/login/page.tsx:34-37 | login mode, phone step, no phone, not a new user |
| Login.LoginPage.SetModo | src/app/login/page.tsx:137-150 | sets the mode only |
| Login.LoginPage.OnSubmitLoginPhone | src/app/login/page.tsx:53-66 | a phone under 8 characters sends nothing; otherwise the code request is sent and, on success, the code step starts with that phone |
| Login.LoginPage.OnSubmitRegisterPhone | src/app/login/page.tsx:68-82 | as login, also requiring a non-empty name, which the request carries |
| Login.LoginPage.CambiarTelefono | src/app/login/page.tsx:236-240 | returns to the phone step |
| Login.LoginPage.OnSubmitCode | src/app/login/page.tsx:84-117 | a code not of length 6 sends nothing; navigation happens iff the reply carries a truthy token, which is then stored and set, and the signed-in user becomes the reply's `usuario`, else the fetched profile, else stays as it was; otherwise the session is untouched |
| Ubicaciones.LeadingDigits | src/app/admin/ubicaciones/page.tsx:83 | the length of the leading run of digits |
| Ubicaciones.LeadingDigitsAll | src/app/admin/ubicaciones/page.tsx:83 | a string of digits is read whole |
| Ubicaciones.ParseFloat | src/app/admin/ubicaciones/page.tsx:83 | `parseFloat` on whole numbers: leading blanks, an optional sign, the leading digits; characterised by `Ubicaciones.LeadingDigits` and `Ubicaciones.LeadingDigitsAll` |
| Ubicaciones.CostoTexto | src/app/admin/ubicaciones/page.tsx:118 | `costo.toString()` for a whole number; `Ubicaciones.ParseCostoTexto` proves it reads back |
| Ubicaciones.ParseCostoTexto | src/app/admin/ubicaciones/page.tsx:114-121 | the text a cost is edited as (`toString`) reads back as that cost (`parseFloat`) |
| Ubicaciones.Validar | src/app/admin/ubicaciones/page.tsx:78-87 | a blank name is rejected first; then a cost that is NaN or negative; otherwise the parsed cost is accepted |
| Ubicaciones.ValidarExamples | src/app/admin/ubicaciones/page.tsx:78-87 | "0" is valid, "-5" and "abc" are invalid costs, a blank name wins over a bad cost |
| Ubicaciones.NegativeFractionReadAsZero | src/app/admin/ubicaciones/page.tsx:83-87 | the whole-number reading accepts "-0.5" as a cost of 0, which the code's `parseFloat` reads as -0.5 and rejects |
| Ubicaciones.UbicacionesPage.constructor | src/app/admin/ubicaciones/page.tsx:44-49 | closed dialog, no location in edit, empty form |
| Ubicaciones.UbicacionesPage.HandleSubmit | src/app/admin/ubicaciones/page.tsx:75-112 | an invalid form sends nothing; a valid one patches the location in edit or creates one; the form resets only on success |
| Ubicaciones.UbicacionesPage.HandleEdit | src/app/admin/ubicaciones/page.tsx:114-121 | the form is loaded from the location, and a valid location's form validates back to its own cost |
| Ubicaciones.UbicacionesPage.HandleCloseDialog | src/app/admin/ubicaciones/page.tsx:138-142 | closes the dialog and resets the form |
| Usuarios.FiltrarUsuarios | src/app/admin/usuarios/page.tsx:51-63 | a blank term keeps everyone; otherwise a user is kept iff the lowered name contains the lowered term or the phone contains it |
| Usuarios.Coincide | src/app/admin/usuarios/page.tsx:51-63 | the lowered name, or the phone, contains the lowered term; used by `Usuarios.FiltrarUsuarios` |
| Usuarios.FiltrarIsSubsequence | src/app/admin/usuarios/page.tsx:51-63 | the filtered users keep the list order |
| Usuarios.UsuariosPage.constructor | src/app/admin/usuarios/page.tsx:32-37 | no users, empty term, no selection |
| Usuarios.UsuariosPage.AplicarBusqueda | src/app/admin/usuarios/page.tsx:51-63 | the filtered list becomes `FiltrarUsuarios` of the state |
| Usuarios.UsuariosPage.AbrirEdicion | src/app/admin/usuarios/page.tsx:194 | the edit dialog opens on a row iff it is not the signed-in user's own row; a refused click changes nothing |
| Usuarios.EdicionBloqueada | src/app/admin/usuarios/page.tsx:194 | the signed-in user's own row; `Usuarios.UsuariosPage.AbrirEdicion` states it never opens the dialog |
| Usuarios.UsuariosPage.OnEditUsuario | src/app/admin/usuarios/page.tsx:86-108 | an invalid name or no selection sends nothing; otherwise the name patch goes first and the role patch follows only if the role changed and the name patch succeeded |
| Categorias.FiltrarCategorias | src/app/admin/categorias/page.tsx:67-69 | a category is kept iff its lowered name contains the lowered term |
| Categorias.FiltrarProperties | src/app/admin/categorias/page.tsx:67-69 | an empty term keeps all, and the result keeps the list order |
| Categorias.SolicitudCrear | src/app/admin/categorias/page.tsx:90-103 | a create request is sent iff the name has at least 2 characters, and it carries the form with `activo` true |
| Categorias.ToggleActivo | src/app/admin/categorias/page.tsx:80-88 | the patch is for that id and flips `activo` |
| Categorias.SolicitudEditar | src/app/admin/categorias/page.tsx:105-118 | an edit is sent iff a category is selected and the name is valid, and it patches that id with the form |
| UsuarioPage.CountersPartition | src/app/usuario/page.tsx:116-139 | "active" counts the four open states, "delivered" counts ENTREGADO, and active + delivered + cancelled = total |
| UsuarioPage.Activos | src/app/usuario/page.tsx:126-128 | the orders in one of the four active states; characterised by `UsuarioPage.CountersPartition` |
| UsuarioPage.Entregados | src/app/usuario/page.tsx:139 | the delivered orders; characterised by `UsuarioPage.CountersPartition` |
| UsuarioPage.ActiveAndDeliveredBounded | src/app/usuario/page.tsx:116-139 | the two counters never exceed the total |
| UsuarioPage.EstadoConfigCoverage | src/app/usuario/page.tsx:15-46 | every state has a non-empty label, labels are distinct, and only CANCELADO is destructive |
| UsuarioPage.EstadoConfig | src/app/usuario/page.tsx:15-46 | the label and badge variant of each state; characterised by `UsuarioPage.EstadoConfigCoverage` |
| Text.Lower | src/app/admin/productos/page.tsx:145-147 | `toLowerCase` keeps the length and lowers each character |
| Text.LowerIdempotent | src/app/admin/productos/page.tsx:145-147 | lowering twice equals lowering once |
| Text.ContainsIff | src/app/page.tsx:102 | `includes` holds iff the needle occurs at some position |
| Text.TrimEmptyIff | src/app/carrito/page.tsx:175 | `trim() === ''` iff the string is all whitespace |
| Text.IndexOf | src/app/carrito/page.tsx:107 | the first position of the character, None iff absent |
| Text.DigitsRoundTrip | src/app/admin/ubicaciones/page.tsx:118 | a number's decimal text reads back as the number |
| Text.CompararTexto | src/app/admin/productos/page.tsx:157 | the name comparison returns -1, 0 or 1 |
| Text.CompararTextoAntisym | src/app/admin/productos/page.tsx:157 | swapping the names negates the result, and 0 means equal names |
| Text.CompararTextoTrans | src/app/admin/productos/page.tsx:157 | the name comparison is transitive |
| Seqs.Filter | src/store/cart.ts:38 | `filter` keeps exactly the elements satisfying the predicate and never grows |
| Seqs.FilterIsSubsequence | src/store/cart.ts:38 | `filter` keeps the original order |
| Seqs.FilterDropsOne | src/store/cart.ts:38 | when only the element at k fails the predicate, `filter` deletes exactly that position and keeps the rest in order |
| Seqs.FilterDisjointLengths | src/app/usuario/page.tsx:126-139 | two filters with disjoint predicates together keep at most the whole list |

## Left out

- Rendering, toasts (apart from the message the response interceptor builds), dialogs, navigation
  and `console` output: handlers return outcome values or set flags instead.
- HTTP: every request's result is a parameter (`Option` reply or success flag). Loading the
  product, category, order, user and location lists is left out; the model starts from the list.
- Clock and dates: the current time is a parameter. A date string is its millisecond value, and
  an `Invalid Date` is `None`. The earliest order date is now plus 3 600 000 ms, whereas the code
  steps the local hour with `setHours(getHours() + 1)`, which differs across a daylight-saving
  change.
- AdminPedidos.GetTiempoRestante: the difference is an integer number of milliseconds, so the NaN
  of an unparsable date is not modelled.
- Cart persistence (`persist` to browser storage under "cart-storage") is not modelled.
- Text.Lower: only ASCII letters are lowered; other characters are kept.
- Text.IsWhitespace: a fixed set of ASCII and Unicode blanks stands for JavaScript's whitespace
  class.
- Text.CompararTexto: `localeCompare` is abstracted as lexicographic comparison of code points;
  locale collation is not modelled.
- Schedule.NumberOf: `Number` is modelled on blank strings and plain decimal digits only. Signs,
  fractions, exponents and hexadecimal read as NaN here.
- Ubicaciones.ParseFloat: `parseFloat` is modelled on whole numbers: an optional sign, then leading
  digits. A fractional part is not read, so costs are whole numbers in this model. Exponent
  notation is not read either: the number field accepts "1e3", which `parseFloat` reads as 1000
  and the model as 1. The verdict of `Ubicaciones.Validar` flips in both directions. Every cost text
  with a fraction strictly between -1 and 0 (such as "-0.5") is rejected by the code, which reads
  a negative number, but read as 0 and accepted here (`Ubicaciones.NegativeFractionReadAsZero`).
  ".5" and "Infinity", also with a sign or leading blanks before them ("+.5", " .5", "+Infinity"),
  are accepted by the code (numbers not below 0) but read as NaN here, so the model rejects them
  with `CostoInvalido`.
- BarcodeInput.KeyStep: `e.key.length` counts UTF-16 code units, while the model counts
  characters. A key outside the Basic Multilingual Plane, such as an emoji, is appended by the
  model and ignored by the code.
- BarcodeInput.BarcodeField.HandleKeyPress: React is taken to render between two keypress events,
  so each handler reads the current buffer. Keys delivered before a render would be read against
  a stale buffer, which is not modelled.
- AdminPedidos.IdCorto: `slice(0, 8)` counts UTF-16 code units, while the model counts characters.
  The two prefixes differ only for ids with characters outside the Basic Multilingual Plane.
- AdminProductos.ProductosPage.OnAgregarStock: `Number(data.cantidad)` is a parameter (`None` for
  NaN). Prices and stock are integers.
- AdminProductos.Ordenar: the browser's stable sort is modelled by insertion sort. The result is
  proved sorted and a permutation; stability is not proved.
- Form schemas (zod): only the length rules that gate each handler are modelled (phone >= 8,
  name >= 1 on registration, code of length 6, names >= 2, location >= 1). zod's `min` and
  `length` count UTF-16 code units; the six predicates that model them (`Login.TelefonoValido`,
  `Login.RegistroValido`, `Login.CodigoValido`, `Usuarios.NombreValido`,
  `Categorias.NombreValido`, `Checkout.SchemaValido`) count characters. They agree on text
  without characters outside the Basic Multilingual Plane; one such character (an emoji, say)
  is two units in the code and one character here.
- Login.LoginPage.OnSubmitLoginPhone: the phone's `min(8)` counts UTF-16 code units, the model
  counts characters, so a phone of 4 emoji passes the code's rule and fails the model's.
- Login.LoginPage.OnSubmitRegisterPhone: the phone's `min(8)` counts UTF-16 code units, the model
  counts characters, as for login; the name's `min(1)` gives the same verdict in both.
- Login.LoginPage.OnSubmitCode: `length(6)` counts UTF-16 code units, the model counts
  characters, so a code of 3 emoji has length 6 in the code and 3 here.
- Usuarios.UsuariosPage.OnEditUsuario: the name's `min(2)` counts UTF-16 code units, the model
  counts characters, so a name of one emoji is sent by the code and refused by the model.
- Categorias.SolicitudCrear: the name's `min(2)` counts UTF-16 code units, the model counts
  characters, so a name of one emoji is sent by the code and refused by the model.
- Categorias.SolicitudEditar: the same `min(2)` difference as `Categorias.SolicitudCrear`.
- Login.LoginPage.OnSubmitCode: the outer `catch` around `login` (a storage exception) is not
  modelled, since the model's storage cannot fail.
- The admin-role redirects inside the admin pages are not modelled separately; `AuthProvider.Guard`
  models the role gate.
- `handleQuickStock` and `onSubmitQuickStock` (barcode stock lookup), product create and edit with
  image upload and cropping, `openEditDialog` and `handleDelete` on every admin screen, and the
  marking of orders as "on the way": these are plain request relays with no decision logic
  beyond what is modelled.
- BarcodeScanner, ImageCropper, src/app/admin/page.tsx, src/app/productos/[id]/page.tsx and
  next.config.ts are not part of this model.
