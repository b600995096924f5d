# Stock catalog and admin form, modelled in Dafny

The application has two pages that share a hosted `stoq` table of products.

**The catalog page** (`Home`):
- It lists the products.
- Each product has an `InputQty` control. Between two reloads of the list, and when the stock is not negative, the control keeps a quantity between 0 and the product's stock. It reports every change to the page.
- The page keeps the selected quantity per product and a cart with one line per product. A positive quantity adds or updates the product's line; 0 removes it.
- The page shows the cart's item count and price total.
- Checkout deducts each line from the stock, one update after another. It stops at the first failure and clears the cart only when every update succeeded.

**The admin page** (`AdminPage`):
- It lists the same rows.
- It has a modal form that creates a row or edits one. While the form is open, the draft holds the text of every input.
- A submit checks that the required fields are not empty. It then builds the row: text trimmed, numbers parsed with a fallback, a fresh barcode and fresh timestamps. It sends an insert or an update by id.
- On success the form closes and resets. On an error everything stays as it was.
- Delete asks for confirmation first, and cancel always closes and resets the form.

The model has six modules:
- `Js`: the JavaScript coercions the pages rely on. These are the `/^\d*$/` test, `parseInt(..) || fallback`, `toString` and `trim`.
- `Remote`: the shapes of the table's answers.
- `QuantityControl`: the `InputQty` control, as functions and as a class.
- `Cart`: the cart expressions (`find`, `map`, `filter`, append), the two `reduce` totals and the checkout loop.
- `Catalog`: the catalog page as a class.
- `Admin`: the admin form's pure parts and the admin page as a class.

Each event handler is a method that runs atomically. Its answers from the table come in as parameters:
- an `Outcome` per write;
- a `Fetch` for the reload;
- the `confirm` answer as a boolean;
- the random barcode and the two timestamps as strings.

Each handler returns the request it sends. The value an `InputQty` handler returns is what it passes to `onQuantityChange`.

## Model

| member | source | states |
|---|---|---|
| Js.IsDigits | app/page.js:22 | the digits-only test, matched a digit at a time, accepts exactly the strings whose every character is a digit (the empty string included) |
| Js.ParseInt | app/admin/page.js:76 | a number comes out exactly when the text, after an optional sign, starts with a digit |
| Js.ParseIntOr | app/page.js:23 | `parseInt(s) or fallback`: the parsed value unless it is NaN or 0, which both give the fallback; never 0 unless the fallback is 0 |
| Js.ParseDigitsOrZero | app/page.js:22-23 | on text of digits only, `parseInt(s) or 0` is the decimal value of the digits, with "" giving 0 |
| Js.LeadingDigits | app/admin/page.js:76 | the longest prefix of digits: it is a prefix, all digits, and the next character is not a digit |
| Js.NatToString | app/admin/page.js:136 | `toString` of a natural number is non-empty, all digits, without a leading zero |
| Js.IntToString | app/admin/page.js:136 | `toString` of an integer is non-empty |
| Js.NatToStringValue | app/admin/page.js:136-140 | the digits `toString` writes have the number as their decimal value |
| Js.ParseIntOfString | app/admin/page.js:136-143 | `parseInt(n.toString())` gives back `n` for every integer of the model; in the page this holds for integers below 2^53 in magnitude |
| Js.Trim | app/admin/page.js:72 | the trimmed text begins and ends with a non-space character and is no longer than the input |
| Js.TrimRemovesOnlySpace | app/admin/page.js:72-79 | the trimmed text is a slice of the input with only white space before and after it |
| Js.TrimOfTrimmed | app/admin/page.js:72-79 | text that is already trimmed is unchanged by `trim` |
| Js.TrimIdempotent | app/admin/page.js:72-79 | trimming twice is trimming once |
| Js.TrimAllSpace | app/admin/page.js:72-79 | white space only trims to the empty string |
| Remote.Reloaded | app/page.js:96-100 | after a failed fetch the list is kept; after a successful one it is `data or []` |
| QuantityControl.TypedQuantity | app/page.js:19-29 | typed text is accepted exactly when it is digits only; then the quantity is its value capped at `maxQty`, within [0, maxQty] when the stock is not negative |
| QuantityControl.NextQuantity | app/page.js:19-45 | the range [0, maxQty] is kept; + reports quantity+1 exactly when below `maxQty`; - reports quantity-1 exactly when above 0 |
| QuantityControl.RunStaysInRange | app/page.js:19-45 | from a quantity in [0, maxQty], any sequence of typing and clicks stays in [0, maxQty] |
| QuantityControl.TypedDecimal | app/page.js:22-25 | typing the decimal form of an in-stock quantity selects exactly that quantity |
| QuantityControl.InputQty.constructor | app/page.js:16-17 | the control starts at the quantity the page passes in |
| QuantityControl.InputQty.HandleInputChange | app/page.js:19-29 | reports and stores the typed quantity; non-digit text changes and reports nothing |
| QuantityControl.InputQty.HandleIncrement | app/page.js:31-37 | reports and stores quantity+1 only below `maxQty`, otherwise nothing |
| QuantityControl.InputQty.HandleDecrement | app/page.js:39-45 | reports and stores quantity-1 only above 0, otherwise nothing |
| Cart.Find | app/page.js:233 | a line is found exactly when the cart has one for the id; it is the first line of the cart with that id |
| Cart.WithCartQty | app/page.js:235-239 | same length; the product's lines get the new quantity and every other line is unchanged |
| Cart.RemoveId | app/page.js:245 | no longer than the cart, and no line for the id is left |
| Cart.RemoveIdAppend | app/page.js:245 | filtering a concatenation filters each part |
| Cart.RemoveIdAbsent | app/page.js:245 | filtering out a product the cart has no line for changes nothing |
| Cart.RemoveIdMiddle | app/page.js:245 | filtering out the product of a line that no other line shares leaves the lines before and after it, in order |
| Cart.RemoveIdAt | app/page.js:245 | in a cart of distinct ids, filtering out line k's product gives the cart without line k, order kept |
| Cart.RemoveIdOfWithCartQty | app/page.js:235-245 | changing the product's quantity changes nothing among the other lines |
| Cart.RemoveIdNoNewLines | app/page.js:245 | the filter brings in no product the cart did not have |
| Cart.RemoveIdKeepsDistinct | app/page.js:245 | the filter keeps ids distinct |
| Cart.RemoveIdKeepsPositive | app/page.js:245 | the filter keeps every quantity positive |
| Cart.FindAppendNew | app/page.js:241 | after appending a line for a new product, `find` returns that line |
| Cart.FindWithCartQty | app/page.js:233-239 | after the map, `find` returns the product's line with the new quantity |
| Cart.WithCartQtyKeepsItems | app/page.js:235-239 | the map keeps every line's product snapshot and position, keeps ids distinct, and sets the product's quantity |
| Cart.UpdateInPlace | app/page.js:232-239 | when the product has a line, the map's result holds its snapshot with the new quantity and the other lines are unchanged |
| Cart.AppendNew | app/page.js:240-241 | when the product has no line, appending keeps ids distinct, and the new line holds the product with the quantity |
| Cart.RemoveAll | app/page.js:243-246 | after the filter the product has no line, ids stay distinct, and a cart without the product is unchanged |
| Cart.ApplyQuantity | app/page.js:229-247 | distinct ids are kept. The product has a line exactly when the quantity is positive, and that line holds its snapshot and the quantity. Other lines are unchanged and in order. An existing line is updated in place; otherwise a new line is appended. 0 on a cart without the product changes nothing |
| Cart.ZeroRemovesLine | app/page.js:243-246 | in a cart of distinct ids, quantity 0 takes out exactly the product's line and keeps the others in order |
| Cart.ApplyQuantityKeepsPositive | app/page.js:229-247 | the callback never leaves a line with a quantity of 0 or less |
| Cart.TotalItems | app/page.js:115-117 | with every line positive, the item total is at least the number of lines |
| Cart.TotalPrice | app/page.js:119-121 | with non-negative prices and quantities, the price total is non-negative |
| Cart.TotalsCons | app/page.js:115-121 | the left folds also split off the first line |
| Cart.TotalsAppend | app/page.js:115-121 | both totals add over a cart split in two, so they are sums over the lines |
| Cart.TotalsSplit | app/page.js:115-121 | each total is the total of the other lines plus the product's own line |
| Cart.TotalsAfterChange | app/page.js:229-247 | a quantity change moves the item total by the change of the product's line, and the price total by the same change priced at the line's snapshot |
| Cart.Deductions | app/page.js:128-132 | one update per line in cart order: the line's id, and its stock snapshot minus the quantity taken |
| Cart.IssuedCount | app/page.js:128-139 | all calls are issued when all succeed; otherwise the calls up to and including the first failure |
| Cart.IssuedCountAt | app/page.js:134-138 | a failure after a run of successes is the last call issued, and the run did not fully succeed |
| Cart.SendDeductions | app/page.js:128-139 | sends exactly the deductions of the issued calls, in order, and reports whether every call succeeded |
| Catalog.Home.constructor | app/page.js:80-83 | no products, loading, an empty cart and no selections |
| Catalog.Home.FetchProducts | app/page.js:89-106 | the list becomes what the table returned, or stays after a failure; loading ends; cart and selections unchanged |
| Catalog.Home.HandleQuantityChange | app/page.js:108-113 | the product's selection is set and every other key keeps its value |
| Catalog.Home.OnQuantityChange | app/page.js:229-247 | records the selection and rebuilds the cart, keeping distinct ids and positive quantities; the item total moves by the product's change |
| Catalog.Home.ProcessCart | app/page.js:123-146 | an empty cart sends nothing. Otherwise the deductions go out in order, up to the first failure. Full success clears cart and selections and reloads; after a failure the page is unchanged |
| Admin.WithInput | app/admin/page.js:54-60 | only the named field changes: the value for text, `checked` for the checkbox |
| Admin.BuildRecord | app/admin/page.js:71-85 | name, location and description are the trimmed text of the draft's fields. The numbers are `parseInt or 0`. The quantity is the parsed value, or 1 when NaN or 0. The barcode and the two timestamps are the fresh values given; featured and type are copied |
| Admin.IsComplete | app/admin/page.js:66 | the gate passes exactly when none of the six required fields (name, price, location, bedrooms, bathrooms, area) is empty |
| Admin.DefaultDraft | app/admin/page.js:18-29 | the reset draft: type 'casa', quantity 1, not featured, every other field empty; it never passes the gate |
| Admin.SubmitRequest | app/admin/page.js:87-102 | an update by the edited property's id exactly when one is being edited, otherwise an insert of the single row |
| Admin.EditDraft | app/admin/page.js:131-146 | text copied; every number is written so that it parses back to itself; `featured` defaults to false and `qty` to 1 |
| Admin.EditDraftPassesValidation | app/admin/page.js:131-146 | a property with a name and a location always passes validation once loaded |
| Admin.EditRoundTrip | app/admin/page.js:131-146 | an unchanged edit of trimmed text with a non-zero quantity writes the property back; only the barcode and timestamps are new (numbers below 2^53 in magnitude, as for Js.ParseIntOfString) |
| Admin.EditOfSoldOutSetsQtyOne | app/admin/page.js:143 | the submit handler, given an unchanged edit of a property with quantity 0, would store quantity 1; in the page the qty input's `min="1"` stops the browser from submitting that draft |
| Admin.BlankTextPassesValidation | app/admin/page.js:66-79 | a name and location of white space only pass validation and are stored empty |
| Admin.AdminPage.constructor | app/admin/page.js:14-29 | loading, no properties, form closed, no edit target, default draft |
| Admin.AdminPage.FetchProperties | app/admin/page.js:35-52 | the list becomes what the table returned, or stays after a failure; loading ends; the form is untouched |
| Admin.AdminPage.OpenForm | app/admin/page.js:196 | only shows the form; from a closed page that is create mode with the default draft |
| Admin.AdminPage.HandleInputChange | app/admin/page.js:54-60 | the draft gets the input's change and nothing else changes |
| Admin.AdminPage.HandleSubmit | app/admin/page.js:62-129 | an incomplete draft sends nothing and changes nothing. Otherwise the built row goes out as an update or an insert. Success closes and resets the form and reloads; an error keeps everything |
| Admin.AdminPage.HandleEdit | app/admin/page.js:131-146 | edit mode for the property, form shown, draft filled from it |
| Admin.AdminPage.HandleDelete | app/admin/page.js:148-168 | a delete by id only when confirmed, a reload only when it succeeded; the form is never touched |
| Admin.AdminPage.HandleCancel | app/admin/page.js:170-185 | from any mode: closed, no edit target, default draft |

## Left out

- The browser's constraint validation is not modelled. Every input of the form is `required`, the description included, and the qty input also has `min="1"` (app/admin/page.js:221-334). `HandleSubmit` is the handler applied to any draft, including those the browser would refuse to submit.
- Js: numbers are unbounded integers. JavaScript's double rounding above 2^53 is not modelled, nor the exponent notation `toString` uses from 1e21, so the `toString`/`parseInt` round trip holds in the page only below 2^53.
- The Supabase client and transport: every answer is a parameter. An error field and a thrown exception are one `Err`.
- The `order('id', { ascending: false })` of the fetches: the list is whatever the table returned.
- `alert`, `console.error`, and the text of the checkout and submit messages: they change no state.
- `confirm` is a boolean parameter.
- `Math.random` and `new Date().toISOString()`: the barcode and the two timestamps (`lote` and `update`, read by two separate calls) are independent parameters, with no format.
- Admin.BuildRecord: `parseFloat` of the price is modelled by the same integer parse as the other numbers, because floating point is not modelled.
- Cart.TotalPrice: prices are integers; `toFixed`, `toLocaleString` and floating-point rounding are not modelled.
- Js.ParseInt: there is no skipping of leading white space and no `0x` radix prefix. Only an optional sign followed by decimal digits is modelled.
- Js.Trim: only the common white-space characters are recognised (listed at `Js.IsSpace`), not every Unicode space separator.
- JSX rendering, the stock colour thresholds and the link to the catalog page.
- React's asynchronous state updates and batching, stale closures, and events interleaving with awaits: each handler is one atomic step over explicit state.
- The wiring between the page and its `InputQty` controls. A control's quantity is set once from `selectedQuantities`, and it is not reset when checkout clears the selections. The model also keeps each control's `maxQty` fixed. In the page, `maxQty` follows `product.qty` after every reload, so a control can hold a quantity above the new stock. Its - button then reports that quantity minus 1 and puts it in the cart.
- Catalog.Home.ProcessCart: the model requires an answer for every line (`|cart| <= |outcomes|`), because the answers are supplied in advance.
- Admin.AdminPage.HandleInputChange: requires the form to be shown, because the inputs exist only inside the open modal.
- Admin.AdminPage.HandleSubmit: `featured` is a boolean in the draft already, so `Boolean(..)` is the identity. Null text columns of a row are not modelled, so `trim` never meets null.
