# Point-of-sale core of a farm shop, in Dafny

A model of the transactional core of a small point-of-sale web app for a farm shop. The shop sells eggs, chicken, cheese and meat. The model covers:

- the till: entry presets, the pound-to-kilogram conversion, the cart and checkout;
- the storage service: products, orders, purchases and customers, with stock going down on a sale and up on a purchase;
- the delivery board and its status buttons;
- the financial reports, the sales history and the dashboard figures;
- the product, customer and purchase forms and their searches.

One Dafny module per source file:

| module | file | what it holds |
|---|---|---|
| `Types` | types.dfy | enums and records, `Option`, the JavaScript truthiness of strings |
| `Seqs` | seqs.dfy | sum, order-preserving filter, `findIndex`, upsert and remove by id, subsequence |
| `Text` | text.dfy | `toLowerCase` on ASCII letters and `includes` |
| `Sorting` | sorting.dfy | the in-place newest-first sort of a fetched array |
| `Api` | api.dfy | the storage service: a `Store` class with the four collections as `seq` fields |
| `Pos` | pos.dfy | the till: entry presets, line construction, the `Cart` class, checkout |
| `Orders` | orders.dfy | the delivery view, the status actions, the cancel confirmation |
| `Reports` | reports.dfy | date windows, the cost fallback, the KPIs, margin and the per-day chart |
| `SalesHistory` | sales_history.dfy | history filters, search, period total, expanded row |
| `Dashboard` | dashboard.dfy | total sales, low stock, sales per category and per weekday, average ticket |
| `Purchases` | purchases.dfy | the purchase form and record, the list and its search |
| `Inventory` | inventory.dfy | the product form and record, delete, search, low-stock flag |
| `Customers` | customers.dfy | the customer form and record, search |

Representation choices:

- Money and quantities are `real`.
- Dates are integer timestamps.
- The calendar values the pages compute are the fields of a `Clock`: midnight today, yesterday, a week back, a month back, and start and end of a day.
- Number-to-text conversion in labels is a function parameter `fmt`.
- Day labels in charts are a function parameter.
- Fresh ids from `generateUUID` and the current time are parameters.
- The user's answer to a confirmation dialog is a `bool` parameter.

Code that changes state step by step is imperative Dafny:

- the storage service's read-modify-write operations, as `Api.Store` methods;
- the cart, as `Pos.Cart`;
- the accumulating loops of the reports and the dashboard;
- the in-place sorts.

Each such method is proved against a specification function. The properties the app relies on are lemmas about those functions.

## Model

| member | source | states |
|---|---|---|
| Api.ProductIndex | services/api.ts:61 | the index is the first product with the id, or -1 when no product has it |
| Api.FindProduct | pages/Reports.tsx:100 | `find` returns nothing exactly when no product has the id, else a listed product with that id |
| Api.SellItemEffect | services/api.ts:93-97 | one item lowers only the stock of the first product with its id, by the item quantity; every other field and product is unchanged |
| Api.SaleEffect | services/api.ts:92-98 | a sale lowers each product's stock by the total quantity ordered under its id, with no clamp at zero, keeps every other field and the list order; only the first product with an id is touched |
| Api.SaleOfUnknownItems | services/api.ts:93-97 | items whose ids match no product leave the catalogue unchanged |
| Api.PurchaseEffect | services/api.ts:150-158 | a purchase raises the stock of its product by exactly the quantity; the cost becomes the unit cost only when that is positive; nothing else changes, and an unknown id changes nothing |
| Api.PurchaseThenSaleRestoresStock | services/api.ts:86-158 | selling exactly the quantity just purchased restores every stock level |
| Api.SaveProductFound | services/api.ts:59-68 | after saving, the product is the one found under its id; saving twice equals saving once |
| Api.DeleteProductEffect | services/api.ts:70-74 | delete keeps exactly the products with another id, in order, with every copy of a kept record (the same number of times as in the input) and no copy of a dropped one, and none with the id remains |
| Api.StatusUpdateEffect | services/api.ts:102-110 | the first order with the id takes the new status whatever its current one, and the courier only when one is given; an unknown id changes nothing; no total changes |
| Api.Store.constructor | services/api.ts:50-57 | the store starts with the given collections |
| Api.Store.SaveProduct | services/api.ts:59-68 | the products become the upsert of the product by id; no other collection changes |
| Api.Store.DeleteProduct | services/api.ts:70-74 | the products become those with another id; no other collection changes |
| Api.Store.CreateOrder | services/api.ts:86-100 | the order is put first, and the loop leaves the products equal to the whole sale applied item by item |
| Api.Store.UpdateOrderStatus | services/api.ts:102-110 | the orders become the status update; stock and the other collections are unchanged, so cancelling does not restock |
| Api.Store.SaveCustomer | services/api.ts:122-131 | the customers become the upsert of the customer by id |
| Api.Store.RegisterPurchase | services/api.ts:143-160 | the purchase is put first, and the products become the restock of its product |
| Pos.EntryDefaults | pages/POS.tsx:52-67 | eggs preset 12 in unit mode, and only eggs; chicken, meat and cheese preset 1 kg, and only they; everything else 1 unit; never pound mode |
| Pos.MakeLineEffect | pages/POS.tsx:77-127 | the line keeps the product and its price; its quantity is the entered number times 0.453592 in pound mode and the number unchanged otherwise, with no quantity rejected; a pound line is labelled "<n> Lb" |
| Pos.PoundRoundTrip | pages/POS.tsx:91 | dividing a pound line's quantity by 0.453592 gives back the entered pounds |
| Pos.EggLabelDeterminesCount | pages/POS.tsx:112-118 | an egg line is labelled Unidad, Docena, Quincena or Cubeta exactly when the count is 1, 12, 15 or 30 |
| Pos.DefaultEntryLine | pages/POS.tsx:52-127 | confirming the preset entry gives a dozen eggs labelled Docena, one kilogram labelled "<1> Kg", or one unit labelled with the product's unit |
| Pos.ModalPriceDiffersFromCharge | pages/POS.tsx:211-220 | as written, the preview of any priced, non-zero pound entry differs from what the cart then charges |
| Pos.ConsistentModalPriceMatchesCharge | pages/POS.tsx:211-220 | the corrected preview equals the charge of the line the entry becomes |
| Pos.MatchIndex | pages/POS.tsx:139 | the index is the first line with the same product id and label, or -1 when there is none |
| Pos.AddAsWrittenEffect | pages/POS.tsx:134-150 | adding appends exactly the new line; an earlier line with the same id and label also grows by the quantity; the total grows by the new line's charge plus, in that case, a second charge |
| Pos.AddAsWrittenChargesTwice | pages/POS.tsx:139-147 | adding a copy of the only line charges it three times instead of twice |
| Pos.AddLine | pages/POS.tsx:144-147 | the corrected add appends the line and leaves the rest alone; the total grows by exactly its charge |
| Pos.RemoveAtEffect | pages/POS.tsx:153-155 | removing index i drops only that line and keeps the rest in order; an index outside the cart changes nothing |
| Pos.RemoveLowersTotal | pages/POS.tsx:153-157 | removing a line lowers the cart total by exactly that line's charge |
| Pos.Cart.constructor | pages/POS.tsx:10 | the cart starts empty |
| Pos.Cart.AddToCartDirect | pages/POS.tsx:134-150 | the lines become the as-written add, with the earlier matching line's quantity also increased |
| Pos.Cart.AppendLine | pages/POS.tsx:144-147 | the lines become the corrected add, and the total grows by the line's charge |
| Pos.Cart.ConfirmAddToCart | pages/POS.tsx:69-132 | without a selected product nothing changes; otherwise the line built from the entry goes through the add as written: it is appended, an earlier line of the same product and label also grows by its quantity, and the total grows by the line's charge plus, in that case, the price times the quantity a second time |
| Pos.Cart.ConfirmAddToCartIntended | pages/POS.tsx:69-132 | the same confirm with the corrected add: the line is appended on its own and the total grows by exactly its charge |
| Pos.Cart.Clear | pages/POS.tsx:288 | the clear button empties the cart, so the total is 0 |
| Pos.Cart.RemoveFromCart | pages/POS.tsx:153-155 | the lines become the cart without that index |
| Pos.ToOrderItems | pages/POS.tsx:188-194 | one order item per cart line, in order: the line's product id, the name "<product name> (<sales label or unit>)", the base quantity, the current price, a subtotal of price times quantity and no recorded cost |
| Pos.ItemsSumToCartTotal | pages/POS.tsx:157-195 | the item subtotals add up to the cart total, which becomes the order total |
| Pos.CheckoutCustomer | pages/POS.tsx:165-177 | a customer is created exactly for a delivery with no customer selected and a typed name, holding the typed details |
| Pos.CheckoutOrderFacts | pages/POS.tsx:162-199 | each item copies id, quantity and price, is named "<product name> (<sales label or unit>)", its subtotal is price times quantity, and it carries no cost; the total is the sum of the subtotals; a delivery is named after the typed name or "Cliente WhatsApp", a counter sale after the selected customer or "Cliente Mostrador"; the customer id is the one created at checkout, else the selected one, else none; deliveries start pending and counter sales delivered |
| Pos.Checkout | pages/POS.tsx:159-204 | an empty cart changes nothing; otherwise a typed delivery customer is saved, the order is created first in the list with the stock lowered, and the cart is emptied |
| Orders.DeliveryViewContents | pages/Orders.tsx:32-34 | the view lists exactly the delivery orders, of the chosen status unless the filter is ALL, in loaded order, with every copy of a kept record (the same number of times as in the input) and no copy of a dropped one |
| Orders.Actions | pages/Orders.tsx:121-158 | delivered and cancelled offer nothing; preparing only from pending; on the way from pending or preparing; delivered only from on the way; cancel from every other state |
| Orders.ActionsMoveForward | pages/Orders.tsx:121-158 | every offered button moves the order strictly forward, so no status is revisited |
| Orders.LoadOrders | pages/Orders.tsx:17-22 | the reloaded orders are a permutation of the stored ones, newest first |
| Orders.HandleStatusChange | pages/Orders.tsx:24-30 | an unconfirmed cancel changes nothing; any other choice sets the status with no courier and reloads newest first |
| Sorting.SortNewestFirst | pages/Orders.tsx:20 | the in-place sort leaves the array newest first and a permutation of its old contents |
| Reports.KeptContents | pages/Reports.tsx:48-89 | the report keeps, in order, exactly the non-cancelled orders inside the window, with every copy of a kept record (the same number of times as in the input) and no copy of a dropped one |
| Reports.WindowRules | pages/Reports.tsx:60-88 | on a well-formed calendar: today and yesterday lie inside the week when its cutoff reaches them, the week inside the month; a custom range keeps exactly the orders from its start day through its end day, both days included, and keeps everything when an input is empty; all keeps everything |
| Reports.UtcCalendarIsWellFormed | pages/Reports.tsx:78-85 | a calendar of whole UTC days, midnight to 23:59:59.999, meets the well-formedness the window rules assume |
| Reports.UnitCostFallback | pages/Reports.tsx:100-101 | a recorded cost wins even when 0; else the current cost of the product with the id; else 0 |
| Reports.CheckoutItemsUseCurrentCost | pages/Reports.tsx:101 | items sold at the till carry no cost, so every report prices them at the product's current cost |
| Reports.InventoryValueAfterSale | pages/Reports.tsx:44 | selling an item lowers the inventory value by the quantity at the product's cost; orders and the date filter play no part |
| Reports.CalculateMetrics | pages/Reports.tsx:42-112 | the loops compute the inventory value of all products, and the revenue and cost of goods of the kept orders; net profit is their difference |
| Reports.Margin | pages/Reports.tsx:252 | the margin is 0 without revenue, and otherwise the profit as a percentage of the revenue |
| Reports.MarginBounds | pages/Reports.tsx:252 | with revenue, the margin is positive exactly when there is profit, and at most 100 when costs are not negative |
| Reports.CancellingRemovesFromRevenue | pages/Reports.tsx:50 | cancelling an order the report keeps takes exactly its total out of the revenue |
| Reports.ChartTotals | pages/Reports.tsx:156-174 | the buckets have distinct days; their revenues add up to the revenue and their profits to revenue minus cost of goods |
| Reports.BucketsHaveEveryDay | pages/Reports.tsx:156-169 | every charted order's day has a bucket |
| Reports.CreditSums | pages/Reports.tsx:157-168 | crediting a day adds exactly the credited revenue and profit to the bucket totals, whether the day is new or already has a bucket |
| Reports.CreditKeepsDays | pages/Reports.tsx:157-158 | crediting a day keeps every existing bucket's day and guarantees a bucket for the credited day |
| Reports.BucketsDistinct | pages/Reports.tsx:156-169 | no two buckets share a day |
| Reports.BucketsRevenue | pages/Reports.tsx:156-169 | the bucket revenues add up to the totals of the charted orders |
| Reports.BucketsProfit | pages/Reports.tsx:156-169 | the bucket profits add up to the profits of the charted orders |
| Reports.CreditBucket | pages/Reports.tsx:157-168 | opening a zero bucket for a new day and adding the order's revenue and profit gives the credited buckets |
| Reports.ChartOrderCost | pages/Reports.tsx:162-167 | the inner loop sums each item's quantity times its unit cost, giving the order's cost of goods |
| Reports.GetChartData | pages/Reports.tsx:114-175 | the loop credits the kept orders one by one into the day buckets, in creation order; each resulting bucket holds the revenue of the kept orders of its day and their revenue minus cost of goods as profit, and at least one kept order falls on its day |
| Reports.CreditDay | pages/Reports.tsx:157-168 | crediting one day leaves every other day's bucket as it was, and the credited day's bucket holds its previous amounts (none if new) plus the credited ones |
| Reports.BucketsPerDay | pages/Reports.tsx:156-169 | a day without a bucket has no charted order; a day's bucket holds the total and the profit of exactly that day's orders |
| Reports.ChartDays | pages/Reports.tsx:156-174 | each chart bucket is one day: its revenue is the revenue of that day's orders and its profit their revenue minus their cost of goods |
| SalesHistory.ApplyFiltersContents | pages/SalesHistory.tsx:34-78 | the history lists exactly the non-cancelled orders in the window that match the search, as an ordered subsequence of the loaded orders, with every copy of a kept record (the same number of times as in the input) and no copy of a dropped one |
| SalesHistory.SearchIgnoresCase | pages/SalesHistory.tsx:69-75 | the search ignores the case of the term, and the empty term matches every order |
| SalesHistory.PeriodTotalSplitsRevenue | pages/SalesHistory.tsx:130 | the period total is the report revenue of the window without a search, and the revenue minus the hidden orders with one |
| SalesHistory.ToggleExpand | pages/SalesHistory.tsx:80-82 | toggling collapses an open row and otherwise opens the given one |
| SalesHistory.ToggleTwice | pages/SalesHistory.tsx:80-82 | toggling the same row twice restores a collapsed or self-open state |
| Text.ToLower | pages/SalesHistory.tsx:70 | lower-casing keeps the length and lowers each letter in place |
| Text.ContainsIff | pages/SalesHistory.tsx:71-74 | `includes` holds exactly when the term starts at some position of the text |
| Dashboard.TotalSalesCountsCancelled | pages/Dashboard.tsx:27 | total sales are the all-time report revenue plus the cancelled orders' totals |
| Dashboard.LowStockContents | pages/Dashboard.tsx:28 | the alert list holds exactly the products at or below their minimum stock, in order, with every copy of a kept record (the same number of times as in the input) and no copy of a dropped one |
| Dashboard.AverageTicket | pages/Dashboard.tsx:91 | 0 without orders, otherwise total sales divided evenly over the orders |
| Dashboard.TallyMeaning | pages/Dashboard.tsx:40 | a keyed tally has a key exactly for the keys that occur, holding the sum of their values |
| Dashboard.CategorySales | pages/Dashboard.tsx:32-41 | the loops credit every item's subtotal under its product's category |
| Dashboard.CategoriesPartitionSales | pages/Dashboard.tsx:32-41 | the five category sums add up to the sum of all item subtotals |
| Dashboard.MissingProductCountsAsOtros | pages/Dashboard.tsx:38 | an item whose product is gone is credited to Otros |
| Dashboard.SalesByDay | pages/Dashboard.tsx:45-54 | the loop credits the totals of the orders after the cutoff under their weekday |
| Dashboard.SalesByDayMeaning | pages/Dashboard.tsx:45-54 | a weekday has a bar exactly when an order after the cutoff falls on it, and the bar is the sum of those totals |
| Purchases.SelectProduct | pages/Purchases.tsx:31-37 | the id is selected; a known product's cost pre-fills the unit cost; otherwise it is left alone |
| Purchases.PurchaseFromForm | pages/Purchases.tsx:39-56 | no record for an unknown product; otherwise a fresh record dated now with the product's id and name, the quantity and unit cost entered, their product as the total cost, and the default supplier when empty |
| Purchases.SelectThenSaveRestocks | pages/Purchases.tsx:31-56 | selecting then saving at the pre-filled cost restocks the product by the quantity and totals quantity times its cost |
| Purchases.HandleSave | pages/Purchases.tsx:39-60 | an unknown product changes nothing and leaves the list on screen as it was; otherwise the purchase is registered and the list reloads newest first |
| Purchases.LoadPurchases | pages/Purchases.tsx:23-29 | the list is a permutation of the stored purchases, newest first |
| Purchases.FilterPurchasesContents | pages/Purchases.tsx:69-72 | the search keeps exactly the purchases whose product name or supplier contains the term in any case, as an ordered subsequence, with every copy of a kept record (the same number of times as in the input) and no copy of a dropped one; it keeps newest first, and the empty term keeps all |
| Inventory.NewProductForm | pages/Inventory.tsx:32-40 | a new product starts as Otros, by the unit, with zero stock, price and cost and a minimum of 5 |
| Inventory.ProductFromForm | pages/Inventory.tsx:45-58 | no record without a name; an edit keeps its id, a new product takes a fresh one; name, category, unit, price, cost, stock and minimum stock are the form's values |
| Inventory.EditRoundTrip | pages/Inventory.tsx:27-58 | opening a product and saving it unchanged gives it back |
| Inventory.NewProductDefaults | pages/Inventory.tsx:27-58 | a new product saved with only a name holds the defaults |
| Inventory.HandleSave | pages/Inventory.tsx:45-63 | the product is upserted and found under its id, with the stock typed in the form replacing the stored stock |
| Inventory.HandleDelete | pages/Inventory.tsx:65-70 | an unconfirmed delete changes nothing; a confirmed one removes the product |
| Inventory.FilterProductsContents | pages/Inventory.tsx:72-74 | the search keeps exactly the products whose name contains the term in any case, in order, with every copy of a kept record (the same number of times as in the input) and no copy of a dropped one; the empty term keeps all |
| Customers.NewCustomerForm | pages/Customers.tsx:27-31 | a new customer starts not frequent with 0 purchases and nothing else filled |
| Customers.CustomerFromForm | pages/Customers.tsx:36-48 | no record without a name; an edit keeps its id, a new customer takes a fresh one; the name is the form's; a missing phone, address or notes becomes '', a missing flag false and a missing total 0 |
| Customers.EditRoundTrip | pages/Customers.tsx:22-48 | opening a customer and saving it unchanged gives it back, with missing notes stored as '' |
| Customers.NewCustomerDefaults | pages/Customers.tsx:22-48 | a customer saved with only a name has empty phone, address and notes, is not frequent and has 0 purchases |
| Customers.HandleSave | pages/Customers.tsx:36-53 | no name changes nothing; otherwise the customer is upserted |
| Customers.FilterCustomersContents | pages/Customers.tsx:55-58 | the search keeps exactly the customers whose name contains the term in any case or whose phone contains it as typed, in order, with every copy of a kept record (the same number of times as in the input) and no copy of a dropped one; the empty term keeps all |

## Left out

- Persistence: `localStorage`, JSON, `async`/`await` and the seeding of empty collections with sample data. The four collections are fields of `Api.Store`. The aliasing between a seeded collection and the sample-data constants is not modelled.
- `generateUUID`, the current time and the `cartId` a cart line gets: ids and times are parameters, and `cartId` is not part of the model.
- Calendar arithmetic (`setHours`, `setDate`, `setMonth`, time zones) is abstracted into `Reports.Clock`. The week and month cutoffs are whatever values it holds.
- Reports.WindowRules: holds for calendars meeting `Reports.WellFormedClock` (a timestamp lies inside its own day, and days do not overlap). `Reports.UtcCalendarIsWellFormed` shows that whole UTC days meet it. Local time zones and daylight-saving days are not modelled.
- Locale formatting (`toLocaleDateString`, `toFixed`) and chart rendering: day labels and number-to-text conversion are function parameters.
- Text.ToLower: lowers only the letters A-Z, not other Unicode letters.
- `Number` and `parseFloat` on form fields, and `NaN`: form numbers are already `real`. For the same reason `x || 0` on a number is modelled as a missing value becoming 0.
- Floating point: arithmetic is exact on `real`. In particular, rounding of 0.453592 and 2.20462 is not modelled.
- React state, polling, dialogs and alerts: the confirmations are `bool` parameters, and the page state is plain values.
- The product grid of the till and its category tabs: these are display filters outside the modelled operations.
- Sorting.SortNewestFirst: proves the order and the permutation, not the stability of the browser's sort among orders with equal dates.
- Dashboard.CategorySales and Dashboard.SalesByDay: return maps, which have no key order, so the order of the chart bars is not modelled.
- Reports.Chart keeps buckets in first-use order, the order `Object.values` gives for string keys that are not array indices. Day labels that look like integers are not distinguished.
- Login, roles, routing and the layout are outside the core.

## Findings

| source | as written | input that shows it | evidently intended | confidence | as-written member | corrected member |
|---|---|---|---|---|---|---|
| pages/POS.tsx:139-147 | the cart copy is shallow, so line 143 also increases the quantity of the earlier matching line, and the new line is then appended anyway | a cart holding one line `l`, then `l` added again: the total is 3 × charge(l), not 2 × | append a separate line (the code's own comments settle on appending) and leave the earlier line alone | not executed | Pos.AddAsWrittenChargesTwice | Pos.AddLine |
| pages/POS.tsx:217 | the price preview converts with ÷ 2.20462 while the cart line charges × 0.453592, and the two are not exact reciprocals | a product at price 10000, 1 lb: the preview shows 10000 / 2.20462 ≈ 4535.93, the charge is 4535.92 | the preview shows what the cart will charge | not executed | Pos.ModalPriceDiffersFromCharge | Pos.ConsistentModalPriceMatchesCharge |

`Pos.Cart.ConfirmAddToCart` follows the program and goes through the as-written add (`Pos.Cart.AddToCartDirect`, `Pos.AddAsWritten`). `Pos.Cart.ConfirmAddToCartIntended` is the corrected confirm: it goes through `Pos.Cart.AppendLine`, which is `Pos.AddLine`.
