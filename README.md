# SwiftPOS checkout and back-office handlers in Dafny

This project models the computational core of the SwiftPOS web front end, a
point-of-sale and back-office application written in React/TypeScript.

The point-of-sale checkout has four parts:
- the cart totals: subtotal, percentage discount, 8% tax on the discounted base, and total;
- the payment dialog: tender method, cash received, `canComplete`, the quick-amount
  suggestions, and a processing phase ended by a timer;
- the receipt's rendering rules;
- the product grid's filtered catalog.

Around it, the back-office screens keep lists and sets that their handlers
update in place:
- purchase-order lines;
- a role's permission set;
- branches, with exactly one main branch;
- tax rates, with exactly one default;
- product variants and images;
- the stock-adjust dialog;
- the expense, staff and role forms.

The remaining screens are pure classifiers, aggregators and filters:
- stock status;
- expense totals by status and by category, and the pie chart;
- plan upgrade versus downgrade;
- the sales, log, staff and customer filters, with their counters;
- initials.

Each component becomes one Dafny module:
- A component that only computes from its props becomes datatypes, functions and lemmas.
- A component whose handlers update state becomes a `class` whose fields are that
  state. Its methods carry `modifies` and state the whole new state.
- A list invariant becomes a predicate that the lemmas and methods preserve.
- A component that stays mounted while a parent changes its props (the payment
  dialog's total, the product sheet's edited product) has a method for that prop
  change. Its `useState` and form defaults keep what they read at mount.
- A form's `submit` also waits for the browser's checks on its inputs: the staff
  form's `type="email"`, and the `min="0"` and `step="0.01"` of the expense amount.
  The product form's number inputs have a `step` but no `min`, so their steps are
  counted from the input's own value, which always passes. Inputs read by a click
  handler, as in the purchase-order form, get no such check, so their `min` does
  not apply.

Three modules are shared helpers:
- `Seqs` holds filter, map, count, sum, distinct, find and remove-at-index over
  sequences, with their lemmas.
- `Text` holds ASCII case mapping, substring search, join and split, string
  ordering, decimal rendering and word initials.
- `Browser` holds the browser's step check on number inputs, which a form's
  submit waits for.

Inputs that come from outside the model are parameters:
- what `parseFloat`/`parseInt` make of a text field is the parsed value, or `None`
  for NaN;
- `Date.now()` ids and timestamps are given values;
- `Math.random` is a nondeterministic choice among the three image URLs.

Money is an exact `real`, and quantities and stock are `int`.

## Model

| member | source | states |
|---|---|---|
| CartPanel.ComputeTotals | src/components/pos/CartPanel.tsx:46-50 | The subtotal is the sum of the line amounts. The discount amount is subtotal × discount / 100, with the percentage used unclamped. The tax is 8% of subtotal − discount amount. The total is subtotal − discount amount + tax, which equals (subtotal − discount amount) × 1.08. |
| CartPanel.SubtotalAppend | src/components/pos/CartPanel.tsx:46 | The empty cart has subtotal 0. A line added at the end adds exactly price × quantity. |
| CartPanel.DiscountAmountFormula | src/components/pos/CartPanel.tsx:46-47 | The cart's subtotal is the subtotal of its items, and its discount amount is that subtotal × discount / 100. |
| CartPanel.TaxIsOnDiscountedBase | src/components/pos/CartPanel.tsx:47-49 | With a positive discount on a positive subtotal, the tax is strictly below 8% of the raw subtotal, so the tax is never taken on the undiscounted amount. |
| CartPanel.TotalBounds | src/components/pos/CartPanel.tsx:47-50 | For 0 ≤ discount ≤ 100 and non-negative prices and quantities, 0 ≤ total ≤ 1.08 × subtotal. |
| CartPanel.ExampleTotals | src/components/pos/CartPanel.tsx:46-50 | Sanity check on sample values: a worked cart: 4.00 × 2 plus 3.00 × 1 at 10% off gives 11.00, 1.10, 0.792 and 10.692. |
| CartPanel.RenderCart | src/components/pos/CartPanel.tsx:57-201 | The header shows the number of lines. The rows are in cart order, each with the item's name, unit price, quantity and line amount, and with buttons that request quantity − 1, quantity + 1 and removal of that item id. The subtotal line is the cart subtotal. The discount row shows iff discount > 0, with that percentage of the subtotal. The tax line is 8% of the discounted subtotal, and the total is the discounted subtotal plus tax. Hold Bill, Clear Cart and Pay Now are enabled iff the cart is non-empty. The clear-customer button shows iff a phone is typed, and the customer line iff a non-empty name is known. |
| CartPanel.HeaderCountsLines | src/components/pos/CartPanel.tsx:57 | Sanity check on sample values: one line with two units is counted as one item, not two. |
| Payment.CashAmount | src/components/pos/PaymentModal.tsx:29 | An empty or unparsable entry counts as 0. A number counts as itself. So the amount is either 0 or exactly what was typed. |
| Payment.Change | src/components/pos/PaymentModal.tsx:30 | The change added to the total gives back the cash. It is non-negative exactly when the cash covers the total. |
| Payment.ShowsChangePanel | src/components/pos/PaymentModal.tsx:111-116 | The change panel shows exactly when cash is selected and the cash lets the sale complete. The change it shows is then never negative. |
| Payment.CompletionCoversTotal | src/components/pos/PaymentModal.tsx:29-48 | Card and wallet can always complete. Cash can complete iff cash ≥ total, the boundary included. When completion is allowed, the amount paid covers the total. For non-cash tenders it is exactly the total. For cash, the amount paid minus the total is the change, and the change shown is never negative. |
| Payment.CeilBounds | src/components/pos/PaymentModal.tsx:33 | `Math.ceil`: the result is the least whole number not below x. |
| Payment.RoundUpToBounds | src/components/pos/PaymentModal.tsx:34-36 | `Math.ceil(t / m) * m` is not below t, and the multiple of m before it is below t. |
| Payment.CandidateOrder | src/components/pos/PaymentModal.tsx:32-36 | The four roundings are ordered ceil ≤ ceil10 ≤ ceil20 and ceil10 ≤ ceil50. The 50-rounding falls below the 20-rounding only when it equals the 10-rounding. |
| Payment.FirstOccurrenceStep | src/components/pos/PaymentModal.tsx:37 | A value that reaches the total is kept at its position exactly when it does not occur earlier in the list. |
| Payment.FirstOccurrencesKeep | src/components/pos/PaymentModal.tsx:37 | From a position on, every value that reaches the total and does not occur before that position is kept. |
| Payment.FirstOccurrencesKeepsAll | src/components/pos/PaymentModal.tsx:37 | When every value reaches the total, the filter loses no value: it only drops repeats. |
| Payment.FirstOccurrencesOfFourIncreasing | src/components/pos/PaymentModal.tsx:32-37 | Four values ordered like the rounded candidates come out of the filter strictly increasing, one to four of them, starting with the first. |
| Payment.FirstOccurrencesWithin | src/components/pos/PaymentModal.tsx:37 | The filter invents nothing: everything it keeps from a position on occurs in the list from that position on. |
| Payment.QuickAmountsProperties | src/components/pos/PaymentModal.tsx:32-37 | The quick amounts are one to four values. The first is ceil(total). They are strictly increasing, have no duplicates and are all ≥ total. The quick amounts are exactly the four candidates with repeats dropped: every candidate appears, and nothing else does. |
| Payment.PaymentModal.constructor | src/components/pos/PaymentModal.tsx:25-29 | The first mount on a visit of the POS page: cash selected, nothing typed (cash amount 0), no processing. Complete is enabled only for a total ≤ 0. Later openings do not pass through it. |
| Payment.PaymentModal.TotalChanges | src/components/pos/PaymentModal.tsx:20-27 | The `total` prop changes while the dialog's state stays: the POS page (src/app/(app)/pos/page.tsx, lines 167-172) always renders the same dialog, with the current cart total and no key. A new total keeps the method, the cash entry and the phase. When not processing, Complete is then enabled iff the kept method and cash pass the test against the new total. |
| Payment.PaymentModal.SelectMethod | src/components/pos/PaymentModal.tsx:77 | Sets the tender method and changes nothing else. |
| Payment.PaymentModal.EnterCash | src/components/pos/PaymentModal.tsx:96 | Sets the parsed cash entry and changes nothing else. |
| Payment.PaymentModal.PickQuickAmount | src/components/pos/PaymentModal.tsx:87-109 | The quick-amount buttons exist only while cash is selected. A quick amount writes itself into the cash field. The cash then covers the total, and Complete is enabled while the dialog is not processing. |
| Payment.PaymentModal.ClickComplete | src/components/pos/PaymentModal.tsx:39-48 | The click is ignored unless Complete is enabled, so it is ignored while processing. Otherwise processing starts. The method, the amount paid (cash amount, or exactly the total) and the total due are all fixed at click time, as the timer closure captures them. Nothing else changes. |
| Payment.PaymentModal.TimerFires | src/components/pos/PaymentModal.tsx:41-45 | Reports the fixed completion. It covers the total due at the click and equals it for non-cash tenders. Processing ends and the cash field is cleared. The method is not reset, and the total is unchanged. |
| Receipt.ReceiptNumberFormat | src/components/pos/ReceiptPreview.tsx:40 | The receipt number is "RCP-" followed by the last min(8, digits) digits of the timestamp. It has length 12 once the timestamp has 8 digits. |
| Receipt.LinesOf | src/components/pos/ReceiptPreview.tsx:74-81 | One line per cart item, in cart order, with quantity, name and price × quantity. |
| Receipt.RenderReceipt | src/components/pos/ReceiptPreview.tsx:40-126 | The discount line shows iff discount > 0, with amount subtotal × discount / 100. The change line shows iff change > 0. Subtotal, tax, total, method and amount paid are shown as passed. |
| Receipt.DiscountLine | src/components/pos/ReceiptPreview.tsx:92-97 | The discount line is present iff the discount is positive, and its amount is subtotal × discount / 100. |
| Receipt.DiscountLineMatchesCart | src/components/pos/ReceiptPreview.tsx:92-97 | Given the cart's subtotal, the receipt's discount line equals the cart panel's discount amount. |
| Receipt.ExactPaymentShowsNoChange | src/components/pos/ReceiptPreview.tsx:121-126 | A card or wallet payment, paid exactly the total, never shows a change line. |
| ProductGrid.Catalog | src/components/pos/ProductGrid.tsx:18-31 | Sanity check on sample values: the built-in catalog has twelve products. |
| ProductGrid.CatalogWellFormed | src/components/pos/ProductGrid.tsx:18-31 | Catalog ids are unique and every price is positive. |
| ProductGrid.FilteredProductsSpec | src/components/pos/ProductGrid.tsx:41-45 | A product is shown iff its category matches ("all" or equal) and its lower-cased name contains the lower-cased search. The result is an order-preserving subsequence of the catalog. |
| ProductGrid.AllWithEmptySearch | src/components/pos/ProductGrid.tsx:41-45 | "all" with an empty search shows the whole catalog. |
| ProductGrid.EmptySearchIsCategory | src/components/pos/ProductGrid.tsx:42-43 | With an empty search, a chosen category shows exactly the catalog products of that category. |
| ProductGrid.Cards | src/components/pos/ProductGrid.tsx:92-96 | One card per shown product, in order. Its click passes exactly that product's id, name and price. |
| PurchaseOrder.FindProductSpec | src/components/inventory/PurchaseOrderForm.tsx:63 | `find` returns a product iff the catalog lists that id, and the product returned has that id. |
| PurchaseOrder.LineTotal | src/components/inventory/PurchaseOrderForm.tsx:229 | A line's amount is a number exactly when its quantity is, and it is then quantity × unit price. |
| PurchaseOrder.SubtotalSpec | src/components/inventory/PurchaseOrderForm.tsx:92-95 | The left-to-right reduce gives a number exactly when every quantity is one, and that number is the sum of the line amounts. |
| PurchaseOrder.SubtotalAppend | src/components/inventory/PurchaseOrderForm.tsx:92-95 | No lines give subtotal 0. A line added at the end adds quantity × unit price. A NaN line, or an earlier NaN, makes the subtotal NaN. |
| PurchaseOrder.WithoutLineSpec | src/components/inventory/PurchaseOrderForm.tsx:80-82 | Removal drops exactly the lines with that id and keeps the rest in order. A numeric subtotal drops by exactly the removed lines' amounts. The subtotal is a number afterwards iff every NaN line had the removed id. |
| PurchaseOrder.WithQuantitySpec | src/components/inventory/PurchaseOrderForm.tsx:84-90 | Only the quantity of matching lines changes. The length and every other field are kept, and a quantity of 0 stays as a line. |
| PurchaseOrder.WithQuantityRepairs | src/components/inventory/PurchaseOrderForm.tsx:220-223 | A quantity typed into a line is a number (`|| 0`). So afterwards the subtotal is a number iff every NaN line was an edited one. |
| PurchaseOrder.PurchaseOrderForm.constructor | src/components/inventory/PurchaseOrderForm.tsx:53-58 | The form starts empty: no supplier, no lines, no selection. Save as Draft and Submit Order start disabled. |
| PurchaseOrder.PurchaseOrderForm.CanSaveDraft | src/components/inventory/PurchaseOrderForm.tsx:261 | Save as Draft is enabled exactly when the order has a line. |
| PurchaseOrder.PurchaseOrderForm.CanSubmit | src/components/inventory/PurchaseOrderForm.tsx:265 | Submit Order is enabled exactly when a supplier is chosen and a draft could be saved. |
| PurchaseOrder.PurchaseOrderForm.SelectSupplier | src/components/inventory/PurchaseOrderForm.tsx:53 | Sets the supplier only. |
| PurchaseOrder.PurchaseOrderForm.SelectProduct | src/components/inventory/PurchaseOrderForm.tsx:156 | Sets the selected product only. |
| PurchaseOrder.PurchaseOrderForm.EnterQuantity | src/components/inventory/PurchaseOrderForm.tsx:176 | Sets the quantity text only. |
| PurchaseOrder.PurchaseOrderForm.AddItem | src/components/inventory/PurchaseOrderForm.tsx:60-78 | Nothing changes unless a product is selected, a quantity is typed and the id is in the catalog. Otherwise exactly one line is appended, with the catalog name, sku and cost and the parsed quantity, NaN included. It is never merged with an existing line. Both inputs are cleared and a draft can be saved. The subtotal stays a number iff it was one and the quantity parsed to a number. |
| PurchaseOrder.PurchaseOrderForm.RemoveItem | src/components/inventory/PurchaseOrderForm.tsx:80-82 | The lines become the old lines without that id. |
| PurchaseOrder.PurchaseOrderForm.UpdateItemQuantity | src/components/inventory/PurchaseOrderForm.tsx:84-90 | The lines become the old lines with that id requantified. A numeric subtotal stays numeric. |
| RoleForm.ToggledSpec | src/components/staff/RoleForm.tsx:111-119 | A toggle changes the membership of exactly that permission, and toggling twice restores the set. |
| RoleForm.ApplyCategory | src/components/staff/RoleForm.tsx:121-132 | The `forEach` loop over the category's ids adds all of them to the set or deletes all of them. Ids outside the category are untouched. |
| RoleForm.SelectionSummary | src/components/staff/RoleForm.tsx:195-200 | The category's count is at most its size. "All selected" holds iff every id of the category is in the set, and "none" iff none is. "All" and "some" are never both true. |
| RoleForm.CategoryCheckbox | src/components/staff/RoleForm.tsx:196-215 | The category box is checked iff every permission of the category is selected, an empty category included. It is unchecked iff the category is non-empty and none is selected. It is indeterminate iff some are selected and some are not. |
| RoleForm.CategoryToggledSpec | src/components/staff/RoleForm.tsx:121-132 | After a category toggle the category is fully selected or fully unselected: fully unselected exactly when it was fully selected before. Permissions outside it are unchanged. |
| RoleForm.RoleEditor.constructor | src/components/staff/RoleForm.tsx:105-109 | The form starts from the edited role's name, description and permissions, or empty for a new role. |
| RoleForm.RoleEditor.EnterName | src/components/staff/RoleForm.tsx:105 | Sets the name only. |
| RoleForm.RoleEditor.EnterDescription | src/components/staff/RoleForm.tsx:105 | Sets the description only. |
| RoleForm.RoleEditor.TogglePermission | src/components/staff/RoleForm.tsx:111-119 | The set becomes the old set with that permission toggled. |
| RoleForm.RoleEditor.ToggleCategory | src/components/staff/RoleForm.tsx:121-132 | The set becomes the old set with the category toggled, computed by the loop. |
| RoleForm.RoleEditor.HandleSubmit | src/components/staff/RoleForm.tsx:134-146 | An empty name is reported first, then an empty permission set. Otherwise the role is saved ("updated" iff a role was being edited) and the form goes back. |
| Branches.InitialValid | src/components/settings/BranchManagement.tsx:31-59 | The three initial branches have unique ids and exactly one main branch. |
| Branches.SetMainSpec | src/components/settings/BranchManagement.tsx:139-145 | The branches with that id, and only they, become main. The length and all other fields are kept. |
| Branches.SetMainPreservesValid | src/components/settings/BranchManagement.tsx:139-145 | Setting an id that is in the list keeps exactly one main branch. An unknown id leaves none. |
| Branches.SetMainCount | src/components/settings/BranchManagement.tsx:139-145 | After Set Main, the number of main branches equals the number of branches with that id. |
| Branches.SetMainKeepsIds | src/components/settings/BranchManagement.tsx:139-145 | Set Main changes no id, so unique ids stay unique. |
| Branches.DeleteBranchSpec | src/components/settings/BranchManagement.tsx:114-129 | Deleting the main branch leaves the list unchanged. Any other delete removes exactly the branches with that id, keeping the order. |
| Branches.DeleteMainRefused | src/components/settings/BranchManagement.tsx:114-120 | When the first branch with the id is the main branch, delete returns the list unchanged. |
| Branches.DeletePreservesValid | src/components/settings/BranchManagement.tsx:114-129 | Delete keeps unique ids and exactly one main branch. |
| Branches.EditBranchSpec | src/components/settings/BranchManagement.tsx:86-93 | Saving an edit overwrites only name, address, phone and hours of that id. Id, active flag and main flag are kept. |
| Branches.EditPreservesValid | src/components/settings/BranchManagement.tsx:86-93 | Saving an edit keeps the invariant. |
| Branches.AddPreservesValid | src/components/settings/BranchManagement.tsx:99-105 | Adding with an unused id appends one active, non-main branch and keeps the invariant. |
| Branches.ToggleActiveSpec | src/components/settings/BranchManagement.tsx:131-137 | Toggling flips the active flag of that id only. It keeps the invariant, and applying it twice changes nothing. |
| Branches.BranchManagement.constructor | src/components/settings/BranchManagement.tsx:31-67 | The page starts with the three branches (invariant holding), the dialog closed and an empty form, so Save is disabled. |
| Branches.BranchManagement.SaveEnabled | src/components/settings/BranchManagement.tsx:301 | Save is enabled exactly when the form has a name, so never for the empty form. |
| Branches.BranchManagement.OpenDialog | src/components/settings/BranchManagement.tsx:69-83 | Opening the dialog for a branch copies its four text fields. Opening it for a new branch clears the form. Save then starts enabled iff an existing branch with a name is opened. The list is kept. |
| Branches.BranchManagement.EditForm | src/components/settings/BranchManagement.tsx:254-293 | Typing changes the form only. |
| Branches.BranchManagement.Save | src/components/settings/BranchManagement.tsx:85-112 | Reached only through the Save button, so only while the form has a name (line 301). The edited branch is overwritten, or a new branch is appended. The dialog closes and the invariant is kept. |
| Branches.BranchManagement.SetDialogOpen | src/components/settings/BranchManagement.tsx:239-300 | The dialog's `onOpenChange` and its Cancel button set only the open flag. The list, the edited branch and the form stay, and so does whether Save is enabled. |
| Branches.BranchManagement.Delete | src/components/settings/BranchManagement.tsx:114-129 | Deletion is refused iff the branch found for that id is the main one, in which case nothing changes. The invariant is kept. |
| Branches.BranchManagement.ToggleActiveOf | src/components/settings/BranchManagement.tsx:131-137 | Flips the active flag of that id. The invariant is kept. |
| Branches.BranchManagement.SetMainOf | src/components/settings/BranchManagement.tsx:139-150 | Sets the main branch. The invariant is kept for an id in the list. |
| TaxSettings.InitialValid | src/components/settings/TaxCurrencySettings.tsx:33-37 | The three initial rates have unique ids and exactly one default. |
| TaxSettings.SetDefaultSpec | src/components/settings/TaxCurrencySettings.tsx:69-76 | Exactly the rates with that id become default, and setting the same default again changes nothing. |
| TaxSettings.SetDefaultPreservesValid | src/components/settings/TaxCurrencySettings.tsx:69-76 | Setting an id in the list keeps exactly one default. An unknown id leaves none. |
| TaxSettings.SetDefaultCount | src/components/settings/TaxCurrencySettings.tsx:69-76 | After Set Default, the number of default rates equals the number of rates with that id. |
| TaxSettings.SetDefaultKeepsIds | src/components/settings/TaxCurrencySettings.tsx:69-76 | Set Default changes no id, so unique ids stay unique. |
| TaxSettings.DeleteRateSpec | src/components/settings/TaxCurrencySettings.tsx:61-67 | Delete removes exactly the rates with that id, keeping the order. |
| TaxSettings.DeletePreservesValid | src/components/settings/TaxCurrencySettings.tsx:61-67 | Deleting a non-default rate keeps the invariant. Deleting the default leaves none, which only the disabled button prevents. |
| TaxSettings.DefaultsAreOne | src/components/settings/TaxCurrencySettings.tsx:69-76 | Any list with exactly one default rate has only one rate marked default: any two defaults found in it are the same rate. |
| TaxSettings.AddPreservesValid | src/components/settings/TaxCurrencySettings.tsx:41-59 | Appending a non-default rate with an unused id keeps the invariant. |
| TaxSettings.TaxCurrencySettings.constructor | src/components/settings/TaxCurrencySettings.tsx:33-39 | The page starts with the three rates (invariant holding) and empty inputs, so Add starts disabled. |
| TaxSettings.TaxCurrencySettings.AddEnabled | src/components/settings/TaxCurrencySettings.tsx:208 | Add is enabled exactly when both the name and the rate input are non-empty. |
| TaxSettings.TaxCurrencySettings.EnterNewTax | src/components/settings/TaxCurrencySettings.tsx:38-39 | Typing sets the two inputs only. Add is then enabled iff both typed texts are non-empty. |
| TaxSettings.TaxCurrencySettings.AddTax | src/components/settings/TaxCurrencySettings.tsx:41-59 | An add happens iff Add is enabled. Otherwise nothing changes. An add appends one non-default rate, clears both inputs and so disables Add again. The invariant is kept. |
| TaxSettings.TaxCurrencySettings.DeleteTax | src/components/settings/TaxCurrencySettings.tsx:61-67 | Removes the rates with that id. The page only offers it for a non-default rate, so the invariant is kept. |
| TaxSettings.TaxCurrencySettings.SetDefaultOf | src/components/settings/TaxCurrencySettings.tsx:69-76 | Makes that id the default, keeping the invariant for an id in the list. |
| StockList.StatusCharacterisation | src/components/inventory/StockList.tsx:115-120 | Out iff stock is 0. Low iff stock ≠ 0 and stock ≤ min. High iff stock > min, stock ≠ 0 and stock ≥ 0.8 × max. Normal otherwise. |
| StockList.FilteredStockSpec | src/components/inventory/StockList.tsx:122-133 | The list is an order-preserving subsequence, holding exactly the items that match the search and the filter. "low" keeps low and out items, "out" only out items, "normal" only normal items, and high items appear only under "all". |
| StockList.AllWithEmptySearch | src/components/inventory/StockList.tsx:122-133 | "all" with an empty search lists everything. |
| StockList.CountersMatchLowFilter | src/components/inventory/StockList.tsx:180-189 | The Low Stock and Out of Stock counters add up to the size of the "low" filter with an empty search. |
| StockList.TotalUnitsAppend | src/components/inventory/StockList.tsx:198 | Total units is Σ current stock: 0 for no items, and an added item adds its stock. |
| StockList.MockCounters | src/components/inventory/StockList.tsx:180-198 | Sanity check on sample values: the sample stock has 5 items, 2 low, 1 out and 188 units. |
| StockList.RowFor | src/components/inventory/StockList.tsx:226-250 | The badge reads Out of Stock / Low Stock / In Stock exactly for out / low / high-or-normal items. The row is tinted only for out and low items. |
| StockList.Rows | src/components/inventory/StockList.tsx:220-262 | One row per listed item, in order. |
| StockList.StockListScreen.constructor | src/components/inventory/StockList.tsx:107-113 | The screen starts on the sample stock, an empty search, "all", the dialog closed, nothing selected, an empty quantity and "add". |
| StockList.StockListScreen.Search | src/components/inventory/StockList.tsx:108 | Sets the search only. |
| StockList.StockListScreen.SetFilter | src/components/inventory/StockList.tsx:109 | Sets the filter only. |
| StockList.StockListScreen.AdjustStock | src/components/inventory/StockList.tsx:135-139 | Adjust selects the item, empties the quantity and opens the dialog. The stock is a constant and is never changed. |
| StockList.StockListScreen.SetAdjustmentType | src/components/inventory/StockList.tsx:287-298 | Sets add or remove only. |
| StockList.StockListScreen.EnterAdjustmentQty | src/components/inventory/StockList.tsx:312 | Sets the quantity text only. |
| StockList.StockListScreen.ConfirmAdjustment | src/components/inventory/StockList.tsx:319 | Confirm only closes the dialog. |
| StockList.StockListScreen.SetDialogOpen | src/components/inventory/StockList.tsx:270 | The dialog's open change sets the open flag only. |
| ProductTable.StockBadgeSpec | src/components/products/ProductTable.tsx:39-43 | Exactly one of three badges. Stock 0 gives Out of Stock/destructive whatever the threshold. Non-zero stock ≤ threshold gives Low Stock/warning, and stock above the threshold gives In Stock/default. |
| ProductTable.AgreesWithStockStatus | src/components/products/ProductTable.tsx:39-43 | With threshold = min stock, the table's out and low badges agree with the stock list's status, and In Stock is its high or normal. |
| ProductTable.VariantSummarySpec | src/components/products/ProductTable.tsx:86-90 | The summary shows iff there are variants. One variant shows its value. Appending a variant appends ", " and its value. |
| ProductTable.RenderTable | src/components/products/ProductTable.tsx:63-130 | "No products found" shows iff there are no products. Otherwise the rows are in order, with each product's badge and summary. Edit passes the product and Delete passes its id. |
| ProductForm.AsWrittenLosesZeroThreshold | src/components/products/ProductForm.tsx:87 | Under the form's `|| 10`, a sheet mounted for a valid product whose threshold is 0 opens with threshold 10. |
| ProductForm.DefaultValuesSpec | src/components/products/ProductForm.tsx:78-89 | The mount-time defaults. With no product: threshold 10, inventory tracking on, and values the schema rejects until a name, SKU and category are given. With a product: its fields are copied, so a valid product gives valid values. The `||` and `??` readings differ exactly on a stored threshold of 0. |
| ProductForm.RemoveLastUndoesAppend | src/components/products/ProductForm.tsx:94-101 | Removing the last index after an append restores the list. |
| ProductForm.ProductFormSheet.constructor | src/components/products/ProductForm.tsx:66-90 | The mount. The values, and the reset values `useForm` keeps, are the defaults for the product passed then. The variants and the image come from that product, or the lists are empty. The variant inputs are empty. |
| ProductForm.ProductFormSheet.Title | src/components/products/ProductForm.tsx:131 | The title says "Edit Product" exactly when a product is passed now, and "Add New Product" exactly when none is. |
| ProductForm.ProductFormSheet.EditingProductChanges | src/components/products/ProductForm.tsx:66-90 | A new `editingProduct` on the mounted sheet changes only the prop. The values, the reset values, the lists and the inputs are kept. |
| ProductForm.ProductFormSheet.Remount | src/components/products/ProductForm.tsx:66-90 | The corrected open for a product: the state the mount would give for that product. |
| ProductForm.EditFlowAsWritten | src/components/products/ProductForm.tsx:66-90 | The mount reads the product only once, and the products page (src/app/(app)/products/page.tsx, lines 84, 137-140 and 218-226) mounts the sheet for no product, and Edit then only sets the prop. For any valid product, the sheet says "Edit Product" over blank values that differ from the product's. There are no variants and no images. |
| ProductForm.EditFlowCorrected | src/components/products/ProductForm.tsx:66-90 | With a fresh mount per product, Edit opens on the product's own values, which also become the reset values, and on its image. A valid product opens as valid values. |
| ProductForm.ProductFormSheet.EditValues | src/components/products/ProductForm.tsx:76-90 | Typing changes the values only. |
| ProductForm.ProductFormSheet.EnterVariant | src/components/products/ProductForm.tsx:73-74 | Sets the two variant inputs only. |
| ProductForm.ProductFormSheet.AddVariant | src/components/products/ProductForm.tsx:92-98 | When both inputs are non-empty, exactly one {name, value} is appended and both inputs are cleared. Otherwise nothing changes. |
| ProductForm.ProductFormSheet.RemoveVariant | src/components/products/ProductForm.tsx:100-102 | Removes exactly the element at the index, keeping the order. An index out of range changes nothing. |
| ProductForm.ProductFormSheet.AddImage | src/components/products/ProductForm.tsx:104-113 | Appends one of the three fixed URLs and keeps the earlier images. |
| ProductForm.ProductFormSheet.RemoveImage | src/components/products/ProductForm.tsx:115-117 | Removes exactly the image at the index, keeping the order. |
| ProductForm.ProductFormSheet.Submit | src/components/products/ProductForm.tsx:119-124 | Values the schema rejects (an empty name, SKU or category, or a negative number) block the submit and change nothing. Accepted values go out with the current variants and images. Both lists are then empty, and the values return to those captured at mount. The prop is not involved. |
| ExpenseSummary.StatusTotalsAddUp | src/components/expenses/ExpenseSummary.tsx:11-14 | Paid + pending + overdue = total. |
| ExpenseSummary.Categories | src/components/expenses/ExpenseSummary.tsx:17-35 | The categories present in the expenses, each once. |
| ExpenseSummary.CategoryTotals | src/components/expenses/ExpenseSummary.tsx:17-20 | The accumulator loop builds a map whose keys are exactly the categories present. Each entry is the sum of that category's amounts. |
| ExpenseSummary.AccumulateStep | src/components/expenses/ExpenseSummary.tsx:17-20 | Adding one expense's amount to its category entry, a missing entry counting as 0, keeps the map equal to the category sums of the expenses read so far. |
| ExpenseSummary.AbsentCategorySum | src/components/expenses/ExpenseSummary.tsx:18 | A category with no expense sums to 0, the value the handler falls back to for a missing entry. |
| ExpenseSummary.CategoriesCoverTotal | src/components/expenses/ExpenseSummary.tsx:11-20 | The category totals add up to the overall total. |
| ExpenseSummary.ColorOf | src/components/expenses/ExpenseSummary.tsx:22-39 | A known category gets its colour, and any other gets #6b7280. |
| ExpenseSummary.PieData | src/components/expenses/ExpenseSummary.tsx:35-39 | One slice per distinct category, with that category's sum and colour. |
| ExpenseSummary.PieDataSpec | src/components/expenses/ExpenseSummary.tsx:35-39 | Slice names are unique, every expense's category has a slice, and the slices add up to the total. |
| ExpenseSummary.Legend | src/components/expenses/ExpenseSummary.tsx:145 | The legend shows the first min(6, slices) slices. |
| ExpenseSummary.MonthlyData | src/components/expenses/ExpenseSummary.tsx:42-49 | Six bars, the last being ("Jan", total). |
| ExpenseForm.NotesField | src/components/expenses/ExpenseForm.tsx:66 | Empty notes become absent, and non-empty notes are passed verbatim. |
| Browser.CentsStep | src/components/expenses/ExpenseForm.tsx:135-136 | A number input with `step="0.01"` accepts exactly the amounts that are a whole number of cents. |
| Browser.WholeOnCentStep | src/components/expenses/ExpenseForm.tsx:135-136 | Every whole amount is on the cent step. |
| Browser.TenthsOnCentStep | src/components/expenses/ExpenseForm.tsx:135-136 | Every amount with one decimal is on the cent step. |
| Browser.TenthOfCentOffStep | src/components/expenses/ExpenseForm.tsx:135-136 | Sanity check on sample values: 0.001 is off the cent step. |
| ExpenseForm.AmountAccepted | src/components/expenses/ExpenseForm.tsx:134-141 | The amount input's `min="0"` and `step="0.01"`: an amount passes exactly when it is not negative and a whole number of cents. |
| ExpenseForm.ExpenseEntry.constructor | src/components/expenses/ExpenseForm.tsx:49-54 | The form starts on today's date with every other input empty, so Save starts disabled. |
| ExpenseForm.ExpenseEntry.SaveDisabled | src/components/expenses/ExpenseForm.tsx:179 | Save is enabled exactly when the category, description, amount and payment method are all non-empty. |
| ExpenseForm.ExpenseEntry.SelectDate | src/components/expenses/ExpenseForm.tsx:92 | A picked date replaces the date. A cleared pick keeps the old one. Nothing else changes, and Save's state does not depend on the date. |
| ExpenseForm.ExpenseEntry.SetCategory | src/components/expenses/ExpenseForm.tsx:101 | Sets the category only. |
| ExpenseForm.ExpenseEntry.SetDescription | src/components/expenses/ExpenseForm.tsx:122 | Sets the description only. |
| ExpenseForm.ExpenseEntry.SetAmount | src/components/expenses/ExpenseForm.tsx:139 | Sets the amount text only. |
| ExpenseForm.ExpenseEntry.SetPaymentMethod | src/components/expenses/ExpenseForm.tsx:148 | Sets the payment method only. |
| ExpenseForm.ExpenseEntry.SetNotes | src/components/expenses/ExpenseForm.tsx:169 | Sets the notes only. The optional notes never change whether Save is disabled. |
| ExpenseForm.ExpenseEntry.HandleSubmit | src/components/expenses/ExpenseForm.tsx:56-68 | Nothing is submitted iff the Save button is disabled (a required input is empty) or the browser refuses the amount (negative, or not a whole number of cents). Otherwise one record goes out, with the inputs unchanged, the parsed amount and the notes only when non-empty. A submitted amount is never negative and is in whole cents. |
| PlanUpgrade.UpgradeIffDearer | src/components/billing/PlanUpgradeModal.tsx:21-58 | For known plans, an upgrade holds iff the price difference is positive. The same plan is a downgrade. |
| PlanUpgrade.Capitalize | src/components/billing/PlanUpgradeModal.tsx:70 | The first character is upper-cased and the rest is kept. |
| PlanUpgrade.RenderModal | src/components/billing/PlanUpgradeModal.tsx:49-136 | Nothing renders iff either plan key is unknown. Otherwise the sign and |priceDiff| give back new − current price, "+" shows iff it is an upgrade, and the downgrade note shows iff it is not. The title and features follow the new plan. Confirm raises `onConfirm` once and then closes, and Cancel only closes. |
| SalesHistory.FilteredSalesSpec | src/components/sales/SalesHistoryTable.tsx:38-46 | A sale is listed iff it meets all five criteria, and the result is an order-preserving subsequence. |
| SalesHistory.NoCriteriaKeepsAll | src/components/sales/SalesHistoryTable.tsx:38-46 | An empty search, "all" branch and staff, and empty dates list every sale. |
| SalesHistory.DateRange | src/components/sales/SalesHistoryTable.tsx:43-44 | Both bounds are inclusive. A start after the end lists nothing. |
| SalesHistory.TighteningShrinks | src/components/sales/SalesHistoryTable.tsx:45 | Tightening any criterion gives an order-preserving subsequence of the looser result, so never a longer one. |
| SalesHistory.TotalSalesBounds | src/components/sales/SalesHistoryTable.tsx:48 | With non-negative totals, 0 ≤ the listed total ≤ the total of all sales. |
| SalesHistory.ShowingCounts | src/components/sales/SalesHistoryTable.tsx:158 | "Showing n of m" has n = the number listed, m = the number of sales, and n ≤ m. |
| SystemLogs.FilteredLogsSpec | src/components/admin/SystemLogs.tsx:126-134 | The list is an order-preserving subsequence of exactly the matching logs. A log without details matches only through its message or category. After a level card is clicked, only logs of that level remain. |
| SystemLogs.EmptySearchKeepsAll | src/components/admin/SystemLogs.tsx:126-134 | An empty search with both filters on "all" keeps every log, with or without details. |
| SystemLogs.CategoriesSpec | src/components/admin/SystemLogs.tsx:136 | Each category is listed once, in first-occurrence order, and every log's category is listed. |
| SystemLogs.LevelCountsAddUp | src/components/admin/SystemLogs.tsx:138-143 | The four level counts add up to the number of logs. |
| SystemLogs.LevelCards | src/components/admin/SystemLogs.tsx:148-152 | Four cards, each showing its level's count and setting the filter to its level. |
| StaffList.RoleBadgeIgnoresCase | src/components/staff/StaffList.tsx:101-112 | The badge ignores letter case. It is destructive iff the lower-cased role is admin, default iff manager, secondary iff inventory manager, and outline otherwise. |
| StaffList.SampleRoleBadges | src/components/staff/StaffList.tsx:101-112 | Sanity check on sample values: "Admin" is destructive and "Cashier" is outlined. |
| StaffList.FilteredStaffSpec | src/components/staff/StaffList.tsx:119-126 | A member is listed iff the name or email matches the search (case-blind), the role matches exactly (or "all") and the status matches (or "all"). The result is an order-preserving subsequence. |
| StaffList.NoFilterKeepsAll | src/components/staff/StaffList.tsx:119-126 | An empty search with both selectors on "all" lists everybody. |
| StaffList.UniqueRolesSpec | src/components/staff/StaffList.tsx:128 | Each role appears once, in first-occurrence order. Every member's role appears, and there are no more roles than members. |
| StaffList.StatusCountsAddUp | src/components/staff/StaffList.tsx:142-184 | Active + inactive = total staff. |
| StaffList.MockCounters | src/components/staff/StaffList.tsx:142-186 | Sanity check on sample values: the sample staff are 5 members: 4 active and 1 inactive. |
| StaffList.AvatarFallback | src/components/staff/StaffList.tsx:265-270 | The avatar fallback is the first letter of each non-empty space-separated word, with no upper-casing, and never longer than the word count. |
| StaffList.RenderTable | src/components/staff/StaffList.tsx:259-325 | One row per listed member, in order, with the role badge, a status badge that is default iff active, and Edit passing that member. "No staff members found" shows iff no one is listed. |
| StaffForm.InitialData | src/components/staff/StaffForm.tsx:34-42 | The form starts from the edited member's text fields, or blank. The Active switch starts on iff an active member is edited, and the invitation switch starts on iff adding. |
| StaffForm.InitialDataSubmission | src/components/staff/StaffForm.tsx:34-48 | A new member's blank form is refused. An edited member can be saved at once iff their name, email and role are set. |
| StaffForm.Captions | src/components/staff/StaffForm.tsx:63-163 | The title (line 63) reads "Edit Staff Member" and the button (line 163) "Update Staff" exactly when a member is being edited; otherwise they read "Add New Staff Member" and "Add Staff". |
| StaffForm.ValidEmail | src/components/staff/StaffForm.tsx:80-86 | The `type="email"` input's test, as the HTML standard defines a valid e-mail address: exactly one `@`, a non-empty local part of allowed characters, then dot-separated labels of 1 to 63 letters, digits or inner hyphens. |
| StaffForm.AddressFromParts | src/components/staff/StaffForm.tsx:80-86 | Any local part of allowed characters, joined by `@` to a domain whose labels are all valid, is accepted. |
| StaffForm.TwoLabelDomain | src/components/staff/StaffForm.tsx:80-86 | Two valid labels joined by a dot form a domain whose every label is valid. |
| StaffForm.ShortestEmail | src/components/staff/StaffForm.tsx:80-86 | Sanity check on sample values: "a@b" is accepted: a single label with no dot is a domain. |
| StaffForm.EmailNeedsDomain | src/components/staff/StaffForm.tsx:80-86 | Sanity check on sample values: a name without `@`, or a name and `@` with nothing after, is refused. |
| StaffForm.EmailNeedsEveryPart | src/components/staff/StaffForm.tsx:80-86 | Sanity check on sample values: nothing before the `@`, or an empty label between two dots, is refused. |
| StaffForm.SwiftposAddress | src/components/staff/StaffList.tsx:48-99 | Any lower-case name at the sample staff's domain, swiftpos.com, is an address. |
| StaffForm.StaffEditor.constructor | src/components/staff/StaffForm.tsx:34-42 | The form data starts as the initial data. The invitation flag starts on exactly when its switch is shown. |
| StaffForm.StaffEditor.InviteSwitchShown | src/components/staff/StaffForm.tsx:147-158 | The invitation switch is shown exactly when the form is adding a member, the case where the button reads "Add Staff". |
| StaffForm.StaffEditor.SetName | src/components/staff/StaffForm.tsx:73 | Sets the name only. |
| StaffForm.StaffEditor.SetEmail | src/components/staff/StaffForm.tsx:84 | Sets the email only. |
| StaffForm.StaffEditor.SetPhone | src/components/staff/StaffForm.tsx:94 | Sets the phone only. |
| StaffForm.StaffEditor.SetRole | src/components/staff/StaffForm.tsx:103 | Sets the role, one of the four offered, and nothing else. |
| StaffForm.StaffEditor.SetBranch | src/components/staff/StaffForm.tsx:122 | Sets the branch, one of the three offered, and nothing else. |
| StaffForm.StaffEditor.SetStatus | src/components/staff/StaffForm.tsx:143 | Sets the Active switch only. |
| StaffForm.StaffEditor.SetSendInvite | src/components/staff/StaffForm.tsx:147-156 | The invitation switch, shown only when adding, sets that flag only. |
| StaffForm.StaffEditor.HandleSubmit | src/components/staff/StaffForm.tsx:44-52 | The browser blocks the submit, before the handler runs and with no toast, iff the email is non-empty and not an address. Otherwise the submit is refused, with the required-fields error, iff name, email or role is empty; phone and branch are optional. It is accepted iff name, email and role are set and the email is an address. Acceptance goes back once, with "Staff member updated" or "Staff member added". |
| CustomerList.GetInitialsSpec | src/components/customers/CustomerList.tsx:108-114 | One upper-cased first letter per non-empty space-separated word. An empty word (a doubled space) adds nothing, so the initials are never longer than the word count. |
| CustomerList.FilteredCustomersSpec | src/components/customers/CustomerList.tsx:94-99 | A customer is listed iff the lower-cased name or email contains the lower-cased query, or the phone contains the query as typed. The result is an order-preserving subsequence. |
| CustomerList.EmptyQueryListsAll | src/components/customers/CustomerList.tsx:94-99 | An empty query lists every customer. |
| CustomerList.CountersFor | src/components/customers/CustomerList.tsx:128-150 | Over all customers whatever the search: the count, the active count (at most the count), Σ total purchases and Σ credit balance. |
| CustomerList.MockCounters | src/components/customers/CustomerList.tsx:128-150 | Sanity check on sample values: the sample customers: 5, of whom 4 are active, with 10580 of sales and 545 of credit. |
| CustomerList.CreditCell | src/components/customers/CustomerList.tsx:200-206 | The amount shows iff the balance is positive, and a dash otherwise. |
| CustomerList.OutstandingCreditIsShownCredit | src/components/customers/CustomerList.tsx:145-149 | With no negative balances, the Outstanding Credit counter equals the sum of the amounts the credit cells show. |
| CustomerList.Rows | src/components/customers/CustomerList.tsx:166-225 | One row per listed customer, in order, with the credit cell, an Active badge iff active, and View passing that customer's id. |

## Left out

- The cart-owning point-of-sale page is not part of this model (src/app/(app)/pos/page.tsx). Add-to-cart merging, removal at quantity 0, hold/clear/new-sale and the phone lookup are the page's. The cart panel and the product grid only raise them, so they appear as event values whose meaning is not modelled.
- Binary floating point: money is exact `real`. `toFixed`, `Intl.NumberFormat` and `toLocaleString` are display formatting and are not modelled.
- `toLowerCase`/`toUpperCase` are modelled for ASCII letters only. Unicode case mapping is not modelled.
- `parseFloat`, `parseInt`, `Number` and zod's `coerce`: the parsed number is a parameter, or `None` for NaN. The parsing itself and zod's error messages are not modelled.
- `Date.now()` ids and receipt timestamps are parameters. Branches.BranchManagement.Save and TaxSettings.TaxCurrencySettings.AddTax require the new id to be absent from the list, so two adds in the same millisecond are excluded there. PurchaseOrder.PurchaseOrderForm.AddItem takes any id, and a repeated id is removed and updated as the source does.
- The `setTimeout` in the payment dialog becomes an explicit processing phase and a timer event. The delay itself is not modelled.
- Toasts are modelled as the outcome a handler returns (the message), not as notifications.
- The date picker's `Date` values are kept as opaque strings.
- Dialog `open`/`onOpenChange` props owned by parent components are not modelled, except the stock-adjust and branch dialogs, whose state is local.
- TaxCurrencySettings: the currency, tax-inclusive and rounding inputs and its `handleSave` only hold or toast a value, so only the tax-rate list is modelled.
- ExpenseSummary.MonthlyData: the five earlier months are fixed figures, and only the last bar is computed.
- PlanUpgrade.RenderModal: a JavaScript object lookup also finds inherited keys such as "constructor". The model treats a plan as known only when it is one of the four table keys.
- SystemLogs: the ten sample logs are not reproduced. The properties are proved for any list of logs.
- ProductForm.ProductFormSheet.constructor: the mount uses the corrected `??` threshold default (see Findings). The as-written `||` reading is kept as ProductForm.DefaultValuesAsWritten.
- StaffForm.ValidEmail: the browser strips line breaks and outer whitespace from an email input's value before its check. The model takes the value after that stripping.
- ProductForm.ProductFormSheet.Submit: the browser's step check on the product's number inputs is not modelled. They have no `min`, so the step base is the input's `value` attribute, which React sets to the typed value when the field loses focus: after a click on Save every value passes. A submit by Enter from a field that still has focus, whose attribute may hold an older value, is not modelled.
- ProductForm: stock and low-stock threshold are `int`. The schema's `z.coerce.number().min(0)` also accepts a fraction such as 2.5 there, which the model cannot hold.
- ExpenseSummary.CategoryTotals, and so ExpenseSummary.PieData: the model keys the totals by category name in first-occurrence order, an absent key counting as 0. JavaScript's `Object.entries` lists integer-like keys first, and `acc[c] || 0` also finds inherited keys such as "constructor". The model covers neither, and no category the expense form offers is such a key.
- ProductGrid: the per-category product counts shown on the category buttons are fixed figures in the source, not computed from the catalog, and are not modelled.
- CustomerProfile's `getInitials` is identical to CustomerList's, so CustomerList.GetInitials covers both.

## Findings

| source | as written | input that shows it | evidently intended | confidence | as-written member | corrected member |
|---|---|---|---|---|---|---|
| src/components/products/ProductForm.tsx:87 | `lowStockThreshold: editingProduct?.lowStockThreshold \|\| 10` treats a stored threshold of 0 as missing | mounting the sheet for a product whose `lowStockThreshold` is 0 opens the form with 10, and saving writes 10 back (the products page never mounts it for a product, see the next row, so this shows only once that is corrected) | default to 10 only for a new product, keeping a stored 0 (`??`) | not executed | ProductForm.AsWrittenLosesZeroThreshold | ProductForm.DefaultValuesSpec |
| src/components/products/ProductForm.tsx:66-90 | the variants, the images and the form defaults are read from `editingProduct` only at mount, and the products page mounts the sheet once, for no product, and without a `key` (src/app/(app)/products/page.tsx:218-226) | click Edit on any product: the sheet says "Edit Product" but shows blank fields with threshold 10 and no variants or images, and a submit, once the required fields are filled in again, replaces the product with what was typed, with no variants and the fallback image (src/app/(app)/products/page.tsx:106-122) | the sheet opens on the edited product's values, variants and image | not executed | ProductForm.EditFlowAsWritten | ProductForm.EditFlowCorrected |
