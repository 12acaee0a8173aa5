# Point-of-sale pages: a Dafny model of their logic

The system is a point-of-sale web front end (React pages in Spanish). It holds
no back end, and the pages' logic is a set of small pure computations. This
project models them as immutable datatypes and pure functions and proves what
the pages promise about them:

- **Pos** (`pos.dfy`): the sale cart, a sequence of lines keyed by product id.
  It covers add, change quantity, remove, the subtotal with 16% IVA and total,
  complete sale, and the product search.
- **Inventory**, **Customers**, **Suppliers**, **Audit**, **Billing**, **Users**:
  each page's record filter, its summary cards (counts and sums), and the small
  per-page rules (stock classification, badge variant, available credit, RFC
  upper-casing, row buttons).
- **Suppliers** also reads the number of days out of a payment term such as
  "30 días", the way `parseInt(terms.split(' ')[0]) || 0` does, and averages it.
- **Audit** also lists the distinct users and actions for its two selects, each
  once and in order of first appearance.
- **Users** covers the new-user dialog's permission switches and its reset on
  "create".
- **Activation** covers licence activation and deactivation, and the
  once-a-second countdown to the expiry date.
- **Text** and **Listing** are shared. Text has the ASCII case fold, substring
  search and decimal printing. Listing has the stable `Filter`, `Count`, `SumOf`,
  `Mean` and the order-keeping de-duplication.

Every page filter is `Listing.Filter` with a page predicate. `Filter` keeps the
input's order (`IsSubseq`) and keeps exactly the records that satisfy the
predicate. A select on its sentinel (`'all'`, or `'Todas'` for inventory
categories) lets every record through (`Listing.Selects`). An optional field
that is absent (`email?.`, `contactName?.`) never matches.

Money is `real`, so the tax is exactly 16/100 of the subtotal. Quantities,
stock and times in milliseconds are `int`. The clock is a parameter (`now`).

## Model

| member | source | states |
|---|---|---|
| Pos.AddToCart | src/pages/POS.tsx:49-66 | For a product not in the cart, exactly one line is appended (quantity 1, total = price) and the earlier lines are unchanged. For a product already in the cart, the length is kept, only that line's quantity grows by one, and its total becomes (q+1) × price. |
| Pos.AddPreservesInvariant | src/pages/POS.tsx:49-66 | Adding keeps the cart invariant: distinct ids, quantity at least 1, and total = quantity × price. This holds when the product passed in is the one already in the cart under that id. |
| Pos.AddCountsOneUnit | src/pages/POS.tsx:49-66 | Adding raises the product's quantity by exactly one, counting absence as zero, and leaves every other id's quantity alone. |
| Pos.AddRaisesSubtotal | src/pages/POS.tsx:49-66 | On a cart that keeps the invariant, adding a product raises the subtotal by exactly its price. This holds when the product is the record the cart already holds under its id, as it always is when products come from the one catalogue. |
| Pos.UpdateQuantity | src/pages/POS.tsx:68-79 | For n ≤ 0 the result is the same cart as removing the id. For n > 0 only that line changes, taking quantity n and total n × price. An id not in the cart leaves the cart unchanged. |
| Pos.UpdatePreservesInvariant | src/pages/POS.tsx:68-79 | Changing a quantity keeps the cart invariant. |
| Pos.UpdateSetsQuantity | src/pages/POS.tsx:68-79 | After the change the id's quantity is n when n > 0 and the line exists, and 0 otherwise. Other ids keep their quantity. |
| Pos.DecrementLastUnitRemovesLine | src/pages/POS.tsx:181 | The minus button on a line of quantity 1 gives the same cart as removing it, and that id is no longer in the cart. |
| Pos.RemoveFromCart | src/pages/POS.tsx:81-83 | The result keeps exactly the lines with another id, in order. The id is no longer in the cart, and a cart without it is returned unchanged. Each kept record appears as often as in the input: the length is the number of lines with another id. |
| Pos.RemovePreservesInvariant | src/pages/POS.tsx:81-83 | Removing keeps the cart invariant. |
| Pos.RemoveClearsQuantity | src/pages/POS.tsx:81-83 | After removal the id's quantity is 0 and every other id keeps its quantity. |
| Pos.RemoveLowersSubtotal | src/pages/POS.tsx:81-83 | With distinct ids, removing lowers the subtotal by exactly that line's amount. |
| Pos.CartTotals | src/pages/POS.tsx:85-87 | Tax is 16/100 of the subtotal and total is 116/100 of it. An empty cart gives three zeros. |
| Pos.SubtotalIsSumOfListPrices | src/pages/POS.tsx:85 | On a cart that keeps the invariant, the subtotal equals Σ quantity × price. |
| Pos.TotalsOrdered | src/pages/POS.tsx:85-87 | With non-negative prices, 0 ≤ tax ≤ subtotal ≤ total. |
| Pos.CompleteSale | src/pages/POS.tsx:89-107 | An empty cart is refused and nothing changes. Otherwise the cart and the search are emptied and the notice carries subtotal × 116/100. |
| Pos.CompleteSaleTwiceRefused | src/pages/POS.tsx:89-107 | Completing a sale a second time is refused as an empty cart. |
| Pos.FilterProducts | src/pages/POS.tsx:44-47 | Keeps, in order, exactly the products whose case-folded name or code contains the case-folded term. Each kept record appears as often as in the input: the length is the number of matches. |
| Pos.EmptySearchListsAllProducts | src/pages/POS.tsx:44-47 | An empty search lists every product. |
| Inventory.FilterInventory | src/pages/Inventory.tsx:91-98 | Keeps, in order, exactly the items that meet three conditions. The case-folded name or code contains the term. The category equals the selection or the selection is 'Todas'. The status equals the filter or the filter is 'all'. Each kept record appears as often as in the input: the length is the number of matches. |
| Inventory.NoCriteriaListsEverything | src/pages/Inventory.tsx:91-98 | Empty search, 'Todas' and 'all' list every item. |
| Inventory.StockLevelOf | src/pages/Inventory.tsx:108-113 | 'Sin Stock' iff stock = 0. 'Crítico' iff stock ≠ 0 and stock ≤ minStock/2. 'Bajo' iff minStock/2 < stock ≤ minStock. 'Normal' otherwise, which for positive stock means stock > minStock. |
| Inventory.StockLevelMonotone | src/pages/Inventory.tsx:108-113 | For positive stock, more stock never gives a more urgent level. |
| Inventory.StockLabelsDistinct | src/pages/Inventory.tsx:108-113 | The four labels are pairwise different, so the label identifies the level. |
| Inventory.StockBadgeVariant | src/pages/Inventory.tsx:100-106 | 'critical' maps to destructive, 'low_stock' to secondary, and every other status to default. |
| Inventory.InventoryValueNonNegative | src/pages/Inventory.tsx:176 | Σ stock × cost is non-negative when every stock and cost is. |
| Inventory.InventoryValueAdditive | src/pages/Inventory.tsx:176 | The value of two item lists together is the sum of their values. |
| Inventory.StatusCountsBounded | src/pages/Inventory.tsx:154-165 | The low-stock and critical cards together never exceed the item count. |
| Inventory.BadgesMatchCards | src/pages/Inventory.tsx:100-165 | Over the whole inventory, the items with a destructive badge are exactly as many as the "Stock Crítico" card counts, and those with a secondary badge as many as the "Stock Bajo" card. |
| Inventory.TableBadgesWithinCards | src/pages/Inventory.tsx:154-250 | The table renders the filtered items while the cards count all of them. So its destructive and secondary badges never outnumber the "Stock Crítico" and "Stock Bajo" cards, and match them exactly when no criterion is set. |
| Customers.FilterCustomers | src/pages/Customers.tsx:120-128 | Keeps, in order, exactly the matching customers. A type or status select other than 'all' admits only that value. A customer without an email matches only by name or code. Each kept record appears as often as in the input: the length is the number of matches. |
| Customers.NoCriteriaListsEveryone | src/pages/Customers.tsx:120-128 | Empty search with both selects on 'all' lists every customer. |
| Customers.UnknownTypeListsNobody | src/pages/Customers.tsx:124 | A type select on a value no customer type has lists nobody. |
| Customers.TypeCountsPartition | src/pages/Customers.tsx:146-148 | The frequent, new and delinquent counts add up to the number of customers. |
| Customers.TotalSalesAdditive | src/pages/Customers.tsx:149 | Total sales over two lists is the sum of both. It is taken over every customer, whatever the filters. |
| Customers.AvailableCredit | src/pages/Customers.tsx:319-325 | Shown iff a limit is present and not zero. Then available + (current credit, or 0) = limit. |
| Customers.AvailableCreditBounds | src/pages/Customers.tsx:319-325 | With a positive limit and credit in use within [0, limit], the available credit lies within [0, limit]. |
| Suppliers.FilterSuppliers | src/pages/Suppliers.tsx:124-131 | Keeps, in order, exactly the matching suppliers. A status other than 'all' admits only that status. A supplier without a contact matches only by name or code. Each kept record appears as often as in the input: the length is the number of matches. |
| Suppliers.NoCriteriaListsEverySupplier | src/pages/Suppliers.tsx:124-131 | Empty search with 'all' lists every supplier. |
| Suppliers.ActiveCount | src/pages/Suppliers.tsx:140 | The active count never exceeds the supplier count. |
| Suppliers.ActivePlusInactive | src/pages/Suppliers.tsx:140 | Active and inactive suppliers together make up the list shown as "de N totales". |
| Suppliers.TotalsOfAddedSupplier | src/pages/Suppliers.tsx:141-142 | A further supplier adds its purchases to the purchase total, and its balance (0 when absent) to the balance total. |
| Suppliers.AbsentBalancesCountAsZero | src/pages/Suppliers.tsx:142 | Dropping the suppliers without a balance leaves the balance total unchanged. |
| Suppliers.FirstWord | src/pages/Suppliers.tsx:144 | The text before the first space: a space-free prefix followed by a space or by the end. |
| Suppliers.TermDaysRoundTrip | src/pages/Suppliers.tsx:144 | A term written as a decimal day count, a space and anything (e.g. "30 días") reads back as that count. |
| Suppliers.TermDaysSkipsLeadingSpace | src/pages/Suppliers.tsx:144 | White space before the number is skipped as `parseInt` skips it. This covers tab, vertical tab, form feed, the byte-order mark, every Unicode space separator and the line terminators, but not the plain space, where the term is split. For example, an ideographic space (U+3000) followed by "30 días" reads as 30. |
| Suppliers.NonNumericTermIsZero | src/pages/Suppliers.tsx:144 | A term that begins with neither a `parseInt` white-space character, a sign nor a digit (e.g. "Contado") reads as 0. |
| Suppliers.PaymentDays | src/pages/Suppliers.tsx:143-145 | One day count per supplier, in order. |
| Suppliers.AvgPaymentTerms | src/pages/Suppliers.tsx:143-146 | Defined iff there is a supplier, and then equal to Σ days / number of suppliers. |
| Suppliers.AvgPaymentTermsWithin | src/pages/Suppliers.tsx:143-146 | The average lies between any lower and upper bound of the individual terms. |
| Listing.Mean | src/pages/Suppliers.tsx:143-146 | Defined iff the list is non-empty; then mean × length = sum. |
| Audit.FilterLogs | src/pages/Audit.tsx:119-129 | Keeps, in order, exactly the matching entries. An action or user select other than 'all' admits only that exact value. Each kept record appears as often as in the input: the length is the number of matches. |
| Audit.NoCriteriaListsEveryEntry | src/pages/Audit.tsx:119-129 | Empty search with both selects on 'all' lists every entry. |
| Audit.IpMatchIsRaw | src/pages/Audit.tsx:120-123 | For any entry whose user and description do not contain the text (ignoring case), the entry is found iff its IP address contains the text exactly as typed. |
| Audit.IpMatchIsCaseSensitive | src/pages/Audit.tsx:121-123 | User and description are compared case-folded, the IP address raw: "localhost" is found by "localhost" and not by "LOCALHOST". |
| Audit.UniqueUsers | src/pages/Audit.tsx:131 | No duplicates. Exactly the users that occur in the log, in order of first occurrence. |
| Audit.UniqueActions | src/pages/Audit.tsx:132 | No duplicates. Exactly the actions that occur in the log, in order of first occurrence. |
| Listing.UniqueInOrder | src/pages/Audit.tsx:131-132 | `Array.from(new Set(xs))`: no duplicates, the same members as xs, and ordered by first index in xs. |
| Audit.Stats | src/pages/Audit.tsx:134-139 | Total is the log length. Today ≤ total and errors + warnings ≤ total. Today is 0 iff no timestamp starts with '2025-10-02'. Errors is 0 iff no entry has severity 'error'. |
| Audit.StatsOfAppendedEntry | src/pages/Audit.tsx:134-139 | One more entry moves the total by one, and moves each other card by one exactly when the entry qualifies for it. |
| Billing.FilterInvoices | src/pages/Billing.tsx:121-125 | Keeps, in order, exactly the invoices whose case-folded customer, id or RFC contains the case-folded term. Each kept record appears as often as in the input: the length is the number of matches. |
| Billing.EmptySearchListsEveryInvoice | src/pages/Billing.tsx:121-125 | An empty search lists every invoice. |
| Billing.SearchIgnoresTermCase | src/pages/Billing.tsx:121-125 | Under the ASCII fold, searching with the term upper-cased lists the same invoices. |
| Billing.ListedInvoices | src/pages/Billing.tsx:121-125 | The table rows are the invoices matching the search box, in order. Each kept record appears as often as in the input: the length is the number of matches. |
| Billing.SelectsDoNotFilter | src/pages/Billing.tsx:291-312 | The uncontrolled status and period selects do not change the rows. |
| Billing.StatusCountsBounded | src/pages/Billing.tsx:256-267 | The 'timbrada' and 'borrador' cards together never exceed the invoice count. |
| Billing.SetCustomerRfc | src/pages/Billing.tsx:173-179 | Under the ASCII fold, the stored RFC is the input cut to 13 characters and has no lower-case ASCII letter. It differs from the typed text only in ASCII case, and the other form fields are unchanged. |
| Billing.RfcEditIdempotent | src/pages/Billing.tsx:176 | Entering the stored RFC again changes nothing. |
| Billing.CreateInvoice | src/pages/Billing.tsx:210-215 | "Crear Factura" only closes the dialog; the search and the form keep their values. |
| Billing.RowActions | src/pages/Billing.tsx:361-374 | View, download and print are always offered, in that order, and send is the only other button, offered iff the status is 'timbrada'. |
| Billing.SendRowsAreStamped | src/pages/Billing.tsx:256-370 | Over the whole invoice list, the number of rows offering "send" equals the "Timbradas" card. |
| Billing.ListedSendRowsWithinCard | src/pages/Billing.tsx:256-370 | The table renders the searched invoices while the card counts all of them. So the listed "send" buttons never outnumber the "Timbradas" card, and match it with an empty search. |
| Users.FilterUsers | src/pages/Users.tsx:116-119 | Keeps, in order, exactly the users whose case-folded name or email contains the case-folded term. Each kept record appears as often as in the input: the length is the number of matches. |
| Users.EmptySearchListsEveryUser | src/pages/Users.tsx:116-119 | An empty search lists every user. |
| Users.ActivePlusInactive | src/pages/Users.tsx:250-271 | The active and inactive cards add up to the total. |
| Users.AdminCount | src/pages/Users.tsx:282 | The admin count never exceeds the user count. |
| Users.RowActions | src/pages/Users.tsx:358-368 | Edit and permissions are always offered, in that order, and delete is the only other button, offered iff the role is not 'admin'. |
| Users.DeletableRowsAreNonAdmins | src/pages/Users.tsx:282 | Over the whole user list, the rows offering delete and the administrators together are all the users. |
| Users.ListedDeleteRowsWithinCards | src/pages/Users.tsx:282-368 | The table renders the searched users while the cards count all of them. So the listed delete buttons plus the "Administradores" card never exceed the user count, and equal it with an empty search. |
| Users.EmptyForm | src/pages/Users.tsx:101-114 | The dialog opens with name and email '', role 'cashier', and exactly the seven permission keys, all off. |
| Users.SetPermission | src/pages/Users.tsx:140-148 | Permission k becomes v. Every other permission, and name, email and role, are unchanged. |
| Users.PermissionToggleRestores | src/pages/Users.tsx:140-148 | Switching a permission and switching it back restores the form exactly. |
| Users.PermissionChangesCommute | src/pages/Users.tsx:140-148 | Changes to two different permissions can be made in either order. |
| Users.CreateUser | src/pages/Users.tsx:121-138 | Closes the dialog and resets the form to '', '', 'cashier' with the seven permissions off. The search is unchanged. |
| Users.CreateUserForgetsEntries | src/pages/Users.tsx:121-148 | Whatever switches were flipped, creating leaves the same page state. |
| Activation.EditName | src/pages/Activation.tsx:158-164 | The name input is ignored while the licence is active; otherwise only the name changes. |
| Activation.EditKey | src/pages/Activation.tsx:169-175 | The key input is ignored while the licence is active; otherwise only the key changes. |
| Activation.Activate | src/pages/Activation.tsx:50-79 | Accepted iff both name and key are non-empty. When refused the state is unchanged. When accepted the licence is active and expires 365 days of milliseconds after `now`. |
| Activation.Deactivate | src/pages/Activation.tsx:81-87 | Name and key become '', the licence inactive, no expiry, and the remaining text ''. |
| Activation.DeactivatedNeedsNewEntries | src/pages/Activation.tsx:12-16 | After deactivation the page is in its initial state, and activating again is refused until a name and key are entered. |
| Activation.Countdown | src/pages/Activation.tsx:40-41 | For diff > 0: hours < 24 and days·86 400 000 + hours·3 600 000 ≤ diff < days·86 400 000 + (hours+1)·3 600 000. |
| Activation.CountdownUnique | src/pages/Activation.tsx:40-41 | The countdown is the only day/hour pair that brackets diff that way. |
| Activation.Tick | src/pages/Activation.tsx:30-43 | Without an expiry nothing happens. At or past the expiry the licence becomes inactive with 'Licencia expirada'. Before it, the text is the countdown. Name, key and expiry never change. |
| Activation.TickIdempotent | src/pages/Activation.tsx:30-43 | A second tick at the same instant changes nothing. |
| Activation.LicenseLastsOneYear | src/pages/Activation.tsx:36-38 | After activation at `now`, a tick at now + t leaves the licence active iff t is shorter than 365 days. From then on the text is 'Licencia expirada'. |
| Activation.FirstTicksShow364Days | src/pages/Activation.tsx:32-44 | The interval first fires at least a second after activation (line 73). For a year of exactly 365 × 24 h, every tick within the first hour after activation therefore shows "364 días, 23 horas", and the full "365 días, 0 horas" is not displayed. |
| Activation.ExpiredLicenseCanBeRenewed | src/pages/Activation.tsx:36-79 | An expired licence keeps its name and key, and activating it again starts a new year. |
| Text.NatToStringRoundTrip | src/pages/Activation.tsx:42 | The decimal text of a number, as written into the countdown, reads back as that number. |
| Text.FoldContainsIgnoresTermCase | src/pages/POS.tsx:45-46 | Under the ASCII fold, `field.toLowerCase().includes(term.toLowerCase())` gives the same answer for the term upper-cased. |

## Left out

- Rendering, icons, badges' colours, dialogs' open state beyond the two create buttons, toasts and `console.log`: only the values they show are modelled. The notices of `Pos.CompleteSale` and `Activation.Activate` stand for the toasts.
- Browser storage: restoring and saving the licence (src/pages/Activation.tsx:18-28, 71) and the session in src/contexts/AuthContext.tsx are I/O. Restoring a licence is not modelled.
- The timer and the clock: `setInterval` and `new Date()` become the `now` parameter of `Activation.Tick` and `Activation.Activate`.
- Activation.Activate: `setDate(getDate() + 365)` is a calendar step in local time. Across a daylight-saving change it is an hour more or less than 365 × 86 400 000 ms. The model uses exactly 365 days of milliseconds.
- Activation.FirstTicksShow364Days: holds for the model's year of exactly 365 × 24 h. A `setDate` year that gains an hour across a daylight-saving change (activating at noon on 2 November 2024 in a US zone) leaves 365 days and 1 hour, so the first tick there shows "365 días, 0 horas"; a year an hour short shows "364 días, 22 horas".
- Floating-point arithmetic: money is exact `real`, so the `0.16` double and the rounding of `toFixed`/`toLocaleString` are not modelled.
- Suppliers.ParseInt: `parseInt` works in double precision, so digit runs beyond 2^53 lose precision in the source. The model keeps the exact integer.
- Text.Lower: `toLowerCase`/`toUpperCase` are modelled as an ASCII fold. Other letters (é, Ñ) keep their case in the model.
- Text.FoldContainsIgnoresTermCase: proved for the ASCII fold only. In JavaScript it fails for letters whose upper case is longer or folds elsewhere: "ß".toUpperCase() is "SS", so "straße" contains "ß" but not "ss"; ı and ſ behave alike.
- Billing.SetCustomerRfc: upper-cases with the ASCII fold only. JavaScript's `toUpperCase` also upper-cases letters such as é and ñ, and turns "ß" into "SS", which makes the stored RFC longer than what was kept. The model promises neither.
- Billing.SearchIgnoresTermCase: rests on Text.FoldContainsIgnoresTermCase and so holds only under the ASCII fold, for the same reason.
- Inventory, customers, suppliers, audit, billing and users hold constant sample data in the source. The model takes the record lists as arbitrary inputs.
- Pos.AddPreservesInvariant: the invariant is proved only when the product passed to `addToCart` is the one already in the cart under its id. The source recomputes the line total with the new product's price but keeps the old product record, so two products sharing an id with different prices break total = quantity × price.
- The cart never checks stock when adding, and neither does the model.
- The payment-method select of the cart, the invoice form's customer and payment-method inputs and the disabled "add product" button only store a value; they are not modelled.
- Users: the name, email and role inputs of the dialog are plain setters and are not modelled. The order of the permission switches on screen (`Object.entries`) is not modelled, since the permissions are a map.
- The licence inputs are disabled while the licence is active. `Activation.EditName`/`EditKey` model this by ignoring input then.
- Display-only pages (Dashboard, Finances, SalesSummary, Company, Settings, Support, the layout and the login form) hold no logic beyond constants and are not part of this model.

## Notes

- Inventory.StockLevelOf: the source tests `stock === 0`, then `stock <= minStock * 0.5`, then `stock <= minStock`. Negative stock with minStock ≥ 0 is therefore 'Crítico'. The contract states the conditions for every integer, negative ones included.
- The audit search box's placeholder mentions the action, but the search compares the user, the description and the IP address; the action is matched only by its select.
- Customers.AvailableCredit: a credit limit of 0 is falsy in the source, so such a customer shows "Sin crédito", just as one without a limit does.
- Suppliers.AvgPaymentTerms: on an empty list the source divides 0 by 0 and shows NaN. The model returns `None`.
