# Purchase line-item selection and session state, in Dafny

This project models the parts of the Shop-Smart inventory front-end that hold real state logic:

- **The "Add A Purchase" form** (`src/components/purchases/AddPurchase.jsx`). The form's values are a supplier id, a list of product lines and a total. The checkboxes shown are the catalog products of the chosen supplier. Clicking a checkbox either appends a line `{productId, qty: 1, purchasePrice}` or removes every line of that product. A quantity input rewrites `qty` of the product's line. After each of these changes the total is recomputed as the sum of `qty * purchasePrice`.
- **The Purchases page draft** (`src/components/purchases/purchases.jsx`). `addProduct` appends a default line. Duplicate products are allowed here. `handleProductChange` writes one field of the line object at an index, in place. An effect keeps the total equal to the sum of `quantity * price`. `handleAddPurchase` refuses a draft with no supplier or no line. No element of the page's markup calls `addProduct` or `handleProductChange`: the modal holds only the supplier `<select>` and the `supplierId`, `date` and `totalAmount` inputs. On the page as written `selectedProducts` therefore stays `[]`; the model calls the two handlers directly, as a line-editing control would. Otherwise it posts the draft, reports a failure in `error` and always lowers `submitting` at the end.
- **The `user` slice of the Redux store** (`src/store/userReducer.js`). `login` stores the payload's `data` and `success`. `signout` as written leaves the state unchanged.

Modules: `Wrappers` (an `Option` type), `JsArray` (the `filter`, `findIndex`, `find` and summing `reduce` the screens use, as functions on sequences), `JsNumber` (`Number(text)` on integer texts), `Catalog` (the product record), then one module per core file: `AddPurchase`, `Purchases`, `UserReducer`.

State that the source updates in place is a class:
- `AddPurchase.PurchaseForm` holds the Formik values. Its invariant: the lines are unique by product and the total is current.
- `Purchases.PurchasesPage` holds the page's `useState` values. A ghost field `lines` records the values the draft's line objects hold. Its invariant: the line objects are distinct, they hold `lines` index by index, and the total is the sum over `lines`. Each method's `modifies` clause names the state hooks it sets, so every other field is unchanged.
- `Purchases.PurchaseLine` is one draft line object. `handleProductChange` changes the object itself, so the list keeps the same references.
- `UserReducer.UserSlice` holds the slice's three fields.

Each method's postcondition ties the new state to a specification function of the old state (`Toggled`, `QuantityEdited`, `Changed`, `AfterLogin`, ...). The lemmas prove what the source promises about those functions.

Money and quantities are integers. The product `quantity * price` is written `Times`, as repeated addition, so that proofs stay in linear arithmetic; `JsNumber.TimesIsProduct` proves it equals `*`. Network requests are not modelled; their outcomes are parameters (`ListOutcome`, `PostOutcome`, the fetched catalog). A handler and the effect it triggers run as one step.

Behaviour of the code the model keeps:
- A quantity edit for a product with no line changes nothing.
- The supplier filter compares `supplier?._id` with the chosen id. A product without a supplier is never offered. With no supplier chosen (`""`), a product whose supplier `_id` is `""` would be offered, so the result is not always empty.
- Only the Purchases page guards a submission. The Add Purchase form posts its values unchecked.
- The Purchases page sends the stored `totalAmount` rather than recomputing it. The page invariant makes the two equal.
- After a successful submission the page keeps its draft lines. It resets `formData` to three text fields, dropping the `products` entry.

## Model

| member | source | states |
|---|---|---|
| `AddPurchase.PurchaseForm.constructor` | src/components/purchases/AddPurchase.jsx:45-50 | the form starts with supplier `""`, no lines, total 0 and an empty `newProducts` list |
| `AddPurchase.PurchaseForm.ChangeSupplier` | src/components/purchases/AddPurchase.jsx:65-69 | choosing a supplier changes only `supplierId`; the selected lines and the total are kept |
| `AddPurchase.PurchaseForm.Offered` | src/components/purchases/AddPurchase.jsx:83-84 | the checkbox rows for the form's chosen supplier are exactly the catalog products whose supplier id is `supplierId` |
| `AddPurchase.OfferedExactly` | src/components/purchases/AddPurchase.jsx:83-84 | a product is offered if and only if it is in the catalog and its supplier id equals the chosen one |
| `AddPurchase.OfferedInCatalogOrder` | src/components/purchases/AddPurchase.jsx:83-84 | splitting the catalog splits the offered list the same way, so it keeps catalog order |
| `AddPurchase.OfferedForOneSupplier` | src/components/purchases/AddPurchase.jsx:83-84 | with p1 from s1 and p2 from s2, supplier s1 is offered exactly `[p1]` |
| `AddPurchase.PurchaseForm.ToggleProduct` | src/components/purchases/AddPurchase.jsx:90-104 | the lines become `Toggled(old lines, prd)`, the total equals the sum over the new lines, uniqueness by product is kept, and supplier and `newProducts` are unchanged |
| `AddPurchase.ToggleOnAppends` | src/components/purchases/AddPurchase.jsx:95-98 | checking a product with no line appends exactly `{prd.id, 1, prd.purchasePrice}` after the unchanged old lines |
| `AddPurchase.ToggleOffRemoves` | src/components/purchases/AddPurchase.jsx:92-94 | in a unique list, unchecking product i yields `s[..i] + s[i+1..]`: its line goes and the rest keep their order |
| `AddPurchase.WithoutProductMembers` | src/components/purchases/AddPurchase.jsx:94 | after removal no line carries the product, and a line is kept if and only if it was there and belongs to another product |
| `AddPurchase.WithoutProductOfUnique` | src/components/purchases/AddPurchase.jsx:94 | in a unique list the filter removes exactly the one line of the product, preserving order |
| `AddPurchase.WithoutProductKeepsUnique` | src/components/purchases/AddPurchase.jsx:94 | removing a product keeps a list that is unique by product unique |
| `AddPurchase.ToggleKeepsUnique` | src/components/purchases/AddPurchase.jsx:91-98 | a toggle keeps a list that is unique by product unique |
| `AddPurchase.ToggleTwiceRestores` | src/components/purchases/AddPurchase.jsx:92-98 | checking then unchecking a product with no line restores the exact original list |
| `AddPurchase.ReselectGoesToEnd` | src/components/purchases/AddPurchase.jsx:92-98 | unchecking then re-checking a product puts it back at the end with qty 1 and the catalog price; all its earlier lines are gone |
| `AddPurchase.TotalToggleOn` | src/components/purchases/AddPurchase.jsx:100-103 | checking a product raises the total by its purchase price |
| `AddPurchase.TotalToggleOff` | src/components/purchases/AddPurchase.jsx:100-103 | unchecking a product of a unique list lowers the total by that line's `qty * purchasePrice` |
| `AddPurchase.PurchaseForm.EditQuantity` | src/components/purchases/AddPurchase.jsx:112-126 | the lines become `QuantityEdited(old lines, id, qty)`, the total equals the sum over the new lines, uniqueness is kept, and supplier and `newProducts` are unchanged |
| `AddPurchase.QuantityEditShape` | src/components/purchases/AddPurchase.jsx:113-120 | a quantity edit keeps the length, every product id and every price, leaves lines of other products alone, and is a no-op when the product has no line |
| `AddPurchase.QuantityEditSets` | src/components/purchases/AddPurchase.jsx:113-120 | in a unique list, exactly the product's line gets the new `qty` |
| `AddPurchase.QuantityEditKeepsUnique` | src/components/purchases/AddPurchase.jsx:113-120 | a quantity edit keeps a list that is unique by product unique |
| `AddPurchase.TotalQuantityEdit` | src/components/purchases/AddPurchase.jsx:122-125 | a quantity edit of the first line of a product takes that line's old `qty * purchasePrice` out of the total and adds the new `qty * purchasePrice` |
| `AddPurchase.SelectEditDeselect` | src/components/purchases/AddPurchase.jsx:90-126 | check p1 (price 10), set quantity 3, uncheck: the totals are 10, 30, 0 and the list ends empty |
| `JsArray.FindIndex` | src/components/purchases/AddPurchase.jsx:92 | `findIndex` returns -1 exactly when no element matches, otherwise the first matching index |
| `JsArray.Find` | src/components/purchases/purchases.jsx:101 | `find` returns nothing exactly when no element matches, otherwise the first matching element |
| `JsArray.FilterAppend` | src/components/purchases/AddPurchase.jsx:94 | filtering a concatenation concatenates the filtered parts, so `filter` keeps order |
| `JsArray.FilterMembers` | src/components/purchases/AddPurchase.jsx:84 | an element survives `filter` if and only if it was present and satisfies the predicate |
| `JsArray.SumOfAppend` | src/components/purchases/AddPurchase.jsx:100-102 | the summing `reduce` over a concatenation is the sum of the two parts |
| `JsArray.SumOfUpdate` | src/components/purchases/AddPurchase.jsx:122-124 | replacing one element changes the summing `reduce` by the difference of the two amounts |
| `JsNumber.NumberOfIntegerText` | src/components/purchases/purchases.jsx:97 | `Number` reads every integer back from its decimal text |
| `Purchases.PurchasesPage.constructor` | src/components/purchases/purchases.jsx:8-23 | the page starts with no data, catalog, supplier or lines, total 0, `loading` true, no error, modal closed, not submitting, and the initial form fields |
| `Purchases.PurchasesPage.ReceiveProducts` | src/components/purchases/purchases.jsx:71 | the catalog becomes the fetched list, or empty when the response has none; nothing else changes |
| `Purchases.PurchasesPage.AddProduct` | src/components/purchases/purchases.jsx:86-91 | one fresh line object is appended whose value is `{productId: "", quantity: 1, price: 0}`; the earlier lines and the total are unchanged; nothing checks for repeated products |
| `Purchases.SumAmounts` | src/components/purchases/purchases.jsx:111-117 | the effect's `reduce` over the line objects returns the sum of `quantity * price` over the values they hold |
| `Purchases.Values` | src/components/purchases/purchases.jsx:133-136 | reading the line objects for the request body yields exactly the values they hold, in order |
| `JsNumber.TimesIsProduct` | src/components/purchases/purchases.jsx:113 | `Times(a, b)`, the model of `p.quantity * p.price`, equals `a * b` |
| `Purchases.TotalWithDefaultLine` | src/components/purchases/purchases.jsx:111-117 | appending the default line leaves the total unchanged |
| `Purchases.PurchasesPage.HandleProductChange` | src/components/purchases/purchases.jsx:94-108 | the list keeps the same line objects and length; only the value at `index` changes, to `Changed(old value, field, value, catalog)`; the total moves by that line's change of `quantity * price`; other state is unchanged |
| `Purchases.PurchaseLine.Assign` | src/components/purchases/purchases.jsx:96-105 | the line's value becomes `Changed(old value, field, value, catalog)` |
| `Purchases.NumericFieldStoresNumber` | src/components/purchases/purchases.jsx:96-97 | writing `quantity` or `price` with the text of n stores the number n and changes no other field |
| `Purchases.OtherFieldStoresText` | src/components/purchases/purchases.jsx:96-97 | writing any other field stores the text as given and changes nothing else |
| `Purchases.KnownProductSetsPrice` | src/components/purchases/purchases.jsx:100-105 | setting `productId` to an id in the catalog stores the id and the first such product's purchase price |
| `Purchases.UnknownProductKeepsPrice` | src/components/purchases/purchases.jsx:100-105 | setting `productId` to an id not in the catalog stores the id and leaves the price unchanged |
| `Purchases.TotalOfChange` | src/components/purchases/purchases.jsx:111-117 | changing one line changes the total by the difference of that line's `quantity * price` |
| `Purchases.PurchasesPage.HandleInputChange` | src/components/purchases/purchases.jsx:119-122 | an input of the modal writes `formData[name]`; the draft is unchanged |
| `Purchases.PurchasesPage.SetShowModal` | src/components/purchases/purchases.jsx:175 | the modal buttons set `showModal` and nothing else |
| `Purchases.PurchasesPage.GetPurchases` | src/components/purchases/purchases.jsx:26-47 | the list request ends with `loading` false; success stores the records (or none) and clears `error`; failure stores the server message, falling back to the error message, and keeps the records |
| `Purchases.PurchasesPage.SubmitStart` | src/components/purchases/purchases.jsx:124-138 | no request is built if and only if the supplier is `""` or there is no line, and then `submitting` drops again; otherwise the request body is exactly the supplier, the current line values and the current total, and `submitting` stays raised |
| `Purchases.PurchasesPage.SubmitFinish` | src/components/purchases/purchases.jsx:139-161 | success closes the modal, resets the form fields and reloads the list; failure sets `error` to the server message, falling back to the error message; either way `submitting` ends false and the draft lines and total are unchanged |
| `Purchases.PurchasesPage.SelectSupplier` | src/components/purchases/purchases.jsx:11 | writes `selectedSupplier` and nothing else (the corrected handler in the findings below) |
| `Purchases.SubmitAsRendered` | src/components/purchases/purchases.jsx:124-131 | with only the controls the page renders (the supplier select writes `formData`, nothing adds a line), a submission is refused |
| `Purchases.SubmitWithSupplierInForm` | src/components/purchases/purchases.jsx:124-131 | picking supplier s1 in the page's select, calling `addProduct` and `handleProductChange(0, "productId", "p1")` directly and submitting is refused |
| `Purchases.SubmitWithSupplierSelected` | src/components/purchases/purchases.jsx:133-138 | when the choice reaches `selectedSupplier`, the request carries `"s1"`, the line `{p1, 1, 10}` and total 10 |
| `UserReducer.UserSlice.constructor` | src/store/userReducer.js:3-7 | the slice starts with `loading` false, `success` false and empty `data` |
| `UserReducer.UserSlice.Login` | src/store/userReducer.js:16-19 | the slice becomes `AfterLogin(old state, payload)` |
| `UserReducer.LoginStoresPayload` | src/store/userReducer.js:16-19 | after `login`, `data` and `success` are the payload's and `loading` is unchanged |
| `UserReducer.LoginIdempotent` | src/store/userReducer.js:16-19 | applying the same `login` twice gives the same state as applying it once |
| `UserReducer.UserSlice.Signout` | src/store/userReducer.js:13-15 | `signout` as written writes no field, so the slice is unchanged |
| `UserReducer.SignoutKeepsSession` | src/store/userReducer.js:13-15 | as written, `signout` after a successful `login` leaves that logged-in state, which differs from the initial state |
| `UserReducer.LoginThenSignout` | src/store/userReducer.js:13-19 | a successful login followed by `signout` leaves `success` true and the token in `data` |
| `UserReducer.UserSlice.SignoutReset` | src/store/userReducer.js:13-15 | the intended `signout` puts every field back to the initial state |
| `UserReducer.SignoutIntendedResets` | src/store/userReducer.js:13-15 | the intended `signout` yields the initial state from any state, including right after a `login` |
| `UserReducer.LoginThenSignoutReset` | src/store/userReducer.js:13-19 | a successful login followed by the intended `signout` ends in the initial state |

## Left out

- Network I/O (axios requests, the API URL, bearer-token headers, `response.data` unwrapping): each outcome is a parameter. The posted body omits the `date: new Date()` field.
- Rendering, Formik's `setFieldValue` and `handleChange` plumbing, React state batching, `alert`, `navigate`, `console` output and modal markup.
- The total effect's timing: the total effect of `purchases.jsx` is folded into the handler that triggers it. In the source one render shows the old total before the effect runs.
- The transient `loading: true` of `getPurchases` during its request: it is not observable in a model where each handler is one step.
- The Add Purchase form's `onSubmit`: it posts the values unchanged, with no check; the request is network I/O. Its mount fetches (`getProducts`, `getSuppliers`) are left out as well; the catalog is a parameter of `Offered`.
- The Purchases page's mount effect and its token check: the three concurrent fetches are left out. `getSuppliers` and the `suppliers` state are left out too; they feed only the markup.
- JavaScript floating-point numbers: prices, quantities and totals are integers.
- `AddPurchase.PurchaseForm.EditQuantity`: takes the integer `parseInt` produced; `parseInt` of text that is not a number (`NaN`) is not modelled.
- `Purchases.PurchasesPage.HandleProductChange`: for `quantity` and `price` only the integer texts ``""``, digits, and `-` followed by digits are accepted (`Number` gives 0 for `""`); `NaN`, fractions, exponents, `+` and surrounding spaces are not modelled. It also requires `index` to be in range; the source would throw a `TypeError` there, and no caller passes such an index.
- The `products: []` entry of `formData` is not modelled; nothing reads it.
- `login`'s payload `data` is modelled as a map of string fields; other JSON values are not modelled.
- src/components/auth/Login.jsx, src/components/products/Products.jsx, src/components/suppliers/Suppliers.jsx, src/components/common/Header.jsx and src/App.jsx are not part of this model. They hold forms, lists and routing with no logic beyond copying fields.

## Findings

| source | as written | input that shows it | evidently intended | confidence | as-written member | corrected member |
|---|---|---|---|---|---|---|
| src/store/userReducer.js:13-15 | `state = initialState` rebinds the reducer's parameter and returns nothing, so Redux Toolkit keeps the old state | `login({data: {token: "t"}, success: true})` then `signout()`: `success` stays true and the token stays | `signout` restores `initialState` (for example by returning it) | high, not executed | `UserReducer.LoginThenSignout` | `UserReducer.LoginThenSignoutReset` |
| src/components/purchases/purchases.jsx:128 | no handler ever writes `selectedSupplier`; the supplier `<select>` calls `handleInputChange` with name `supplier` and writes `formData.supplier` (lines 261-265), so the guard refuses every submission. The page also renders no control that calls `addProduct` or `handleProductChange` (defined at lines 86 and 94, used nowhere), so `selectedProducts` stays `[]` and the `length === 0` test refuses every submission on its own | choose s1 in the select, then call `addProduct` and `handleProductChange(0, "productId", "p1")` directly, submit: refused; without those direct calls the draft is empty and the submission is refused as well (`Purchases.SubmitAsRendered`) | the supplier choice sets `selectedSupplier` (and the modal offers controls for the product lines) | medium, not executed | `Purchases.SubmitWithSupplierInForm` | `Purchases.SubmitWithSupplierSelected` |
