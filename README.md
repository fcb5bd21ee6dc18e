# RocketShoes cart — a Dafny model

This project models the shopping-cart state machine of the RocketShoes storefront:
the `CartProvider` hook in `src/hooks/useCart.tsx`. The cart is an ordered list of
`Product` line items. Three operations act on it, each checking its input first.
`addProduct` checks the in-memory product catalog, then the cart.
`updateProductAmount` checks the in-memory stock table. `removeProduct` checks only
the cart. Each operation then either raises an error notification or replaces the
whole cart with a newly built array.

Layout:

- `wrappers.dfy` (module `Wrappers`): `Option`. Its `None` stands for the
  `undefined` that `arr[-1]` yields when a lookup finds nothing.
- `cart.dfy` (module `Cart`): the records (`Product`, `CatalogItem`, `Stock`).
  It also holds the outcome of an operation (`Ok`, `AddError`, `RemoveError`,
  `OutOfStock`, `AmountError`, with the notification texts in `Message`).
  Then come the three `findIndex` lookups and the construction of each new cart:
  the spread-append, the `filter` and the `map`. Last come the three transitions
  `AddStep`, `RemoveStep` and `UpdateStep`, as pure functions from the old cart to
  an outcome and a new cart.
- `cart_properties.dfy` (module `CartProperties`): what each operation does on
  each branch, and the cart invariant all three keep. The invariant is unique
  identifiers, plus every amount at least 1.
- `cart_store.dfy` (module `CartStore`): class `CartProvider`. It holds the
  fields `cart`, `products`, `stock`, `storage`, which is the
  `@RocketShoes:cart` local-storage key, and `notifications`, the log of error
  notifications raised. Its methods reassign these fields with
  the source's early-return structure. Each method is proved to follow its
  transition, to write storage only on success, and to keep the invariant.

The model follows the code at these points:

- An amount below 1 is raised to 1 (useCart.tsx:150-152).
- Lookups scan the catalog and stock tables that are loaded once at mount
  (useCart.tsx:38-48).
- Adding a product that is not yet in the cart does not consult the stock table
  at all (useCart.tsx:87-99). `CartProperties.AddNewIgnoresStock` proves this.
- The stock check compares the requested amount, not the raised one
  (useCart.tsx:143). So when a stock record holds less than 1, a request no
  larger than it is accepted and sets the entry to 1.
  `CartProperties.ClampCanExceedStock` proves this.

## Model

| member | source | states |
|---|---|---|
| `Cart.FindIndex` | src/hooks/useCart.tsx:50-76 | `findIndex` returns the index of the first element satisfying the predicate, or -1 when none does |
| `Cart.FindProductInCart` | src/hooks/useCart.tsx:50-56 | nothing is found exactly when no cart entry has the id; otherwise the result is the first cart entry with that id |
| `Cart.FindProduct` | src/hooks/useCart.tsx:58-66 | nothing is found exactly when no catalog record has the id; otherwise the result is the first catalog record with that id |
| `Cart.FindProductInStock` | src/hooks/useCart.tsx:68-76 | nothing is found exactly when no stock record has the id; otherwise the result is the first stock record with that id |
| `Cart.Message` | src/hooks/useCart.tsx:78-169 | the `toast.error` text of an outcome is empty exactly when the operation succeeded |
| `Cart.UpdateStep` | src/hooks/useCart.tsx:136-169 | the outcome is success, out of stock, or the quantity error; the quantity error happens exactly when no stock record has the id; a refusal keeps the cart; the length never changes. Branches: `UpdateWithoutStockRecord`, `UpdateOverStock`, `UpdateWithinStock` |
| `Cart.RemoveStep` | src/hooks/useCart.tsx:112-134 | the outcome is success or the remove error; success happens exactly when some entry has the id; a refusal keeps the cart; the cart never grows. Branches: `RemoveAbsentRejected`, `RemovePresentDrops` |
| `Cart.AddStep` | src/hooks/useCart.tsx:78-110 | the add error happens exactly when no catalog record has the id; a refusal keeps the cart; an id already in the cart keeps the length; a new id grows the cart by at most one. Branches: `AddUnknownRejected`, `AddNewAppends`, `AddExistingDelegates` |
| `Cart.WithoutProduct` | src/hooks/useCart.tsx:121-123 | the filtered cart holds exactly the entries of the old cart whose id differs, and is no longer |
| `Cart.WithAmount` | src/hooks/useCart.tsx:148-158 | the mapped cart has the same length; only amounts change; non-matching entries are kept; matching entries get the requested amount, or 1 when it is below 1 |
| `CartProperties.WithoutProductConcat` | src/hooks/useCart.tsx:121-123 | filtering distributes over concatenation, so kept entries keep their relative order |
| `CartProperties.WithoutAbsentProduct` | src/hooks/useCart.tsx:121-123 | filtering out an id that is not in the cart returns the cart unchanged |
| `CartProperties.WithoutProductShrinks` | src/hooks/useCart.tsx:121-123 | filtering out an id that is in the cart makes it strictly shorter |
| `CartProperties.WithoutProductKeepsUnique` | src/hooks/useCart.tsx:121-123 | filtering keeps cart ids unique |
| `CartProperties.WithoutUniqueEntry` | src/hooks/useCart.tsx:121-123 | in a cart with unique ids, filtering out the id of entry k gives the cart with exactly entry k dropped |
| `CartProperties.UpdateWithoutStockRecord` | src/hooks/useCart.tsx:141-143 | with no stock record, reading `.amount` throws; the result is the quantity-change error with the cart unchanged |
| `CartProperties.UpdateOverStock` | src/hooks/useCart.tsx:141-146 | a request above the first stock record's amount is refused as out of stock, with the cart unchanged |
| `CartProperties.UpdateWithinStock` | src/hooks/useCart.tsx:143-158 | a request within stock succeeds; the cart keeps its length, ids, details and non-matching entries; matching entries get max(requested, 1) |
| `CartProperties.UpdateAbsentFromCart` | src/hooks/useCart.tsx:148-158 | when a first stock record allows the request, updating an id that is not in the cart succeeds, reports no error and changes nothing |
| `CartProperties.UpdateUniqueEntry` | src/hooks/useCart.tsx:148-158 | in a cart with unique ids, an accepted amount of at least 1 replaces that one entry's amount and nothing else |
| `CartProperties.ClampCanExceedStock` | src/hooks/useCart.tsx:143-152 | when the first stock record holds less than 1, a request no larger than it is accepted and every matching entry becomes 1, above the stock |
| `CartProperties.RemoveAbsentRejected` | src/hooks/useCart.tsx:114-119 | removing an id that is not in the cart reports the remove error and leaves the cart unchanged |
| `CartProperties.RemovePresentDrops` | src/hooks/useCart.tsx:121-130 | removing an id that is in the cart succeeds; no entry of it remains, every other entry remains, and the cart gets shorter |
| `CartProperties.RemoveUniqueEntry` | src/hooks/useCart.tsx:112-130 | in a cart with unique ids, removal gives the prior cart minus that one entry, in the same order |
| `CartProperties.AddUnknownRejected` | src/hooks/useCart.tsx:80-85 | adding an id missing from the catalog reports the add error and leaves the cart unchanged |
| `CartProperties.AddNewAppends` | src/hooks/useCart.tsx:87-106 | adding a catalog id not yet in the cart appends one entry at the end: the first catalog record with amount 1; earlier entries are unchanged and in order |
| `CartProperties.AddNewIgnoresStock` | src/hooks/useCart.tsx:87-99 | adding an id not yet in the cart gives the same result whatever the stock table holds |
| `CartProperties.AddExistingDelegates` | src/hooks/useCart.tsx:91-96 | adding an id of the catalog that is already in the cart equals updating it to its first entry's amount + 1, and never grows the cart |
| `CartProperties.AddExistingOutOfStock` | src/hooks/useCart.tsx:91-96 | adding an id of the catalog that is already in the cart is refused as out of stock when amount + 1 exceeds its stock record |
| `CartProperties.AddExistingIncrements` | src/hooks/useCart.tsx:91-96 | in a cart with unique ids, when stock allows and the existing amount is non-negative, adding an id of the catalog already present raises its amount by exactly 1 and changes nothing else |
| `CartProperties.FailureKeepsCart` | src/hooks/useCart.tsx:78-169 | every refused add, remove or update leaves the cart exactly as it was |
| `CartProperties.UpdateKeepsInvariant` | src/hooks/useCart.tsx:148-158 | updating keeps cart ids unique, and keeps every amount at least 1 |
| `CartProperties.RemoveKeepsInvariant` | src/hooks/useCart.tsx:121-123 | removing keeps cart ids unique, and keeps every amount at least 1 |
| `CartProperties.AddKeepsInvariant` | src/hooks/useCart.tsx:87-99 | adding keeps cart ids unique, and keeps every amount at least 1 |
| `CartStore.CartProvider.constructor` | src/hooks/useCart.tsx:25-36 | the cart starts from the stored key when it is present, and is empty otherwise; catalog, stock and the notifications log start empty |
| `CartStore.CartProvider.StockLoaded` | src/hooks/useCart.tsx:38-42 | the stock response replaces the stock table |
| `CartStore.CartProvider.ProductsLoaded` | src/hooks/useCart.tsx:44-48 | the products response replaces the catalog table |
| `CartStore.CartProvider.UpdateProductAmount` | src/hooks/useCart.tsx:136-169 | the new cart and outcome are `UpdateStep` of the old cart; storage is written with the new cart only on success; a refusal appends its `Message` to the notifications; the invariant is kept |
| `CartStore.CartProvider.RemoveProduct` | src/hooks/useCart.tsx:112-134 | the new cart and outcome are `RemoveStep` of the old cart; storage is written only on success; a refusal appends its `Message` to the notifications; the invariant is kept |
| `CartStore.CartProvider.AddProduct` | src/hooks/useCart.tsx:78-110 | the new cart and outcome are `AddStep` of the old cart; storage is written only on success, by the delegated update when the id was already in the cart; a refusal appends its `Message` to the notifications, once; the invariant is kept |

## Left out

- React binding is not modelled. This covers the context, the provider component,
  `useContext` and the JSX (useCart.tsx:22-24, 171-184). The provider's state is
  the `CartProvider` class instead.
- The network requests `api.get('/stock')` and `api.get('/products')` are not
  modelled. Their responses are the parameters of `StockLoaded` and
  `ProductsLoaded`.
- A stored value that is not valid JSON makes `JSON.parse` throw during the
  provider's first render (useCart.tsx:28-29). This is not modelled.
- JSON serialisation is left out. `JSON.parse` and `JSON.stringify` are library
  code, so `storage` holds the cart value itself. Reading a stored empty string
  (falsy, hence an empty cart) is folded into `None`.
- Exceptions from `localStorage.setItem`, such as a full quota, are left out.
  Storage is browser I/O.
- The display of `toast.error` is not modelled. Each notification is recorded
  instead: its kind is the returned `Outcome`, and its text (`Cart.Message`) is
  appended to the provider's `notifications` log.
- Asynchrony is not modelled. Interleaved calls, including the duplicate-add race
  and stale closures over `cart`, are concurrency, and each operation here runs to
  completion.
- JavaScript numbers are modelled as unbounded integers. Fractional or NaN
  amounts and ids, and floating-point comparison, are not modelled. `price` is a
  `real` that is only copied.
- src/pages/Cart/styles.ts is styling only and is not part of this model.
