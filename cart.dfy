/** The cart state machine of the RocketShoes `CartProvider` (src/hooks/useCart.tsx):
    its records, the three lookups over the cart, the product catalog and the
    stock table, the construction of each new cart, and one transition function
    per operation. Everything here is a value; the provider object that holds the
    state and replaces its cart is in module CartStore. */
module Cart {
  import opened Wrappers

  /** A cart line item: catalog data copied at add-time plus the quantity held.
      `title`, `price` and `image` are only ever copied, never computed on. */
  datatype Product = Product(id: int, title: string, price: real, image: string, amount: int)

  /** A catalog record, `Omit<Product, 'amount'>`. */
  datatype CatalogItem = CatalogItem(id: int, title: string, price: real, image: string)

  /** A stock table record: the quantity available for product `id`. */
  datatype Stock = Stock(id: int, amount: int)

  /** What an operation reports: success, or the notification it raises. */
  datatype Outcome = Ok | AddError | RemoveError | OutOfStock | AmountError

  /** The result of one operation: what it reports and the cart it leaves. */
  datatype Step = Step(outcome: Outcome, cart: seq<Product>)

  /** The text of the error notification raised for each outcome. */
  function Message(o: Outcome): (r: string)
    ensures r == "" <==> o == Ok
  {
    match o
    case Ok => ""
    case AddError => "Erro na adição do produto"
    case RemoveError => "Erro na remoção do produto"
    case OutOfStock => "Quantidade solicitada fora de estoque"
    case AmountError => "Erro na alteração de quantidade do produto"
  }

  /** No two cart entries share an identifier. */
  ghost predicate UniqueIds(cart: seq<Product>)
  {
    forall i, j :: 0 <= i < j < |cart| ==> cart[i].id != cart[j].id
  }

  /** The cart invariant: unique identifiers, every amount at least 1. */
  ghost predicate WellFormed(cart: seq<Product>)
  {
    UniqueIds(cart) && forall i :: 0 <= i < |cart| ==> cart[i].amount >= 1
  }

  // ---------------------------------------------------------------------------
  // Lookups

  /** `Array.prototype.findIndex`: the index of the first element satisfying `p`,
      or -1 when there is none. */
  function FindIndex<T>(s: seq<T>, p: T -> bool): (r: int)
    ensures -1 <= r < |s|
    ensures 0 <= r ==> p(s[r])
    ensures forall j :: 0 <= j < |s| && (r < 0 || j < r) ==> !p(s[j])
  {
    if |s| == 0 then -1
    else if p(s[0]) then 0
    else
      var r := FindIndex(s[1..], p);
      if r < 0 then -1 else r + 1
  }

  /** Array indexing `s[i]`, which yields `undefined` outside the array. */
  function ItemAt<T>(s: seq<T>, i: int): Option<T>
  {
    if 0 <= i < |s| then Some(s[i]) else None
  }

  /** `findProductInCar`: the first cart entry with identifier `id`. */
  function FindProductInCart(cart: seq<Product>, id: int): (r: Option<Product>)
    ensures r.None? <==> forall j :: 0 <= j < |cart| ==> cart[j].id != id
    ensures r.Some? ==> exists k :: 0 <= k < |cart| && cart[k] == r.value && r.value.id == id &&
                                    forall j :: 0 <= j < k ==> cart[j].id != id
  {
    ItemAt(cart, FindIndex(cart, (p: Product) => p.id == id))
  }

  /** `findProduct`: the first catalog record with identifier `id`. */
  function FindProduct(products: seq<CatalogItem>, id: int): (r: Option<CatalogItem>)
    ensures r.None? <==> forall j :: 0 <= j < |products| ==> products[j].id != id
    ensures r.Some? ==> exists k :: 0 <= k < |products| && products[k] == r.value && r.value.id == id &&
                                    forall j :: 0 <= j < k ==> products[j].id != id
  {
    ItemAt(products, FindIndex(products, (c: CatalogItem) => c.id == id))
  }

  /** `findProductInStock`: the first stock record with identifier `id`. */
  function FindProductInStock(stock: seq<Stock>, id: int): (r: Option<Stock>)
    ensures r.None? <==> forall j :: 0 <= j < |stock| ==> stock[j].id != id
    ensures r.Some? ==> exists k :: 0 <= k < |stock| && stock[k] == r.value && r.value.id == id &&
                                    forall j :: 0 <= j < k ==> stock[j].id != id
  {
    ItemAt(stock, FindIndex(stock, (s: Stock) => s.id == id))
  }

  // ---------------------------------------------------------------------------
  // Construction of the new cart

  /** `{...product, amount}`: a catalog record turned into a line item. */
  function CartLine(item: CatalogItem, amount: int): Product
  {
    Product(item.id, item.title, item.price, item.image, amount)
  }

  /** The `filter` of removeProduct: the cart without any entry of identifier `id`. */
  function WithoutProduct(cart: seq<Product>, id: int): (r: seq<Product>)
    ensures |r| <= |cart|
    ensures forall p :: p in r <==> p in cart && p.id != id
  {
    if cart == [] then []
    else (if cart[0].id != id then [cart[0]] else []) + WithoutProduct(cart[1..], id)
  }

  /** The callback of updateProductAmount's `map`: an entry of identifier `id`
      gets `amount`, raised to 1 when `amount` is below 1; any other entry is kept. */
  function UpdatedLine(item: Product, id: int, amount: int): Product
  {
    if item.id == id then item.(amount := if amount < 1 then 1 else amount) else item
  }

  /** The `map` of updateProductAmount. */
  function WithAmount(cart: seq<Product>, id: int, amount: int): (r: seq<Product>)
    ensures |r| == |cart|
    ensures forall i :: 0 <= i < |cart| ==> r[i].(amount := cart[i].amount) == cart[i]
    ensures forall i :: 0 <= i < |cart| && cart[i].id != id ==> r[i] == cart[i]
    ensures forall i :: 0 <= i < |cart| && cart[i].id == id ==>
              r[i].amount == if amount < 1 then 1 else amount
  {
    seq(|cart|, i requires 0 <= i < |cart| => UpdatedLine(cart[i], id, amount))
  }

  // ---------------------------------------------------------------------------
  // The three operations, as transitions of the cart

  /** updateProductAmount. A missing stock record makes `.amount` throw, which the
      `catch` reports as the quantity-change error. */
  function UpdateStep(cart: seq<Product>, stock: seq<Stock>, id: int, amount: int): (r: Step)
    ensures r.outcome in {Ok, OutOfStock, AmountError}
    ensures r.outcome == AmountError <==> forall j :: 0 <= j < |stock| ==> stock[j].id != id
    ensures r.outcome != Ok ==> r.cart == cart
    ensures |r.cart| == |cart|
  {
    match FindProductInStock(stock, id)
    case None => Step(AmountError, cart)
    case Some(s) =>
      if s.amount < amount then Step(OutOfStock, cart)
      else Step(Ok, WithAmount(cart, id, amount))
  }

  /** removeProduct. */
  function RemoveStep(cart: seq<Product>, id: int): (r: Step)
    ensures r.outcome in {Ok, RemoveError}
    ensures r.outcome == Ok <==> exists j :: 0 <= j < |cart| && cart[j].id == id
    ensures r.outcome != Ok ==> r.cart == cart
    ensures |r.cart| <= |cart|
  {
    if FindProductInCart(cart, id).None? then Step(RemoveError, cart)
    else Step(Ok, WithoutProduct(cart, id))
  }

  /** addProduct: rejected when the catalog lacks `id`, handed to updateProductAmount
      with one more when the cart has `id`, otherwise appended with amount 1. */
  function AddStep(cart: seq<Product>, products: seq<CatalogItem>, stock: seq<Stock>, id: int): (r: Step)
    ensures r.outcome in {Ok, AddError, OutOfStock, AmountError}
    ensures r.outcome == AddError <==> forall j :: 0 <= j < |products| ==> products[j].id != id
    ensures r.outcome != Ok ==> r.cart == cart
    ensures (exists j :: 0 <= j < |cart| && cart[j].id == id) ==> |r.cart| == |cart|
    ensures (forall j :: 0 <= j < |cart| ==> cart[j].id != id) ==> |r.cart| <= |cart| + 1
  {
    match FindProduct(products, id)
    case None => Step(AddError, cart)
    case Some(item) =>
      match FindProductInCart(cart, id)
      case Some(line) => UpdateStep(cart, stock, line.id, line.amount + 1)
      case None => Step(Ok, cart + [CartLine(item, 1)])
  }
}
