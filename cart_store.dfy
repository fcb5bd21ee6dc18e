/** The `CartProvider` object: the state the hook holds (the cart, the catalog and
    stock tables, and the persisted copy of the cart) and the three operations,
    which replace the cart with a newly built one. Each operation is proved to
    follow its transition in module Cart and to keep the cart invariant. */
module CartStore {
  import opened Wrappers
  import opened Cart
  import CartProperties

  class CartProvider {
    /** The cart state (`useState<Product[]>`). */
    var cart: seq<Product>
    /** The catalog table, empty until the products response arrives. */
    var products: seq<CatalogItem>
    /** The stock table, empty until the stock response arrives. */
    var stock: seq<Stock>
    /** The local-storage key '@RocketShoes:cart': `None` when absent, otherwise
        the cart last written there. */
    var storage: Option<seq<Product>>
    /** The texts of the error notifications raised so far, oldest first. */
    var notifications: seq<string>

    /** Mounting the provider: the cart starts from local storage when the key is
        present and empty otherwise; both lookup tables start empty. */
    constructor (stored: Option<seq<Product>>)
      ensures storage == stored
      ensures cart == (if stored.Some? then stored.value else [])
      ensures products == [] && stock == [] && notifications == []
    {
      storage := stored;
      if stored.Some? {
        cart := stored.value;
      } else {
        cart := [];
      }
      products := [];
      stock := [];
      notifications := [];
    }

    /** The stock response arrives and replaces the stock table. */
    method StockLoaded(data: seq<Stock>)
      modifies this`stock
      ensures stock == data
    {
      stock := data;
    }

    /** The products response arrives and replaces the catalog table. */
    method ProductsLoaded(data: seq<CatalogItem>)
      modifies this`products
      ensures products == data
    {
      products := data;
    }

    /** updateProductAmount: on success writes the new cart to storage and state;
        on a refusal changes neither and raises the refusal's notification. */
    method UpdateProductAmount(productId: int, amount: int) returns (outcome: Outcome)
      modifies this`cart, this`storage, this`notifications
      ensures Step(outcome, cart) == UpdateStep(old(cart), stock, productId, amount)
      ensures storage == if outcome == Ok then Some(cart) else old(storage)
      ensures notifications == if outcome == Ok then old(notifications) else old(notifications) + [Message(outcome)]
      ensures WellFormed(old(cart)) ==> WellFormed(cart)
    {
      CartProperties.UpdateKeepsInvariant(cart, stock, productId, amount);
      var productInStock := FindProductInStock(stock, productId);
      if productInStock.None? {
        notifications := notifications + [Message(AmountError)];
        return AmountError;
      }
      if productInStock.value.amount < amount {
        notifications := notifications + [Message(OutOfStock)];
        return OutOfStock;
      }
      var newArray := WithAmount(cart, productId, amount);
      storage := Some(newArray);
      cart := newArray;
      return Ok;
    }

    /** removeProduct: on success writes the filtered cart to storage and state;
        on a refusal changes neither and raises the refusal's notification. */
    method RemoveProduct(productId: int) returns (outcome: Outcome)
      modifies this`cart, this`storage, this`notifications
      ensures Step(outcome, cart) == RemoveStep(old(cart), productId)
      ensures storage == if outcome == Ok then Some(cart) else old(storage)
      ensures notifications == if outcome == Ok then old(notifications) else old(notifications) + [Message(outcome)]
      ensures WellFormed(old(cart)) ==> WellFormed(cart)
    {
      CartProperties.RemoveKeepsInvariant(cart, productId);
      var productInTheCar := FindProductInCart(cart, productId);
      if productInTheCar.None? {
        notifications := notifications + [Message(RemoveError)];
        return RemoveError;
      }
      var newArray := WithoutProduct(cart, productId);
      storage := Some(newArray);
      cart := newArray;
      return Ok;
    }

    /** addProduct: a product already in the cart is handed to UpdateProductAmount,
        which then does the writing and any notifying; a new one is appended and
        written here. */
    method AddProduct(productId: int) returns (outcome: Outcome)
      modifies this`cart, this`storage, this`notifications
      ensures Step(outcome, cart) == AddStep(old(cart), products, stock, productId)
      ensures storage == if outcome == Ok then Some(cart) else old(storage)
      ensures notifications == if outcome == Ok then old(notifications) else old(notifications) + [Message(outcome)]
      ensures WellFormed(old(cart)) ==> WellFormed(cart)
    {
      CartProperties.AddKeepsInvariant(cart, products, stock, productId);
      var product := FindProduct(products, productId);
      if product.None? {
        notifications := notifications + [Message(AddError)];
        return AddError;
      }
      var productInTheCar := FindProductInCart(cart, productId);
      if productInTheCar.Some? {
        outcome := UpdateProductAmount(productInTheCar.value.id, productInTheCar.value.amount + 1);
        return;
      }
      var newArray := cart + [CartLine(product.value, 1)];
      storage := Some(newArray);
      cart := newArray;
      return Ok;
    }
  }
}
