/**
  The catalog page (`Home`): the product list, the cart and the quantity
  selected per product, the callback every `InputQty` reports to, and
  checkout, which deducts the cart from the stock one line at a time.
 */
module Catalog {
  import opened Remote
  import opened Cart

  class Home {
    var products: seq<Product>
    var loading: bool
    var cart: seq<CartLine>
    /** `selectedQuantities`, keyed by product id */
    var selectedQuantities: map<int, int>

    /** The cart holds at most one line per product, each with a positive quantity. */
    ghost predicate Valid()
      reads this
    {
      DistinctIds(cart) && AllPositive(cart)
    }

    constructor ()
      ensures Valid()
      ensures products == [] && loading && cart == [] && selectedQuantities == map[]
    {
      products := [];
      loading := true;
      cart := [];
      selectedQuantities := map[];
    }

    /** `fetchProducts`: the list is replaced by what the table returned; loading ends either way. */
    method FetchProducts(result: Fetch<Product>)
      requires Valid()
      modifies this
      ensures Valid()
      ensures products == Reloaded(old(products), result) && !loading
      ensures cart == old(cart) && selectedQuantities == old(selectedQuantities)
    {
      products := Reloaded(products, result);
      loading := false;
    }

    /** `handleQuantityChange`: records the selection for one product and no other. */
    method HandleQuantityChange(productId: int, newQuantity: int)
      requires Valid()
      modifies this
      ensures Valid()
      ensures selectedQuantities == old(selectedQuantities)[productId := newQuantity]
      ensures forall id :: id in old(selectedQuantities) && id != productId ==>
                id in selectedQuantities && selectedQuantities[id] == old(selectedQuantities)[id]
      ensures products == old(products) && loading == old(loading) && cart == old(cart)
    {
      selectedQuantities := selectedQuantities[productId := newQuantity];
    }

    /**
      The callback the `InputQty` of `product` calls with each quantity it
      reports: the selection is recorded and the cart rebuilt.
     */
    method OnQuantityChange(product: Product, qty: int)
      requires Valid()
      modifies this
      ensures Valid()
      ensures selectedQuantities == old(selectedQuantities)[product.id := qty]
      ensures cart == ApplyQuantity(old(cart), product, qty)
      ensures TotalItems(cart) == TotalItems(old(cart)) - LineQty(old(cart), product.id) + (if qty > 0 then qty else 0)
      ensures products == old(products) && loading == old(loading)
    {
      HandleQuantityChange(product.id, qty);
      ghost var before := cart;
      cart := ApplyQuantity(cart, product, qty);
      TotalsAfterChange(before, product, qty);
      ApplyQuantityKeepsPositive(before, product, qty);
    }

    /**
      `processCart`: nothing on an empty cart; otherwise the stock updates of
      `SendDeductions`, and only when every one succeeded are the cart and the
      selections cleared and the products reloaded; after an error the page
      stays as it was.
     */
    method ProcessCart(outcomes: seq<Outcome>, reload: Fetch<Product>) returns (issued: seq<StockUpdate>)
      requires Valid() && |cart| <= |outcomes|
      modifies this
      ensures Valid()
      ensures issued == Deductions(old(cart))[..IssuedCount(outcomes, |old(cart)|)]
      ensures old(cart) != [] && Succeeded(outcomes, |old(cart)|) ==>
                cart == [] && selectedQuantities == map[]
                && products == Reloaded(old(products), reload) && !loading
      ensures old(cart) == [] || !Succeeded(outcomes, |old(cart)|) ==>
                cart == old(cart) && selectedQuantities == old(selectedQuantities)
                && products == old(products) && loading == old(loading)
    {
      if |cart| == 0 {
        return [];
      }
      var ok;
      issued, ok := SendDeductions(cart, outcomes);
      if ok {
        cart := [];
        selectedQuantities := map[];
        FetchProducts(reload);
      }
    }
  }
}
