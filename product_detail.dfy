/**
 * The product page of src/pages/ProductDetailpage.jsx: loading one product, choosing which panel
 * to show, the quantity stepper, and handing the chosen quantity to the cart store.
 */
module ProductDetail {
  import opened Wrappers
  import opened Cart

  const ProductNotFound := "Product not found"
  const FailedToLoad := "Failed to load product"
  const MissingProduct := "The product you are looking for does not exist."
  const ProductsPath := "/products/"
  const CheckoutPath := "/checkout"

  /** The reply of the product request, or the error it threw. */
  datatype ProductReply = ProductReply(success: bool, product: Option<Product>) | ProductThrown

  /** The stepper is shown only for a stock count above zero (a missing count compares false). */
  predicate StepperShown(p: Product) {
    p.countInStock.Some? && p.countInStock.value > 0
  }

  predicate DecrementDisabled(quantity: int) {
    quantity <= 1
  }

  /** `quantity >= countInStock` is false when the count is missing. */
  predicate IncrementDisabled(quantity: int, p: Product) {
    p.countInStock.Some? && quantity >= p.countInStock.value
  }

  /** Add to Cart and Buy Now are disabled only for a stock count of exactly zero. */
  predicate PurchaseDisabled(p: Product) {
    p.countInStock == Some(0)
  }

  /**
   * The largest quantity the buttons can reach: the stock count when the stepper is shown, else 1
   * (a missing, zero or negative count). `PlusReachesCap` shows it is reached.
   */
  function Cap(p: Product): (c: int)
    ensures c >= 1
    ensures p.countInStock.Some? ==> c == if p.countInStock.value > 1 then p.countInStock.value else 1
    ensures !StepperShown(p) ==> c == 1
  {
    if StepperShown(p) then p.countInStock.value else 1
  }

  /** The minus button's update, `Math.max(1, quantity - 1)`. */
  function Decremented(quantity: int): (r: int)
    ensures r >= 1
    ensures quantity > 1 ==> r == quantity - 1
    ensures quantity <= 1 ==> r == 1
  {
    if quantity - 1 > 1 then quantity - 1 else 1
  }

  datatype Button = Minus | Plus

  /** One click on a stepper button; a hidden or disabled button does nothing. */
  function Click(quantity: int, p: Product, b: Button): (r: int)
    ensures !StepperShown(p) ==> r == quantity
    ensures StepperShown(p) && b == Minus ==> r == if DecrementDisabled(quantity) then quantity else quantity - 1
    ensures StepperShown(p) && b == Plus ==> r == if IncrementDisabled(quantity, p) then quantity else quantity + 1
    ensures 1 <= quantity <= Cap(p) ==> 1 <= r <= Cap(p)
  {
    if !StepperShown(p) then quantity
    else
      match b
      case Minus => if DecrementDisabled(quantity) then quantity else Decremented(quantity)
      case Plus => if IncrementDisabled(quantity, p) then quantity else quantity + 1
  }

  function Clicks(quantity: int, p: Product, bs: seq<Button>): int
    decreases |bs|
  {
    if bs == [] then quantity else Clicks(Click(quantity, p, bs[0]), p, bs[1..])
  }

  /** Whatever the clicks, a quantity that starts at 1 stays between 1 and max(1, countInStock). */
  lemma {:induction false} ClicksStayInRange(quantity: int, p: Product, bs: seq<Button>)
    requires 1 <= quantity <= Cap(p)
    ensures 1 <= Clicks(quantity, p, bs) <= Cap(p)
    decreases |bs|
  {
    if bs != [] {
      ClicksStayInRange(Click(quantity, p, bs[0]), p, bs[1..]);
    }
  }

  /** From any quantity in 1..cap, pressing plus `Cap(p) - quantity` times ends exactly at the cap. */
  lemma {:induction false} PlusesReachCap(quantity: int, p: Product)
    requires 1 <= quantity <= Cap(p)
    ensures Clicks(quantity, p, seq(Cap(p) - quantity, _ => Plus)) == Cap(p)
    decreases Cap(p) - quantity
  {
    var bs := seq(Cap(p) - quantity, _ => Plus);
    if quantity < Cap(p) {
      assert StepperShown(p) && !IncrementDisabled(quantity, p);
      assert Click(quantity, p, bs[0]) == quantity + 1;
      assert bs[1..] == seq(Cap(p) - (quantity + 1), _ => Plus);
      PlusesReachCap(quantity + 1, p);
    }
  }

  /** The cap is attained: starting from 1, `Cap(p) - 1` presses of plus reach it. */
  lemma PlusReachesCap(p: Product)
    ensures Clicks(1, p, seq(Cap(p) - 1, _ => Plus)) == Cap(p)
  {
    PlusesReachCap(1, p);
  }

  /** The panel the page renders. */
  datatype View = Loading | NotFound(message: string) | Detail(product: Product)

  function ViewOf(loading: bool, error: string, product: Option<Product>): (v: View)
    ensures v.Loading? <==> loading
    ensures v.NotFound? <==> !loading && (error != "" || product.None?)
    ensures v.NotFound? ==> v.message == if error != "" then error else MissingProduct
    ensures v.Detail? ==> product == Some(v.product) && error == ""
  {
    if loading then Loading
    else if error != "" || product.None? then NotFound(if error != "" then error else MissingProduct)
    else Detail(product.value)
  }

  class ProductDetailPage {
    const productId: string
    var product: Option<Product>
    var loading: bool
    var error: string
    var quantity: int

    /** The quantity stays at 1 until a product is shown, and within its cap afterwards. */
    predicate Valid()
      reads this
    {
      1 <= quantity && (if product.Some? then quantity <= Cap(product.value) else quantity == 1)
    }

    function View(): View
      reads this
    {
      ViewOf(loading, error, product)
    }

    constructor (productId: string)
      ensures this.productId == productId
      ensures product.None? && loading && error == "" && quantity == 1
      ensures Valid()
    {
      this.productId := productId;
      product, loading, error, quantity := None, true, "", 1;
    }

    /**
     * The fetch run when the page mounts, given the reply; `url` is the path requested.
     * A later product id is not modelled, so the fetch starts with no product.
     */
    method Fetch(reply: ProductReply) returns (url: string)
      requires Valid() && product.None?
      modifies this`product, this`loading, this`error
      ensures url == ProductsPath + productId
      ensures !loading && Valid()
      ensures reply.ProductReply? && reply.success ==> product == reply.product && error == old(error)
      ensures reply.ProductReply? && !reply.success ==> product.None? && error == ProductNotFound
      ensures reply.ProductThrown? ==> product.None? && error == FailedToLoad
    {
      loading := true;
      url := ProductsPath + productId;
      match reply {
        case ProductReply(ok, p) =>
          if ok {
            product := p;
          } else {
            error := ProductNotFound;
          }
        case ProductThrown =>
          error := FailedToLoad;
      }
      loading := false;
    }

    /** A click on a stepper button; the buttons exist only in the detail panel. */
    method Press(b: Button)
      requires Valid()
      modifies this`quantity
      ensures Valid()
      ensures View().Detail? ==> quantity == Click(old(quantity), product.value, b)
      ensures !View().Detail? ==> quantity == old(quantity)
    {
      if View().Detail? {
        quantity := Click(quantity, product.value, b);
      }
    }

    /** The add-to-cart handler: asks the cart store to add the product with the chosen quantity. */
    method AddToCartHandler() returns (call: Option<CartCall>)
      requires Valid()
      ensures call.Some? <==> product.Some?
      ensures call.Some? ==> call.value == AddToCart(product.value, quantity)
      ensures call.Some? ==> 1 <= call.value.quantity <= Cap(product.value)
    {
      if product.Some? {
        call := Some(AddToCart(product.value, quantity));
      } else {
        call := None;
      }
    }

    /** A click on Add to Cart or Buy Now, honoured only in the detail panel and when the buttons are enabled. */
    method PressPurchase(buyNow: bool) returns (call: Option<CartCall>, to: Option<string>)
      requires Valid()
      ensures call.Some? ==> !buyNow && View().Detail? && !PurchaseDisabled(product.value)
      ensures to.Some? <==> buyNow && View().Detail? && !PurchaseDisabled(product.value)
      ensures to.Some? ==> to.value == CheckoutPath
      ensures !buyNow && View().Detail? && !PurchaseDisabled(product.value) ==>
                call == Some(AddToCart(product.value, quantity))
    {
      call, to := None, None;
      if View().Detail? && !PurchaseDisabled(product.value) {
        if buyNow {
          to := Some(CheckoutPath);
        } else {
          call := AddToCartHandler();
        }
      }
    }
  }
}
