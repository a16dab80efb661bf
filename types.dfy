/**
 * The storefront's shared record shapes (src/types.ts), plus the small
 * value types the rest of the model needs: an optional value for the
 * TypeScript `?` fields and a JavaScript `number` used as a price.
 */
module Types {

  /** A TypeScript optional value: `undefined` is `None`. */
  datatype Option<+T> = None | Some(value: T) {
    /** `x ?? d` for an optional field. */
    function GetOr(default: T): T {
      match this
      case Some(v) => v
      case None => default
    }
  }

  /**
   * A JavaScript number as the store uses it for prices: an amount with at
   * most two decimals, counted in cents, or NaN (what `parseFloat` and
   * `Number` give for text that is not a number).
   */
  datatype Price = Cents(cents: int) | NotANumber

  /** `a + b` on numbers: NaN absorbs everything. */
  function Plus(a: Price, b: Price): (r: Price)
    ensures r.NotANumber? <==> a.NotANumber? || b.NotANumber?
    ensures r.Cents? ==> r.cents == a.cents + b.cents
  {
    if a.NotANumber? || b.NotANumber? then NotANumber else Cents(a.cents + b.cents)
  }

  /** `price * quantity` for an integer quantity. */
  function Times(p: Price, q: int): (r: Price)
    ensures r.NotANumber? <==> p.NotANumber?
    ensures r.Cents? ==> r.cents == p.cents * q
  {
    if p.NotANumber? then NotANumber else Cents(p.cents * q)
  }

  /** A catalog product (src/types.ts, `Product`). */
  datatype Product = Product(
    id: string,
    name: string,
    price: Price,
    category: string,
    image: string,
    images: Option<seq<string>>,
    sizes: Option<seq<string>>,
    colors: Option<seq<string>>,
    description: Option<string>)

  /** A cart line: the product's fields plus the chosen variant and a quantity (`CartItem`). */
  datatype CartItem = CartItem(
    product: Product,
    selectedSize: Option<string>,
    selectedColor: Option<string>,
    quantity: int)
  {
    /** The line's identity: two additions with the same key merge into one line. */
    function Key(): (string, Option<string>, Option<string>) {
      (product.id, selectedSize, selectedColor)
    }
  }

  /** A failure-or-value result for the operations that throw in the source. */
  datatype Result<+T, +E> = Success(value: T) | Failure(error: E)
}
