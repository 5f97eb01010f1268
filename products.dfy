/**
 Product builder with validation (module_is_important/v2): fluent setters
 update a `ProductBuilder` in place and return it; `Build` checks the fields
 and copies them into a new `Product`. Go's `panic` in `Build` is modelled
 as an error result.
 */
module Products {

  datatype Product = Product(id: string, name: string, price: int)

  /** The two panics of `Build`. */
  datatype BuildError =
    | IDRequired      // "ID is required"
    | NegativePrice   // "Price cannot be negative"

  datatype Result<T> = Ok(value: T) | Err(error: BuildError)

  class ProductBuilder {
    var id: string
    var name: string
    var price: int

    /** `&ProductBuilder{}`: every field at Go's zero value. */
    constructor ()
      ensures id == "" && name == "" && price == 0
    {
      id, name, price := "", "", 0;
    }

    /** `WithID` sets only `id` and returns the same builder. */
    method WithID(id: string) returns (self: ProductBuilder)
      modifies this
      ensures self == this
      ensures this.id == id && name == old(name) && price == old(price)
    {
      this.id := id;
      self := this;
    }

    /** `WithName` sets only `name` and returns the same builder. */
    method WithName(name: string) returns (self: ProductBuilder)
      modifies this
      ensures self == this
      ensures this.name == name && id == old(id) && price == old(price)
    {
      this.name := name;
      self := this;
    }

    /** `WithPrice` sets only `price` and returns the same builder. */
    method WithPrice(price: int) returns (self: ProductBuilder)
      modifies this
      ensures self == this
      ensures this.price == price && id == old(id) && name == old(name)
    {
      this.price := price;
      self := this;
    }

    /** `Build` succeeds exactly when the id is non-empty and the price is
        not negative; a missing id is reported before a negative price; on
        success the product carries the builder's three fields. The builder
        is left as it is. */
    method Build() returns (r: Result<Product>)
      ensures r.Ok? <==> id != "" && price >= 0
      ensures id == "" ==> r == Err(IDRequired)
      ensures id != "" && price < 0 ==> r == Err(NegativePrice)
      ensures r.Ok? ==> r.value.id == id && r.value.name == name && r.value.price == price
    {
      if id == "" {
        return Err(IDRequired);
      }
      if price < 0 {
        return Err(NegativePrice);
      }
      r := Ok(Product(id, name, price));
    }
  }

  /** `CreateProduct`: set the id, hand back the same builder. */
  method CreateProduct(builder: ProductBuilder, id: string) returns (self: ProductBuilder)
    modifies builder
    ensures self == builder
    ensures builder.id == id && builder.name == old(builder.name) && builder.price == old(builder.price)
  {
    self := builder.WithID(id);
  }

  /** `BuildStandardProduct`: the setter chain with fixed values always
      builds the standard product, whatever the builder held before. */
  method BuildStandardProduct(builder: ProductBuilder) returns (r: Result<Product>)
    modifies builder
    ensures r == Ok(Product("default_123", "Standard Product", 999))
    ensures builder.id == "default_123" && builder.name == "Standard Product" && builder.price == 999
  {
    var b := builder.WithID("default_123");
    b := b.WithName("Standard Product");
    b := b.WithPrice(999);
    r := b.Build();
  }

  /** Building from a fresh builder with the given fields yields exactly
      the product with those fields when they are valid, and the
      corresponding error otherwise. */
  method BuildProduct(id: string, name: string, price: int) returns (r: Result<Product>)
    ensures r == if id == "" then Err(IDRequired)
                 else if price < 0 then Err(NegativePrice)
                 else Ok(Product(id, name, price))
  {
    var builder := new ProductBuilder();
    var b := builder.WithID(id);
    b := b.WithName(name);
    b := b.WithPrice(price);
    r := b.Build();
  }
}
