/**
 * The catalogue product (`src/models/product.py`). Its only mutable field is
 * the price: the price setter and the percentage discount change it in
 * place, and both refuse bad input with a ValueError, leaving the price as it
 * was. Whether a product has expired is a query on its shelf life.
 */
module Products {
  import opened Wrappers

  /** A raised ValueError and its message. */
  datatype ProductError = ValueError(message: string)

  const NegativePriceMessage: string := "Price cannot be negative"
  const DiscountRangeMessage: string := "Discount percentage must be between 0 and 100"
  const NegativeDaysMessage: string := "Days passed cannot be negative"

  /** A discount percentage `apply_discount` accepts: 0 to 100, both ends included. */
  predicate ValidPercentage(percentage: real) {
    0.0 <= percentage <= 100.0
  }

  /**
   * The price after taking `percentage` percent off: no discount keeps the
   * price, a full discount makes it free, and a valid discount on a
   * non-negative price lands between 0 and the old price.
   */
  function Discounted(price: real, percentage: real): (r: real)
    ensures percentage == 0.0 ==> r == price
    ensures percentage == 100.0 ==> r == 0.0
    ensures 0.0 <= price && ValidPercentage(percentage) ==> 0.0 <= r <= price
  {
    var keep := 1.0 - percentage / 100.0;
    assert 0.0 <= price && ValidPercentage(percentage) ==> price * keep <= price by {
      if 0.0 <= price && ValidPercentage(percentage) {
        assert price * (1.0 - keep) >= 0.0;
      }
    }
    price * keep
  }

  /** Successive discounts may be taken in either order. */
  lemma DiscountsCommute(price: real, p: real, q: real)
    ensures Discounted(Discounted(price, p), q) == Discounted(Discounted(price, q), p)
  {
    var a := 1.0 - p / 100.0;
    var b := 1.0 - q / 100.0;
    assert (price * a) * b == price * (a * b) == price * (b * a) == (price * b) * a;
  }

  /** 1000 at ten percent off is 900. */
  lemma TenPercentOffThousand()
    ensures Discounted(1000.0, 10.0) == 900.0
  {
  }

  class Product {
    const productId: int
    const productName: string
    var price: real
    const categoryId: int
    const prodClass: string
    const modifyDate: string
    const resistant: string
    const isAllergic: string
    const vitalityDays: int

    /** Stores every argument as given; the price is not checked here. */
    constructor (productId: int, productName: string, price: real, categoryId: int, prodClass: string,
                 modifyDate: string, resistant: string, isAllergic: string, vitalityDays: int)
      ensures this.productId == productId && this.productName == productName && this.price == price
      ensures this.categoryId == categoryId && this.prodClass == prodClass && this.modifyDate == modifyDate
      ensures this.resistant == resistant && this.isAllergic == isAllergic && this.vitalityDays == vitalityDays
    {
      this.productId := productId;
      this.productName := productName;
      this.price := price;
      this.categoryId := categoryId;
      this.prodClass := prodClass;
      this.modifyDate := modifyDate;
      this.resistant := resistant;
      this.isAllergic := isAllergic;
      this.vitalityDays := vitalityDays;
    }

    /** The price setter: a negative value is refused and the price kept. */
    method SetPrice(value: real) returns (r: Outcome<ProductError>)
      modifies this
      ensures value < 0.0 ==> r == Fail(ValueError(NegativePriceMessage)) && price == old(price)
      ensures 0.0 <= value ==> r == Pass && price == value
    {
      if value < 0.0 {
        return Fail(ValueError(NegativePriceMessage));
      }
      price := value;
      return Pass;
    }

    /** Takes `percentage` percent off the price; an out-of-range percentage is refused. */
    method ApplyDiscount(percentage: real) returns (r: Outcome<ProductError>)
      modifies this
      ensures ValidPercentage(percentage) ==> r == Pass && price == Discounted(old(price), percentage)
      ensures !ValidPercentage(percentage) ==> r == Fail(ValueError(DiscountRangeMessage)) && price == old(price)
      ensures old(price) >= 0.0 ==> price >= 0.0
    {
      if 0.0 <= percentage && percentage <= 100.0 {
        price := Discounted(price, percentage);
        return Pass;
      } else {
        return Fail(ValueError(DiscountRangeMessage));
      }
    }

    /** `is_expired`: negative days are refused; otherwise expired once the shelf life is used up. */
    function IsExpired(daysPassed: int): (r: Result<bool, ProductError>)
      ensures r.Failure? <==> daysPassed < 0
      ensures r.Failure? ==> r.error == ValueError(NegativeDaysMessage)
    {
      if daysPassed < 0 then Failure(ValueError(NegativeDaysMessage))
      else Success(vitalityDays <= daysPassed)
    }
  }

  /** A product stays expired: expiry is monotone in the days passed. */
  lemma ExpiredStays(p: Product, d: int, later: int)
    requires d <= later
    requires p.IsExpired(d) == Success(true)
    ensures p.IsExpired(later) == Success(true)
  {
  }

  /**
   * From day 0 on, a product counts as expired exactly from its shelf life
   * onwards.
   */
  lemma ExpiryDay(p: Product, d: int)
    requires 0 <= d
    ensures p.IsExpired(d) == Success(true) <==> d >= p.vitalityDays
    ensures p.IsExpired(d) == Success(false) <==> d < p.vitalityDays
  {
  }
}
