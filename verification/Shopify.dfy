/** The Shopify order payload, decoded. Both ingestion paths and the SORTOI builder read it. */
module Shopify {
  import opened Wrappers

  /** A decimal string field: an exact number of pence, or text that does not parse. */
  datatype Money = Pence(pence: int) | Unparsable
  {
    /** The value the program keeps: 0 when the text does not parse. */
    function OrZero(): int {
      match this
      case Pence(p) => p
      case Unparsable => 0
    }
  }

  datatype TaxLine = TaxLine(price: Money, rate: real, title: string)

  datatype LineItem = LineItem(sku: string, quantity: int, price: Money, totalDiscount: Money, taxLines: seq<TaxLine>)

  datatype ShippingLine =
    ShippingLine(title: string, code: string, carrierIdentifier: string, price: Money, taxLines: seq<TaxLine>)

  datatype Address = Address(
    firstName: string, lastName: string, address1: string, address2: string, city: string,
    province: string, zip: string, country: string, phone: string)

  const NO_ADDRESS := Address("", "", "", "", "", "", "", "", "")

  datatype Payload = Payload(
    id: int, name: string, email: string, createdAt: Option<int>, totalPrice: Money,
    financialStatus: string, taxesIncluded: bool, gateway: string, gatewayNames: seq<string>,
    shippingAddress: Option<Address>, lineItems: seq<LineItem>, shippingLines: seq<ShippingLine>)
}
