/** The record shapes shared by the merchant pages and the merchant session.
    Optional properties become `Option`; JavaScript numbers used as money become `real`. */
module Types {
  import opened Wrappers

  datatype Merchant = Merchant(
    id: string,
    name: string,
    email: string,
    phone: string,
    businessName: string,
    cnpj: string,
    address: string,
    category: string,
    description: string,
    logoUrl: Option<string>,
    isActive: bool,
    createdAt: string)

  datatype Product = Product(
    id: string,
    merchantId: string,
    name: string,
    description: string,
    price: real,
    category: string,
    imageUrl: Option<string>,
    isActive: bool,
    stock: real,
    createdAt: string)

  datatype MerchantOffer = MerchantOffer(
    id: string,
    merchantId: string,
    productId: Option<string>,
    title: string,
    description: string,
    discountPercentage: Option<real>,
    discountAmount: Option<real>,
    minPurchaseAmount: Option<real>,
    maxDiscountAmount: Option<real>,
    validFrom: string,
    validUntil: string,
    isActive: bool,
    imageUrl: Option<string>,
    createdAt: string)

  datatype Customer = Customer(
    id: string,
    name: string,
    email: string,
    phone: string,
    totalPurchases: real,
    lastPurchase: string,
    cashbackEarned: real,
    isActive: bool)
}
