/**
 * The records the store keeps under its local-storage keys
 * (`musicstore_products`, `musicstore_brands`, `musicstore_categories`,
 * `musicstore_orders`, `musicstore_cart`). Prices are whole roubles.
 */
module Records {
  import opened Wrappers

  /** A JavaScript number as the model holds it: a whole value, or `None` for `NaN`. */
  type JsNumber = Option<int>

  /** A point in time in milliseconds, the value `new Date(...).getTime()` yields. */
  type Timestamp = int

  /** A product image; the images the admin form submits carry no id (`None`). */
  datatype ProductImage = ProductImage(id: Option<int>, imageUrl: string, altText: string, sortOrder: int, isPrimary: bool)

  /** The `brand` / `category` summary embedded in a product; the admin route stores brands without a slug. */
  datatype Ref = Ref(id: int, name: string, slug: Option<string>)

  /** A stored product; `oldPrice` is absent (`None`, `undefined`) or a number, possibly `NaN`. */
  datatype Product = Product(
    id: int,
    name: string,
    slug: string,
    description: string,
    shortDescription: string,
    price: int,
    oldPrice: Option<JsNumber>,
    sku: string,
    stockQuantity: int,
    brandId: Option<int>,
    categoryId: Option<int>,
    isFeatured: bool,
    isNew: bool,
    isRecommended: bool,
    isActive: bool,
    createdAt: Timestamp,
    updatedAt: Timestamp,
    images: seq<ProductImage>,
    brand: Option<Ref>,
    category: Option<Ref>)

  /**
   * `Partial<LocalProduct>`: the keys present in an update. Spreading it over
   * a stored product overwrites exactly the present keys.
   */
  datatype ProductPatch = ProductPatch(
    id: Option<int>,
    name: Option<string>,
    slug: Option<string>,
    description: Option<string>,
    shortDescription: Option<string>,
    price: Option<int>,
    oldPrice: Option<Option<JsNumber>>,
    sku: Option<string>,
    stockQuantity: Option<int>,
    brandId: Option<Option<int>>,
    categoryId: Option<Option<int>>,
    isFeatured: Option<bool>,
    isNew: Option<bool>,
    isRecommended: Option<bool>,
    isActive: Option<bool>,
    createdAt: Option<Timestamp>,
    images: Option<seq<ProductImage>>,
    brand: Option<Option<Ref>>,
    category: Option<Option<Ref>>)

  /** `{ ...p, ...patch }`. */
  function MergeProduct(p: Product, patch: ProductPatch): Product {
    Product(
      patch.id.GetOr(p.id), patch.name.GetOr(p.name), patch.slug.GetOr(p.slug),
      patch.description.GetOr(p.description), patch.shortDescription.GetOr(p.shortDescription),
      patch.price.GetOr(p.price), patch.oldPrice.GetOr(p.oldPrice), patch.sku.GetOr(p.sku),
      patch.stockQuantity.GetOr(p.stockQuantity), patch.brandId.GetOr(p.brandId),
      patch.categoryId.GetOr(p.categoryId), patch.isFeatured.GetOr(p.isFeatured),
      patch.isNew.GetOr(p.isNew), patch.isRecommended.GetOr(p.isRecommended),
      patch.isActive.GetOr(p.isActive), patch.createdAt.GetOr(p.createdAt), p.updatedAt,
      patch.images.GetOr(p.images), patch.brand.GetOr(p.brand), patch.category.GetOr(p.category))
  }

  datatype Brand = Brand(id: int, name: string, slug: string, description: string, logoUrl: Option<string>, isActive: bool)

  datatype Category = Category(id: int, name: string, slug: string, description: string, isActive: bool)

  datatype Status = Pending | Paid | Shipped | Delivered | Cancelled

  datatype OrderItem = OrderItem(productId: int, productName: string, quantity: int, price: int)

  datatype Order = Order(
    id: int,
    userName: string,
    userEmail: string,
    userPhone: string,
    totalAmount: int,
    status: Status,
    items: seq<OrderItem>,
    createdAt: Timestamp)

  /** `Partial<LocalOrder>`. */
  datatype OrderPatch = OrderPatch(
    id: Option<int>,
    userName: Option<string>,
    userEmail: Option<string>,
    userPhone: Option<string>,
    totalAmount: Option<int>,
    status: Option<Status>,
    items: Option<seq<OrderItem>>,
    createdAt: Option<Timestamp>)

  /** `{ ...o, ...patch }`. */
  function MergeOrder(o: Order, patch: OrderPatch): Order {
    Order(
      patch.id.GetOr(o.id), patch.userName.GetOr(o.userName), patch.userEmail.GetOr(o.userEmail),
      patch.userPhone.GetOr(o.userPhone), patch.totalAmount.GetOr(o.totalAmount),
      patch.status.GetOr(o.status), patch.items.GetOr(o.items), patch.createdAt.GetOr(o.createdAt))
  }

  /** The patch `{ status }` that the admin orders page sends. */
  function StatusPatch(status: Status): OrderPatch {
    OrderPatch(None, None, None, None, None, Some(status), None, None)
  }

  datatype CartItem = CartItem(productId: int, quantity: int)
}
