/**
 * The abstract view of the deviceatlas.com pages and of the records the
 * scraper builds from them. CSS selector evaluation is replaced by one field
 * per selector the scraper uses.
 */
module Pages {
  import opened Common

  const BASE_URL := "https://deviceatlas.com"

  /** One `<a>` element: its text and its `href` attribute. */
  datatype Link = Link(text: string, href: string)

  /** The `#product-data` element of a device page: its first `.device-title`, if any. */
  datatype ProductData = ProductData(deviceTitle: Option<string>)

  /**
   * A fetched page, seen through the selectors the scraper applies to it:
   * `.manufacturer-group ul li a` (the brand catalog),
   * `#vendor-browser-container div p a` (a brand's device listing) and
   * `#product-data` (a device page).
   */
  datatype Page = Page(
    manufacturerLinks: seq<Link>,
    vendorLinks: seq<Link>,
    productData: Option<ProductData>)

  /** The `{model, name}` map built for one device. */
  datatype DeviceInfo = DeviceInfo(model: string, name: string)

  /** One entry of the brand map: brand name and the href of its listing. */
  datatype Brand = Brand(name: string, url: string)

  /** The content of one checkpoint file `BrandsList_<id>.txt`: brand to device records. */
  type Checkpoint = map<string, seq<DeviceInfo>>
}
