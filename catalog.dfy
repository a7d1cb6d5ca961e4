/** The product record as the pages and route handlers read it from the
    document store. Prices are whole currency units (see README). */
module Catalog {
  import opened Seqs

  /** The `type` of an uploaded media entry: 'image' or 'video'. */
  datatype MediaKind = Image | Video

  /** One entry of a product's `media` list: `{ url, type }`. */
  datatype Media = Media(url: string, kind: MediaKind)

  datatype Product = Product(
    id: string,
    name: string,
    description: string,
    category: Option<string>,          // absent on some documents
    price: int,
    createdAtSeconds: Option<int>,     // `createdAt?.seconds`
    isVerified: bool,
    artisanId: string,
    imageUrls: seq<string>,
    media: Option<seq<Media>>,         // absent on products created before media existed
    sales: int)
}
