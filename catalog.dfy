/** Small wrapper types shared by the modules of the storefront model. */
module Wrappers {

  /** A value that may be absent: TypeScript's `T | null` or `T | undefined`. */
  datatype Option<+T> = None | Some(value: T)
}

/** The records the storefront receives from the remote catalog service. */
module Catalog {

  /**
   * A catalog product. Its price and rating are floating-point numbers in the
   * catalog and are not part of this model; the textual fields are kept as strings.
   */
  datatype Product = Product(
    id: int,
    title: string,
    description: string,
    category: string,
    thumbnail: string,
    images: seq<string>)

  /**
   * What one request to the catalog service ends in: the decoded payload, or a
   * failure. A transport error, a non-success status and a decoding error are all
   * the same failure to the views.
   */
  datatype Fetch<+T> = Fetched(value: T) | FetchFailed
}
