/**
 * The SQLite `products` table of the desktop variants (app.py, req.py, and
 * the module-level `update_product_name` of originalapp.py): one row per EAN
 * with nullable name, brand, source and image path. The image directory those
 * variants write into is kept beside it as the set of existing files.
 */
module Products {
  import opened Wrappers

  /** A row of `products`; `None` is SQL NULL. */
  datatype Product = Product(name: Option<string>, brand: Option<string>, source: Option<string>,
                             imagePath: Option<string>)

  /** The `products` table keyed by `ean`, and the files under the image directory. */
  class ProductDb {
    var rows: map<string, Product>
    var files: set<string>

    constructor (rows: map<string, Product>, files: set<string>)
      ensures this.rows == rows && this.files == files
    {
      this.rows := rows;
      this.files := files;
    }
  }
}
