/**
 * The browser's local storage, reduced to the one key both pages use,
 * `"cart"`. Its value is the parsed JSON array: product records that may or
 * may not carry a `quantity` field.
 */
module Storage {
  import opened Wrappers
  import opened Catalog

  /** One element of the persisted array: a product's fields and an optional quantity. */
  datatype StoredLine = StoredLine(item: Product, quantity: Option<int>)

  /** The `"cart"` key: `None` when the key is absent. */
  class Store {
    var slot: Option<seq<StoredLine>>

    constructor (initial: Option<seq<StoredLine>>)
      ensures slot == initial
    {
      slot := initial;
    }
  }

}
