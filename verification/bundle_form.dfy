/** The bundle configuration form: price fields and the included-products selection. */
module BundleForm {
  import opened Wrappers
  import ProductToggle

  /** The form's partial configuration; an untouched field is absent. */
  datatype BundleDraft = BundleDraft(price: Option<real>, originalPrice: Option<real>,
                                     includedProductIds: Option<seq<string>>)

  /** The selected products, an absent list read as empty. */
  function Included(d: BundleDraft): seq<string>
  {
    OrElse(d.includedProductIds, [])
  }

  /** Clicking a product: its membership flips, the prices stay as they were. */
  function ToggleProduct(d: BundleDraft, productId: string): (r: BundleDraft)
    ensures r.price == d.price && r.originalPrice == d.originalPrice
    ensures r.includedProductIds == Some(ProductToggle.Toggle(Included(d), productId))
    ensures productId in Included(r) <==> productId !in Included(d)
  {
    d.(includedProductIds := Some(ProductToggle.Toggle(Included(d), productId)))
  }

  /** Clicking the same product twice on a draft that lacks it restores the selection. */
  lemma ToggleProductTwice(d: BundleDraft, productId: string)
    requires productId !in Included(d)
    ensures Included(ToggleProduct(ToggleProduct(d, productId), productId)) == Included(d)
  {
    ProductToggle.ToggleTwiceRestores(Included(d), productId);
  }
}
