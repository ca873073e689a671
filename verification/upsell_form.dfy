/** The upsell (order bump) form: the selection of products offered at checkout. */
module UpsellForm {
  import opened Wrappers
  import ProductToggle

  datatype UpsellDraft = UpsellDraft(upsellProductIds: Option<seq<string>>)

  /** The offered products, an absent list read as empty. */
  function Offered(d: UpsellDraft): seq<string>
  {
    OrElse(d.upsellProductIds, [])
  }

  /** Clicking a product flips whether it is offered. */
  function ToggleProduct(d: UpsellDraft, productId: string): (r: UpsellDraft)
    ensures r.upsellProductIds == Some(ProductToggle.Toggle(Offered(d), productId))
    ensures productId in Offered(r) <==> productId !in Offered(d)
  {
    d.(upsellProductIds := Some(ProductToggle.Toggle(Offered(d), productId)))
  }

  /** Clicking the same product twice on a draft that lacks it restores the selection. */
  lemma ToggleProductTwice(d: UpsellDraft, productId: string)
    requires productId !in Offered(d)
    ensures Offered(ToggleProduct(ToggleProduct(d, productId), productId)) == Offered(d)
  {
    ProductToggle.ToggleTwiceRestores(Offered(d), productId);
  }
}
