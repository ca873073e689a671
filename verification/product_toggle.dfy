/**
 * The product-selection toggle of the bundle and upsell forms: clicking a product adds it to the
 * selected list when it is absent and removes it (every occurrence) when it is present.
 */
module ProductToggle {
  import opened Seqs

  /** `ids.includes(id) ? ids.filter(x => x !== id) : [...ids, id]` */
  function Toggle(ids: seq<string>, id: string): (r: seq<string>)
    ensures id in r <==> id !in ids
  {
    if id in ids then RemoveAll(ids, id) else ids + [id]
  }

  /** Toggling an absent id appends it at the end and keeps the list before it as it was. */
  lemma ToggleAbsentAppends(ids: seq<string>, id: string)
    requires id !in ids
    ensures |Toggle(ids, id)| == |ids| + 1
    ensures Toggle(ids, id)[..|ids|] == ids && Toggle(ids, id)[|ids|] == id
  {
    assert (ids + [id])[..|ids|] == ids;
  }

  /**
   * Toggling a present id removes every occurrence of it and nothing else: every other id keeps
   * its number of occurrences.
   */
  lemma TogglePresentRemoves(ids: seq<string>, id: string)
    requires id in ids
    ensures id !in Toggle(ids, id)
    ensures multiset(Toggle(ids, id)) == multiset(ids)[id := 0]
    ensures |Toggle(ids, id)| < |ids|
  {
    RemoveAllMultiset(ids, id);
    assert multiset(ids)[id] > 0;
    assert |multiset(Toggle(ids, id))| < |multiset(ids)|;
  }

  /** Every other id is selected after the toggle exactly when it was before. */
  lemma ToggleKeepsOthers(ids: seq<string>, id: string, other: string)
    requires other != id
    ensures other in Toggle(ids, id) <==> other in ids
  {
    if id in ids {
      TogglePresentRemoves(ids, id);
      assert multiset(Toggle(ids, id))[other] == multiset(ids)[other];
    }
  }

  /**
   * Toggling never reorders the other ids: selecting or deselecting `id` in a list made of two
   * parts does so part by part.
   */
  lemma ToggleKeepsOrder(a: seq<string>, b: seq<string>, id: string)
    requires id in a + b
    ensures Toggle(a + b, id) == RemoveAll(a, id) + RemoveAll(b, id)
  {
    RemoveAllConcat(a, b, id);
  }

  /** Toggling an absent id twice gives back the original list exactly. */
  lemma {:induction false} ToggleTwiceRestores(ids: seq<string>, id: string)
    requires id !in ids
    ensures Toggle(Toggle(ids, id), id) == ids
  {
    RemoveAllConcat(ids, [id], id);
    assert RemoveAll([id], id) == [];
  }
}
