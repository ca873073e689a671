/**
 * The tiered-pricing form: a list of quantity tiers that can be appended to, removed from and
 * edited field by field, with an empty "Max Qty" input standing for an unbounded tier.
 */
module TieredForm {
  import opened Wrappers
  import opened Domain

  /** The form's partial configuration; `tiers` is absent until the first edit. */
  datatype TieredDraft = TieredDraft(tiers: Option<seq<TierItem>>)

  /** `config.tiers || []` */
  function Tiers(d: TieredDraft): seq<TierItem>
  {
    OrElse(d.tiers, [])
  }

  // ---------------------------------------------------------------------------------------------
  // Tier names

  function Digit(n: nat): char
    requires n < 10
  {
    "0123456789"[n]
  }

  /** A non-negative integer written in decimal, as a template literal renders it. */
  function NumberText(n: nat): (s: string)
    ensures |s| >= 1 && forall i :: 0 <= i < |s| ==> '0' <= s[i] <= '9'
  {
    if n < 10 then [Digit(n)] else NumberText(n / 10) + [Digit(n % 10)]
  }

  /** The number a string of decimal digits denotes. */
  function DigitsValue(s: string): nat
    requires forall i :: 0 <= i < |s| ==> '0' <= s[i] <= '9'
  {
    if s == [] then 0 else DigitsValue(s[..|s| - 1]) * 10 + (s[|s| - 1] as int - '0' as int)
  }

  /** The rendering reads back as the number it renders, so distinct tiers get distinct names. */
  lemma {:induction false} NumberTextRoundTrip(n: nat)
    ensures DigitsValue(NumberText(n)) == n
  {
    var s := NumberText(n);
    if n >= 10 {
      NumberTextRoundTrip(n / 10);
      assert s[..|s| - 1] == NumberText(n / 10);
    }
  }

  // ---------------------------------------------------------------------------------------------
  // Handlers

  /** "Add Tier": one default tier named after its position is appended. */
  function AddTier(d: TieredDraft): (r: TieredDraft)
    ensures |Tiers(r)| == |Tiers(d)| + 1
    ensures Tiers(r)[..|Tiers(d)|] == Tiers(d)
    ensures Tiers(r)[|Tiers(d)|] == TierItem("Tier " + NumberText(|Tiers(d)| + 1), 1, 10, 10.0)
  {
    var tiers := Tiers(d);
    var r := d.(tiers := Some(tiers + [TierItem("Tier " + NumberText(|tiers| + 1), 1, 10, 10.0)]));
    assert Tiers(r)[..|tiers|] == tiers;
    r
  }

  /** `copy.splice(index, 1)`: a negative index counts from the end; an index past the end removes nothing. */
  function Spliced(s: seq<TierItem>, index: int): (r: seq<TierItem>)
    ensures 0 <= index < |s| ==> r == s[..index] + s[index + 1..]
    ensures index >= |s| ==> r == s
    ensures -|s| <= index < 0 ==> r == s[..|s| + index] + s[|s| + index + 1..]
    ensures index < -|s| && |s| > 0 ==> r == s[1..]
  {
    var start := if index < 0 then (if |s| + index < 0 then 0 else |s| + index)
                 else (if index > |s| then |s| else index);
    if start < |s| then s[..start] + s[start + 1..] else s
  }

  /** The trash button of the tier at `index`. */
  function RemoveTier(d: TieredDraft, index: int): (r: TieredDraft)
    ensures r.tiers == Some(Spliced(Tiers(d), index))
  {
    d.(tiers := Some(Spliced(Tiers(d), index)))
  }

  /** Removing the tier at a valid index drops exactly that tier and keeps every other one. */
  lemma RemoveTierDropsOne(d: TieredDraft, index: int)
    requires 0 <= index < |Tiers(d)|
    ensures |Tiers(RemoveTier(d, index))| == |Tiers(d)| - 1
    ensures multiset(Tiers(RemoveTier(d, index))) + multiset{Tiers(d)[index]} == multiset(Tiers(d))
    ensures forall i :: 0 <= i < index ==> Tiers(RemoveTier(d, index))[i] == Tiers(d)[i]
    ensures forall i :: index <= i < |Tiers(d)| - 1 ==> Tiers(RemoveTier(d, index))[i] == Tiers(d)[i + 1]
  {
    var s := Tiers(d);
    assert s == s[..index] + [s[index]] + s[index + 1..];
  }

  /** The field an input edits, with the value it writes. */
  datatype TierField =
    | NameField(name: string)
    | MinQtyField(minQty: int)
    | MaxQtyField(maxQty: int)
    | UnitPriceField(unitPrice: real)

  /** Whether two field edits address the same field. */
  predicate SameField(f: TierField, g: TierField)
  {
    (f.NameField? && g.NameField?) || (f.MinQtyField? && g.MinQtyField?)
    || (f.MaxQtyField? && g.MaxQtyField?) || (f.UnitPriceField? && g.UnitPriceField?)
  }

  /** The current value of the field `f` addresses. */
  function Read(t: TierItem, f: TierField): TierField
  {
    match f
    case NameField(_) => NameField(t.name)
    case MinQtyField(_) => MinQtyField(t.minQty)
    case MaxQtyField(_) => MaxQtyField(t.maxQty)
    case UnitPriceField(_) => UnitPriceField(t.unitPrice)
  }

  /** `{ ...tier, [field]: value }`: the written field reads back the value, every other field is kept. */
  function WithField(t: TierItem, f: TierField): (r: TierItem)
    ensures Read(r, f) == f
    ensures forall g :: !SameField(f, g) ==> Read(r, g) == Read(t, g)
  {
    match f
    case NameField(v) => t.(name := v)
    case MinQtyField(v) => t.(minQty := v)
    case MaxQtyField(v) => t.(maxQty := v)
    case UnitPriceField(v) => t.(unitPrice := v)
  }

  /** An input change on the tier at `index` (the form only renders inputs for existing tiers). */
  function UpdateTier(d: TieredDraft, index: nat, f: TierField): (r: TieredDraft)
    requires index < |Tiers(d)|
    ensures |Tiers(r)| == |Tiers(d)|
    ensures Tiers(r)[index] == WithField(Tiers(d)[index], f)
    ensures forall i :: 0 <= i < |Tiers(d)| && i != index ==> Tiers(r)[i] == Tiers(d)[i]
  {
    d.(tiers := Some(Tiers(d)[index := WithField(Tiers(d)[index], f)]))
  }

  // ---------------------------------------------------------------------------------------------
  // The "Max Qty" input; `None` is an empty input box

  /** What an edit of the Max Qty box stores: an empty box means unbounded (-1). */
  function MaxQtyFromInput(input: Option<int>): (maxQty: int)
    ensures input.None? ==> maxQty == -1
    ensures input.Some? ==> maxQty == input.value
  {
    match input
    case None => -1
    case Some(n) => n
  }

  /** What the Max Qty box shows: unbounded (-1) shows as empty. */
  function MaxQtyShown(maxQty: int): (shown: Option<int>)
    ensures shown.None? <==> maxQty == -1
  {
    if maxQty == -1 then None else Some(maxQty)
  }

  /**
   * Showing a stored bound and storing what is shown changes nothing, and what is typed is shown
   * back unless it is the sentinel -1 itself, which reads back as an empty box.
   */
  lemma MaxQtyRoundTrip(maxQty: int, input: Option<int>)
    ensures MaxQtyFromInput(MaxQtyShown(maxQty)) == maxQty
    ensures input != Some(-1) ==> MaxQtyShown(MaxQtyFromInput(input)) == input
    ensures MaxQtyShown(MaxQtyFromInput(Some(-1))) == None
  {
  }
}
