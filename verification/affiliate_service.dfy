/**
 * The affiliate service: commission programs, referral links with unique codes and click
 * counters, and commissions credited to the link owner's wallet.
 */
module Affiliates {
  import opened Wrappers
  import opened Domain
  import opened Seqs
  import Wallets

  const LinkBase: string := "http://localhost:5173/ref/"
  const PaidStatus: string := "paid"
  const CommissionMemo: string := "Commission for Order "

  /** The commission on a sale: `rate` is a percentage of `amount`. */
  function Earned(amount: real, rate: real): (c: real)
    ensures c * 100.0 == amount * rate
    ensures amount >= 0.0 && rate >= 0.0 ==> c >= 0.0
    ensures amount > 0.0 && rate > 0.0 ==> c > 0.0
    ensures amount >= 0.0 && 0.0 <= rate <= 100.0 ==> c <= amount
  {
    amount * rate / 100.0
  }

  /** The by-code filter of link lookups. */
  function HasCode(code: string): AffiliateLink -> bool
  {
    (l: AffiliateLink) => l.code == code
  }

  /** Position of the link `FindOne` by code returns. */
  function LinkIndex(links: seq<AffiliateLink>, code: string): Option<nat>
  {
    FirstWhere(links, HasCode(code))
  }

  /** Position of the program with that id. */
  function ProgramIndex(programs: seq<AffiliateProgram>, id: string): Option<nat>
  {
    FirstWhere(programs, (p: AffiliateProgram) => p.id == id)
  }

  /** A fresh link: the public URL is the referral base followed by the code, and no clicks yet. */
  function NewLink(userId: string, programId: string, code: string, now: int, n: nat): (l: AffiliateLink)
    ensures l.url == LinkBase + code && l.clicks == 0 && l.conversions == 0 && l.code == code
    ensures l.userId == userId && l.programId == programId && l.id == MintedId(n)
  {
    AffiliateLink(MintedId(n), userId, programId, code, LinkBase + code, 0, 0, now)
  }

  /** One more click; nothing else about the link changes. */
  function Clicked(l: AffiliateLink): (r: AffiliateLink)
    ensures r.clicks == l.clicks + 1
    ensures r.(clicks := l.clicks) == l
  {
    l.(clicks := l.clicks + 1)
  }

  /** The link with that code and the program it belongs to, when both exist. */
  function Referral(links: seq<AffiliateLink>, programs: seq<AffiliateProgram>, code: string)
    : (r: Option<(AffiliateLink, AffiliateProgram)>)
    ensures r.Some? <==> LinkIndex(links, code).Some?
                         && ProgramIndex(programs, links[LinkIndex(links, code).value].programId).Some?
    ensures r.Some? ==> r.value.0 in links && r.value.0.code == code
                        && r.value.1 in programs && r.value.1.id == r.value.0.programId
  {
    match LinkIndex(links, code)
    case None => None
    case Some(k) =>
      match ProgramIndex(programs, links[k].programId)
      case None => None
      case Some(j) => Some((links[k], programs[j]))
  }

  /** The paid commission a sale through `link` earns, stored at position `n`. */
  function CommissionOf(link: AffiliateLink, program: AffiliateProgram, orderId: string, amount: real, now: int, n: nat)
    : (c: Commission)
    ensures c.affiliateId == link.userId && c.linkId == link.id && c.orderId == orderId
    ensures c.totalAmount == amount && c.earnedAmount * 100.0 == amount * program.commissionRate
    ensures c.status == PaidStatus && c.id == MintedId(n)
  {
    Commission(MintedId(n), link.userId, link.id, orderId, amount, Earned(amount, program.commissionRate), PaidStatus, now)
  }

  /**
   * The wallet side of a recorded commission: a positive earning is credited to the affiliate's
   * wallet with one ledger entry; otherwise the wallets and the ledger stay as they were.
   */
  ghost predicate Settled(w0: seq<Wallet>, l0: seq<WalletTransaction>, w1: seq<Wallet>, l1: seq<WalletTransaction>,
                          c: Commission, now: int)
  {
    if c.earnedAmount > 0.0 then
      && w1 == Wallets.Booked(w0, c.affiliateId, c.earnedAmount, now)
      && l1 == l0 + [Wallets.Entry(w0, l0, c.affiliateId, c.earnedAmount, Wallets.CommissionTx, c.id,
                                   CommissionMemo + c.orderId, now)]
    else
      w1 == w0 && l1 == l0
  }

  class AffiliateService {
    var programs: seq<AffiliateProgram>
    var links: seq<AffiliateLink>
    var commissions: seq<Commission>
    const wallets: Wallets.WalletService

    /** Store invariant: store-issued ids and unique link codes; the wallet service keeps its own. */
    ghost predicate Valid()
      reads this, wallets
    {
      && (forall i :: 0 <= i < |programs| ==> IssuedAt(programs[i].id, i))
      && (forall i :: 0 <= i < |links| ==> IssuedAt(links[i].id, i))
      && (forall i, j :: 0 <= i < j < |links| ==> links[i].code != links[j].code)
      && (forall i :: 0 <= i < |commissions| ==> IssuedAt(commissions[i].id, i))
      && wallets.Valid()
    }

    constructor (wallets: Wallets.WalletService)
      requires wallets.Valid()
      ensures Valid() && programs == [] && links == [] && commissions == [] && this.wallets == wallets
    {
      this.wallets := wallets;
      programs, links, commissions := [], [], [];
    }

    /** CreateProgram: stores the program as given, active, with no check on the rate. */
    method CreateProgram(creatorId: string, productId: Option<string>, rate: real, now: int)
      returns (p: AffiliateProgram)
      requires Valid()
      modifies this
      ensures Valid()
      ensures p == AffiliateProgram(MintedId(|old(programs)|), creatorId, productId, rate, true, now)
      ensures programs == old(programs) + [p] && links == old(links) && commissions == old(commissions)
    {
      p := AffiliateProgram(MintedId(|programs|), creatorId, productId, rate, true, now);
      programs := programs + [p];
    }

    /** GenerateLink: a code already in use is refused; otherwise a new link is stored. */
    method GenerateLink(userId: string, programId: string, code: string, now: int)
      returns (r: Result<AffiliateLink>)
      requires Valid()
      modifies this
      ensures Valid()
      ensures programs == old(programs) && commissions == old(commissions)
      ensures LinkIndex(old(links), code).Some? ==>
        r == Err("affiliate code already taken") && links == old(links)
      ensures LinkIndex(old(links), code).None? ==>
        r == Ok(NewLink(userId, programId, code, now, |old(links)|)) && links == old(links) + [r.value]
    {
      if LinkIndex(links, code).Some? {
        return Err("affiliate code already taken");
      }
      var link := AffiliateLink(MintedId(|links|), userId, programId, code, LinkBase + code, 0, 0, now);
      assert forall j :: 0 <= j < |links| ==> !HasCode(code)(links[j]);
      links := links + [link];
      r := Ok(link);
    }

    /** TrackClick: an unknown code is the store's not-found error; otherwise that link gains one click. */
    method TrackClick(code: string) returns (o: Outcome)
      requires Valid()
      modifies this
      ensures Valid()
      ensures programs == old(programs) && commissions == old(commissions)
      ensures LinkIndex(old(links), code).None? ==> o == Fail(NoDocuments) && links == old(links)
      ensures LinkIndex(old(links), code).Some? ==>
        var k := LinkIndex(old(links), code).value;
        o == Pass && links == old(links)[k := Clicked(old(links)[k])]
    {
      var found := LinkIndex(links, code);
      if found.None? {
        return Fail(NoDocuments);
      }
      var k := found.value;
      links := links[k := Clicked(links[k])];
      o := Pass;
    }

    /**
     * ProcessCommission: finds the link and its program, records a paid commission of `rate`
     * percent of the sale, then credits it to the link owner's wallet. A refused credit is
     * reported, but the commission record stays.
     */
    method ProcessCommission(orderId: string, amount: real, code: string, now: int)
      returns (r: Result<Commission>)
      requires Valid()
      modifies this, wallets
      ensures Valid()
      ensures programs == old(programs) && links == old(links) && wallets.payouts == old(wallets.payouts)
      ensures Referral(links, programs, code).None? ==>
        r == Err(NoDocuments) && commissions == old(commissions)
        && wallets.wallets == old(wallets.wallets) && wallets.ledger == old(wallets.ledger)
      ensures Referral(links, programs, code).Some? ==>
        var (link, program) := Referral(links, programs, code).value;
        var c := CommissionOf(link, program, orderId, amount, now, |old(commissions)|);
        && commissions == old(commissions) + [c]
        && Settled(old(wallets.wallets), old(wallets.ledger), wallets.wallets, wallets.ledger, c, now)
        && r == (if c.earnedAmount > 0.0 then Ok(c) else Err("amount must be positive"))
    {
      var li := LinkIndex(links, code);
      if li.None? {
        return Err(NoDocuments);
      }
      var link := links[li.value];
      var pi := ProgramIndex(programs, link.programId);
      if pi.None? {
        return Err(NoDocuments);
      }
      var earned := Earned(amount, programs[pi.value].commissionRate);
      var c := Commission(MintedId(|commissions|), link.userId, link.id, orderId, amount, earned, PaidStatus, now);
      commissions := commissions + [c];
      var credit := wallets.CreditWallet(link.userId, earned, Wallets.CommissionTx, c.id, CommissionMemo + orderId, now);
      if credit.Fail? {
        return Err(credit.msg);
      }
      r := Ok(c);
    }
  }
}
