/**
 * The send-money menus' offering helpers: offerings grouped by currency code and cached in
 * the USSD session, and the one-entry description of an offering.
 */
module Offerings {
  import opened Wrappers
  import opened Text
  import opened Records
  import Seqs
  import Sessions

  /** An offering, reduced to what the helpers read. `rate` is `payoutUnitsPerPayinUnit`, a decimal string. */
  datatype Offering = Offering(from: string, payinCurrency: string, payoutCurrency: string, rate: string)

  type Grouping = Record<seq<Offering>>

  /** A PFI the app knows by name. */
  datatype Pfi = Pfi(id: string, uri: string, name: string)

  const PFIs: seq<Pfi> := [
    Pfi("aquafinance_capital", "did:dht:3fkz5ssfxbriwks3iy5nwys3q5kyx64ettp9wfn1yfekfkiguj1y", "AquaFinance Capital"),
    Pfi("flowback_financial", "did:dht:zkp5gbsqgzn69b3y5dtt5nnpjtdq6sxyukpzo68npsf79bmtb9zy", "Flowback Financial"),
    Pfi("vertex_liquid_assets", "did:dht:enwguxo8uzqexq14xupe4o9ymxw3nzeb9uug5ijkj9rhfbf1oy5y", "Vertex Liquid Assets"),
    Pfi("titanium_trust", "did:dht:ozn5c51ruo7z63u1h748ug7rw5p1mq3853ytrd5gatu9a8mm8f1o", "Titanium Trust")
  ]

  const PayoutCacheKey := "offeringsByPayoutCurrencyCode"
  const PayinCacheKey := "offeringsByPayinCurrencyCode"

  function PayoutCode(o: Offering): string { o.payoutCurrency }

  function PayinCode(o: Offering): string { o.payinCurrency }

  /**
   * `getOfferingsByPayoutCurrencyCode` and `getOfferingsByPayinCurrencyCode`: a grouping cached
   * under `cacheKey` is returned without fetching; otherwise the fetched offerings are grouped
   * by `code`, the grouping is written to the session under `cacheKey`, and returned.
   * `remote` is what the fetch would answer; `fetched` says whether the fetch was made.
   */
  method OfferingsBy(session: Sessions.Store<Grouping>, cacheKey: string, code: Offering -> string, remote: seq<Offering>)
    returns (groups: Grouping, fetched: bool)
    modifies session
    ensures old(session.Lookup(cacheKey)).Some? ==>
              !fetched && groups == old(session.Lookup(cacheKey)).value && session.data == old(session.data)
    ensures old(session.Lookup(cacheKey)).None? ==>
              fetched && groups == GroupSpec(remote, code) && session.data == old(session.data)[cacheKey := groups]
    ensures session.ended == old(session.ended)
  {
    var cached := session.Get(cacheKey);
    if cached.Some? {
      return cached.value, false;
    }
    groups := GroupInto(remote, code);
    session.Set(cacheKey, groups);
    fetched := true;
  }

  method OfferingsByPayout(session: Sessions.Store<Grouping>, remote: seq<Offering>) returns (groups: Grouping, fetched: bool)
    modifies session
    ensures old(session.Lookup(PayoutCacheKey)).Some? ==>
              !fetched && groups == old(session.Lookup(PayoutCacheKey)).value && session.data == old(session.data)
    ensures old(session.Lookup(PayoutCacheKey)).None? ==>
              fetched && groups == GroupSpec(remote, PayoutCode) && session.data == old(session.data)[PayoutCacheKey := groups]
    ensures session.ended == old(session.ended)
  {
    groups, fetched := OfferingsBy(session, PayoutCacheKey, PayoutCode, remote);
  }

  method OfferingsByPayin(session: Sessions.Store<Grouping>, remote: seq<Offering>) returns (groups: Grouping, fetched: bool)
    modifies session
    ensures old(session.Lookup(PayinCacheKey)).Some? ==>
              !fetched && groups == old(session.Lookup(PayinCacheKey)).value && session.data == old(session.data)
    ensures old(session.Lookup(PayinCacheKey)).None? ==>
              fetched && groups == GroupSpec(remote, PayinCode) && session.data == old(session.data)[PayinCacheKey := groups]
    ensures session.ended == old(session.ended)
  {
    groups, fetched := OfferingsBy(session, PayinCacheKey, PayinCode, remote);
  }

  /** The offerings of a payout currency are its bucket, in fetch order; a currency nobody pays out has none. */
  lemma PayoutBuckets(remote: seq<Offering>, currency: string)
    ensures Get(GroupSpec(remote, PayoutCode), currency)
            == if exists o :: o in remote && o.payoutCurrency == currency then Some(Seqs.Filter(remote, KeyIs(PayoutCode, currency))) else None
  {
    GroupSpecValues(remote, PayoutCode, currency);
    KeyInKeySeq(remote, PayoutCode, currency);
  }

  lemma PayinBuckets(remote: seq<Offering>, currency: string)
    ensures Get(GroupSpec(remote, PayinCode), currency)
            == if exists o :: o in remote && o.payinCurrency == currency then Some(Seqs.Filter(remote, KeyIs(PayinCode, currency))) else None
  {
    GroupSpecValues(remote, PayinCode, currency);
    KeyInKeySeq(remote, PayinCode, currency);
  }

  lemma KeyInKeySeq(xs: seq<Offering>, key: Offering -> string, k: string)
    ensures k in KeySeq(xs, key) <==> exists o :: o in xs && key(o) == k
  {
    if k in KeySeq(xs, key) {
      var i :| 0 <= i < |xs| && KeySeq(xs, key)[i] == k;
      assert xs[i] in xs;
    }
    if exists o :: o in xs && key(o) == k {
      var o :| o in xs && key(o) == k;
      var i :| 0 <= i < |xs| && xs[i] == o;
      assert KeySeq(xs, key)[i] == k;
    }
  }

  function HasUri(uri: string): Pfi -> bool
  {
    (p: Pfi) => p.uri == uri
  }

  /** Who offers: a known PFI's name, or `PFI ...` and the last four characters of the DID. */
  function OffererLabel(from: string): (r: string)
    ensures Seqs.Find(PFIs, HasUri(from)).Some? ==> r == Seqs.Find(PFIs, HasUri(from)).value.name
    ensures Seqs.Find(PFIs, HasUri(from)).None? && |from| >= 4 ==> r == "PFI ..." + from[|from| - 4..]
    ensures Seqs.Find(PFIs, HasUri(from)).None? && |from| < 4 ==> r == "PFI ..." + from
  {
    match Seqs.Find(PFIs, HasUri(from))
    case Some(pfi) => pfi.name
    case None =>
      assert SliceIndex(|from|, -4) == if |from| >= 4 then |from| - 4 else 0;
      assert from[0..] == from;
      "PFI ..." + JsSlice(from, -4, |from|)
  }

  /** The rate line: one unit of the payin currency buys the rate in the payout currency. */
  function RateLine(o: Offering): string
  {
    "at 1 " + o.payinCurrency + " = " + o.rate + " " + o.payoutCurrency
  }

  /**
   * `generateOfferingDescription`: the position counted from one, the offerer on the first
   * line, the rate on the second.
   */
  function OfferingDescription(o: Offering, index: int): (r: string)
    ensures var head := IntToString(index + 1) + ". ";
            |r| > |head| && r[..|head|] == head
    ensures var tail := "\n" + RateLine(o);
            |r| > |tail| && r[|r| - |tail|..] == tail
    ensures var head := IntToString(index + 1) + ". ";
            var tail := "\n" + RateLine(o);
            |head| + |tail| <= |r| && r[|head|..|r| - |tail|] == OffererLabel(o.from)
  {
    var head := IntToString(index + 1) + ". ";
    var tail := "\n" + RateLine(o);
    var r := head + OffererLabel(o.from) + tail;
    assert r[..|head|] == head;
    assert r[|r| - |tail|..] == tail;
    assert r[|head|..|r| - |tail|] == OffererLabel(o.from);
    r
  }

  /** An offering from a listed PFI is described by that PFI's name, between the index and the rate. */
  lemma KnownPfiDescribed(o: Offering, index: int, i: nat)
    requires i < |PFIs| && o.from == PFIs[i].uri
    ensures var r := OfferingDescription(o, index);
            var head := IntToString(index + 1) + ". ";
            var tail := "\n" + RateLine(o);
            |head| + |tail| <= |r| && r[|head|..|r| - |tail|] == PFIs[i].name
  {
    KnownPfiNamed(i);
  }

  /** Each known PFI is found by its own DID, so its offerings are described with its name. */
  lemma KnownPfiNamed(i: nat)
    requires i < |PFIs|
    ensures OffererLabel(PFIs[i].uri) == PFIs[i].name
  {
    var uri := PFIs[i].uri;
    assert PFIs[0].uri != PFIs[1].uri && PFIs[0].uri != PFIs[2].uri && PFIs[0].uri != PFIs[3].uri;
    assert PFIs[1].uri != PFIs[2].uri && PFIs[1].uri != PFIs[3].uri && PFIs[2].uri != PFIs[3].uri;
    FindDistinct(PFIs, HasUri(uri), i);
  }

  lemma {:induction false} FindDistinct<T(!new)>(xs: seq<T>, p: T -> bool, i: nat)
    requires i < |xs| && p(xs[i]) && forall j :: 0 <= j < i ==> !p(xs[j])
    ensures Seqs.Find(xs, p) == Some(xs[i])
    decreases i
  {
    if i > 0 {
      FindDistinct(xs[1..], p, i - 1);
    }
  }
}
