/** Tier catalog lookup and price resolution: the `pricing` handler of
    main.py:202-220, without its form parsing and page rendering. */
module Pricing {
  import opened Records

  /** The outcome of pricing a job under a named tier. `Ineligible` is the
      "N/A" the page shows; `TierNotFound` stands for the request that the
      application cannot complete because no tier has the submitted name. */
  datatype PriceResult = Price(p: real) | Ineligible | TierNotFound

  /** The uniqueness constraint on `PricingTier.name` (main.py:79). */
  predicate UniqueNames(catalog: seq<PricingTier>)
  {
    forall i, j :: 0 <= i < j < |catalog| ==> catalog[i].name != catalog[j].name
  }

  /** `PricingTier.query.filter_by(name=name).first()` (main.py:211): the
      first catalog entry, in storage order, whose name is exactly `name`. */
  function FindTier(catalog: seq<PricingTier>, name: string): (r: Option<PricingTier>)
    ensures r.Some? ==> r.value in catalog && r.value.name == name
    ensures r.None? <==> forall t | t in catalog :: t.name != name
  {
    if |catalog| == 0 then None
    else if catalog[0].name == name then Some(catalog[0])
    else FindTier(catalog[1..], name)
  }

  /** Both job metrics are within the tier's maxima; equality counts. */
  predicate Fits(t: PricingTier, roofArea: real, jobDuration: real)
  {
    roofArea <= t.maxRoofArea && jobDuration <= t.maxJobDuration
  }

  /** The decision at main.py:213-216 for a tier that was found. */
  function PriceInTier(t: PricingTier, roofArea: real, jobDuration: real): PriceResult
  {
    if Fits(t, roofArea, jobDuration) then Price(t.price) else Ineligible
  }

  /** Look the named tier up and price the job under it (main.py:211-216).
      No other tier is consulted, whatever it costs or covers. */
  function ResolvePrice(catalog: seq<PricingTier>, tierName: string, roofArea: real, jobDuration: real): (r: PriceResult)
    ensures r == TierNotFound <==> forall t | t in catalog :: t.name != tierName
    ensures r.Price? ==>
      exists t | t in catalog :: t.name == tierName && Fits(t, roofArea, jobDuration) && r.p == t.price
    ensures r == Ineligible ==>
      exists t | t in catalog :: t.name == tierName && !Fits(t, roofArea, jobDuration)
  {
    match FindTier(catalog, tierName)
    case None => TierNotFound
    case Some(t) => PriceInTier(t, roofArea, jobDuration)
  }

  /** The first match wins: a tier is found when no earlier entry shares its
      name, whatever follows it. */
  lemma {:induction false} FirstMatchWins(pre: seq<PricingTier>, t: PricingTier, post: seq<PricingTier>)
    requires forall u | u in pre :: u.name != t.name
    ensures FindTier(pre + [t] + post, t.name) == Some(t)
  {
    var c := pre + [t] + post;
    if pre == [] {
      assert c == [t] + post;
    } else {
      assert c[0] == pre[0];
      assert c[1..] == pre[1..] + [t] + post;
      FirstMatchWins(pre[1..], t, post);
    }
  }

  /** With unique names, every catalog entry is found by its own name. */
  lemma NamedTierIsFound(catalog: seq<PricingTier>, t: PricingTier)
    requires UniqueNames(catalog)
    requires t in catalog
    ensures FindTier(catalog, t.name) == Some(t)
  {
    var i :| 0 <= i < |catalog| && catalog[i] == t;
    assert catalog == catalog[..i] + [t] + catalog[i + 1..];
    forall u | u in catalog[..i]
      ensures u.name != t.name
    {
      var j :| 0 <= j < i && catalog[..i][j] == u;
    }
    FirstMatchWins(catalog[..i], t, catalog[i + 1..]);
  }

  /** The result depends on the named tier alone: under unique names it is
      that tier's own if/else, so no other entry can change it. */
  lemma NamedTierDecides(catalog: seq<PricingTier>, t: PricingTier, roofArea: real, jobDuration: real)
    requires UniqueNames(catalog)
    requires t in catalog
    ensures ResolvePrice(catalog, t.name, roofArea, jobDuration) == PriceInTier(t, roofArea, jobDuration)
  {
    NamedTierIsFound(catalog, t);
  }

  /** Inclusive bounds on both metrics: the named tier's own price exactly
      when both metrics are within its maxima (equality included), and the
      "N/A" sentinel, never a price, exactly when either one is exceeded. */
  lemma EligibleIffWithinBounds(catalog: seq<PricingTier>, t: PricingTier, roofArea: real, jobDuration: real)
    requires UniqueNames(catalog)
    requires t in catalog
    ensures ResolvePrice(catalog, t.name, roofArea, jobDuration) == Price(t.price)
            <==> roofArea <= t.maxRoofArea && jobDuration <= t.maxJobDuration
    ensures ResolvePrice(catalog, t.name, roofArea, jobDuration) == Ineligible
            <==> roofArea > t.maxRoofArea || jobDuration > t.maxJobDuration
  {
    NamedTierDecides(catalog, t, roofArea, jobDuration);
  }

  /** No substitution: when the named tier does not fit, a cheaper tier that
      would fit is not used instead. */
  lemma NoSubstitution(catalog: seq<PricingTier>, named: PricingTier, other: PricingTier, roofArea: real, jobDuration: real)
    requires UniqueNames(catalog)
    requires named in catalog && other in catalog
    requires !Fits(named, roofArea, jobDuration) && Fits(other, roofArea, jobDuration)
    ensures ResolvePrice(catalog, named.name, roofArea, jobDuration) == Ineligible
  {
    NamedTierDecides(catalog, named, roofArea, jobDuration);
  }

  /** An unknown tier name never yields a price, whatever the metrics: a
      corollary of the first postcondition of `ResolvePrice`, stated on its
      own because it is the case the handler does not guard against. */
  lemma UnknownNameNeverPriced(catalog: seq<PricingTier>, tierName: string, roofArea: real, jobDuration: real)
    requires forall t | t in catalog :: t.name != tierName
    ensures ResolvePrice(catalog, tierName, roofArea, jobDuration) == TierNotFound
  {
  }

  /** Adding a tier with a different name anywhere in the catalog does not
      change the lookup of `name`, even without the uniqueness constraint. */
  lemma {:induction false} OtherTierIsInvisible(catalog: seq<PricingTier>, i: nat, u: PricingTier, name: string)
    requires i <= |catalog|
    requires u.name != name
    ensures FindTier(catalog[..i] + [u] + catalog[i..], name) == FindTier(catalog, name)
  {
    var c := catalog[..i] + [u] + catalog[i..];
    if i == 0 {
      assert c[1..] == catalog;
    } else {
      assert c[0] == catalog[0];
      if catalog[0].name != name {
        assert c[1..] == catalog[1..][..i - 1] + [u] + catalog[1..][i - 1..];
        OtherTierIsInvisible(catalog[1..], i - 1, u, name);
      }
    }
  }

  /** Example: a "Standard" tier covering 100 sq. m and 4 hours for 250
      prices an 80 sq. m, 3 hour job and a job exactly at both bounds at 250,
      shows "N/A" for a 150 sq. m job, and does not know "Premium". */
  lemma StandardTierExample()
    ensures var standard := PricingTier(1, "Standard", "", 250.0, 100.0, 4.0);
            ResolvePrice([standard], "Standard", 80.0, 3.0) == Price(250.0) &&
            ResolvePrice([standard], "Standard", 100.0, 4.0) == Price(250.0) &&
            ResolvePrice([standard], "Standard", 150.0, 3.0) == Ineligible &&
            ResolvePrice([standard], "Premium", 80.0, 3.0) == TierNotFound
  {
  }

  /** A request to the pricing page: a GET lists the tiers, a POST carries
      the already-parsed form fields (main.py:206-209). */
  datatype PricingRequest =
    | ListTiers
    | QuotePrice(roofArea: real, jobDuration: real, tierName: string)

  /** What the page shows in place of a price: '' before any quote, the
      tier's price, or 'N/A'. */
  datatype ShownPrice = Blank | Amount(value: real) | NotApplicable

  /** The page rendered with the whole catalog, or the request that fails
      because the tier lookup found nothing. */
  datatype PricingResponse =
    | Rendered(tiers: seq<PricingTier>, price: ShownPrice, tierName: string)
    | TierLookupFailed(tierName: string)

  /** The `pricing` handler (main.py:202-220) over an already-parsed request. */
  function HandlePricing(catalog: seq<PricingTier>, req: PricingRequest): (resp: PricingResponse)
    ensures resp.TierLookupFailed? <==>
            req.QuotePrice? && forall t | t in catalog :: t.name != req.tierName
    ensures resp.Rendered? ==> resp.tiers == catalog
    ensures req.ListTiers? ==> resp == Rendered(catalog, Blank, "")
    ensures req.QuotePrice? && resp.Rendered? ==> resp.tierName == req.tierName && resp.price != Blank
    ensures req.QuotePrice? && resp.Rendered? ==>
            resp.price == match ResolvePrice(catalog, req.tierName, req.roofArea, req.jobDuration)
                          case Price(p) => Amount(p)
                          case _ => NotApplicable
    ensures resp.Rendered? && resp.price.Amount? ==>
            req.QuotePrice? &&
            exists t | t in catalog ::
              t.name == req.tierName && Fits(t, req.roofArea, req.jobDuration) && resp.price.value == t.price
  {
    match req
    case ListTiers => Rendered(catalog, Blank, "")
    case QuotePrice(roofArea, jobDuration, tierName) =>
      match ResolvePrice(catalog, tierName, roofArea, jobDuration)
      case TierNotFound => TierLookupFailed(tierName)
      case Ineligible => Rendered(catalog, NotApplicable, tierName)
      case Price(p) => Rendered(catalog, Amount(p), tierName)
  }

  /** Under unique names, a quote for a catalog tier shows exactly that
      tier's price when the job fits it, and "N/A" exactly when it does not. */
  lemma QuoteShowsNamedTierPrice(catalog: seq<PricingTier>, t: PricingTier, roofArea: real, jobDuration: real)
    requires UniqueNames(catalog)
    requires t in catalog
    ensures HandlePricing(catalog, QuotePrice(roofArea, jobDuration, t.name)) ==
            Rendered(catalog, if Fits(t, roofArea, jobDuration) then Amount(t.price) else NotApplicable, t.name)
  {
    NamedTierDecides(catalog, t, roofArea, jobDuration);
  }
}
