/** Promotional offers: the row values `create` and `update` write, the
    publication window that decides which offers the public site shows,
    and the view and conversion counters. */
module Offers {
  import opened Common
  import opened Ordering

  /** The form data `create` and `update` receive; `None` is a missing field
      and each section toggle is the truthiness of the submitted value. */
  datatype OfferInput = OfferInput(
    title: Text, slug: Text,
    headline: Text, subheadline: Text, description: Text, offerDetails: Text, terms: Text,
    featuredImage: Text, backgroundImage: Text,
    ctaText: Text, ctaColor: Text, formHeadline: Text, formFields: Text, thankYouMessage: Text,
    template: Text, category: Text,
    startDate: Text, endDate: Text,
    metaTitle: Text, metaDescription: Text, metaKeywords: Text, ogImage: Text,
    status: Text, brandscriptId: Option<int>,
    showStakes: bool, showGuide: bool, showPlan: bool, showSuccess: bool, showTestimonials: bool)

  /** The columns `create` and `update` write. */
  datatype OfferContent = OfferContent(
    title: Text, slug: Text,
    headline: Text, subheadline: Text, description: Text, offerDetails: Text, terms: Text,
    featuredImage: Text, backgroundImage: Text,
    ctaText: string, ctaColor: string, formHeadline: string, formFields: string, thankYouMessage: string,
    template: string, category: string,
    startDate: Text, endDate: Text,
    metaTitle: Text, metaDescription: Text, metaKeywords: Text, ogImage: Text,
    status: string, brandscriptId: Option<int>,
    showStakes: int, showGuide: int, showPlan: int, showSuccess: int, showTestimonials: int)

  /** A stored offer. `startDate`/`endDate`, `createdAt` and `updatedAt` are
      SQLite text dates (`YYYY-MM-DD...`), which compare correctly as text. */
  datatype Offer = Offer(id: int, content: OfferContent, views: int, conversions: int, createdAt: string, updatedAt: string)

  const DefaultCtaText := "Claim This Offer"
  const DefaultCtaColor := "#0077B6"
  const DefaultFormHeadline := "Get Started Today"
  const DefaultFormFields := "name,email,phone"
  const DefaultThankYou := "Thank you! We will contact you shortly."
  const DefaultTemplate := "standard"
  const DefaultCategory := "general"
  const DefaultStatus := "draft"

  /** What every row written by `create` or `update` looks like. */
  predicate WellFormed(c: OfferContent) {
    && NullOrText(c.headline) && NullOrText(c.subheadline) && NullOrText(c.description)
    && NullOrText(c.offerDetails) && NullOrText(c.terms)
    && NullOrText(c.featuredImage) && NullOrText(c.backgroundImage)
    && c.ctaText != "" && c.ctaColor != "" && c.formHeadline != "" && c.formFields != ""
    && c.thankYouMessage != "" && c.template != "" && c.category != ""
    && NullOrText(c.startDate) && NullOrText(c.endDate)
    && NullOrText(c.metaTitle) && NullOrText(c.metaDescription) && NullOrText(c.metaKeywords)
    && NullOrText(c.ogImage)
    && c.status != "" && (c.brandscriptId.None? || c.brandscriptId.value != 0)
    && IsFlag(c.showStakes) && IsFlag(c.showGuide) && IsFlag(c.showPlan)
    && IsFlag(c.showSuccess) && IsFlag(c.showTestimonials)
  }

  /** The values `create` inserts and `update` writes: the same function for
      both, so an offer edited with the same data as it was created with is
      stored identically. Missing or empty text takes its default or NULL;
      toggles become 0/1. */
  function Normalize(d: OfferInput): (c: OfferContent)
    ensures WellFormed(c)
    ensures c.title == d.title && c.slug == d.slug
    ensures KeptOrNull(d.headline, c.headline) && KeptOrNull(d.subheadline, c.subheadline)
    ensures KeptOrNull(d.description, c.description) && KeptOrNull(d.offerDetails, c.offerDetails)
    ensures KeptOrNull(d.terms, c.terms)
    ensures KeptOrNull(d.featuredImage, c.featuredImage) && KeptOrNull(d.backgroundImage, c.backgroundImage)
    ensures ValueKeptOr(d.ctaText, c.ctaText, DefaultCtaText) && ValueKeptOr(d.ctaColor, c.ctaColor, DefaultCtaColor)
    ensures ValueKeptOr(d.formHeadline, c.formHeadline, DefaultFormHeadline)
    ensures ValueKeptOr(d.formFields, c.formFields, DefaultFormFields)
    ensures ValueKeptOr(d.thankYouMessage, c.thankYouMessage, DefaultThankYou)
    ensures ValueKeptOr(d.template, c.template, DefaultTemplate)
    ensures ValueKeptOr(d.category, c.category, DefaultCategory)
    ensures KeptOrNull(d.startDate, c.startDate) && KeptOrNull(d.endDate, c.endDate)
    ensures KeptOrNull(d.metaTitle, c.metaTitle) && KeptOrNull(d.metaDescription, c.metaDescription)
    ensures KeptOrNull(d.metaKeywords, c.metaKeywords) && KeptOrNull(d.ogImage, c.ogImage)
    ensures ValueKeptOr(d.status, c.status, DefaultStatus)
    ensures IdKeptOrNull(d.brandscriptId, c.brandscriptId)
    ensures (c.showStakes == 1 <==> d.showStakes) && (c.showGuide == 1 <==> d.showGuide)
    ensures (c.showPlan == 1 <==> d.showPlan) && (c.showSuccess == 1 <==> d.showSuccess)
    ensures c.showTestimonials == 1 <==> d.showTestimonials
  {
    OfferContent(
      d.title, d.slug,
      OrNull(d.headline), OrNull(d.subheadline), OrNull(d.description), OrNull(d.offerDetails), OrNull(d.terms),
      OrNull(d.featuredImage), OrNull(d.backgroundImage),
      Or(d.ctaText, DefaultCtaText), Or(d.ctaColor, DefaultCtaColor),
      Or(d.formHeadline, DefaultFormHeadline), Or(d.formFields, DefaultFormFields),
      Or(d.thankYouMessage, DefaultThankYou),
      Or(d.template, DefaultTemplate), Or(d.category, DefaultCategory),
      OrNull(d.startDate), OrNull(d.endDate),
      OrNull(d.metaTitle), OrNull(d.metaDescription), OrNull(d.metaKeywords), OrNull(d.ogImage),
      Or(d.status, DefaultStatus), OrNullId(d.brandscriptId),
      Flag(d.showStakes), Flag(d.showGuide), Flag(d.showPlan), Flag(d.showSuccess), Flag(d.showTestimonials))
  }

  /** The form data that re-submits a stored offer unchanged (an edit form
      pre-filled with the row). */
  function Echo(c: OfferContent): OfferInput {
    OfferInput(
      c.title, c.slug,
      c.headline, c.subheadline, c.description, c.offerDetails, c.terms,
      c.featuredImage, c.backgroundImage,
      Some(c.ctaText), Some(c.ctaColor), Some(c.formHeadline), Some(c.formFields), Some(c.thankYouMessage),
      Some(c.template), Some(c.category),
      c.startDate, c.endDate,
      c.metaTitle, c.metaDescription, c.metaKeywords, c.ogImage,
      Some(c.status), c.brandscriptId,
      c.showStakes == 1, c.showGuide == 1, c.showPlan == 1, c.showSuccess == 1, c.showTestimonials == 1)
  }

  /** Saving a stored offer's own values back changes nothing: normalisation
      is a projection onto the well-formed rows. */
  lemma ResaveKeepsOffer(c: OfferContent)
    requires WellFormed(c)
    ensures Normalize(Echo(c)) == c
  {
  }

  lemma NormalizeIdempotent(d: OfferInput)
    ensures Normalize(Echo(Normalize(d))) == Normalize(d)
  {
    ResaveKeepsOffer(Normalize(d));
  }

  /** `update`: rewrites the content with the normalised values and stamps
      `updated_at` with `now`; id, counters and creation time stay. */
  function Update(o: Offer, d: OfferInput, now: string): (r: Offer)
    ensures r.id == o.id && r.views == o.views && r.conversions == o.conversions
    ensures r.createdAt == o.createdAt && r.updatedAt == now
    ensures WellFormed(r.content) && r.content == Normalize(d)
  {
    o.(content := Normalize(d), updatedAt := now)
  }

  // ---------------------------------------------------------------------
  // Visibility
  // ---------------------------------------------------------------------

  /** The public-site filter: published, started (no start date or one not
      after today) and not ended (no end date or one not before today). */
  predicate Visible(o: Offer, today: string) {
    && o.content.status == "published"
    && (o.content.startDate.None? || TextLe(o.content.startDate.value, today))
    && (o.content.endDate.None? || TextLe(today, o.content.endDate.value))
  }

  /** `created_at`, the column the public listings sort on. */
  function CreatedAt(o: Offer): Text { Some(o.createdAt) }

  /** `getPublished`: the visible offers, newest first, each as often as in
      the table. */
  function GetPublished(table: seq<Offer>, today: string): (r: seq<Offer>)
    ensures NewestFirst(r, CreatedAt)
    ensures forall o :: multiset(r)[o] == if Visible(o, today) then multiset(table)[o] else 0
  {
    var p := (o: Offer) => Visible(o, today);
    var r := OrderNewestFirst(Filter(table, p), CreatedAt);
    forall o ensures multiset(r)[o] == if p(o) then multiset(table)[o] else 0 {
      FilterMultiplicity(table, p, o);
    }
    r
  }

  /** `getActive` repeats the `getPublished` query word for word. */
  function GetActive(table: seq<Offer>, today: string): (r: seq<Offer>)
    ensures NewestFirst(r, CreatedAt)
  {
    OrderNewestFirst(Filter(table, (o: Offer) =>
      o.content.status == "published"
      && (o.content.startDate.None? || TextLe(o.content.startDate.value, today))
      && (o.content.endDate.None? || TextLe(today, o.content.endDate.value))), CreatedAt)
  }

  lemma ActiveIsPublished(table: seq<Offer>, today: string)
    ensures GetActive(table, today) == GetPublished(table, today)
  {
    var p := (o: Offer) => Visible(o, today);
    var q := (o: Offer) =>
      o.content.status == "published"
      && (o.content.startDate.None? || TextLe(o.content.startDate.value, today))
      && (o.content.endDate.None? || TextLe(today, o.content.endDate.value));
    FilterSame(table, p, q);
  }

  lemma {:induction false} FilterSame<T>(s: seq<T>, p: T -> bool, q: T -> bool)
    requires forall x :: p(x) == q(x)
    ensures Filter(s, p) == Filter(s, q)
  {
    if |s| > 0 {
      FilterSame(s[1..], p, q);
    }
  }

  /** `getByCategory`: the visible offers of one category, newest first. */
  function GetByCategory(table: seq<Offer>, category: string, today: string): (r: seq<Offer>)
    ensures NewestFirst(r, CreatedAt)
    ensures forall o :: multiset(r)[o] == if Visible(o, today) && o.content.category == category then multiset(table)[o] else 0
  {
    var p := (o: Offer) => o.content.category == category && Visible(o, today);
    var r := OrderNewestFirst(Filter(table, p), CreatedAt);
    forall o ensures multiset(r)[o] == if p(o) then multiset(table)[o] else 0 {
      FilterMultiplicity(table, p, o);
    }
    r
  }

  /** An offer shown on the public site on `today` has started and not ended:
      any window it lies in contains `today`. */
  lemma VisibleWindow(o: Offer, today: string)
    requires Visible(o, today)
    requires o.content.startDate.Some? && o.content.endDate.Some?
    ensures TextLe(o.content.startDate.value, o.content.endDate.value)
  {
    TextLeTransitive(o.content.startDate.value, today, o.content.endDate.value);
  }

  /** `getById(id)`: the first offer with that id. */
  function GetById(offers: seq<Offer>, id: int): (r: Option<Offer>)
    ensures r.None? <==> forall o :: o in offers ==> o.id != id
    ensures r.Some? ==> r.value in offers && r.value.id == id
  {
    if |offers| == 0 then None
    else if offers[0].id == id then Some(offers[0])
    else
      assert forall o :: o in offers ==> o == offers[0] || o in offers[1..];
      GetById(offers[1..], id)
  }

  /** `getBySlug(slug)`: the first offer with that slug; a row whose slug is
      NULL matches no slug. */
  function GetBySlug(offers: seq<Offer>, slug: string): (r: Option<Offer>)
    ensures r.None? <==> forall o :: o in offers ==> o.content.slug != Some(slug)
    ensures r.Some? ==> r.value in offers && r.value.content.slug == Some(slug)
  {
    if |offers| == 0 then None
    else if offers[0].content.slug == Some(slug) then Some(offers[0])
    else
      assert forall o :: o in offers ==> o == offers[0] || o in offers[1..];
      GetBySlug(offers[1..], slug)
  }

  /** `create(data)`: a new row with the normalised values, both counters at
      zero, and `created_at` and `updated_at` (both column defaults) `now`. */
  function Create(d: OfferInput, id: int, now: string): (o: Offer)
    ensures o.id == id && o.views == 0 && o.conversions == 0
    ensures o.createdAt == now && o.updatedAt == now
    ensures WellFormed(o.content) && o.content == Normalize(d)
  {
    Offer(id, Normalize(d), 0, 0, now, now)
  }

  /** Editing an offer with the data it was created from changes nothing
      but `updated_at`: `create` and `update` store the same values. */
  lemma UpdateWithCreateData(d: OfferInput, id: int, now: string, later: string)
    ensures Update(Create(d, id, now), d, later) == Create(d, id, now).(updatedAt := later)
  {
  }

  /** An edit of a stored offer followed by a re-save of its values is the
      edit alone, stamped at the time of the re-save. */
  lemma UpdateResave(o: Offer, d: OfferInput, now: string, later: string)
    ensures Update(Update(o, d, now), Echo(Update(o, d, now).content), later) == Update(o, d, later)
  {
    ResaveKeepsOffer(Update(o, d, now).content);
  }

  /** `delete(id)`. */
  function Delete(table: seq<Offer>, id: int): (r: seq<Offer>)
    ensures forall o :: o in r <==> o in table && o.id != id
  {
    var r := Filter(table, (o: Offer) => o.id != id);
    assert forall o :: o in table && o.id != id ==> o in r by {
      forall o | o in table && o.id != id ensures o in r {
        FilterKeeps(table, (o: Offer) => o.id != id, o);
      }
    }
    r
  }

  // ---------------------------------------------------------------------
  // Counters and statistics
  // ---------------------------------------------------------------------

  predicate UniqueIds(table: seq<Offer>) {
    forall i, j :: 0 <= i < j < |table| ==> table[i].id != table[j].id
  }

  function IdCount(table: seq<Offer>, id: int): nat {
    CountWhere(table, (o: Offer) => o.id == id)
  }

  /** `incrementViews(id)`: one more view on the offer `id`, nothing else changes. */
  function IncrementViews(table: seq<Offer>, id: int): (r: seq<Offer>)
    ensures |r| == |table|
    ensures forall i :: 0 <= i < |r| ==>
      (r[i].id == table[i].id && r[i].content == table[i].content
       && r[i].conversions == table[i].conversions && r[i].createdAt == table[i].createdAt)
    ensures forall i :: 0 <= i < |r| ==>
      r[i].views == (if table[i].id == id then table[i].views + 1 else table[i].views)
  {
    if |table| == 0 then []
    else
      var o := table[0];
      [if o.id == id then o.(views := o.views + 1) else o] + IncrementViews(table[1..], id)
  }

  /** `incrementConversions(id)`: one more conversion on the offer `id`. */
  function IncrementConversions(table: seq<Offer>, id: int): (r: seq<Offer>)
    ensures |r| == |table|
    ensures forall i :: 0 <= i < |r| ==>
      (r[i].id == table[i].id && r[i].content == table[i].content
       && r[i].views == table[i].views && r[i].createdAt == table[i].createdAt)
    ensures forall i :: 0 <= i < |r| ==>
      r[i].conversions == (if table[i].id == id then table[i].conversions + 1 else table[i].conversions)
  {
    if |table| == 0 then []
    else
      var o := table[0];
      [if o.id == id then o.(conversions := o.conversions + 1) else o] + IncrementConversions(table[1..], id)
  }

  function Views(o: Offer): int { o.views }
  function Conversions(o: Offer): int { o.conversions }

  /** The total of all views grows by exactly the number of rows with that
      id: by one for an existing offer (ids are unique), by none otherwise. */
  lemma {:induction false} IncrementViewsTotal(table: seq<Offer>, id: int)
    ensures Sum(IncrementViews(table, id), Views) == Sum(table, Views) + IdCount(table, id)
  {
    if |table| > 0 {
      IncrementViewsTotal(table[1..], id);
    }
  }

  lemma {:induction false} IncrementConversionsTotal(table: seq<Offer>, id: int)
    ensures Sum(IncrementConversions(table, id), Conversions) == Sum(table, Conversions) + IdCount(table, id)
  {
    if |table| > 0 {
      IncrementConversionsTotal(table[1..], id);
    }
  }

  lemma {:induction false} UniqueIdCount(table: seq<Offer>, id: int)
    requires UniqueIds(table)
    ensures IdCount(table, id) <= 1
  {
    if |table| > 0 {
      UniqueIdCount(table[1..], id);
      if table[0].id == id {
        assert forall o :: o in table[1..] ==> o.id != id;
        NoIdCount(table[1..], id);
      }
    }
  }

  lemma {:induction false} NoIdCount(table: seq<Offer>, id: int)
    requires forall o :: o in table ==> o.id != id
    ensures IdCount(table, id) == 0
  {
    if |table| > 0 {
      NoIdCount(table[1..], id);
    }
  }

  /** `getStats`: SQL `SUM` is NULL over an empty table. */
  datatype OfferStats = OfferStats(total: nat, published: Option<int>, totalViews: Option<int>, totalConversions: Option<int>)

  function IsPublished(o: Offer): bool { o.content.status == "published" }

  function PublishedFlag(o: Offer): int { if IsPublished(o) then 1 else 0 }

  function GetStats(table: seq<Offer>): (s: OfferStats)
    ensures s.total == |table|
    ensures s.published.None? <==> |table| == 0
    ensures s.published.Some? ==> s.published.value == CountWhere(table, IsPublished) <= s.total
  {
    CountIsSum(table);
    if |table| == 0 then OfferStats(0, None, None, None)
    else OfferStats(|table|, Some(Sum(table, PublishedFlag)), Some(Sum(table, Views)), Some(Sum(table, Conversions)))
  }

  lemma {:induction false} CountIsSum(table: seq<Offer>)
    ensures Sum(table, PublishedFlag) == CountWhere(table, IsPublished)
  {
    if |table| > 0 {
      CountIsSum(table[1..]);
    }
  }
}
