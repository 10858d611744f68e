/** Landing-page leads (`models/leads.js`): capture with defaults, status and
    notes updates, the listings and the dashboard statistics. */
module Leads {
  import opened Common
  import opened Ordering
  import Offers

  const DefaultSource := "landing_page"
  const NewStatus := "new"
  const ContactedStatus := "contacted"
  const ConvertedStatus := "converted"

  /** The form data `create` receives. */
  datatype LeadInput = LeadInput(
    offerId: Option<int>, name: Text, email: Text, phone: Text, message: Text,
    source: Text, utmSource: Text, utmMedium: Text, utmCampaign: Text,
    ipAddress: Text, userAgent: Text, status: Text)

  /** A row of `leads`; `createdAt` is SQLite's `CURRENT_TIMESTAMP` text. */
  datatype Lead = Lead(
    id: int, offerId: Option<int>, name: Text, email: Text, phone: Text, message: Text,
    source: Text, utmSource: Text, utmMedium: Text, utmCampaign: Text,
    ipAddress: Text, userAgent: Text, status: Text, notes: Text, createdAt: string)

  /** The row `create` inserts. The name is passed as given; every other
      optional field is stored as NULL when missing or empty. */
  function NewLead(d: LeadInput, id: int, createdAt: string): (r: Lead)
    ensures r.id == id && r.name == d.name && r.createdAt == createdAt && r.notes.None?
    ensures KeptOr(d.source, r.source, DefaultSource) && KeptOr(d.status, r.status, NewStatus)
    ensures KeptOrNull(d.email, r.email) && KeptOrNull(d.phone, r.phone)
    ensures KeptOrNull(d.message, r.message)
    ensures KeptOrNull(d.utmSource, r.utmSource) && KeptOrNull(d.utmMedium, r.utmMedium)
    ensures KeptOrNull(d.utmCampaign, r.utmCampaign)
    ensures KeptOrNull(d.ipAddress, r.ipAddress) && KeptOrNull(d.userAgent, r.userAgent)
    ensures IdKeptOrNull(d.offerId, r.offerId)
  {
    Lead(id, OrNullId(d.offerId), d.name, OrNull(d.email), OrNull(d.phone), OrNull(d.message),
         Some(Or(d.source, DefaultSource)), OrNull(d.utmSource), OrNull(d.utmMedium),
         OrNull(d.utmCampaign), OrNull(d.ipAddress), OrNull(d.userAgent),
         Some(Or(d.status, NewStatus)), None, createdAt)
  }

  /** `create(data)`, returning the new row id. */
  function Create(table: seq<Lead>, d: LeadInput, id: int, createdAt: string): (r: (seq<Lead>, int))
    ensures r.1 == id && |r.0| == |table| + 1 && r.0[..|table|] == table
    ensures r.0[|table|] == NewLead(d, id, createdAt)
  {
    (table + [NewLead(d, id, createdAt)], id)
  }

  /** A created lead is what `getById` returns for the new id, as long as no
      earlier row holds that id, and it is counted as new exactly when it was
      created without a status or with status `'new'`. */
  lemma CreateThenGetById(table: seq<Lead>, offers: seq<Offers.Offer>, d: LeadInput, id: int, createdAt: string)
    requires forall l :: l in table ==> l.id != id
    ensures GetById(Create(table, d, id, createdAt).0, offers, id)
            == Some(Listed(NewLead(d, id, createdAt), OfferTitle(NewLead(d, id, createdAt), offers)))
    ensures IsNew(NewLead(d, id, createdAt)) <==> !Present(d.status) || d.status == Some(NewStatus)
  {
    GetByIdAppend(table, offers, NewLead(d, id, createdAt));
  }

  /** Appending a row whose id no earlier row holds makes `getById` find it. */
  lemma {:induction false} GetByIdAppend(table: seq<Lead>, offers: seq<Offers.Offer>, l: Lead)
    requires forall x :: x in table ==> x.id != l.id
    ensures GetById(table + [l], offers, l.id) == Some(Listed(l, OfferTitle(l, offers)))
  {
    if |table| > 0 {
      assert (table + [l])[1..] == table[1..] + [l];
      GetByIdAppend(table[1..], offers, l);
    }
  }

  /** The lead as `updateStatus(id, status, notes)` leaves it: the status is
      always written, the notes only when non-empty notes are given. */
  function SetStatus(l: Lead, status: Text, notes: Text): (r: Lead)
    ensures r.status == status
    ensures r.notes == if Present(notes) then notes else l.notes
    ensures r.(status := l.status, notes := l.notes) == l
  {
    if Present(notes) then l.(status := status, notes := notes) else l.(status := status)
  }

  /** `updateStatus(id, status, notes = null)`. */
  function UpdateStatus(table: seq<Lead>, id: int, status: Text, notes: Text): (r: seq<Lead>)
    ensures |r| == |table|
    ensures forall i :: 0 <= i < |table| ==>
      r[i] == if table[i].id == id then SetStatus(table[i], status, notes) else table[i]
  {
    if |table| == 0 then []
    else
      [if table[0].id == id then SetStatus(table[0], status, notes) else table[0]]
      + UpdateStatus(table[1..], id, status, notes)
  }

  /** Setting the same status again with blank notes changes nothing more. */
  lemma UpdateStatusIdempotent(table: seq<Lead>, id: int, status: Text, notes: Text)
    ensures UpdateStatus(UpdateStatus(table, id, status, notes), id, status, None)
            == UpdateStatus(table, id, status, notes)
  {
  }

  predicate IsNew(l: Lead) { l.status == Some(NewStatus) }

  function IdCount(table: seq<Lead>, id: int): nat {
    CountWhere(table, (l: Lead) => l.id == id)
  }

  function NewCount(table: seq<Lead>): nat {
    CountWhere(table, IsNew)
  }

  function NewElsewhere(table: seq<Lead>, id: int): nat {
    CountWhere(table, (l: Lead) => IsNew(l) && l.id != id)
  }

  /** After `updateStatus(id, s, …)` the new leads are those of other ids that
      were new, plus every row `id` when `s` is `'new'`. */
  lemma {:induction false} NewCountAfterUpdate(table: seq<Lead>, id: int, status: Text, notes: Text)
    ensures NewCount(UpdateStatus(table, id, status, notes))
            == NewElsewhere(table, id) + (if status == Some(NewStatus) then IdCount(table, id) else 0)
  {
    if |table| > 0 {
      var r := UpdateStatus(table, id, status, notes);
      assert r[1..] == UpdateStatus(table[1..], id, status, notes);
      NewCountAfterUpdate(table[1..], id, status, notes);
    }
  }

  /** The key of `ORDER BY created_at DESC`. */
  function CreatedAt(l: Lead): Text { Some(l.createdAt) }

  /** A lead with its offer's title (`LEFT JOIN offers`). */
  datatype Listed = Listed(lead: Lead, offerTitle: Text)

  /** The title of the lead's offer; NULL when it has none or the offer is gone. */
  function OfferTitle(l: Lead, offers: seq<Offers.Offer>): (r: Text)
    ensures r.Some? ==> exists o :: o in offers && Some(o.id) == l.offerId && o.content.title == r
    ensures (forall o :: o in offers ==> Some(o.id) != l.offerId) ==> r.None?
    ensures (exists o :: o in offers && Some(o.id) == l.offerId) ==>
      exists o :: o in offers && Some(o.id) == l.offerId && o.content.title == r
  {
    if l.offerId.None? then None
    else match Offers.GetById(offers, l.offerId.value)
      case None => None
      case Some(o) => o.content.title
  }

  function Join(s: seq<Lead>, offers: seq<Offers.Offer>): (r: seq<Listed>)
    ensures |r| == |s|
    ensures forall i :: 0 <= i < |s| ==> r[i] == Listed(s[i], OfferTitle(s[i], offers))
  {
    if |s| == 0 then [] else [Listed(s[0], OfferTitle(s[0], offers))] + Join(s[1..], offers)
  }

  /** The leads of a joined listing. */
  function LeadsOf(r: seq<Listed>): (s: seq<Lead>)
    ensures |s| == |r| && forall i :: 0 <= i < |r| ==> s[i] == r[i].lead
  {
    seq(|r|, i requires 0 <= i < |r| => r[i].lead)
  }

  /** `getAll()`: every lead, once, newest first, with its offer's title. */
  function GetAll(table: seq<Lead>, offers: seq<Offers.Offer>): (r: seq<Listed>)
    ensures multiset(LeadsOf(r)) == multiset(table)
    ensures NewestFirst(LeadsOf(r), CreatedAt)
    ensures forall i :: 0 <= i < |r| ==> r[i].offerTitle == OfferTitle(r[i].lead, offers)
  {
    var s := OrderNewestFirst(table, CreatedAt);
    var r := Join(s, offers);
    assert LeadsOf(r) == s;
    r
  }

  /** The leads with status `'new'`, newest first, each as often as in the
      table. */
  function NewLeads(table: seq<Lead>): (r: seq<Lead>)
    ensures NewestFirst(r, CreatedAt)
    ensures forall x :: multiset(r)[x] == if IsNew(x) then multiset(table)[x] else 0
    ensures |r| == NewCount(table)
  {
    var f := Filter(table, IsNew);
    var r := OrderNewestFirst(f, CreatedAt);
    forall x ensures multiset(r)[x] == if IsNew(x) then multiset(table)[x] else 0 {
      FilterMultiplicity(table, IsNew, x);
    }
    assert |r| == |multiset(r)| == |multiset(f)| == |f|;
    r
  }

  /** `getNew()`: `NewLeads` with each lead's offer title. */
  function GetNew(table: seq<Lead>, offers: seq<Offers.Offer>): (r: seq<Listed>)
    ensures |r| == NewCount(table)
    ensures forall i :: 0 <= i < |r| ==> r[i].lead == NewLeads(table)[i]
    ensures forall i :: 0 <= i < |r| ==> r[i].offerTitle == OfferTitle(r[i].lead, offers)
  {
    Join(NewLeads(table), offers)
  }

  /** `getNewCount()`: `COUNT(*)` always yields a row, so the count of new
      leads, which is the length of `getNew()`. */
  function GetNewCount(table: seq<Lead>): (n: nat)
    ensures n == |NewLeads(table)|
  {
    NewCount(table)
  }

  /** `getByOffer(offerId)`: the leads for that offer, newest first. */
  function GetByOffer(table: seq<Lead>, offerId: int): (r: seq<Lead>)
    ensures NewestFirst(r, CreatedAt)
    ensures forall x :: multiset(r)[x] == if x.offerId == Some(offerId) then multiset(table)[x] else 0
  {
    var p := (l: Lead) => l.offerId == Some(offerId);
    var r := OrderNewestFirst(Filter(table, p), CreatedAt);
    forall x ensures multiset(r)[x] == if p(x) then multiset(table)[x] else 0 {
      FilterMultiplicity(table, p, x);
    }
    r
  }

  /** `getById(id)`: the first lead with that id, with its offer's title. */
  function GetById(table: seq<Lead>, offers: seq<Offers.Offer>, id: int): (r: Option<Listed>)
    ensures r.None? <==> forall l :: l in table ==> l.id != id
    ensures r.Some? ==> r.value.lead in table && r.value.lead.id == id
    ensures r.Some? ==> r.value.offerTitle == OfferTitle(r.value.lead, offers)
  {
    if |table| == 0 then None
    else if table[0].id == id then Some(Listed(table[0], OfferTitle(table[0], offers)))
    else
      assert forall l :: l in table ==> l == table[0] || l in table[1..];
      GetById(table[1..], offers, id)
  }

  /** `delete(id)`. */
  function Delete(table: seq<Lead>, id: int): (r: seq<Lead>)
    ensures forall l :: l in r <==> l in table && l.id != id
  {
    var r := Filter(table, (l: Lead) => l.id != id);
    assert forall l :: l in table && l.id != id ==> l in r by {
      forall l | l in table && l.id != id ensures l in r {
        FilterKeeps(table, (l: Lead) => l.id != id, l);
      }
    }
    r
  }

  // ---------------------------------------------------------------------
  // getStats
  // ---------------------------------------------------------------------

  /** The `getStats` row. Each `SUM(CASE …)` is NULL over an empty table. */
  datatype LeadStats = LeadStats(
    total: nat, newLeads: Option<int>, contacted: Option<int>, converted: Option<int>,
    thisWeek: Option<int>, thisMonth: Option<int>)

  function HasStatus(s: string): Lead -> bool {
    (l: Lead) => l.status == Some(s)
  }

  /** `created_at >= since`, compared as text. */
  function Since(since: string): Lead -> bool {
    (l: Lead) => TextLe(since, l.createdAt)
  }

  /** `SUM(CASE WHEN p THEN 1 ELSE 0 END)`. */
  function SumWhen(table: seq<Lead>, p: Lead -> bool): (r: Option<int>)
    ensures r.None? <==> |table| == 0
    ensures r.Some? ==> r.value == CountWhere(table, p)
  {
    if |table| == 0 then None else Some(CountWhere(table, p))
  }

  /** `getStats()`, with `weekStart` and `monthStart` the values of
      `date('now', '-7 days')` and `date('now', '-30 days')`. */
  function GetStats(table: seq<Lead>, weekStart: string, monthStart: string): (r: LeadStats)
    ensures r.total == |table|
    ensures r.newLeads == SumWhen(table, IsNew)
    ensures r.contacted == SumWhen(table, HasStatus(ContactedStatus))
    ensures r.converted == SumWhen(table, HasStatus(ConvertedStatus))
    ensures r.thisWeek == SumWhen(table, Since(weekStart))
    ensures r.thisMonth == SumWhen(table, Since(monthStart))
  {
    LeadStats(|table|, SumWhen(table, IsNew), SumWhen(table, HasStatus(ContactedStatus)),
              SumWhen(table, HasStatus(ConvertedStatus)),
              SumWhen(table, Since(weekStart)), SumWhen(table, Since(monthStart)))
  }

  lemma {:induction false} StatusCountsSplit(table: seq<Lead>)
    ensures CountWhere(table, IsNew) + CountWhere(table, HasStatus(ContactedStatus))
            + CountWhere(table, HasStatus(ConvertedStatus)) <= |table|
  {
    if |table| > 0 {
      StatusCountsSplit(table[1..]);
    }
  }

  lemma {:induction false} SinceMonotone(table: seq<Lead>, later: string, earlier: string)
    requires TextLe(earlier, later)
    ensures CountWhere(table, Since(later)) <= CountWhere(table, Since(earlier))
  {
    if |table| > 0 {
      if TextLe(later, table[0].createdAt) {
        TextLeTransitive(earlier, later, table[0].createdAt);
      }
      SinceMonotone(table[1..], later, earlier);
    }
  }

  /** The three status counts never exceed the total, and a week's leads are
      among the month's whenever the week starts no earlier than the month. */
  lemma StatsBounded(table: seq<Lead>, weekStart: string, monthStart: string)
    requires |table| > 0
    ensures var r := GetStats(table, weekStart, monthStart);
      r.newLeads.value + r.contacted.value + r.converted.value <= r.total
    ensures TextLe(monthStart, weekStart) ==>
      GetStats(table, weekStart, monthStart).thisWeek.value <= GetStats(table, weekStart, monthStart).thisMonth.value
  {
    StatusCountsSplit(table);
    if TextLe(monthStart, weekStart) {
      SinceMonotone(table, weekStart, monthStart);
    }
  }
}
