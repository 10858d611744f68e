/** BrandScripts: the marketing story (hero, villain, problem, guide, plan,
    stakes, success) that landing pages and social posts are generated from.
    List fields are JSON arrays in the database; here they are sequences and
    the stringify/parse round trip is taken as exact. */
module Brandscripts {
  import opened Common
  import opened TextOps
  import opened Ordering

  /** The form data `create` and `update` receive; a list field is `None`
      when it is missing from the form. */
  datatype BrandInput = BrandInput(
    brandName: Text, isActive: bool,
    characterName: Text, characterDesire: Text, characterIdentityFrom: Text, characterIdentityTo: Text,
    villainName: Text, villainDescription: Text,
    problemExternal: Text, problemInternal: Text, problemPhilosophical: Text,
    guideEmpathyStatement: Text,
    guideAuthorityStats: Option<seq<string>>, guideTestimonials: Option<seq<string>>,
    guideAwards: Option<seq<string>>, guideLogos: Option<seq<string>>,
    processPlanName: Text, processPlanSteps: Option<seq<string>>,
    agreementPlanName: Text, agreementPlanItems: Option<seq<string>>,
    directCtaText: Text, directCtaUrl: Text, transitionalCtas: Option<seq<string>>,
    failureConsequences: Option<seq<string>>, successOutcomes: Option<seq<string>>,
    transformationFrom: Text, transformationTo: Text,
    oneLiner: Text)

  /** The stored columns (`brand_name` is `NOT NULL`). A list column is
      `None` when it is NULL, which `create` and `update` never write but
      older rows may hold. */
  datatype BrandContent = BrandContent(
    brandName: string, isActive: int,
    characterName: Text, characterDesire: Text, characterIdentityFrom: Text, characterIdentityTo: Text,
    villainName: Text, villainDescription: Text,
    problemExternal: Text, problemInternal: Text, problemPhilosophical: Text,
    guideEmpathyStatement: Text,
    guideAuthorityStats: Option<seq<string>>, guideTestimonials: Option<seq<string>>,
    guideAwards: Option<seq<string>>, guideLogos: Option<seq<string>>,
    processPlanName: Text, processPlanSteps: Option<seq<string>>,
    agreementPlanName: Text, agreementPlanItems: Option<seq<string>>,
    directCtaText: Text, directCtaUrl: Text, transitionalCtas: Option<seq<string>>,
    failureConsequences: Option<seq<string>>, successOutcomes: Option<seq<string>>,
    transformationFrom: Text, transformationTo: Text,
    oneLiner: Text)

  datatype Brandscript = Brandscript(id: int, content: BrandContent, createdAt: string, updatedAt: string)

  const DefaultCtaText := "Schedule Your Visit"
  const DefaultCtaUrl := "/contact"

  /** What every row written by `create` or `update` looks like. */
  predicate WellFormed(c: BrandContent) {
    && IsFlag(c.isActive)
    && NullOrText(c.characterName) && NullOrText(c.characterDesire)
    && NullOrText(c.characterIdentityFrom) && NullOrText(c.characterIdentityTo)
    && NullOrText(c.villainName) && NullOrText(c.villainDescription)
    && NullOrText(c.problemExternal) && NullOrText(c.problemInternal) && NullOrText(c.problemPhilosophical)
    && NullOrText(c.guideEmpathyStatement)
    && c.guideAuthorityStats.Some? && c.guideTestimonials.Some? && c.guideAwards.Some? && c.guideLogos.Some?
    && NullOrText(c.processPlanName) && c.processPlanSteps.Some?
    && NullOrText(c.agreementPlanName) && c.agreementPlanItems.Some?
    && Present(c.directCtaText) && Present(c.directCtaUrl) && c.transitionalCtas.Some?
    && c.failureConsequences.Some? && c.successOutcomes.Some?
    && NullOrText(c.transformationFrom) && NullOrText(c.transformationTo)
    && NullOrText(c.oneLiner)
  }

  /** `JSON.stringify(x || [])`: a missing list is stored as the empty array. */
  function ListOrEmpty(l: Option<seq<string>>): Option<seq<string>> {
    Some(l.GetOr([]))
  }

  /** The values `create` inserts and `update` writes (the same for both):
      `is_active` as 0/1, empty text as NULL, missing lists as `[]`, and the
      call to action defaulting to `Schedule Your Visit` at `/contact`. */
  function Normalize(d: BrandInput): (c: BrandContent)
    requires d.brandName.Some?
    ensures WellFormed(c)
    ensures c.brandName == d.brandName.value
    ensures c.isActive == 1 <==> d.isActive
    ensures KeptOr(d.directCtaText, c.directCtaText, DefaultCtaText)
    ensures KeptOr(d.directCtaUrl, c.directCtaUrl, DefaultCtaUrl)
    ensures KeptOrNull(d.characterName, c.characterName) && KeptOrNull(d.characterDesire, c.characterDesire)
    ensures KeptOrNull(d.characterIdentityFrom, c.characterIdentityFrom)
    ensures KeptOrNull(d.characterIdentityTo, c.characterIdentityTo)
    ensures KeptOrNull(d.villainName, c.villainName) && KeptOrNull(d.villainDescription, c.villainDescription)
    ensures KeptOrNull(d.problemExternal, c.problemExternal) && KeptOrNull(d.problemInternal, c.problemInternal)
    ensures KeptOrNull(d.problemPhilosophical, c.problemPhilosophical)
    ensures KeptOrNull(d.guideEmpathyStatement, c.guideEmpathyStatement)
    ensures KeptOrNull(d.processPlanName, c.processPlanName) && KeptOrNull(d.agreementPlanName, c.agreementPlanName)
    ensures KeptOrNull(d.transformationFrom, c.transformationFrom) && KeptOrNull(d.transformationTo, c.transformationTo)
    ensures KeptOrNull(d.oneLiner, c.oneLiner)
    ensures c.guideAuthorityStats == Some(d.guideAuthorityStats.GetOr([]))
    ensures c.guideTestimonials == Some(d.guideTestimonials.GetOr([]))
    ensures c.guideAwards == Some(d.guideAwards.GetOr([])) && c.guideLogos == Some(d.guideLogos.GetOr([]))
    ensures c.processPlanSteps == Some(d.processPlanSteps.GetOr([]))
    ensures c.agreementPlanItems == Some(d.agreementPlanItems.GetOr([]))
    ensures c.transitionalCtas == Some(d.transitionalCtas.GetOr([]))
    ensures c.failureConsequences == Some(d.failureConsequences.GetOr([]))
    ensures c.successOutcomes == Some(d.successOutcomes.GetOr([]))
  {
    BrandContent(
      d.brandName.value, Flag(d.isActive),
      OrNull(d.characterName), OrNull(d.characterDesire), OrNull(d.characterIdentityFrom), OrNull(d.characterIdentityTo),
      OrNull(d.villainName), OrNull(d.villainDescription),
      OrNull(d.problemExternal), OrNull(d.problemInternal), OrNull(d.problemPhilosophical),
      OrNull(d.guideEmpathyStatement),
      ListOrEmpty(d.guideAuthorityStats), ListOrEmpty(d.guideTestimonials),
      ListOrEmpty(d.guideAwards), ListOrEmpty(d.guideLogos),
      OrNull(d.processPlanName), ListOrEmpty(d.processPlanSteps),
      OrNull(d.agreementPlanName), ListOrEmpty(d.agreementPlanItems),
      Some(Or(d.directCtaText, DefaultCtaText)), Some(Or(d.directCtaUrl, DefaultCtaUrl)),
      ListOrEmpty(d.transitionalCtas),
      ListOrEmpty(d.failureConsequences), ListOrEmpty(d.successOutcomes),
      OrNull(d.transformationFrom), OrNull(d.transformationTo),
      OrNull(d.oneLiner))
  }

  /** The form data that re-submits a stored brandscript unchanged. */
  function Echo(c: BrandContent): BrandInput {
    BrandInput(
      Some(c.brandName), c.isActive == 1,
      c.characterName, c.characterDesire, c.characterIdentityFrom, c.characterIdentityTo,
      c.villainName, c.villainDescription,
      c.problemExternal, c.problemInternal, c.problemPhilosophical,
      c.guideEmpathyStatement,
      c.guideAuthorityStats, c.guideTestimonials, c.guideAwards, c.guideLogos,
      c.processPlanName, c.processPlanSteps, c.agreementPlanName, c.agreementPlanItems,
      c.directCtaText, c.directCtaUrl, c.transitionalCtas,
      c.failureConsequences, c.successOutcomes,
      c.transformationFrom, c.transformationTo,
      c.oneLiner)
  }

  /** Saving a stored brandscript's own values back changes nothing. */
  lemma ResaveKeepsBrandscript(c: BrandContent)
    requires WellFormed(c)
    ensures Normalize(Echo(c)) == c
  {
  }

  /** `create`: `None` when the insert fails because no brand name was
      given (the column is `NOT NULL`; an empty name is accepted).
      `created_at` and `updated_at` both take their default, `createdAt`. */
  function Create(d: BrandInput, id: int, createdAt: string): (b: Option<Brandscript>)
    ensures b.None? <==> d.brandName.None?
    ensures b.Some? ==> b.value.id == id && b.value.createdAt == createdAt && WellFormed(b.value.content)
    ensures b.Some? ==> b.value.updatedAt == createdAt && b.value.content == Normalize(d)
  {
    if d.brandName.None? then None else Some(Brandscript(id, Normalize(d), createdAt, createdAt))
  }

  /** `update`: the same normalisation as `create`, stamping `updated_at`
      with `now`; id and creation time stay, and a missing brand name makes
      the statement fail. */
  function Update(b: Brandscript, d: BrandInput, now: string): (r: Option<Brandscript>)
    ensures r.None? <==> d.brandName.None?
    ensures r.Some? ==> r.value.id == b.id && r.value.createdAt == b.createdAt && r.value.updatedAt == now
    ensures r.Some? ==> r.value == Create(d, b.id, b.createdAt).value.(updatedAt := now)
  {
    if d.brandName.None? then None else Some(b.(content := Normalize(d), updatedAt := now))
  }

  // ---------------------------------------------------------------------
  // The active brandscript
  // ---------------------------------------------------------------------

  predicate IsActive(b: Brandscript) { b.content.isActive == 1 }

  predicate UniqueIds(table: seq<Brandscript>) {
    forall i, j :: 0 <= i < j < |table| ==> table[i].id != table[j].id
  }

  function SetFlag(b: Brandscript, flag: int): Brandscript {
    b.(content := b.content.(isActive := flag))
  }

  /** `setActive(id)`: clear the flag on every row, then set it on `id`. */
  function SetActive(table: seq<Brandscript>, id: int): (r: seq<Brandscript>)
    ensures |r| == |table|
    ensures forall i :: 0 <= i < |r| ==> r[i] == SetFlag(table[i], if table[i].id == id then 1 else 0)
  {
    if |table| == 0 then []
    else [SetFlag(table[0], if table[0].id == id then 1 else 0)] + SetActive(table[1..], id)
  }

  function IdCount(table: seq<Brandscript>, id: int): nat {
    CountWhere(table, (b: Brandscript) => b.id == id)
  }

  /** After `setActive(id)` the active rows are exactly the rows with that id. */
  lemma {:induction false} SetActiveCount(table: seq<Brandscript>, id: int)
    ensures CountWhere(SetActive(table, id), IsActive) == IdCount(table, id)
  {
    if |table| > 0 {
      assert SetActive(table, id)[1..] == SetActive(table[1..], id);
      SetActiveCount(table[1..], id);
    }
  }

  lemma {:induction false} UniqueIdCount(table: seq<Brandscript>, id: int)
    requires UniqueIds(table)
    ensures IdCount(table, id) <= 1
    ensures IdCount(table, id) == 1 <==> exists i :: 0 <= i < |table| && table[i].id == id
  {
    if |table| > 0 {
      assert UniqueIds(table[1..]) by {
        forall i, j | 0 <= i < j < |table[1..]| ensures table[1..][i].id != table[1..][j].id {
          assert table[1..][i] == table[i + 1] && table[1..][j] == table[j + 1];
        }
      }
      UniqueIdCount(table[1..], id);
      if table[0].id == id {
        assert forall i :: 0 <= i < |table[1..]| ==> table[1..][i].id != id by {
          forall i | 0 <= i < |table[1..]| ensures table[1..][i].id != id {
            assert table[1..][i] == table[i + 1];
          }
        }
        NoIdCount(table[1..], id);
      } else {
        if exists i :: 0 <= i < |table| && table[i].id == id {
          var i :| 0 <= i < |table| && table[i].id == id;
          assert table[1..][i - 1] == table[i];
        }
        if exists i :: 0 <= i < |table[1..]| && table[1..][i].id == id {
          var i :| 0 <= i < |table[1..]| && table[1..][i].id == id;
          assert table[i + 1] == table[1..][i];
        }
      }
    }
  }

  lemma {:induction false} NoIdCount(table: seq<Brandscript>, id: int)
    requires forall i :: 0 <= i < |table| ==> table[i].id != id
    ensures IdCount(table, id) == 0
  {
    if |table| > 0 {
      NoIdCount(table[1..], id);
    }
  }

  /** With unique ids, `setActive(id)` leaves exactly one active row when
      `id` exists and none when it does not. */
  lemma SetActiveLeavesOne(table: seq<Brandscript>, id: int)
    requires UniqueIds(table)
    ensures var r := SetActive(table, id);
      CountWhere(r, IsActive) == (if exists i :: 0 <= i < |table| && table[i].id == id then 1 else 0)
    ensures forall b :: b in SetActive(table, id) && IsActive(b) ==> b.id == id
  {
    SetActiveCount(table, id);
    UniqueIdCount(table, id);
  }

  /** `created_at`, the column the listings sort on. */
  function CreatedAt(b: Brandscript): Text { Some(b.createdAt) }

  /** `getAll`: every brandscript, newest first. */
  function GetAll(table: seq<Brandscript>): (r: seq<Brandscript>)
    ensures NewestFirst(r, CreatedAt)
    ensures multiset(r) == multiset(table)
  {
    OrderNewestFirst(table, CreatedAt)
  }

  /** `getActive`: the active brandscripts, newest first, each as often as in
      the table. */
  function GetActive(table: seq<Brandscript>): (r: seq<Brandscript>)
    ensures NewestFirst(r, CreatedAt)
    ensures forall b :: multiset(r)[b] == if IsActive(b) then multiset(table)[b] else 0
  {
    var r := OrderNewestFirst(Filter(table, IsActive), CreatedAt);
    forall b ensures multiset(r)[b] == if IsActive(b) then multiset(table)[b] else 0 {
      FilterMultiplicity(table, IsActive, b);
    }
    r
  }

  /** `getById(id)`: the first row with that id. */
  function GetById(table: seq<Brandscript>, id: int): (r: Option<Brandscript>)
    ensures r.None? <==> forall b :: b in table ==> b.id != id
    ensures r.Some? ==> r.value in table && r.value.id == id
  {
    if |table| == 0 then None
    else if table[0].id == id then Some(table[0])
    else
      assert forall b :: b in table ==> b == table[0] || b in table[1..];
      GetById(table[1..], id)
  }

  /** `delete(id)`. */
  function Delete(table: seq<Brandscript>, id: int): (r: seq<Brandscript>)
    ensures forall b :: b in r <==> b in table && b.id != id
  {
    var r := Filter(table, (b: Brandscript) => b.id != id);
    assert forall b :: b in table && b.id != id ==> b in r by {
      forall b | b in table && b.id != id ensures b in r {
        FilterKeeps(table, (b: Brandscript) => b.id != id, b);
      }
    }
    r
  }

  /** The active row created last, scanning left to right. */
  function Newest(table: seq<Brandscript>): (r: Option<Brandscript>)
    ensures r.None? <==> forall b :: b in table ==> !IsActive(b)
    ensures r.Some? ==> r.value in table && IsActive(r.value)
    ensures r.Some? ==> forall b :: b in table && IsActive(b) ==> TextLe(b.createdAt, r.value.createdAt)
  {
    if |table| == 0 then None
    else
      var rest := Newest(table[1..]);
      assert forall b :: b in table ==> b == table[0] || b in table[1..];
      if !IsActive(table[0]) then rest
      else if rest.None? then
        TextLeReflexive(table[0].createdAt);
        Some(table[0])
      else if TextLe(rest.value.createdAt, table[0].createdAt) then
        assert forall b :: b in table[1..] && IsActive(b) ==> TextLe(b.createdAt, table[0].createdAt) by {
          forall b | b in table[1..] && IsActive(b) ensures TextLe(b.createdAt, table[0].createdAt) {
            TextLeTransitive(b.createdAt, rest.value.createdAt, table[0].createdAt);
          }
        }
        TextLeReflexive(table[0].createdAt);
        Some(table[0])
      else
        TextLeTotal(rest.value.createdAt, table[0].createdAt);
        rest
  }

  /** `getDefault`: the most recently created active brandscript, if any
      (which of several created at the same instant is unspecified). */
  function GetDefault(table: seq<Brandscript>): (r: Option<Brandscript>)
    ensures r.None? <==> forall b :: b in table ==> !IsActive(b)
    ensures r.Some? ==> r.value in table && IsActive(r.value)
    ensures r.Some? ==> forall b :: b in table && IsActive(b) ==> TextLe(b.createdAt, r.value.createdAt)
  {
    Newest(table)
  }

  /** There is a default exactly when `getActive` lists something, and the
      default is one of the rows it lists. */
  lemma DefaultIsActiveListed(table: seq<Brandscript>)
    ensures GetDefault(table).None? <==> |GetActive(table)| == 0
    ensures GetDefault(table).Some? ==> GetDefault(table).value in GetActive(table)
  {
    var r := GetActive(table);
    if |r| > 0 {
      assert multiset(r)[r[0]] > 0;
      assert r[0] in multiset(table);
    }
    if GetDefault(table).Some? {
      var b := GetDefault(table).value;
      assert multiset(table)[b] > 0;
      assert b in multiset(r);
    }
  }

  /** After `setActive(id)` on an existing id, the default is that row. */
  lemma SetActiveThenDefault(table: seq<Brandscript>, id: int)
    requires UniqueIds(table)
    requires exists i :: 0 <= i < |table| && table[i].id == id
    ensures GetDefault(SetActive(table, id)).Some?
    ensures GetDefault(SetActive(table, id)).value.id == id
  {
    var i :| 0 <= i < |table| && table[i].id == id;
    var r := SetActive(table, id);
    assert r[i] in r && IsActive(r[i]);
    SetActiveLeavesOne(table, id);
  }

  // ---------------------------------------------------------------------
  // parseJsonFields and the landing-page content generators
  // ---------------------------------------------------------------------

  /** A brandscript with its JSON list columns decoded. */
  datatype Parsed = Parsed(
    row: Brandscript,
    guideAuthorityStats: seq<string>, guideTestimonials: seq<string>,
    guideAwards: seq<string>, guideLogos: seq<string>,
    processPlanSteps: seq<string>, agreementPlanItems: seq<string>,
    transitionalCtas: seq<string>, failureConsequences: seq<string>, successOutcomes: seq<string>)

  /** `JSON.parse(column || '[]')`: NULL decodes as the empty list. */
  function Decode(l: Option<seq<string>>): (r: seq<string>)
    ensures l.Some? ==> r == l.value
    ensures l.None? ==> r == []
  {
    l.GetOr([])
  }

  function ParseRow(b: Brandscript): Parsed {
    var c := b.content;
    Parsed(b,
      Decode(c.guideAuthorityStats), Decode(c.guideTestimonials), Decode(c.guideAwards), Decode(c.guideLogos),
      Decode(c.processPlanSteps), Decode(c.agreementPlanItems),
      Decode(c.transitionalCtas), Decode(c.failureConsequences), Decode(c.successOutcomes))
  }

  /** `parseJsonFields`: no brandscript gives none; otherwise every list
      column is decoded, and the lists read back are those `create` or
      `update` stored (a missing list reading back as empty). */
  function ParseJsonFields(b: Option<Brandscript>): (r: Option<Parsed>)
    ensures r.None? <==> b.None?
    ensures r.Some? ==> r.value.row == b.value
    ensures r.Some? ==> r.value.guideAuthorityStats == Decode(b.value.content.guideAuthorityStats)
    ensures r.Some? ==> r.value.guideTestimonials == Decode(b.value.content.guideTestimonials)
    ensures r.Some? ==> r.value.guideAwards == Decode(b.value.content.guideAwards)
    ensures r.Some? ==> r.value.guideLogos == Decode(b.value.content.guideLogos)
    ensures r.Some? ==> r.value.processPlanSteps == Decode(b.value.content.processPlanSteps)
    ensures r.Some? ==> r.value.agreementPlanItems == Decode(b.value.content.agreementPlanItems)
    ensures r.Some? ==> r.value.transitionalCtas == Decode(b.value.content.transitionalCtas)
    ensures r.Some? ==> r.value.failureConsequences == Decode(b.value.content.failureConsequences)
    ensures r.Some? ==> r.value.successOutcomes == Decode(b.value.content.successOutcomes)
  {
    if b.None? then None else Some(ParseRow(b.value))
  }

  lemma ParseAfterCreate(d: BrandInput, id: int, createdAt: string)
    requires d.brandName.Some?
    ensures var p := ParseJsonFields(Create(d, id, createdAt)).value;
      && p.successOutcomes == d.successOutcomes.GetOr([])
      && p.failureConsequences == d.failureConsequences.GetOr([])
      && p.processPlanSteps == d.processPlanSteps.GetOr([])
      && p.transitionalCtas == d.transitionalCtas.GetOr([])
      && p.guideTestimonials == d.guideTestimonials.GetOr([])
  {
  }

  /** `list[0]` is truthy: the list has a non-empty first entry. */
  predicate HasLead(l: seq<string>) { |l| > 0 && l[0] != "" }

  /** `list[0] || fallback` for a list of strings. */
  function FirstOr(l: seq<string>, fallback: string): string {
    if |l| > 0 && l[0] != "" then l[0] else fallback
  }

  datatype HeroContent = HeroContent(headline: string, subheadline: string, ctaText: Text, ctaUrl: Text)

  const DefaultHeroHeadline := "Transform Your Smile"

  /** `generateHeroContent`: the first success outcome, else the character's
      desire, else a stock headline; the one-liner or empathy statement as
      subheadline; the call to action as stored. */
  function GenerateHeroContent(b: Brandscript): (h: HeroContent)
    ensures h.headline != ""
    ensures var p := ParseRow(b);
      (|p.successOutcomes| > 0 && p.successOutcomes[0] != "" ==> h.headline == p.successOutcomes[0])
    ensures var o := Decode(b.content.successOutcomes);
      !HasLead(o) ==> ValueKeptOr(b.content.characterDesire, h.headline, DefaultHeroHeadline)
    ensures Present(b.content.oneLiner) ==> h.subheadline == b.content.oneLiner.value
    ensures !Present(b.content.oneLiner) ==> ValueKeptOr(b.content.guideEmpathyStatement, h.subheadline, "")
    ensures h.ctaText == b.content.directCtaText && h.ctaUrl == b.content.directCtaUrl
  {
    var p := ParseRow(b);
    HeroContent(
      FirstOr(p.successOutcomes, Or(b.content.characterDesire, DefaultHeroHeadline)),
      Or(b.content.oneLiner, Or(b.content.guideEmpathyStatement, "")),
      b.content.directCtaText, b.content.directCtaUrl)
  }

  /** A landing page built from a brandscript saved through `create` always
      has a non-empty call to action: the given one or the default. Its
      headline and subheadline follow the fallback chains over the fields
      given to `create`. */
  lemma HeroAfterCreate(d: BrandInput, id: int, createdAt: string)
    requires d.brandName.Some?
    ensures var h := GenerateHeroContent(Create(d, id, createdAt).value);
      && Present(h.ctaText) && Present(h.ctaUrl)
      && (Present(d.directCtaText) ==> h.ctaText == d.directCtaText)
      && (!Present(d.directCtaText) ==> h.ctaText == Some(DefaultCtaText))
      && (d.successOutcomes.Some? && |d.successOutcomes.value| > 0 && d.successOutcomes.value[0] != ""
          ==> h.headline == d.successOutcomes.value[0])
      && (!HasLead(d.successOutcomes.GetOr([])) ==> ValueKeptOr(d.characterDesire, h.headline, DefaultHeroHeadline))
      && (Present(d.oneLiner) ==> h.subheadline == d.oneLiner.value)
      && (!Present(d.oneLiner) ==> ValueKeptOr(d.guideEmpathyStatement, h.subheadline, ""))
  {
  }

  datatype StakesContent = StakesContent(headline: string, subheadline: string, consequences: seq<string>)

  const StakesPrefix := "Don't Let "
  const StakesSuffix := " Hold You Back"

  /** `generateStakesContent`: the villain (or `Fear`) named in a fixed
      headline, the internal problem, and the failure consequences. */
  function GenerateStakesContent(b: Brandscript): (s: StakesContent)
    ensures |s.headline| >= |StakesPrefix| + |StakesSuffix|
    ensures StartsWith(s.headline, StakesPrefix) && EndsWith(s.headline, StakesSuffix)
    ensures s.headline[|StakesPrefix|..|s.headline| - |StakesSuffix|] == Or(b.content.villainName, "Fear")
    ensures s.consequences == Decode(b.content.failureConsequences)
    ensures ValueKeptOr(b.content.problemInternal, s.subheadline, "")
  {
    var villain := Or(b.content.villainName, "Fear");
    var h := StakesPrefix + villain + StakesSuffix;
    assert h[..|StakesPrefix|] == StakesPrefix;
    assert h[|h| - |StakesSuffix|..] == StakesSuffix;
    assert h[|StakesPrefix|..|h| - |StakesSuffix|] == villain;
    StakesContent(h, Or(b.content.problemInternal, ""), ParseRow(b).failureConsequences)
  }

  datatype GuideContent = GuideContent(
    headline: string, empathy: string,
    stats: seq<string>, testimonials: seq<string>, awards: seq<string>, logos: seq<string>)

  /** `generateGuideContent`: a fixed headline, the empathy statement and the
      four decoded guide lists. */
  function GenerateGuideContent(b: Brandscript): (g: GuideContent)
    ensures g.headline == "We Get It"
    ensures g.stats == Decode(b.content.guideAuthorityStats) && g.logos == Decode(b.content.guideLogos)
    ensures g.testimonials == Decode(b.content.guideTestimonials) && g.awards == Decode(b.content.guideAwards)
    ensures ValueKeptOr(b.content.guideEmpathyStatement, g.empathy, "")
  {
    var p := ParseRow(b);
    GuideContent("We Get It", Or(b.content.guideEmpathyStatement, ""),
      p.guideAuthorityStats, p.guideTestimonials, p.guideAwards, p.guideLogos)
  }

  datatype PlanContent = PlanContent(
    planName: string, steps: seq<string>, agreementName: string, agreements: seq<string>,
    ctaText: Text, ctaUrl: Text)

  /** `generatePlanContent`: plan and agreement names with their defaults,
      the decoded steps and items, and the call to action passed through. */
  function GeneratePlanContent(b: Brandscript): (p: PlanContent)
    ensures p.planName != "" && p.agreementName != ""
    ensures ValueKeptOr(b.content.processPlanName, p.planName, "How It Works")
    ensures ValueKeptOr(b.content.agreementPlanName, p.agreementName, "Our Promise")
    ensures p.steps == Decode(b.content.processPlanSteps) && p.agreements == Decode(b.content.agreementPlanItems)
    ensures p.ctaText == b.content.directCtaText && p.ctaUrl == b.content.directCtaUrl
  {
    var q := ParseRow(b);
    PlanContent(Or(b.content.processPlanName, "How It Works"), q.processPlanSteps,
      Or(b.content.agreementPlanName, "Our Promise"), q.agreementPlanItems,
      b.content.directCtaText, b.content.directCtaUrl)
  }

  datatype SuccessContent = SuccessContent(headline: string, outcomes: seq<string>, transformationFrom: string, transformationTo: string)

  /** `generateSuccessContent`: the decoded outcomes and the transformation,
      missing ends shown as empty text. */
  function GenerateSuccessContent(b: Brandscript): (s: SuccessContent)
    ensures s.headline == "Imagine..."
    ensures s.outcomes == Decode(b.content.successOutcomes)
    ensures NullOrText(b.content.transformationFrom) ==> (s.transformationFrom == "" <==> b.content.transformationFrom.None?)
    ensures ValueKeptOr(b.content.transformationFrom, s.transformationFrom, "")
    ensures ValueKeptOr(b.content.transformationTo, s.transformationTo, "")
  {
    SuccessContent("Imagine...", ParseRow(b).successOutcomes,
      Or(b.content.transformationFrom, ""), Or(b.content.transformationTo, ""))
  }

  /** The stakes section of a page built from a brandscript saved through
      `create`: the given villain (or `Fear`) in the headline, the given
      internal problem, the given consequences (none when missing). */
  lemma StakesAfterCreate(d: BrandInput, id: int, createdAt: string)
    requires d.brandName.Some?
    ensures var s := GenerateStakesContent(Create(d, id, createdAt).value);
      && (Present(d.villainName) ==> s.headline == StakesPrefix + d.villainName.value + StakesSuffix)
      && (!Present(d.villainName) ==> s.headline == StakesPrefix + "Fear" + StakesSuffix)
      && ValueKeptOr(d.problemInternal, s.subheadline, "")
      && s.consequences == d.failureConsequences.GetOr([])
  {
    var b := Create(d, id, createdAt).value;
    assert KeptOrNull(d.villainName, b.content.villainName);
    StakesHeadline(b);
  }

  lemma StakesHeadline(b: Brandscript)
    ensures GenerateStakesContent(b).headline == StakesPrefix + Or(b.content.villainName, "Fear") + StakesSuffix
  {
  }

  /** The guide section of a page built from a saved brandscript shows the
      lists given to `create`, each empty when missing. */
  lemma GuideAfterCreate(d: BrandInput, id: int, createdAt: string)
    requires d.brandName.Some?
    ensures var g := GenerateGuideContent(Create(d, id, createdAt).value);
      && ValueKeptOr(d.guideEmpathyStatement, g.empathy, "")
      && g.stats == d.guideAuthorityStats.GetOr([]) && g.testimonials == d.guideTestimonials.GetOr([])
      && g.awards == d.guideAwards.GetOr([]) && g.logos == d.guideLogos.GetOr([])
  {
  }

  /** The plan section of a page built from a saved brandscript: the given
      names or their defaults, the given steps and items, and a call to
      action that is always present. */
  lemma PlanAfterCreate(d: BrandInput, id: int, createdAt: string)
    requires d.brandName.Some?
    ensures var p := GeneratePlanContent(Create(d, id, createdAt).value);
      && ValueKeptOr(d.processPlanName, p.planName, "How It Works")
      && ValueKeptOr(d.agreementPlanName, p.agreementName, "Our Promise")
      && p.steps == d.processPlanSteps.GetOr([]) && p.agreements == d.agreementPlanItems.GetOr([])
      && KeptOr(d.directCtaText, p.ctaText, DefaultCtaText) && KeptOr(d.directCtaUrl, p.ctaUrl, DefaultCtaUrl)
  {
  }

  /** The success section of a page built from a saved brandscript: the
      given outcomes and the given transformation, blank ends when missing. */
  lemma SuccessAfterCreate(d: BrandInput, id: int, createdAt: string)
    requires d.brandName.Some?
    ensures var s := GenerateSuccessContent(Create(d, id, createdAt).value);
      && s.outcomes == d.successOutcomes.GetOr([])
      && ValueKeptOr(d.transformationFrom, s.transformationFrom, "")
      && ValueKeptOr(d.transformationTo, s.transformationTo, "")
  {
  }

  // ---------------------------------------------------------------------
  // generateOneLiner
  // ---------------------------------------------------------------------

  const DefaultProblem := "struggle with finding the right solution"
  const DefaultPlan := "our approach"
  const DefaultSuccess := "achieve their goals"

  const DefaultCharacter := "people"

  /** The four slots of the one-liner, each with its fallback. */
  function OneLinerCharacter(b: Brandscript): (r: string)
    ensures ValueKeptOr(b.content.characterName, r, DefaultCharacter)
  {
    Or(b.content.characterName, DefaultCharacter)
  }

  function OneLinerProblem(b: Brandscript): (r: string)
    ensures ValueKeptOr(b.content.problemInternal, r, DefaultProblem)
  {
    Or(b.content.problemInternal, DefaultProblem)
  }

  function OneLinerPlan(b: Brandscript): (r: string)
    ensures ValueKeptOr(b.content.processPlanName, r, DefaultPlan)
  {
    Or(b.content.processPlanName, DefaultPlan)
  }

  function OneLinerSuccess(b: Brandscript): (r: string)
    ensures var l := Decode(b.content.successOutcomes);
      (HasLead(l) ==> r == l[0]) && (!HasLead(l) ==> r == DefaultSuccess)
  {
    FirstOr(ParseRow(b).successOutcomes, DefaultSuccess)
  }

  const OneLinerSo := ", so we created "
  const OneLinerCan := " — so you can "

  /** The one-liner sentence with its three lower-cased slots. */
  function Sentence(character: string, problem: string, plan: string, success: string): string {
    "Most " + character + " " + Lower(problem) + OneLinerSo + Lower(plan) + OneLinerCan + Lower(success) + "."
  }

  /** `generateOneLiner`: `Most <character> <problem>, so we created <plan> —
      so you can <success>.` with the problem, plan and success lower-cased. */
  function GenerateOneLiner(b: Brandscript): (r: string)
    ensures var head := "Most " + OneLinerCharacter(b) + " ";
      && StartsWith(r, head)
      && StartsWith(r[|head|..], Lower(OneLinerProblem(b)) + OneLinerSo)
      && All(r[|head|..], NoUpper)
    ensures Contains(r, OneLinerSo + Lower(OneLinerPlan(b)) + OneLinerCan)
    ensures EndsWith(r, Lower(OneLinerSuccess(b)) + ".")
  {
    SentenceShape(OneLinerCharacter(b), OneLinerProblem(b), OneLinerPlan(b), OneLinerSuccess(b));
    Sentence(OneLinerCharacter(b), OneLinerProblem(b), OneLinerPlan(b), OneLinerSuccess(b))
  }

  lemma SentenceShape(character: string, problem: string, plan: string, success: string)
    ensures var r := Sentence(character, problem, plan, success);
      var head := "Most " + character + " ";
      && StartsWith(r, head)
      && StartsWith(r[|head|..], Lower(problem) + OneLinerSo)
      && All(r[|head|..], NoUpper)
      && Contains(r, OneLinerSo + Lower(plan) + OneLinerCan)
      && EndsWith(r, Lower(success) + ".")
  {
    var head := "Most " + character + " ";
    var p, mid, last := Lower(problem), OneLinerSo + Lower(plan) + OneLinerCan, Lower(success) + ".";
    var r := head + p + mid + last;
    assert r == Sentence(character, problem, plan, success);
    OneLinerShape(head, p, mid, last);
    StartsWithAppend(OneLinerSo + Lower(plan), OneLinerCan);
    StartsWithAppend(OneLinerSo, Lower(plan));
    StartsWithExtend(OneLinerSo + Lower(plan), OneLinerSo, OneLinerCan);
    StartsWithPrepend(p, mid, OneLinerSo);
    StartsWithExtend(p + mid, p + OneLinerSo, last);
    LowerAll(problem);
    LowerAll(plan);
    LowerAll(success);
    ConnectivesHaveNoUpper();
    AllConcat(OneLinerSo, Lower(plan), NoUpper);
    AllConcat(OneLinerSo + Lower(plan), OneLinerCan, NoUpper);
    AllConcat(Lower(success), ".", NoUpper);
    AllConcat(p, mid, NoUpper);
    AllConcat(p + mid, last, NoUpper);
  }

  lemma ConnectivesHaveNoUpper()
    ensures All(OneLinerSo, NoUpper) && All(OneLinerCan, NoUpper) && All(".", NoUpper)
  {
  }

  lemma OneLinerShape(head: string, problem: string, mid: string, last: string)
    ensures var r := head + problem + mid + last;
      && StartsWith(r, head) && r[|head|..] == problem + mid + last
      && Contains(r, mid) && EndsWith(r, last)
  {
    var r := head + problem + mid + last;
    assert r[..|head|] == head;
    assert r[|head|..] == problem + mid + last;
    ContainsInfix(head + problem, mid, last);
    assert r[|r| - |last|..] == last;
  }
}
