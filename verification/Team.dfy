/** The team roster (`models/team.js`): members with a derived URL slug, the
    published listings ordered by `sort_order`, and the grouping of the
    published roster into the four sections of the team page. */
module Team {
  import opened Common
  import opened TextOps
  import SeoFilename
  import opened Ordering

  /** The characters `[a-z0-9]` a team slug keeps. */
  predicate IsSlugAlnum(c: char) { IsAsciiLower(c) || IsDigit(c) }

  /** The class `[^a-z0-9]`. */
  predicate NotSlugAlnum(c: char) { !IsSlugAlnum(c) }

  /** `.replace(/[^a-z0-9]+/g, '-')`. */
  function HyphenateRuns(s: string): string {
    ReplaceRuns(s, NotSlugAlnum, "-")
  }

  /** `.replace(/(^-|-$)/g, '')`: one hyphen is dropped at each end. A lone
      `"-"` is consumed by `^-`, leaving nothing for `-$`. */
  function StripEdgeHyphens(s: string): string {
    var a := if |s| > 0 && s[0] == '-' then s[1..] else s;
    if |a| > 0 && a[|a| - 1] == '-' then a[..|a| - 1] else a
  }

  /** The slug derived from a member's name. */
  function TeamSlug(name: string): string {
    StripEdgeHyphens(HyphenateRuns(Lower(name)))
  }

  /** A derived slug is a well-formed URL slug: only `a-z0-9-`, no `--`, and
      no hyphen at either end. */
  lemma TeamSlugIsSlug(name: string)
    ensures SeoFilename.IsSlug(TeamSlug(name))
  {
    var l := Lower(name);
    var h := HyphenateRuns(l);
    assert "-" == ['-'];
    ReplaceRunsChars(l, NotSlugAlnum, "-", SeoFilename.IsSlugChar);
    ReplaceRunsSingle(l, NotSlugAlnum, '-');
    assert NoAdjacent(h, IsHyphen);
    var a := if |h| > 0 && h[0] == '-' then h[1..] else h;
    AllSlice(h, SeoFilename.IsSlugChar, if |h| > 0 && h[0] == '-' then 1 else 0, |h|);
    NoAdjacentSlice(h, IsHyphen, if |h| > 0 && h[0] == '-' then 1 else 0, |h|);
    assert |a| > 0 ==> a[0] != '-';
    var r := TeamSlug(name);
    assert r == if |a| > 0 && a[|a| - 1] == '-' then a[..|a| - 1] else a;
    AllSlice(a, SeoFilename.IsSlugChar, 0, |r|);
    NoAdjacentSlice(a, IsHyphen, 0, |r|);
    if |r| > 0 {
      assert r[0] == a[0];
      assert r[|r| - 1] != '-' by {
        if r != a {
          assert r[|r| - 1] == a[|a| - 2];
        }
      }
    }
  }

  lemma {:induction false} HyphenateKeepsAlnum(s: string)
    ensures RemoveWhere(HyphenateRuns(s), IsHyphen) == RemoveWhere(s, NotSlugAlnum)
    decreases |s|
  {
    if |s| > 0 {
      if NotSlugAlnum(s[0]) {
        var k := LeadRun(s, NotSlugAlnum);
        assert HyphenateRuns(s) == "-" + HyphenateRuns(s[k..]);
        RemoveWhereConcat("-", HyphenateRuns(s[k..]), IsHyphen);
        assert RemoveWhere("-", IsHyphen) == "";
        HyphenateKeepsAlnum(s[k..]);
        RemoveWhereSkipsRun(s, NotSlugAlnum, k);
      } else {
        assert HyphenateRuns(s) == [s[0]] + HyphenateRuns(s[1..]);
        RemoveWhereConcat([s[0]], HyphenateRuns(s[1..]), IsHyphen);
        assert RemoveWhere([s[0]], IsHyphen) == [s[0]];
        HyphenateKeepsAlnum(s[1..]);
      }
    }
  }

  lemma StripKeepsNonHyphens(s: string)
    ensures RemoveWhere(StripEdgeHyphens(s), IsHyphen) == RemoveWhere(s, IsHyphen)
  {
    var a := if |s| > 0 && s[0] == '-' then s[1..] else s;
    assert RemoveWhere(a, IsHyphen) == RemoveWhere(s, IsHyphen);
    if |a| > 0 && a[|a| - 1] == '-' {
      assert a == a[..|a| - 1] + [a[|a| - 1]];
      RemoveWhereConcat(a[..|a| - 1], [a[|a| - 1]], IsHyphen);
      assert RemoveWhere([a[|a| - 1]], IsHyphen) == "";
    }
  }

  /** Besides its hyphens, a derived slug holds exactly the lower-cased
      letters and digits of the name, in order. */
  lemma TeamSlugKeepsAlnum(name: string)
    ensures RemoveWhere(TeamSlug(name), IsHyphen) == RemoveWhere(Lower(name), NotSlugAlnum)
  {
    HyphenateKeepsAlnum(Lower(name));
    StripKeepsNonHyphens(HyphenateRuns(Lower(name)));
  }

  /** A name that already is a slug is its own slug. */
  lemma TeamSlugOfSlug(s: string)
    requires SeoFilename.IsSlug(s)
    ensures TeamSlug(s) == s
  {
    LowerIdentity(s);
    assert "-" == ['-'];
    assert forall i :: 0 <= i < |s| && NotSlugAlnum(s[i]) ==> s[i] == '-' by {
      assert All(s, SeoFilename.IsSlugChar);
    }
    ReplaceRunsIdentitySingle(s, NotSlugAlnum, '-');
  }

  /** Deriving a slug twice changes nothing. */
  lemma TeamSlugIdempotent(name: string)
    ensures TeamSlug(TeamSlug(name)) == TeamSlug(name)
  {
    TeamSlugIsSlug(name);
    TeamSlugOfSlug(TeamSlug(name));
  }

  /** The form data `create` and `update` receive. */
  datatype MemberInput = MemberInput(
    name: Text, title: Text, bio: Text, fullBio: Text, photo: Text, email: Text,
    specialties: Text, credentials: Text, category: Text, bioPageEnabled: bool,
    slug: Text, sortOrder: Option<int>, status: Text)

  /** A row of `team`. Only `name` is `NOT NULL`; rows written by other tools
      may hold NULL in the other text columns. */
  datatype Member = Member(
    id: int, name: string, title: Text, bio: Text, fullBio: Text, photo: Text,
    email: Text, specialties: Text, credentials: Text, category: Text,
    bioPageEnabled: int, slug: Text, sortOrder: int, status: Text)

  const DefaultCategory := "staff"
  const DefaultStatus := "published"

  /** `data.slug || <slug of data.name>`; `None` when neither is there, where
      `data.name.toLowerCase()` throws a TypeError. */
  function ChooseSlug(d: MemberInput): (r: Option<string>)
    ensures r.None? <==> !Present(d.slug) && d.name.None?
    ensures Present(d.slug) ==> r == d.slug
    ensures !Present(d.slug) && d.name.Some? ==> r.Some? && SeoFilename.IsSlug(r.value)
  {
    if Present(d.slug) then d.slug
    else if d.name.Some? then TeamSlugIsSlug(d.name.value); Some(TeamSlug(d.name.value))
    else None
  }

  /** The shape of a row `create` or `update` writes. */
  predicate WellFormed(m: Member) {
    && m.title.Some? && m.bio.Some? && m.fullBio.Some? && NullOrText(m.photo)
    && m.email.Some? && m.specialties.Some? && m.credentials.Some?
    && m.category.Some? && m.category.value != ""
    && IsFlag(m.bioPageEnabled) && m.slug.Some?
    && m.status.Some? && m.status.value != ""
  }

  /** The form data that reproduces a row. */
  function Echo(m: Member): MemberInput {
    MemberInput(Some(m.name), m.title, m.bio, m.fullBio, m.photo, m.email,
                m.specialties, m.credentials, m.category, m.bioPageEnabled == 1,
                m.slug, Some(m.sortOrder), m.status)
  }

  /** The row written for form data `d`: `None` when the statement fails,
      either by the TypeError of `ChooseSlug` or by the `NOT NULL` name. */
  function Columns(d: MemberInput, id: int): (r: Option<Member>)
    ensures r.None? <==> d.name.None?
    ensures r.Some? ==> WellFormed(r.value) && r.value.id == id && r.value.name == d.name.value
    ensures r.Some? ==> r.value.slug == ChooseSlug(d)
    ensures r.Some? ==> KeptOr(d.title, r.value.title, "") && KeptOr(d.bio, r.value.bio, "")
    ensures r.Some? ==> KeptOr(d.fullBio, r.value.fullBio, "") && KeptOrNull(d.photo, r.value.photo)
    ensures r.Some? ==> KeptOr(d.email, r.value.email, "") && KeptOr(d.specialties, r.value.specialties, "")
    ensures r.Some? ==> KeptOr(d.credentials, r.value.credentials, "")
    ensures r.Some? ==> KeptOr(d.category, r.value.category, DefaultCategory)
    ensures r.Some? ==> KeptOr(d.status, r.value.status, DefaultStatus)
    ensures r.Some? ==> (r.value.bioPageEnabled == 1 <==> d.bioPageEnabled)
    ensures r.Some? ==> KeptOrInt(d.sortOrder, r.value.sortOrder, 0)
  {
    if d.name.None? then None
    else
      Some(Member(id, d.name.value, Some(Or(d.title, "")), Some(Or(d.bio, "")),
                  Some(Or(d.fullBio, "")), OrNull(d.photo), Some(Or(d.email, "")),
                  Some(Or(d.specialties, "")), Some(Or(d.credentials, "")),
                  Some(Or(d.category, DefaultCategory)), Flag(d.bioPageEnabled),
                  ChooseSlug(d), OrInt(d.sortOrder, 0), Some(Or(d.status, DefaultStatus))))
  }

  /** Saving a well-formed row's own values back gives the same row. */
  lemma ResaveKeepsMember(m: Member)
    requires WellFormed(m) && m.slug.value != ""
    ensures Columns(Echo(m), m.id) == Some(m)
  {
    assert Present(m.slug);
  }

  /** A member created without a category or status is published under staff. */
  lemma CreateDefaults(d: MemberInput, id: int)
    requires d.name.Some? && !Present(d.category) && !Present(d.status)
    ensures Columns(d, id).Some?
    ensures InGroup(Columns(d, id).value, Staff)
  {
  }

  /** `create(data)` with the next row id. */
  function Create(table: seq<Member>, d: MemberInput, id: int): (r: Option<seq<Member>>)
    ensures r.None? <==> d.name.None?
    ensures r.Some? ==> |r.value| == |table| + 1 && r.value[..|table|] == table
    ensures r.Some? ==> Some(r.value[|table|]) == Columns(d, id)
  {
    match Columns(d, id)
    case None => None
    case Some(m) => Some(table + [m])
  }

  predicate HasId(table: seq<Member>, id: int) {
    exists i :: 0 <= i < |table| && table[i].id == id
  }

  /** `update(id, data)`. The slug is derived before the statement runs, so
      its TypeError happens whether or not the row exists; the `NOT NULL`
      name fails only when some row is changed. */
  function Update(table: seq<Member>, id: int, d: MemberInput): (r: Option<seq<Member>>)
    ensures r.None? <==> ChooseSlug(d).None? || (d.name.None? && HasId(table, id))
    ensures r.Some? ==> |r.value| == |table|
    ensures r.Some? ==> forall i :: 0 <= i < |table| && table[i].id != id ==> r.value[i] == table[i]
    ensures r.Some? ==> forall i :: 0 <= i < |table| && table[i].id == id ==> Some(r.value[i]) == Columns(d, id)
  {
    if ChooseSlug(d).None? then None
    else match Columns(d, id)
      case None => if HasId(table, id) then None else Some(table)
      case Some(m) => Some(seq(|table|, i requires 0 <= i < |table| => if table[i].id == id then m else table[i]))
  }

  /** `delete(id)`. */
  function Delete(table: seq<Member>, id: int): (r: seq<Member>)
    ensures forall m :: m in r <==> m in table && m.id != id
  {
    var r := Filter(table, (m: Member) => m.id != id);
    assert forall m :: m in table && m.id != id ==> m in r by {
      forall m | m in table && m.id != id ensures m in r {
        FilterKeeps(table, (m: Member) => m.id != id, m);
      }
    }
    r
  }

  predicate IsPublished(m: Member) { m.status == Some(DefaultStatus) }

  /** The key of `ORDER BY sort_order ASC`. */
  function SortOrder(m: Member): int { m.sortOrder }

  /** `getAll()`. */
  function GetAll(table: seq<Member>): (r: seq<Member>)
    ensures Ascending(r, SortOrder) && multiset(r) == multiset(table)
  {
    OrderByKey(table, SortOrder)
  }

  /** `getPublished()`: the published rows, each as often as in the table. */
  function GetPublished(table: seq<Member>): (r: seq<Member>)
    ensures Ascending(r, SortOrder)
    ensures forall x :: multiset(r)[x] == if IsPublished(x) then multiset(table)[x] else 0
  {
    var r := OrderByKey(Filter(table, IsPublished), SortOrder);
    forall x ensures multiset(r)[x] == if IsPublished(x) then multiset(table)[x] else 0 {
      FilterMultiplicity(table, IsPublished, x);
    }
    r
  }

  predicate ShownIn(m: Member, category: string) {
    IsPublished(m) && m.category == Some(category)
  }

  /** `getByCategory(category)`. */
  function GetByCategory(table: seq<Member>, category: string): (r: seq<Member>)
    ensures Ascending(r, SortOrder)
    ensures forall x :: multiset(r)[x] == if ShownIn(x, category) then multiset(table)[x] else 0
  {
    var p := (m: Member) => ShownIn(m, category);
    var r := OrderByKey(Filter(table, p), SortOrder);
    forall x ensures multiset(r)[x] == if p(x) then multiset(table)[x] else 0 {
      FilterMultiplicity(table, p, x);
    }
    r
  }

  /** The four sections of the team page. */
  datatype Section = Dentists | Executives | Hygienists | Staff

  /** The section a category belongs to: staff also takes members whose
      category is NULL or empty; other categories belong to none. */
  function SectionOf(category: Text): (r: Option<Section>)
    ensures r == Some(Staff) <==> category == Some(DefaultCategory) || !Present(category)
  {
    if !Present(category) then Some(Staff)
    else if category.value == "dentist" then Some(Dentists)
    else if category.value == "executive" then Some(Executives)
    else if category.value == "hygienist" then Some(Hygienists)
    else if category.value == DefaultCategory then Some(Staff)
    else None
  }

  predicate InGroup(m: Member, g: Section) {
    IsPublished(m) && SectionOf(m.category) == Some(g)
  }

  datatype Grouped = Grouped(
    dentists: seq<Member>, executives: seq<Member>, hygienists: seq<Member>, staff: seq<Member>)

  /** A section's listing: its published members in `sort_order` order, each
      as often as in the table. */
  ghost predicate ListsSection(s: seq<Member>, table: seq<Member>, g: Section) {
    && Ascending(s, SortOrder)
    && forall x :: multiset(s)[x] == if InGroup(x, g) then multiset(table)[x] else 0
  }

  function SectionList(all: seq<Member>, table: seq<Member>, g: Section): (r: seq<Member>)
    requires Ascending(all, SortOrder)
    requires forall x :: multiset(all)[x] == if IsPublished(x) then multiset(table)[x] else 0
    ensures ListsSection(r, table, g)
  {
    var p := (m: Member) => SectionOf(m.category) == Some(g);
    FilterAscending(all, p, SortOrder);
    var r := Filter(all, p);
    forall x ensures multiset(r)[x] == if InGroup(x, g) then multiset(table)[x] else 0 {
      FilterMultiplicity(all, p, x);
    }
    r
  }

  /** `getPublishedGrouped()`. */
  function GetPublishedGrouped(table: seq<Member>): (r: Grouped)
    ensures ListsSection(r.dentists, table, Dentists)
    ensures ListsSection(r.executives, table, Executives)
    ensures ListsSection(r.hygienists, table, Hygienists)
    ensures ListsSection(r.staff, table, Staff)
  {
    var all := GetPublished(table);
    Grouped(SectionList(all, table, Dentists), SectionList(all, table, Executives),
            SectionList(all, table, Hygienists), SectionList(all, table, Staff))
  }

  /** A row is listed in a section exactly when it is a published member of
      that section; so no row is listed twice, and a published row with some
      other category is listed nowhere. */
  lemma ListedIff(s: seq<Member>, table: seq<Member>, g: Section, x: Member)
    requires ListsSection(s, table, g)
    ensures x in s <==> x in table && InGroup(x, g)
  {
    assert x in s <==> multiset(s)[x] > 0;
    assert x in table <==> multiset(table)[x] > 0;
  }

  lemma SectionsDisjoint(table: seq<Member>, x: Member)
    ensures var r := GetPublishedGrouped(table);
      !(x in r.dentists && x in r.staff) && !(x in r.executives && x in r.staff)
      && !(x in r.hygienists && x in r.staff) && !(x in r.dentists && x in r.executives)
      && !(x in r.dentists && x in r.hygienists) && !(x in r.executives && x in r.hygienists)
  {
    var r := GetPublishedGrouped(table);
    ListedIff(r.dentists, table, Dentists, x);
    ListedIff(r.executives, table, Executives, x);
    ListedIff(r.hygienists, table, Hygienists, x);
    ListedIff(r.staff, table, Staff, x);
  }

  /** A member created without category or status shows up under staff. */
  lemma CreatedIsListedAsStaff(table: seq<Member>, d: MemberInput, id: int)
    requires d.name.Some? && !Present(d.category) && !Present(d.status)
    ensures Create(table, d, id).Some?
    ensures Columns(d, id).value in GetPublishedGrouped(Create(table, d, id).value).staff
  {
    var t := Create(table, d, id).value;
    var m := Columns(d, id).value;
    assert t[|table|] == m;
    ListedIff(GetPublishedGrouped(t).staff, t, Staff, m);
  }

  /** `getById(id)`: the first row with that id. */
  function GetById(table: seq<Member>, id: int): (r: Option<Member>)
    ensures r.None? <==> !HasId(table, id)
    ensures r.Some? ==> r.value in table && r.value.id == id
  {
    if |table| == 0 then None
    else if table[0].id == id then Some(table[0])
    else
      var r := GetById(table[1..], id);
      assert HasId(table, id) ==> HasId(table[1..], id) by {
        if HasId(table, id) {
          var i :| 0 <= i < |table| && table[i].id == id;
          assert table[1..][i - 1].id == id;
        }
      }
      assert HasId(table[1..], id) ==> HasId(table, id) by {
        if HasId(table[1..], id) {
          var i :| 0 <= i < |table[1..]| && table[1..][i].id == id;
          assert table[i + 1].id == id;
        }
      }
      r
  }

  predicate ShownAt(m: Member, slug: string) {
    m.slug == Some(slug) && IsPublished(m)
  }

  /** `getBySlug(slug)`: a published member with that slug; drafts are
      never shown. */
  function GetBySlug(table: seq<Member>, slug: string): (r: Option<Member>)
    ensures r.None? <==> forall m :: m in table ==> !ShownAt(m, slug)
    ensures r.Some? ==> r.value in table && ShownAt(r.value, slug)
  {
    if |table| == 0 then None
    else if ShownAt(table[0], slug) then Some(table[0])
    else
      assert forall m :: m in table <==> m == table[0] || m in table[1..];
      GetBySlug(table[1..], slug)
  }

  /** A newly created published member is found by its slug when no other
      published member already shows under it. */
  lemma CreateThenGetBySlug(table: seq<Member>, d: MemberInput, id: int)
    requires d.name.Some? && !Present(d.status)
    requires forall m :: m in table ==> !ShownAt(m, ChooseSlug(d).value)
    ensures Create(table, d, id).Some?
    ensures GetBySlug(Create(table, d, id).value, ChooseSlug(d).value) == Columns(d, id)
  {
    var t := Create(table, d, id).value;
    var m := Columns(d, id).value;
    var slug := ChooseSlug(d).value;
    assert t == table + [m];
    GetBySlugAppend(table, m, slug);
  }

  lemma {:induction false} GetBySlugAppend(table: seq<Member>, m: Member, slug: string)
    requires forall x :: x in table ==> !ShownAt(x, slug)
    requires ShownAt(m, slug)
    ensures GetBySlug(table + [m], slug) == Some(m)
  {
    if |table| == 0 {
      assert table + [m] == [m];
    } else {
      assert (table + [m])[0] == table[0];
      assert (table + [m])[1..] == table[1..] + [m];
      GetBySlugAppend(table[1..], m, slug);
    }
  }
}
