/** Social media posts: the stored drafts, and the generator that turns an
    offer and a brandscript into four posts per platform, each shaped for
    the platform it is meant for. */
module SocialPosts {
  import opened Common
  import opened TextOps
  import opened Ordering
  import Offers
  import Brandscripts

  // ---------------------------------------------------------------------
  // Stored posts
  // ---------------------------------------------------------------------

  /** The form data `create` and `update` receive. */
  datatype PostInput = PostInput(
    offerId: Option<int>, platform: Text, postType: Text, content: Text,
    hashtags: Text, imageSuggestion: Text, linkUrl: Text, status: Text, scheduledFor: Text)

  /** A row of `social_posts`; `platform` and `content` are `NOT NULL`. */
  datatype SocialPost = SocialPost(
    id: int, offerId: Option<int>, platform: string, postType: string, content: string,
    hashtags: Text, imageSuggestion: Text, linkUrl: Text, status: string,
    scheduledFor: Text, postedAt: Text, createdAt: string, updatedAt: string)

  const DefaultPostType := "promotional"
  const DefaultStatus := "draft"
  const PostedStatus := "posted"

  /** What every row written by `create` or `update` looks like. */
  predicate WellFormed(p: SocialPost) {
    && (p.offerId.None? || p.offerId.value != 0)
    && p.postType != "" && p.status != ""
    && NullOrText(p.hashtags) && NullOrText(p.imageSuggestion) && NullOrText(p.linkUrl)
    && NullOrText(p.scheduledFor)
  }

  /** The columns both `create` and `update` write from the form data:
      platform and content as given, post type and status defaulted, the
      optional texts NULL when empty and the offer id NULL when zero. */
  predicate Written(d: PostInput, p: SocialPost) {
    && d.platform == Some(p.platform) && d.content == Some(p.content)
    && IdKeptOrNull(d.offerId, p.offerId)
    && ValueKeptOr(d.postType, p.postType, DefaultPostType) && ValueKeptOr(d.status, p.status, DefaultStatus)
    && KeptOrNull(d.hashtags, p.hashtags) && KeptOrNull(d.imageSuggestion, p.imageSuggestion)
    && KeptOrNull(d.linkUrl, p.linkUrl) && KeptOrNull(d.scheduledFor, p.scheduledFor)
  }

  /** The columns both `create` and `update` write, or `None` when a
      `NOT NULL` column would receive NULL and the statement fails. */
  function Columns(d: PostInput, base: SocialPost): (r: Option<SocialPost>)
    ensures r.None? <==> d.platform.None? || d.content.None?
    ensures r.Some? ==> WellFormed(r.value) && Written(d, r.value)
    ensures r.Some? ==> r.value.id == base.id && r.value.postedAt == base.postedAt
    ensures r.Some? ==> r.value.createdAt == base.createdAt && r.value.updatedAt == base.updatedAt
  {
    if d.platform.None? || d.content.None? then None
    else Some(base.(
      offerId := OrNullId(d.offerId), platform := d.platform.value,
      postType := Or(d.postType, DefaultPostType), content := d.content.value,
      hashtags := OrNull(d.hashtags), imageSuggestion := OrNull(d.imageSuggestion),
      linkUrl := OrNull(d.linkUrl), status := Or(d.status, DefaultStatus),
      scheduledFor := OrNull(d.scheduledFor)))
  }

  /** `create`: a new row, a draft of the promotional kind unless told
      otherwise, not yet posted. */
  function Create(d: PostInput, id: int, now: string): (r: Option<SocialPost>)
    ensures r.None? <==> d.platform.None? || d.content.None?
    ensures r.Some? ==> WellFormed(r.value) && r.value.id == id && r.value.postedAt.None?
    ensures r.Some? ==> Written(d, r.value) && r.value.createdAt == now && r.value.updatedAt == now
    ensures r.Some? ==> r.value.content == d.content.value && r.value.platform == d.platform.value
    ensures r.Some? ==> (r.value.status == DefaultStatus <==> !Present(d.status) || d.status.value == DefaultStatus)
  {
    Columns(d, SocialPost(id, None, "", "", "", None, None, None, "", None, None, now, now))
  }

  /** `update`: the same columns as `create`, stamping `updated_at`; the id,
      creation and posting times stay. */
  function Update(p: SocialPost, d: PostInput, now: string): (r: Option<SocialPost>)
    ensures r.None? <==> d.platform.None? || d.content.None?
    ensures r.Some? ==> WellFormed(r.value) && r.value.updatedAt == now && Written(d, r.value)
    ensures r.Some? ==> r.value.id == p.id && r.value.createdAt == p.createdAt && r.value.postedAt == p.postedAt
  {
    Columns(d, p.(updatedAt := now))
  }

  /** The form data that re-submits a stored post unchanged. */
  function Echo(p: SocialPost): PostInput {
    PostInput(p.offerId, Some(p.platform), Some(p.postType), Some(p.content),
      p.hashtags, p.imageSuggestion, p.linkUrl, Some(p.status), p.scheduledFor)
  }

  /** Saving a stored post's own values back only moves `updated_at`. */
  lemma ResaveKeepsPost(p: SocialPost, now: string)
    requires WellFormed(p)
    ensures Update(p, Echo(p), now) == Some(p.(updatedAt := now))
  {
  }

  predicate IsPosted(p: SocialPost) { p.status == PostedStatus }
  predicate IsDraft(p: SocialPost) { p.status == DefaultStatus }
  predicate IsScheduled(p: SocialPost) { p.status == "scheduled" }

  /** `markPosted(id)`: the post with that id becomes `posted`, stamped now. */
  function MarkPosted(table: seq<SocialPost>, id: int, now: string): (r: seq<SocialPost>)
    ensures |r| == |table|
    ensures forall i :: 0 <= i < |r| ==>
      r[i] == (if table[i].id == id then table[i].(status := PostedStatus, postedAt := Some(now)) else table[i])
  {
    if |table| == 0 then []
    else
      [if table[0].id == id then table[0].(status := PostedStatus, postedAt := Some(now)) else table[0]]
      + MarkPosted(table[1..], id, now)
  }

  function NewlyPosted(table: seq<SocialPost>, id: int): nat {
    CountWhere(table, (p: SocialPost) => p.id == id && !IsPosted(p))
  }

  /** Marking a post as posted adds to the posted count exactly the rows
      with that id that were not posted yet. */
  lemma {:induction false} MarkPostedCount(table: seq<SocialPost>, id: int, now: string)
    ensures CountWhere(MarkPosted(table, id, now), IsPosted) == CountWhere(table, IsPosted) + NewlyPosted(table, id)
  {
    if |table| > 0 {
      assert MarkPosted(table, id, now)[1..] == MarkPosted(table[1..], id, now);
      MarkPostedCount(table[1..], id, now);
    }
  }

  /** `delete(id)`. */
  function Delete(table: seq<SocialPost>, id: int): (r: seq<SocialPost>)
    ensures forall p :: p in r <==> p in table && p.id != id
  {
    var r := Filter(table, (p: SocialPost) => p.id != id);
    assert forall p :: p in table && p.id != id ==> p in r by {
      forall p | p in table && p.id != id ensures p in r {
        FilterKeeps(table, (p: SocialPost) => p.id != id, p);
      }
    }
    r
  }

  /** `getById(id)`: the row with that id, if there is one. */
  function GetById(table: seq<SocialPost>, id: int): (r: Option<SocialPost>)
    ensures r.None? <==> forall p :: p in table ==> p.id != id
    ensures r.Some? ==> r.value in table && r.value.id == id
  {
    if |table| == 0 then None
    else if table[0].id == id then Some(table[0])
    else
      assert forall p :: p in table ==> p == table[0] || p in table[1..];
      GetById(table[1..], id)
  }

  /** `created_at`, the column both listings sort on. */
  function CreatedAt(p: SocialPost): Text { Some(p.createdAt) }

  /** `getByOffer(offerId)`: the posts linked to the offer, newest first; a
      post without an offer matches no id. */
  function GetByOffer(table: seq<SocialPost>, offerId: int): (r: seq<SocialPost>)
    ensures NewestFirst(r, CreatedAt)
    ensures forall x :: multiset(r)[x] == if x.offerId == Some(offerId) then multiset(table)[x] else 0
  {
    var p := (x: SocialPost) => x.offerId == Some(offerId);
    var r := OrderNewestFirst(Filter(table, p), CreatedAt);
    forall x ensures multiset(r)[x] == if p(x) then multiset(table)[x] else 0 {
      FilterMultiplicity(table, p, x);
    }
    r
  }

  /** A post with its offer's title and slug (`LEFT JOIN offers`). */
  datatype PostWithOffer = PostWithOffer(post: SocialPost, offerTitle: Text, offerSlug: Text)

  function JoinOffer(p: SocialPost, offers: seq<Offers.Offer>): PostWithOffer {
    var o := if p.offerId.Some? then Offers.GetById(offers, p.offerId.value) else None;
    if o.Some? then PostWithOffer(p, o.value.content.title, o.value.content.slug)
    else PostWithOffer(p, None, None)
  }

  /** The posts of a joined listing. */
  function PostsOf(r: seq<PostWithOffer>): (s: seq<SocialPost>)
    ensures |s| == |r| && forall i :: 0 <= i < |r| ==> s[i] == r[i].post
  {
    seq(|r|, i requires 0 <= i < |r| => r[i].post)
  }

  /** `getAll`: every post, once, newest first, with the title and slug of
      the offer it links to (offer ids are the primary key, so at most one
      matches), or NULLs when it links to none. */
  function GetAll(table: seq<SocialPost>, offers: seq<Offers.Offer>): (r: seq<PostWithOffer>)
    requires Offers.UniqueIds(offers)
    ensures multiset(PostsOf(r)) == multiset(table)
    ensures NewestFirst(PostsOf(r), CreatedAt)
    ensures forall i :: 0 <= i < |r| ==>
      (forall o :: o in offers && Some(o.id) == r[i].post.offerId ==> r[i].offerTitle == o.content.title && r[i].offerSlug == o.content.slug)
    ensures forall i :: 0 <= i < |r| ==>
      ((forall o :: o in offers ==> Some(o.id) != r[i].post.offerId) ==> r[i].offerTitle.None? && r[i].offerSlug.None?)
  {
    var s := OrderNewestFirst(table, CreatedAt);
    var r := seq(|s|, i requires 0 <= i < |s| => JoinOffer(s[i], offers));
    assert PostsOf(r) == s;
    assert forall i :: 0 <= i < |r| ==>
      (forall o :: o in offers && Some(o.id) == r[i].post.offerId ==> r[i].offerTitle == o.content.title && r[i].offerSlug == o.content.slug) by {
      forall i, o | 0 <= i < |r| && o in offers && Some(o.id) == r[i].post.offerId
        ensures r[i].offerTitle == o.content.title && r[i].offerSlug == o.content.slug
      {
        var f := Offers.GetById(offers, o.id).value;
        UniqueOffer(offers, f, o);
      }
    }
    r
  }

  lemma UniqueOffer(offers: seq<Offers.Offer>, a: Offers.Offer, b: Offers.Offer)
    requires Offers.UniqueIds(offers) && a in offers && b in offers && a.id == b.id
    ensures a == b
  {
    var i :| 0 <= i < |offers| && offers[i] == a;
    var j :| 0 <= j < |offers| && offers[j] == b;
    if i < j {
      assert false;
    } else if j < i {
      assert false;
    }
  }

  /** `getStats`: the SQL sums are NULL over an empty table. */
  datatype PostStats = PostStats(total: nat, drafts: Option<int>, scheduled: Option<int>, posted: Option<int>)

  function GetStats(table: seq<SocialPost>): (s: PostStats)
    ensures s.total == |table|
    ensures s.drafts.None? <==> |table| == 0
    ensures s.drafts.Some? ==> s.drafts.value == CountWhere(table, IsDraft)
    ensures s.scheduled.None? <==> |table| == 0
    ensures s.scheduled.Some? ==> s.scheduled.value == CountWhere(table, IsScheduled)
    ensures s.posted.None? <==> |table| == 0
    ensures s.posted.Some? ==> s.posted.value == CountWhere(table, IsPosted)
  {
    if |table| == 0 then PostStats(0, None, None, None)
    else PostStats(|table|, Some(CountWhere(table, IsDraft)), Some(CountWhere(table, IsScheduled)),
      Some(CountWhere(table, IsPosted)))
  }

  /** The three status counts never exceed the total: a post has one status. */
  lemma {:induction false} StatusCountsBounded(table: seq<SocialPost>)
    ensures CountWhere(table, IsDraft) + CountWhere(table, IsScheduled) + CountWhere(table, IsPosted) <= |table|
  {
    if |table| > 0 {
      StatusCountsBounded(table[1..]);
    }
  }

  // ---------------------------------------------------------------------
  // Links inside post text
  // ---------------------------------------------------------------------

  const OffersPath := "/offers/"

  /** An offer link `/offers/[\w-]+` starts at the head of `s`. */
  predicate LinkAt(s: string) {
    StartsWith(s, OffersPath) && LeadRun(s[|OffersPath|..], IsWordOrHyphen) > 0
  }

  /** A whole offer link: the path followed by one or more word characters or hyphens. */
  predicate IsLink(t: string) {
    StartsWith(t, OffersPath) && |t| > |OffersPath| && All(t[|OffersPath|..], IsWordOrHyphen)
  }

  /** `s.match(/(\/offers\/[\w-]+)/)[1]`: the leftmost offer link, taken as
      long as it goes. */
  function FirstLink(s: string): (r: Option<string>)
    ensures r.None? <==> forall i :: 0 <= i <= |s| ==> !LinkAt(s[i..])
    ensures r.Some? ==> IsLink(r.value) && Contains(s, r.value)
    decreases |s|
  {
    if |s| == 0 then
      assert forall i :: 0 <= i <= |s| ==> s[i..] == s;
      None
    else if LinkAt(s) then
      var n := |OffersPath| + LeadRun(s[|OffersPath|..], IsWordOrHyphen);
      var t := s[..n];
      assert t[|OffersPath|..] == s[|OffersPath|..][..n - |OffersPath|];
      assert t[..|OffersPath|] == s[..|OffersPath|];
      assert s[0..][..|t|] == t;
      Some(t)
    else
      var r := FirstLink(s[1..]);
      assert forall i :: 1 <= i <= |s| ==> s[i..] == s[1..][i - 1..];
      if r.Some? then
        var i :| 0 <= i <= |s[1..]| && StartsWith(s[1..][i..], r.value);
        assert s[1..][i..] == s[i + 1..];
        r
      else r
  }

  /** One step of `s.replace(/<pat>[\w-]+/gi, repl)`: a match of the
      lower-case pattern `pat` (ignoring ASCII case) at the head of `s`. */
  predicate MatchAt(s: string, pat: string) {
    StartsWithCI(s, pat) && LeadRun(s[|pat|..], IsWordOrHyphen) > 0
  }

  /** `s.replace(/<pat>[\w-]+/gi, repl)`: every leftmost, longest match,
      scanning left to right without overlap, becomes `repl`. */
  function ReplaceLinks(s: string, pat: string, repl: string): string
    decreases |s|
  {
    if |s| == 0 then ""
    else if MatchAt(s, pat) then
      repl + ReplaceLinks(s[|pat| + LeadRun(s[|pat|..], IsWordOrHyphen)..], pat, repl)
    else [s[0]] + ReplaceLinks(s[1..], pat, repl)
  }

  /** Text with no match is left as it is. */
  lemma {:induction false} ReplaceLinksIdentity(s: string, pat: string, repl: string)
    requires forall i :: 0 <= i <= |s| ==> !MatchAt(s[i..], pat)
    ensures ReplaceLinks(s, pat, repl) == s
    decreases |s|
  {
    if |s| > 0 {
      assert s[0..] == s;
      assert forall i :: 0 <= i <= |s[1..]| ==> s[1..][i..] == s[i + 1..];
      ReplaceLinksIdentity(s[1..], pat, repl);
    }
  }

  /** A match at the head is replaced and the scan resumes after it. */
  lemma ReplaceLinksHead(m: string, rest: string, pat: string, repl: string)
    requires StartsWithCI(m, pat) && |m| > |pat| && All(m[|pat|..], IsWordOrHyphen)
    requires |rest| > 0 ==> !IsWordOrHyphen(rest[0])
    ensures ReplaceLinks(m + rest, pat, repl) == repl + ReplaceLinks(rest, pat, repl)
  {
    var s := m + rest;
    assert s[|pat|..] == m[|pat|..] + rest;
    LeadRunAll(m[|pat|..], rest, IsWordOrHyphen);
    assert s[|m|..] == rest;
  }

  lemma {:induction false} LeadRunAll(a: string, b: string, p: char -> bool)
    requires All(a, p) && (|b| > 0 ==> !p(b[0]))
    ensures LeadRun(a + b, p) == |a|
  {
    if |a| == 0 {
      assert a + b == b;
    } else {
      assert (a + b)[1..] == a[1..] + b;
      assert All(a[1..], p) by {
        forall k | 0 <= k < |a[1..]| ensures p(a[1..][k]) {
          assert a[1..][k] == a[k + 1];
        }
      }
      LeadRunAll(a[1..], b, p);
    }
  }

  // ---------------------------------------------------------------------
  // formatForPlatform
  // ---------------------------------------------------------------------

  const TwitterLimit: nat := 280

  /** `platformLimits`: the character limit of each known platform; the
      formatter reads only Twitter's. */
  function PlatformLimit(platform: string): (r: Option<nat>)
    ensures r.Some? <==> platform in DefaultPlatforms
    ensures platform == "twitter" ==> r == Some(TwitterLimit)
    ensures platform == "facebook" || platform == "instagram" ==> r == Some(2200)
    ensures platform == "linkedin" ==> r == Some(3000)
  {
    if platform == "twitter" then Some(TwitterLimit)
    else if platform == "facebook" then Some(2200)
    else if platform == "instagram" then Some(2200)
    else if platform == "linkedin" then Some(3000)
    else None
  }

  /** `l.trim()` is truthy. */
  predicate HasText(l: string) { Trim(l) != "" }

  /** The non-blank lines of `s`, in order. */
  function TextLines(s: string): seq<string> {
    Filter(SplitChar(s, '\n'), HasText)
  }

  /** Some line has text exactly when the whole text is not blank. */
  lemma TextLinesExist(s: string)
    ensures |TextLines(s)| > 0 <==> !Blank(s)
  {
    var pieces := SplitChar(s, '\n');
    assert IsJsSpace('\n');
    SplitCharBlank(s, '\n');
    if !Blank(s) {
      var j :| 0 <= j < |pieces| && !Blank(pieces[j]);
      TrimEmptyIffBlank(pieces[j]);
      FilterKeeps(pieces, HasText, pieces[j]);
      assert pieces[j] in TextLines(s);
      assert |TextLines(s)| > 0;
    }
    if |TextLines(s)| > 0 {
      TextLineNotBlank(s);
    }
  }

  /** A text with a line that has text is not blank. */
  lemma TextLineNotBlank(s: string)
    requires |TextLines(s)| > 0
    ensures !Blank(s)
  {
    var pieces := SplitChar(s, '\n');
    assert IsJsSpace('\n');
    var l := TextLines(s)[0];
    assert l in TextLines(s);
    assert l in pieces && HasText(l);
    var j :| 0 <= j < |pieces| && pieces[j] == l;
    TrimEmptyIffBlank(l);
    SplitCharPieceText(s, '\n', j);
  }

  /** The shortened tweet: the first line with text, cut to 247 characters
      plus `...` when longer than 250, then the first offer link. `None`
      when no line has text (`formatForPlatform` in socialposts.js then fails reading `lines[0]`). */
  function ShortenTweet(content: string): (r: Option<string>)
    ensures r.None? <==> |TextLines(content)| == 0
    ensures r.None? <==> Blank(content)
    ensures r.Some? ==> StartsWith(r.value, TextLines(content)[0][..Cut(TextLines(content)[0])])
    ensures r.Some? && FirstLink(content).Some? ==> EndsWith(r.value, "\n\n" + FirstLink(content).value)
    ensures r.Some? && FirstLink(content).None? ==> |r.value| <= TwitterLimit - 30
    ensures r.Some? && FirstLink(content).Some? ==> |r.value| <= TwitterLimit - 30 + 2 + |FirstLink(content).value|
    ensures r.Some? ==> var first := TextLines(content)[0];
      && |r.value| == Cut(first) + (if |first| > TwitterLimit - 30 then 3 else 0)
                      + (if FirstLink(content).Some? then 2 + |FirstLink(content).value| else 0)
      && (|first| > TwitterLimit - 30 ==> r.value[Cut(first)..Cut(first) + 3] == "...")
  {
    TextLinesExist(content);
    var lines := TextLines(content);
    if |lines| == 0 then None
    else
      Some(Tweet(lines[0], FirstLink(content)))
  }

  /** The shortened first line followed, when there is one, by the link. */
  function Tweet(first: string, link: Option<string>): (r: string)
    ensures StartsWith(r, first[..Cut(first)])
    ensures link.Some? ==> EndsWith(r, "\n\n" + link.value)
    ensures |r| == Cut(first) + (if |first| > TwitterLimit - 30 then 3 else 0)
                   + (if link.Some? then 2 + |link.value| else 0)
    ensures |first| > TwitterLimit - 30 ==> r[Cut(first)..Cut(first) + 3] == "..."
  {
    var shortened := ShortenLine(first);
    if link.Some? then
      var r := shortened + ("\n\n" + link.value);
      assert r[..|shortened|] == shortened;
      assert r[..Cut(first)] == shortened[..Cut(first)];
      EndsWithAppend(shortened, "\n\n" + link.value);
      r
    else shortened
  }

  /** One line cut to 247 characters plus `...` when longer than 250. */
  function ShortenLine(first: string): (r: string)
    ensures |r| == Cut(first) + (if |first| > TwitterLimit - 30 then 3 else 0)
    ensures |r| <= TwitterLimit - 30
    ensures r[..Cut(first)] == first[..Cut(first)]
    ensures |first| > TwitterLimit - 30 ==> r[Cut(first)..] == "..."
    ensures |first| <= TwitterLimit - 30 ==> r == first
  {
    if |first| > TwitterLimit - 30 then
      var r := first[..TwitterLimit - 33] + "...";
      assert r[..Cut(first)] == first[..Cut(first)];
      r
    else first
  }

  /** How much of a first line survives shortening. */
  function Cut(first: string): nat {
    if |first| > TwitterLimit - 30 then TwitterLimit - 33 else |first|
  }

  const InstagramVisit := "visit: /offers/"
  const InstagramLink := ": /offers/"

  /** The Instagram rewrite: `visit: <link>` becomes `Link in bio!`, then any
      other `: <link>` becomes ` - Link in bio!`. */
  function InstagramText(content: string): string {
    ReplaceLinks(ReplaceLinks(content, InstagramVisit, "Link in bio!"), InstagramLink, " - Link in bio!")
  }

  /** `formatForPlatform(content, platform)`: a long tweet is shortened, an
      Instagram post loses its clickable links, everything else is left as
      it is. `None` when socialposts.js would throw: a tweet over the limit with
      no line of text. */
  function FormatForPlatform(content: string, platform: string): (r: Option<string>)
    ensures r.None? <==> platform == "twitter" && |content| > TwitterLimit && Blank(content)
    ensures platform == "twitter" && |content| <= TwitterLimit ==> r == Some(content)
    ensures platform == "twitter" && |content| > TwitterLimit ==> r == ShortenTweet(content)
    ensures platform == "instagram" ==> r == Some(InstagramText(content))
    ensures platform != "twitter" && platform != "instagram" ==> r == Some(content)
  {
    if platform == "twitter" && |content| > TwitterLimit then ShortenTweet(content)
    else if platform == "instagram" then Some(InstagramText(content))
    else Some(content)
  }

  /** An over-long tweet is brought within the limit unless its offer link
      is itself longer than 28 characters. */
  lemma TweetFits(content: string)
    requires |content| > TwitterLimit && !Blank(content)
    requires FirstLink(content).Some? ==> |FirstLink(content).value| <= 28
    ensures |FormatForPlatform(content, "twitter").value| <= TwitterLimit
  {
  }

  // ---------------------------------------------------------------------
  // getTemplates and generatePosts
  // ---------------------------------------------------------------------

  /** One post template. */
  datatype Template = Template(postType: string, content: string, hashtags: string, imageSuggestion: string)

  const ProblemHashtags := "#DentalCare #HealthySmile #DentistLife #OralHealth"
  const SuccessHashtags := "#SmileTransformation #DentalHealth #ConfidentSmile #HealthyTeeth"
  const PromoHashtags := "#DentalOffer #SpecialPromo #Dentist #SmileMakeover"
  const EducationHashtags := "#DentalTips #OralHealthTips #DentalEducation #SmileFacts"

  const ProblemImage := "Before/after smile transformation or relatable problem image"
  const SuccessImage := "Happy patient smiling or success outcome imagery"
  const PromoImage := "Eye-catching offer graphic with headline"
  const EducationImage := "Educational infographic or tip carousel"

  const PostTypes := ["problem", "success", "promotional", "educational"]

  /** `/offers/${offer.slug}` (a NULL slug renders as `null`). */
  function LinkUrl(o: Offers.Offer): (r: string)
    ensures StartsWith(r, OffersPath)
  {
    OffersPath + Show(o.content.slug)
  }

  const DefaultCta := "Learn More"
  const DefaultProblem := "struggling with dental care"
  const DefaultOutcome := "achieve your goals"
  const DefaultEmpathy := "We understand."
  const DefaultPhilosophy := "Everyone deserves a healthy smile."

  /** `offer.cta_text || bs.direct_cta_text || 'Learn More'`. */
  function CtaText(o: Offers.Offer, bs: Brandscripts.Brandscript): (r: string)
    ensures o.content.ctaText != "" ==> r == o.content.ctaText
    ensures o.content.ctaText == "" ==> ValueKeptOr(bs.content.directCtaText, r, DefaultCta)
  {
    if o.content.ctaText != "" then o.content.ctaText else Or(bs.content.directCtaText, DefaultCta)
  }

  /** `bs.problem_internal || 'struggling with dental care'`. */
  function Problem(bs: Brandscripts.Brandscript): (r: string)
    ensures ValueKeptOr(bs.content.problemInternal, r, DefaultProblem)
  {
    Or(bs.content.problemInternal, DefaultProblem)
  }

  /** `bs.success_outcomes?.[0] || 'achieve your goals'`. */
  function SuccessOutcome(bs: Brandscripts.Brandscript): (r: string)
    ensures var l := Brandscripts.Decode(bs.content.successOutcomes);
      && (Brandscripts.HasLead(l) ==> r == l[0])
      && (!Brandscripts.HasLead(l) ==> r == DefaultOutcome)
  {
    Brandscripts.FirstOr(Brandscripts.Decode(bs.content.successOutcomes), DefaultOutcome)
  }

  /** `${offer.headline || offer.title}`. */
  function HeadlineOrTitle(o: Offers.Offer): (r: string)
    ensures Present(o.content.headline) ==> r == o.content.headline.value
    ensures !Present(o.content.headline) ==> r == Show(o.content.title)
  {
    if Present(o.content.headline) then o.content.headline.value else Show(o.content.title)
  }

  /** The first line of each template. */
  function ProblemOpening(bs: Brandscripts.Brandscript): string { "Tired of " + Lower(Problem(bs)) + "?" }
  function SuccessOpening(bs: Brandscripts.Brandscript): string { "Imagine: " + SuccessOutcome(bs) + "." }
  function EducationOpening(bs: Brandscripts.Brandscript): string {
    "Did you know? " + Or(bs.content.problemPhilosophical, DefaultPhilosophy)
  }

  function ProblemText(o: Offers.Offer, bs: Brandscripts.Brandscript, link: string): string {
    ProblemOpening(bs)
    + ("\n\nYou're not alone. " + Or(bs.content.guideEmpathyStatement, DefaultEmpathy) + "\n\n" + HeadlineOrTitle(o) + " - "
       + CtaText(o, bs) + "!\n\nLink in bio or visit: ")
    + link
  }

  function SuccessText(o: Offers.Offer, bs: Brandscripts.Brandscript, link: string): string {
    SuccessOpening(bs)
    + ("\n\nThat's what our patients experience with " + Show(o.content.title) + ".\n\n"
       + Or(o.content.subheadline, "") + "\n\n" + CtaText(o, bs) + ": ")
    + link
  }

  function PromoText(o: Offers.Offer, bs: Brandscripts.Brandscript, link: string): string {
    HeadlineOrTitle(o)
    + ("\n\n" + (if Present(o.content.subheadline) then o.content.subheadline.value else Or(o.content.description, ""))
       + "\n\nDon't miss out - " + CtaText(o, bs) + " today!\n\n")
    + link
  }

  function EducationText(o: Offers.Offer, bs: Brandscripts.Brandscript, link: string): string {
    EducationOpening(bs) + ("\n\nThat's why we offer " + Show(o.content.title) + ".\n\nLearn more: ") + link
  }

  /** `getTemplates`: the problem, success, promotional and educational
      templates, in that order, each opening with its own line, the first
      three carrying the call to action and all ending with the offer link. */
  function GetTemplates(o: Offers.Offer, bs: Brandscripts.Brandscript, link: string): (r: seq<Template>)
    ensures |r| == 4
    ensures r[0].postType == "problem" && r[1].postType == "success"
    ensures r[2].postType == "promotional" && r[3].postType == "educational"
    ensures EndsWith(r[0].content, link) && EndsWith(r[1].content, link)
    ensures EndsWith(r[2].content, link) && EndsWith(r[3].content, link)
    ensures StartsWith(r[0].content, ProblemOpening(bs)) && StartsWith(r[1].content, SuccessOpening(bs))
    ensures StartsWith(r[2].content, HeadlineOrTitle(o)) && StartsWith(r[3].content, EducationOpening(bs))
    ensures Contains(r[0].content, CtaText(o, bs)) && Contains(r[1].content, CtaText(o, bs))
    ensures Contains(r[2].content, CtaText(o, bs)) && Contains(r[3].content, Show(o.content.title))
    ensures r[0].hashtags == ProblemHashtags && r[1].hashtags == SuccessHashtags
    ensures r[2].hashtags == PromoHashtags && r[3].hashtags == EducationHashtags
  {
    ProblemShape(o, bs, link);
    SuccessShape(o, bs, link);
    PromoShape(o, bs, link);
    EducationShape(o, bs, link);
    MakeTemplates(ProblemText(o, bs, link), SuccessText(o, bs, link), PromoText(o, bs, link), EducationText(o, bs, link))
  }

  function MakeTemplates(problem: string, success: string, promo: string, education: string): (r: seq<Template>)
    ensures |r| == 4
    ensures r[0].content == problem && r[1].content == success && r[2].content == promo && r[3].content == education
    ensures r[0].postType == "problem" && r[1].postType == "success"
    ensures r[2].postType == "promotional" && r[3].postType == "educational"
    ensures r[0].hashtags == ProblemHashtags && r[1].hashtags == SuccessHashtags
    ensures r[2].hashtags == PromoHashtags && r[3].hashtags == EducationHashtags
  {
    [Template("problem", problem, ProblemHashtags, ProblemImage),
     Template("success", success, SuccessHashtags, SuccessImage),
     Template("promotional", promo, PromoHashtags, PromoImage),
     Template("educational", education, EducationHashtags, EducationImage)]
  }

  /** The template facts, indexed. */
  lemma TemplatesIndexed(o: Offers.Offer, bs: Brandscripts.Brandscript, link: string)
    ensures var t := GetTemplates(o, bs, link);
      forall j :: 0 <= j < 4 ==> t[j].postType == PostTypes[j] && EndsWith(t[j].content, link)
  {
    FourTemplates(GetTemplates(o, bs, link), link);
  }

  /** Four templates in the order of `PostTypes`, each ending with `link`. */
  lemma FourTemplates(t: seq<Template>, link: string)
    requires |t| == 4
    requires t[0].postType == "problem" && t[1].postType == "success"
    requires t[2].postType == "promotional" && t[3].postType == "educational"
    requires EndsWith(t[0].content, link) && EndsWith(t[1].content, link)
    requires EndsWith(t[2].content, link) && EndsWith(t[3].content, link)
    ensures forall j :: 0 <= j < 4 ==> t[j].postType == PostTypes[j] && EndsWith(t[j].content, link)
  {
    forall j | 0 <= j < 4 ensures t[j].postType == PostTypes[j] && EndsWith(t[j].content, link) {
      if j == 0 {
      } else if j == 1 {
      } else if j == 2 {
      } else {
      }
    }
  }

  /** The problem text opens with the problem, carries the call to action
      and ends with the link. */
  lemma ProblemShape(o: Offers.Offer, bs: Brandscripts.Brandscript, link: string)
    ensures var t := ProblemText(o, bs, link);
      StartsWith(t, ProblemOpening(bs)) && Contains(t, CtaText(o, bs)) && EndsWith(t, link)
  {
    Framed(ProblemOpening(bs),
      "\n\nYou're not alone. " + Or(bs.content.guideEmpathyStatement, DefaultEmpathy) + "\n\n" + HeadlineOrTitle(o) + " - ",
      CtaText(o, bs), "!\n\nLink in bio or visit: ", link);
  }

  /** The success text opens with the first outcome, carries the call to
      action and ends with the link. */
  lemma SuccessShape(o: Offers.Offer, bs: Brandscripts.Brandscript, link: string)
    ensures var t := SuccessText(o, bs, link);
      StartsWith(t, SuccessOpening(bs)) && Contains(t, CtaText(o, bs)) && EndsWith(t, link)
  {
    Framed(SuccessOpening(bs),
      "\n\nThat's what our patients experience with " + Show(o.content.title) + ".\n\n"
        + Or(o.content.subheadline, "") + "\n\n",
      CtaText(o, bs), ": ", link);
  }

  /** The promotional text opens with the headline, carries the call to
      action and ends with the link. */
  lemma PromoShape(o: Offers.Offer, bs: Brandscripts.Brandscript, link: string)
    ensures var t := PromoText(o, bs, link);
      StartsWith(t, HeadlineOrTitle(o)) && Contains(t, CtaText(o, bs)) && EndsWith(t, link)
  {
    Framed(HeadlineOrTitle(o),
      "\n\n" + (if Present(o.content.subheadline) then o.content.subheadline.value else Or(o.content.description, ""))
        + "\n\nDon't miss out - ",
      CtaText(o, bs), " today!\n\n", link);
  }

  /** The educational text opens with the philosophical problem, names the
      offer and ends with the link. */
  lemma EducationShape(o: Offers.Offer, bs: Brandscripts.Brandscript, link: string)
    ensures var t := EducationText(o, bs, link);
      StartsWith(t, EducationOpening(bs)) && Contains(t, Show(o.content.title)) && EndsWith(t, link)
  {
    Framed(EducationOpening(bs), "\n\nThat's why we offer ", Show(o.content.title), ".\n\nLearn more: ", link);
  }

  /** Text ending with an offer link is never blank, so a template can
      always be formatted. */
  lemma LinkedTextNotBlank(content: string, link: string)
    requires StartsWith(link, OffersPath) && EndsWith(content, link)
    ensures !Blank(content)
  {
    var k := |content| - |link|;
    assert content[k] == content[k..][0] == link[0] == '/';
  }

  /** A post proposed by `generatePosts`. */
  datatype Generated = Generated(
    platform: string, postType: string, content: string, hashtags: string,
    imageSuggestion: string, linkUrl: string, offerId: int)

  const DefaultPlatforms := ["facebook", "instagram", "twitter", "linkedin"]

  /** A template's text formatted for a platform; text ending with an
      offer link never makes the formatter fail. */
  function FormatLinked(content: string, platform: string, link: string): (r: string)
    requires StartsWith(link, OffersPath) && EndsWith(content, link)
    ensures FormatForPlatform(content, platform) == Some(r)
  {
    LinkedTextNotBlank(content, link);
    FormatForPlatform(content, platform).value
  }

  /** One iteration of the inner loop of `generatePosts`: which template
      goes out on which platform. */
  datatype Pairing = Pairing(platform: string, template: Template)

  /** Where the post for platform `p` and template `j` sits in the output. */
  function Slot(p: nat, j: nat): nat { 4 * p + j }

  /** The inner loop: every template, in order, for one platform. */
  function PairingsFor(templates: seq<Template>, platform: string): (r: seq<Pairing>)
    ensures |r| == |templates|
    ensures forall j :: 0 <= j < |r| ==> r[j] == Pairing(platform, templates[j])
  {
    seq(|templates|, j requires 0 <= j < |templates| => Pairing(platform, templates[j]))
  }

  /** Both loops: the platforms in order, each with all four templates. */
  function Pairings(templates: seq<Template>, platforms: seq<string>): (r: seq<Pairing>)
    requires |templates| == 4
    ensures |r| == 4 * |platforms|
    ensures forall p, j :: 0 <= p < |platforms| && 0 <= j < 4 ==> r[Slot(p, j)] == Pairing(platforms[p], templates[j])
    ensures forall k :: 0 <= k < |r| ==> r[k].template in templates
  {
    if |platforms| == 0 then []
    else
      var head := PairingsFor(templates, platforms[0]);
      var rest := Pairings(templates, platforms[1..]);
      PairingsCons(templates, platforms, head, rest);
      head + rest
  }

  /** The slots of `Pairings` for a non-empty platform list, from those of
      its first platform and of the rest. */
  lemma PairingsCons(templates: seq<Template>, platforms: seq<string>, head: seq<Pairing>, rest: seq<Pairing>)
    requires |templates| == 4 && |platforms| > 0
    requires head == PairingsFor(templates, platforms[0])
    requires |rest| == 4 * (|platforms| - 1)
    requires forall p, j :: 0 <= p < |platforms| - 1 && 0 <= j < 4 ==> rest[Slot(p, j)] == Pairing(platforms[1..][p], templates[j])
    requires forall k :: 0 <= k < |rest| ==> rest[k].template in templates
    ensures forall p, j :: 0 <= p < |platforms| && 0 <= j < 4 ==> (head + rest)[Slot(p, j)] == Pairing(platforms[p], templates[j])
    ensures forall k :: 0 <= k < |head + rest| ==> (head + rest)[k].template in templates
  {
    var r := head + rest;
    forall p, j | 0 <= p < |platforms| && 0 <= j < 4 ensures r[Slot(p, j)] == Pairing(platforms[p], templates[j]) {
      if p == 0 {
        assert r[Slot(p, j)] == head[j];
      } else {
        assert platforms[1..][p - 1] == platforms[p];
        assert r[Slot(p, j)] == rest[Slot(p - 1, j)];
      }
    }
    forall k | 0 <= k < |r| ensures r[k].template in templates {
      if k < 4 {
        assert r[k] == head[k];
      } else {
        assert r[k] == rest[k - 4];
      }
    }
  }

  /** The post for one pairing: the template formatted for the platform. */
  function Render(o: Offers.Offer, x: Pairing, link: string): Generated
    requires StartsWith(link, OffersPath) && EndsWith(x.template.content, link)
  {
    Generated(x.platform, x.template.postType, FormatLinked(x.template.content, x.platform, link),
      x.template.hashtags, x.template.imageSuggestion, link, o.id)
  }

  /** `generatePosts(offer, brandscript, platforms)`: for each platform in
      order (by default Facebook, Instagram, Twitter, LinkedIn) the four
      templates in order, formatted for the platform, each linking to the
      offer. The brandscript's list columns may be stored or decoded: both
      read the same. */
  function GeneratePosts(o: Offers.Offer, bs: Brandscripts.Brandscript, platforms: Option<seq<string>>): (r: seq<Generated>)
    ensures var ps := platforms.GetOr(DefaultPlatforms);
      && |r| == 4 * |ps|
      && forall p, j :: 0 <= p < |ps| && 0 <= j < 4 ==>
        && r[Slot(p, j)].platform == ps[p]
        && r[Slot(p, j)].postType == PostTypes[j]
        && r[Slot(p, j)].linkUrl == LinkUrl(o) && r[Slot(p, j)].offerId == o.id
        && Some(r[Slot(p, j)].content) == FormatForPlatform(GetTemplates(o, bs, LinkUrl(o))[j].content, ps[p])
  {
    TemplatesIndexed(o, bs, LinkUrl(o));
    PostsFrom(o, GetTemplates(o, bs, LinkUrl(o)), LinkUrl(o), platforms.GetOr(DefaultPlatforms))
  }

  /** The posts for given templates that all end with the offer link. */
  function PostsFrom(o: Offers.Offer, templates: seq<Template>, link: string, ps: seq<string>): (r: seq<Generated>)
    requires StartsWith(link, OffersPath) && |templates| == 4
    requires forall j :: 0 <= j < 4 ==> templates[j].postType == PostTypes[j] && EndsWith(templates[j].content, link)
    ensures |r| == 4 * |ps|
    ensures forall p, j :: 0 <= p < |ps| && 0 <= j < 4 ==>
      && r[Slot(p, j)].platform == ps[p]
      && r[Slot(p, j)].postType == PostTypes[j]
      && r[Slot(p, j)].linkUrl == link && r[Slot(p, j)].offerId == o.id
      && Some(r[Slot(p, j)].content) == FormatForPlatform(templates[j].content, ps[p])
  {
    var xs := Pairings(templates, ps);
    RenderedSlots(o, templates, ps, link, xs);
    RenderAll(o, xs, link)
  }

  /** Every pairing rendered, in order. */
  function RenderAll(o: Offers.Offer, xs: seq<Pairing>, link: string): (r: seq<Generated>)
    requires StartsWith(link, OffersPath)
    requires forall k :: 0 <= k < |xs| ==> EndsWith(xs[k].template.content, link)
    ensures |r| == |xs|
    ensures forall k :: 0 <= k < |r| ==> r[k] == Render(o, xs[k], link)
  {
    seq(|xs|, k requires 0 <= k < |xs| => Render(o, xs[k], link))
  }

  /** What the rendered pairings hold, slot by slot. */
  lemma RenderedSlots(o: Offers.Offer, templates: seq<Template>, ps: seq<string>, link: string, xs: seq<Pairing>)
    requires StartsWith(link, OffersPath) && |templates| == 4
    requires forall j :: 0 <= j < 4 ==> templates[j].postType == PostTypes[j] && EndsWith(templates[j].content, link)
    requires xs == Pairings(templates, ps)
    ensures forall k :: 0 <= k < |xs| ==> EndsWith(xs[k].template.content, link)
    ensures var r := RenderAll(o, xs, link);
      forall p, j :: 0 <= p < |ps| && 0 <= j < 4 ==>
        && r[Slot(p, j)].platform == ps[p]
        && r[Slot(p, j)].postType == PostTypes[j]
        && r[Slot(p, j)].linkUrl == link && r[Slot(p, j)].offerId == o.id
        && Some(r[Slot(p, j)].content) == FormatForPlatform(templates[j].content, ps[p])
  {
    forall k | 0 <= k < |xs| ensures EndsWith(xs[k].template.content, link) {
      var j :| 0 <= j < 4 && templates[j] == xs[k].template;
    }
  }

  /** Posts for a platform other than Twitter and Instagram carry the
      template text unchanged, and so still end with the offer link. */
  lemma PlainPlatformKeepsLink(o: Offers.Offer, bs: Brandscripts.Brandscript, platforms: Option<seq<string>>, p: nat, j: nat)
    requires p < |platforms.GetOr(DefaultPlatforms)| && j < 4
    requires platforms.GetOr(DefaultPlatforms)[p] != "twitter"
    requires platforms.GetOr(DefaultPlatforms)[p] != "instagram"
    ensures EndsWith(GeneratePosts(o, bs, platforms)[Slot(p, j)].content, LinkUrl(o))
  {
    TemplatesIndexed(o, bs, LinkUrl(o));
  }

  /** The input that saves a generated post as a draft. */
  function SaveInput(g: Generated): PostInput {
    PostInput(Some(g.offerId), Some(g.platform), Some(g.postType), Some(g.content),
      Some(g.hashtags), Some(g.imageSuggestion), Some(g.linkUrl), None, None)
  }

  /** Saving a generated post yields a draft with its platform, type, text
      and link. */
  lemma SaveGenerated(g: Generated, id: int, now: string)
    requires g.postType != "" && g.linkUrl != "" && g.hashtags != "" && g.imageSuggestion != ""
    ensures var p := Create(SaveInput(g), id, now);
      && p.Some? && p.value.status == DefaultStatus
      && p.value.platform == g.platform && p.value.postType == g.postType
      && p.value.content == g.content && p.value.linkUrl == Some(g.linkUrl)
      && p.value.offerId == (if g.offerId == 0 then None else Some(g.offerId))
  {
  }
}
