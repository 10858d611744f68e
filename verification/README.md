# Dental practice site back end: a Dafny model

This project models the data layer and content helpers behind a dental
practice's website and admin panel. It covers:

- the SEO filename checker that warns about poorly named image uploads and
  suggests better names;
- the social-media post store and the generator that turns an offer and a
  StoryBrand "brandscript" into four post templates per platform;
- the marketing offers, the leads those offers capture, and the brandscripts;
- the blog posts, the team directory and the key/value site settings;
- the Google Places review import;
- the smile quiz: its seeded catalogue of questions, options and procedures,
  its submissions and its statistics.

Every SQLite table is a sequence of rows. Every statement is a pure function
from the table (or store) to the new table and the value it returns.
`AUTOINCREMENT` ids come from counters or id parameters. A JavaScript `||`
default is written out with the `Text` helpers of `Common`. A `NOT NULL`
column left empty becomes a `None` result, which is the failed insert.

- An `ORDER BY ... DESC` on a text column is stated as `NewestFirst`: the
  result is a permutation of the selected rows, ordered by SQLite's binary
  text order (`TextLe`).
- An `ORDER BY sort_order` is stated as `Ascending`.
- A `LIMIT`/`OFFSET` is `Page`.

Modules follow the source files:

| module | source file |
|---|---|
| `SeoFilename` | `lib/seoFilename.js` |
| `SocialPosts` | `models/socialposts.js` |
| `Offers` | `models/offers.js` |
| `Brandscripts` | `models/brandscripts.js` |
| `Leads` | `models/leads.js` |
| `Posts` | `models/posts.js` |
| `Team` | `models/team.js` |
| `Settings` | `models/settings.js` |
| `GoogleReviews` | `services/googleReviews.js`, with the parts of `models/reviews.js` it uses |
| `QuizSeed`, `Quiz`, `QuizStats` | `models/quiz.js` (the catalogue data, the statements, `getQuizStats`) |

`Common`, `TextOps` and `Ordering` hold the shared vocabulary: nullable
text, counting and filtering, character classes, JavaScript string
operations, and sorting and paging.

## Model

| member | source | states |
|---|---|---|
| SeoFilename.LastIndex | lib/seoFilename.js:46 | `lastIndexOf`: -1 exactly when the character is absent; otherwise the position of its last occurrence |
| SeoFilename.NameOnly | lib/seoFilename.js:46 | the name without its extension is a prefix of the filename |
| SeoFilename.NameOnlyStripsLastExtension | lib/seoFilename.js:46 | `base.ext` with a dot-free extension analyses as `base` |
| SeoFilename.NameOnlyKeepsUnextended | lib/seoFilename.js:46 | a filename with no dot, or ending in a dot, is analysed whole |
| SeoFilename.SuggestionExtension | lib/seoFilename.js:115-117 | the suggested extension starts with one dot, has no other dot, and has no upper-case letter |
| SeoFilename.SuggestionExtensionOf | lib/seoFilename.js:115-117 | for `base.ext` the suggestion keeps `.ext` lower-cased |
| SeoFilename.MatchesBadPattern | lib/seoFilename.js:7-29 | the pattern loop finds a match exactly when the name is one of the generic camera/screenshot/stock names of BAD_PATTERNS |
| SeoFilename.ContentChecks | lib/seoFilename.js:49-68 | the generic-name, length and word-count checks report their issues in source order and charge 40, 20 and 25 points |
| SeoFilename.StyleChecks | lib/seoFilename.js:70-92 | the space, underscore, uppercase and special-character checks append their issues in order and charge their penalties |
| SeoFilename.RunChecks | lib/seoFilename.js:49-92 | all checks together give the fired issues and 100 minus the fired penalties |
| SeoFilename.AnalyzeFilename | lib/seoFilename.js:40-106 | the score is the raw score floored at 0 and lies in 0..100; the issues are the fired checks plus the keyword hint; optimized iff score >= 70 with at most one issue |
| SeoFilename.Messages | lib/seoFilename.js:101-105 | each reported issue is rendered as its own message, one per issue |
| SeoFilename.MessageInjective | lib/seoFilename.js:49-99 | two issues render the same message only when they are the same issue, so the messages lose nothing |
| SeoFilename.ReportOccurrences | lib/seoFilename.js:49-92 | a check reports its own issue once when it fires and never reports another check's issue |
| SeoFilename.IssueOncePerFiredCheck | lib/seoFilename.js:49-99 | in the final list each check's issue occurs exactly once if the check fired and never otherwise |
| SeoFilename.KeywordHintRule | lib/seoFilename.js:94-99 | the keyword hint is given iff no dental keyword appears and the score so far is above 50 |
| SeoFilename.ScoreBounds | lib/seoFilename.js:49-92 | the raw score lies in -20..100 and is 100 exactly when no check fires |
| SeoFilename.SlugifyIsSlug | lib/seoFilename.js:198-208 | `slugify` yields lower-case letters, digits and single inner hyphens, with no hyphen at either end |
| SeoFilename.SlugifyFixesSlug | lib/seoFilename.js:198-208 | a text that is already a slug is returned unchanged |
| SeoFilename.SlugifyIdempotent | lib/seoFilename.js:198-208 | slugifying twice is slugifying once |
| SeoFilename.WithExt | lib/seoFilename.js:187-190 | every prefix gets the extension appended, in order |
| SeoFilename.GenerateSuggestion | lib/seoFilename.js:114-193 | one to three suggestions, all ending in the suggested extension; with no field type, the two fallback names |
| SeoFilename.CreateWarningMessage | lib/seoFilename.js:213-230 | the warning names the file, carries every issue message and the fixed tips, and its suggestion text lists the first three suggestions |
| SeoFilename.WarningShowsEverySuggestion | lib/seoFilename.js:213-230 | the warning for generated suggestions names every one of them and carries one message per issue, in order |
| SocialPosts.Columns | models/socialposts.js:23-64 | the written columns fail exactly when platform or content is missing (NOT NULL); otherwise platform and content are as given, post type defaults to 'promotional' and status to 'draft' (a given value kept), hashtags, image suggestion, link and scheduled time are kept or null, and the offer id is kept when non-zero, otherwise null |
| SocialPosts.Create | models/socialposts.js:23-42 | the insert fails iff platform or content is missing; the new row has the id, no posted time, creation and update time `now`, and the columns as in SocialPosts.Columns (status 'draft' iff none or 'draft' was given) |
| SocialPosts.Update | models/socialposts.js:44-64 | the update fails iff platform or content is missing; it writes the same nine columns as `create` (defaults, nulls for missing values and the offer id as in SocialPosts.Columns), keeps id, creation time and posted time and stamps `updated_at` |
| SocialPosts.ResaveKeepsPost | models/socialposts.js:44-64 | saving a post's own columns back changes only `updated_at` |
| SocialPosts.MarkPosted | models/socialposts.js:70-74 | the post with the id becomes "posted" with the posting time; every other row is unchanged |
| SocialPosts.MarkPostedCount | models/socialposts.js:70-74 | the posted count grows by the number of rows with that id that were not posted yet |
| SocialPosts.Delete | models/socialposts.js:66-68 | the remaining rows are exactly the rows with another id |
| SocialPosts.GetById | models/socialposts.js:19-21 | none iff no row has the id; otherwise a row of the table with that id |
| SocialPosts.GetByOffer | models/socialposts.js:13-17 | the offer's posts, each as often as in the table, newest first |
| SocialPosts.GetAll | models/socialposts.js:4-11 | every post once, newest first, joined with its offer's title and slug, which are null when the offer is missing |
| SocialPosts.UniqueOffer | models/socialposts.js:4-11 | with unique offer ids the LEFT JOIN finds at most one offer per post |
| SocialPosts.GetStats | models/socialposts.js:76-85 | the total is the row count; each of the drafts, scheduled and posted SUMs is null iff the table is empty, and otherwise counts the rows with that status |
| SocialPosts.StatusCountsBounded | models/socialposts.js:76-85 | drafts, scheduled and posted together never exceed the total |
| SocialPosts.FirstLink | models/socialposts.js:179-182 | an `/offers/<slug>` link that occurs in the text; none iff the text has no such link |
| SocialPosts.ReplaceLinksIdentity | models/socialposts.js:187-190 | a text with no match of the pattern is left unchanged |
| SocialPosts.ReplaceLinksHead | models/socialposts.js:187-190 | a match at the start is replaced and the rest is processed on |
| SocialPosts.PlatformLimit | models/socialposts.js:87-92 | a limit is known exactly for the four default platforms: 280 for twitter, 2200 for facebook and instagram, 3000 for linkedin |
| SocialPosts.TextLinesExist | models/socialposts.js:173 | filtering out blank lines leaves a line iff the content is not blank |
| SocialPosts.ShortenTweet | models/socialposts.js:171-184 | fails (TypeError on `lines[0]`) iff the content is blank; otherwise starts with the first non-blank line, cut to 247 characters with `...` right after the cut when it is longer than 250, ends with a blank line and the link when there is one, and has exactly that length |
| SocialPosts.ShortenLine | models/socialposts.js:174-177 | a line longer than 250 becomes its first 247 characters followed by `...`; a shorter line is kept |
| SocialPosts.Tweet | models/socialposts.js:174-182 | the shortened line followed, when a link was found, by a blank line and the link, of exactly that length |
| SocialPosts.FormatForPlatform | models/socialposts.js:167-193 | short tweets and unknown platforms are unchanged; long tweets are shortened; on instagram the offer links become "Link in bio!"; it fails only for a long blank tweet |
| SocialPosts.TweetFits | models/socialposts.js:171-184 | a shortened tweet fits in 280 characters when its link has at most 28 characters |
| SocialPosts.LinkUrl | models/socialposts.js:98 | every generated link points under the offers path |
| SocialPosts.GetTemplates | models/socialposts.js:130-165 | four templates (problem, success, promotional, educational) with their hashtags; they open with "Tired of <problem>?", "Imagine: <outcome>.", the headline or title, and "Did you know? <philosophy>"; the first three contain the call to action, the last names the offer title; each ends with the link |
| SocialPosts.CtaText | models/socialposts.js:133 | the offer's CTA text when set, otherwise the brandscript's direct CTA text when set, otherwise 'Learn More' |
| SocialPosts.Problem | models/socialposts.js:132 | the internal problem when set, otherwise 'struggling with dental care' |
| SocialPosts.SuccessOutcome | models/socialposts.js:131 | the first success outcome when it is non-empty, otherwise 'achieve your goals' |
| SocialPosts.HeadlineOrTitle | models/socialposts.js:139 | the offer headline when set, otherwise the title |
| SocialPosts.TemplatesIndexed | models/socialposts.js:130-165 | template `j` has post type `j` of the fixed list and ends with the link |
| SocialPosts.ProblemShape | models/socialposts.js:137-142 | the problem text opens with "Tired of <problem in lower case>?", contains the call to action and ends with the link |
| SocialPosts.SuccessShape | models/socialposts.js:144-149 | the success text opens with "Imagine: <outcome>.", contains the call to action and ends with the link |
| SocialPosts.PromoShape | models/socialposts.js:151-156 | the promotional text opens with the headline or title, contains the call to action and ends with the link |
| SocialPosts.EducationShape | models/socialposts.js:158-163 | the educational text opens with "Did you know? " and the philosophical problem or 'Everyone deserves a healthy smile.', names the offer title and ends with the link |
| SocialPosts.LinkedTextNotBlank | models/socialposts.js:171-184 | a text ending with an offers link is never blank, so formatting it cannot fail |
| SocialPosts.FormatLinked | models/socialposts.js:167-193 | formatting a linked template always succeeds and gives this text |
| SocialPosts.Pairings | models/socialposts.js:113-125 | the nested loops give 4 per platform; slot (p, j) pairs platform p with template j |
| SocialPosts.GeneratePosts | models/socialposts.js:96-128 | 4 posts per platform (the four default platforms facebook, instagram, twitter and linkedin when none are given); slot (p, j) has platform p, post type j, the offer link and id, and template j formatted for platform p |
| SocialPosts.PostsFrom | models/socialposts.js:113-125 | rendering the pairings fills every slot as above |
| SocialPosts.RenderedSlots | models/socialposts.js:113-125 | rendering the nested-loop pairings gives each slot its platform, type, link and formatted text |
| SocialPosts.PlainPlatformKeepsLink | models/socialposts.js:96-128 | on a platform other than twitter and instagram a generated post still ends with the offer link |
| SocialPosts.SaveGenerated | models/socialposts.js:23-42 | saving a generated post always succeeds as a draft with its platform, type, content and link |
| Offers.Normalize | models/offers.js:72-91 | the values `create` writes: every given text kept; a missing or empty CTA text and colour, form headline, form fields, thank-you message, template, category and status replaced by their defaults; the other texts (dates included) and the brandscript id stored as null when missing; all five toggles stored as 0/1 by truthiness |
| Offers.ResaveKeepsOffer | models/offers.js:96-142 | saving an offer's own columns back keeps them |
| Offers.NormalizeIdempotent | models/offers.js:72-91 | applying the defaults to stored columns changes nothing |
| Offers.Update | models/offers.js:96-142 | an update keeps id, counters and creation time, writes the columns `create` would write and stamps `updated_at` with the time of the call |
| Offers.GetPublished | models/offers.js:13-21 | exactly the published offers whose date window contains today, each as often as in the table, newest first |
| Offers.GetActive | models/offers.js:23-31 | the active offers, newest first |
| Offers.ActiveIsPublished | models/offers.js:13-31 | `getActive` returns the same rows as `getPublished` |
| Offers.GetByCategory | models/offers.js:33-41 | the visible offers of one category, each as often as in the table, newest first |
| Offers.VisibleWindow | models/offers.js:13-21 | a visible offer with both dates has a start date no later than its end date |
| Offers.GetById | models/offers.js:43-45 | none iff no offer has the id; otherwise an offer of the table with that id |
| Offers.GetBySlug | models/offers.js:47-49 | none iff no offer has the slug; otherwise an offer of the table with that slug |
| Offers.Create | models/offers.js:51-94 | the new offer has the id, zero views and conversions, the creation time and well-formed columns |
| Offers.UpdateWithCreateData | models/offers.js:51-142 | updating a new offer with its creation data changes nothing but `updated_at` |
| Offers.UpdateResave | models/offers.js:96-142 | saving an updated offer's columns again leaves the edit as it was, only stamped with the later time |
| Offers.Delete | models/offers.js:152-154 | the remaining offers are exactly those with another id |
| Offers.IncrementViews | models/offers.js:144-146 | only the views of the offer with the id go up by one |
| Offers.IncrementConversions | models/offers.js:148-150 | only the conversions of the offer with the id go up by one |
| Offers.IncrementViewsTotal | models/offers.js:144-146 | the total of views grows by the number of offers with the id |
| Offers.IncrementConversionsTotal | models/offers.js:148-150 | the total of conversions grows by the number of offers with the id |
| Offers.UniqueIdCount | models/offers.js:144-150 | with unique ids an increment touches at most one offer |
| Offers.NoIdCount | models/offers.js:144-150 | an increment for an unknown id touches nothing |
| Offers.GetStats | models/offers.js:156-165 | the total is the row count; the published SUM is null on an empty table and otherwise counts the published offers |
| Offers.CountIsSum | models/offers.js:156-165 | the `SUM(CASE ...)` of the published flag equals the number of published offers |
| Brandscripts.Normalize | models/brandscripts.js:21-67 | the columns `create` writes: the brand name, the active flag as 0/1, the CTA defaults and the JSON lists, empty when missing |
| Brandscripts.ResaveKeepsBrandscript | models/brandscripts.js:69-116 | saving a brandscript's own columns back keeps them |
| Brandscripts.Create | models/brandscripts.js:21-67 | the insert fails iff the brand name is missing (NOT NULL); otherwise the row has the id and creation time |
| Brandscripts.Update | models/brandscripts.js:69-116 | the update writes the same columns as `create`, keeping id and creation time and stamping `updated_at`, and fails iff the brand name is missing |
| Brandscripts.SetActive | models/brandscripts.js:122-127 | every row is deactivated and the one with the id is activated |
| Brandscripts.SetActiveCount | models/brandscripts.js:122-127 | afterwards the number of active rows is the number of rows with the id |
| Brandscripts.UniqueIdCount | models/brandscripts.js:122-127 | with unique ids at most one row has the id, and one exactly when it exists |
| Brandscripts.NoIdCount | models/brandscripts.js:122-127 | no row carries an id that is absent |
| Brandscripts.SetActiveLeavesOne | models/brandscripts.js:122-127 | with unique ids, activating leaves exactly one active row if the id exists and none otherwise, and that row has the id |
| Brandscripts.GetAll | models/brandscripts.js:4-6 | every brandscript once, newest first |
| Brandscripts.GetActive | models/brandscripts.js:8-10 | exactly the active brandscripts, each as often as in the table, newest first |
| Brandscripts.GetById | models/brandscripts.js:12-14 | none iff no row has the id; otherwise a row with that id |
| Brandscripts.Delete | models/brandscripts.js:118-120 | the remaining rows are exactly those with another id |
| Brandscripts.Newest | models/brandscripts.js:16-19 | the newest active brandscript, none iff none is active |
| Brandscripts.GetDefault | models/brandscripts.js:16-19 | an active brandscript at least as new as every other active one; none iff none is active |
| Brandscripts.DefaultIsActiveListed | models/brandscripts.js:8-19 | there is a default iff the active list is non-empty, and the default is in it |
| Brandscripts.SetActiveThenDefault | models/brandscripts.js:122-127 | after activating an existing id, the default is that brandscript |
| Brandscripts.ParseJsonFields | models/brandscripts.js:130-144 | null stays null; otherwise the row with each of the nine JSON list columns decoded, a NULL column as the empty list |
| Brandscripts.ParseAfterCreate | models/brandscripts.js:130-144 | parsing a created row gives back the lists that were given, empty when missing |
| Brandscripts.GenerateHeroContent | models/brandscripts.js:147-155 | the headline is the first success outcome when truthy, else the character's desire, else "Transform Your Smile"; the subheadline is the one-liner, else the empathy statement, else empty; the brandscript's CTA |
| Brandscripts.HeroAfterCreate | models/brandscripts.js:147-155 | a created brandscript's hero has both CTA fields (given or default) and follows the headline and subheadline fallback chains over the fields given to `create` |
| Brandscripts.GenerateStakesContent | models/brandscripts.js:157-164 | the headline wraps the villain name ("Fear" when missing) in the fixed prefix and suffix; the subheadline is the internal problem or empty; the consequences are the decoded list |
| Brandscripts.StakesAfterCreate | models/brandscripts.js:157-164 | for a created brandscript: the given villain or "Fear" in the headline, the given internal problem or empty, the given consequences or none |
| Brandscripts.GenerateGuideContent | models/brandscripts.js:166-176 | the fixed headline, the empathy statement or empty, and the four decoded guide lists |
| Brandscripts.GuideAfterCreate | models/brandscripts.js:166-176 | for a created brandscript: the given empathy statement or empty, and the four lists given to `create`, each empty when missing |
| Brandscripts.GeneratePlanContent | models/brandscripts.js:178-188 | the plan and agreement names as stored or "How It Works" / "Our Promise", the decoded steps and items, and the CTA |
| Brandscripts.PlanAfterCreate | models/brandscripts.js:178-188 | for a created brandscript: the given names or their defaults, the given steps and items, and the given or default CTA text and URL |
| Brandscripts.GenerateSuccessContent | models/brandscripts.js:190-198 | the fixed headline, the decoded outcomes, and the transformation ends as stored or empty |
| Brandscripts.SuccessAfterCreate | models/brandscripts.js:190-198 | for a created brandscript: the given outcomes (none when missing) and the given transformation ends, empty when missing |
| Brandscripts.GenerateOneLiner | models/brandscripts.js:201-209 | starts "Most <character> " followed by the lower-cased problem and ", so we created ", is lower case after the head, names the plan and ends with the success text and a full stop |
| Brandscripts.OneLinerCharacter | models/brandscripts.js:203 | the character name when set, otherwise 'people' |
| Brandscripts.OneLinerProblem | models/brandscripts.js:204 | the internal problem when set, otherwise 'struggle with finding the right solution' |
| Brandscripts.OneLinerPlan | models/brandscripts.js:205 | the process plan name when set, otherwise 'our approach' |
| Brandscripts.OneLinerSuccess | models/brandscripts.js:206 | the first success outcome when non-empty, otherwise 'achieve their goals' |
| Brandscripts.SentenceShape | models/brandscripts.js:201-209 | the same shape for any four parts |
| Leads.NewLead | models/leads.js:40-62 | the inserted lead: the name as given; each optional text kept when given and null when missing or empty; source `landing_page` and status `new` when missing; offer id kept unless missing or 0; no notes |
| Leads.Create | models/leads.js:40-62 | the lead is appended with the id, which is returned |
| Leads.CreateThenGetById | models/leads.js:31-62 | a lead created with a fresh id is what `getById` returns for it, with its offer title, and it counts as new exactly when created without a status or with `new` |
| Leads.SetStatus | models/leads.js:64-69 | the status is replaced, the notes only when new notes are given, and nothing else changes |
| Leads.UpdateStatus | models/leads.js:64-69 | only the lead with the id changes |
| Leads.UpdateStatusIdempotent | models/leads.js:64-69 | repeating the update without notes changes nothing |
| Leads.NewCountAfterUpdate | models/leads.js:64-69 | the new-lead count afterwards is the count of the other new leads, plus the rows with the id when the status set is "new" |
| Leads.OfferTitle | models/leads.js:4-11 | the LEFT JOIN title: when an offer with the lead's offer id exists, the title of such an offer; null when no offer matches |
| Leads.Join | models/leads.js:4-11 | each lead is listed with its offer title |
| Leads.GetAll | models/leads.js:4-11 | every lead once, newest first, each with its offer title |
| Leads.NewLeads | models/leads.js:13-21 | exactly the new leads, newest first |
| Leads.GetNew | models/leads.js:13-21 | the new leads with their offer titles |
| Leads.GetNewCount | models/leads.js:88-91 | the count equals the length of the new-leads list |
| Leads.GetByOffer | models/leads.js:23-29 | the offer's leads, each as often as in the table, newest first |
| Leads.GetById | models/leads.js:31-38 | none iff no lead has the id; otherwise that lead with its offer title |
| Leads.Delete | models/leads.js:71-73 | the remaining leads are exactly those with another id |
| Leads.GetStats | models/leads.js:75-86 | the total and the five conditional counts, by status and by date |
| Leads.StatusCountsSplit | models/leads.js:75-86 | new, contacted and converted never add up to more than the total |
| Leads.SinceMonotone | models/leads.js:75-86 | counting from a later date never gives more |
| Leads.StatsBounded | models/leads.js:75-86 | on a non-empty table the status counts stay within the total, and this week is at most this month when the month starts first |
| Posts.ChooseSlug | models/posts.js:69 | the given slug, otherwise the slugified title; none when both are missing |
| Posts.StatusOf | models/posts.js:68-88 | "published" only when asked for; draft when no status is given |
| Posts.NewRow | models/posts.js:68-88 | the insert fails iff the title is missing; the row has the slug, the status, a publish time iff published, creation and update time `now`, and excerpt, content and meta texts as given or '', the image kept or null and a non-zero category id kept, otherwise null |
| Posts.Create | models/posts.js:68-88 | fails iff the title is missing or the slug is taken (UNIQUE); otherwise appends the new row |
| Posts.Revise | models/posts.js:90-126 | the updated row keeps id, author and creation time, stamps `updated_at`, writes the body columns as `create` does; a publish time is set once, on the first publication |
| Posts.GetById | models/posts.js:37-39 | none iff no post has the id; otherwise a post with that id |
| Posts.Update | models/posts.js:90-126 | fails iff the title is missing, the id is unknown or the slug belongs to another post; otherwise revises only that row |
| Posts.FirstPublish | models/posts.js:92-97 | the index of the first edit that publishes |
| Posts.ReviseAll | models/posts.js:92-97 | over a run of edits the publish time is that of the first publishing edit and never moves afterwards |
| Posts.Delete | models/posts.js:128-130 | the remaining posts are exactly those with another id |
| Posts.GetBySlug | models/posts.js:27-35 | none iff no post has the slug; otherwise a post with that slug |
| Posts.CreateThenGetBySlug | models/posts.js:68-88 | after a successful create the slug finds the new row |
| Posts.GetBySlugAfterFresh | models/posts.js:27-35 | a row appended with a fresh slug is found by it |
| Posts.GetAll | models/posts.js:5-13 | every post once, newest first |
| Posts.Listing | models/posts.js:15-25 | exactly the published posts, latest publication first |
| Posts.GetPublished | models/posts.js:15-25 | a page of published posts, latest first; of length `min(limit, count - offset)`, with limit 10 and offset 0 by default |
| Posts.GetRecent | models/posts.js:53-62 | the `limit` (default 3) latest published posts, or all of them when fewer |
| Posts.Count | models/posts.js:64-66 | the number of published posts: the length of the full published listing, zero exactly when no post is published |
| Posts.CountAfterCreate | models/posts.js:64-88 | creating a post raises the count by one exactly when it is created with status `published` |
| Posts.PublishedPagesJoin | models/posts.js:15-25 | two consecutive pages together are the page of their joint size |
| Posts.AllPublishedListed | models/posts.js:15-25 | one page of `count()` rows lists exactly the published posts |
| Posts.GetByCategory | models/posts.js:41-51 | the first `min(limit, n)` posts of the category's published listing, latest first, where n is the number of published posts of the category and the limit defaults to 10 |
| Posts.CategoryListing | models/posts.js:41-51 | exactly the published posts of the category, each as often as in the table, latest publication first |
| Posts.WholeCategoryListed | models/posts.js:41-51 | with a limit covering the table, exactly the published posts of the category are listed |
| Team.TeamSlugIsSlug | models/team.js:42 | the slug made from a name is lower-case letters, digits and single inner hyphens |
| Team.HyphenateKeepsAlnum | models/team.js:42 | turning each run of other characters into one hyphen keeps the letters and digits |
| Team.StripKeepsNonHyphens | models/team.js:42 | stripping edge hyphens keeps every other character |
| Team.TeamSlugKeepsAlnum | models/team.js:42 | the slug keeps exactly the lower-cased letters and digits of the name |
| Team.TeamSlugOfSlug | models/team.js:42 | a slug is its own slug |
| Team.TeamSlugIdempotent | models/team.js:42 | making a slug twice is making it once |
| Team.ChooseSlug | models/team.js:42 | the given slug, otherwise a slug of the name |
| Team.Columns | models/team.js:41-98 | the written columns fail iff the name is missing (NOT NULL); otherwise the id, name and chosen slug, every given text kept, missing texts as empty (photo null, category `staff`, status `published`), `sort_order` given or 0, and `bio_page_enabled` 1 exactly when requested |
| Team.ResaveKeepsMember | models/team.js:63-98 | saving a member's own columns back keeps them |
| Team.CreateDefaults | models/team.js:41-61 | a member created without category or status is a published staff member |
| Team.Create | models/team.js:41-61 | fails iff the name is missing; otherwise appends the new row |
| Team.Update | models/team.js:63-98 | fails iff no slug can be chosen, or the name is missing for an existing row; otherwise rewrites only that row |
| Team.Delete | models/team.js:100-102 | the remaining members are exactly those with another id |
| Team.GetAll | models/team.js:4-6 | every member once, by `sort_order` |
| Team.GetPublished | models/team.js:8-12 | exactly the published members, by `sort_order` |
| Team.GetByCategory | models/team.js:14-18 | the published members of the category, by `sort_order` |
| Team.SectionOf | models/team.js:20-31 | a member belongs to the staff section iff its category is "staff" or missing |
| Team.SectionList | models/team.js:20-31 | each section lists exactly the published members of that section, in order |
| Team.GetPublishedGrouped | models/team.js:20-31 | the four sections each list exactly their published members |
| Team.ListedIff | models/team.js:20-31 | a member is in a section list iff it is in the table and in that group |
| Team.SectionsDisjoint | models/team.js:20-31 | no member appears in two sections |
| Team.CreatedIsListedAsStaff | models/team.js:20-61 | a member created without category or status is listed under staff |
| Team.GetById | models/team.js:33-35 | none iff no member has the id; otherwise a member with that id |
| Team.GetBySlug | models/team.js:37-39 | none iff no published member has the slug; otherwise such a member |
| Team.CreateThenGetBySlug | models/team.js:37-61 | a created member with a fresh slug is found by it |
| Team.GetBySlugAppend | models/team.js:37-39 | a row appended with a fresh slug is found by it |
| Settings.GetSetting | models/settings.js:17-20 | an unknown key reads as null |
| Settings.GetSettingAgrees | models/settings.js:4-20 | reading one key agrees with reading it from the whole map |
| Settings.GetSettingsAfterUpdate | models/settings.js:4-11 | after `updateSettings` the whole-map read has the old and written keys, each written key with its new value and every other key as before |
| Settings.GetAllSettings | models/settings.js:13-15 | every stored row once, by key in ascending text order |
| Settings.UpdateSetting | models/settings.js:22-24 | an existing key gets the value and keeps its type; an unknown key changes nothing; other keys are untouched |
| Settings.UpdateSettings | models/settings.js:26-34 | every entry is written (insert or replace) with the default type; other keys are untouched |
| Settings.ReadAfterUpdateSettings | models/settings.js:17-34 | every written entry reads back as written |
| Settings.UpdateSettingsIdempotent | models/settings.js:26-34 | writing the same entries twice is writing them once |
| Settings.UpdateSettingsResetsKind | models/settings.js:22-34 | `INSERT OR REPLACE` resets a key's type, while `updateSetting` keeps it |
| GoogleReviews.FetchReviews | services/googleReviews.js:26-53 | fails first on missing credentials; succeeds iff the API answers "OK", returning its reviews (empty when absent); otherwise reports the API error |
| GoogleReviews.GetSyncStatus | services/googleReviews.js:135-143 | configured iff both credentials are present; last sync, overall rating and total reviews are the stored settings, null when unset or empty |
| GoogleReviews.CredentialsAfterSave | services/googleReviews.js:15-21 | the API key and place id saved through `updateSettings` are the credentials read back |
| GoogleReviews.ConfiguredIffFetchAttempted | services/googleReviews.js:135-143 | the status says "configured" exactly when a fetch gets past the credential check |
| GoogleReviews.Stored | models/reviews.js:43-89 | the stored review: name and content as given, photo, URL and date null when missing, rating given or 5 (never 0), source `google` and status `published` when missing, featured as 0/1 |
| GoogleReviews.GetBySource | models/reviews.js:24-26 | exactly the reviews of that source, latest review date first |
| GoogleReviews.FindMatch | services/googleReviews.js:73-76 | none iff no snapshot review has the reviewer name and rating; otherwise such a review |
| GoogleReviews.Decide | services/googleReviews.js:73-110 | create iff unmatched, skip iff matched and skipping; a created review is not featured and has the default status; an update preserves the match's featured flag and status |
| GoogleReviews.UpdateKeepsFeaturedAndStatus | services/googleReviews.js:84-95 | the rewritten row keeps the matched review's featured flag and non-empty status |
| GoogleReviews.UpdateById | models/reviews.js:62-89 | only the row with the id is rewritten |
| GoogleReviews.Run | services/googleReviews.js:71-112 | imported, skipped and updated add up to the fetched count; the table grows by the imported count; with skipping nothing old changes |
| GoogleReviews.ImportReviews | services/googleReviews.js:61-130 | fails iff the fetch fails; otherwise the counts add up to the total, the table grows by the imported count, and the sync time is recorded |
| GoogleReviews.ImportThenSyncStatus | services/googleReviews.js:115-119 | after an import the sync status shows its time |
| GoogleReviews.DuplicatesBothCreated | services/googleReviews.js:65-110 | matching uses the snapshot taken before the loop, so two identical new reviews are both created |
| QuizSeed.KeyOfKeyName | models/quiz.js:240-264 | every procedure key parses back to its treatment |
| QuizSeed.KeyNameInjective | models/quiz.js:240-264 | different treatments have different keys |
| QuizSeed.SeedQuestionsShape | models/quiz.js:100-218 | only the "concerns" question is multi-select, and the question categories are distinct |
| QuizSeed.SeedQuestionsWeighted | models/quiz.js:100-218 | each question has at least four answers, each with a non-empty, well-formed point map |
| QuizSeed.QuestionWeighted | models/quiz.js:100-218 | the same, for one question |
| QuizSeed.OptionWeighted | models/quiz.js:100-218 | the same, for one answer |
| QuizSeed.SeedCataloguePositive | models/quiz.js:100-218 | every point weight in the catalogue is positive |
| QuizSeed.SeedProceduresShape | models/quiz.js:240-257 | the procedure keys are distinct and each category is one of the five known ones |
| QuizSeed.SeedCoverage | models/quiz.js:100-257 | every treatment is scored by some answer, and has a procedure page except the four without one |
| Quiz.SeedOptionsFrom | models/quiz.js:233-235 | the inner loop appends the question's option block |
| Quiz.SeedQuestionsFrom | models/quiz.js:219-236 | the outer loop appends all questions and their option blocks, touching nothing else |
| Quiz.SeedOneQuestion | models/quiz.js:219-236 | one outer step appends one question and its options |
| Quiz.SeedProceduresFrom | models/quiz.js:261-263 | the loop appends all seeded procedures |
| Quiz.InitQuestions | models/quiz.js:86-91 | questions and options are seeded only into an empty question table |
| Quiz.InitProcedures | models/quiz.js:92-96 | procedures are seeded only into an empty table |
| Quiz.InitQuizTables | models/quiz.js:4-97 | each catalogue is seeded only when its table is empty; submissions are untouched |
| Quiz.InitIdempotent | models/quiz.js:86-96 | a second initialisation changes nothing |
| Quiz.SeededQuestionsOrdered | models/quiz.js:229-231 | seeded question i has `sort_order` i and the i-th id |
| Quiz.SeededMultiSelect | models/quiz.js:100-224 | a seeded question is multi-select iff it is the "concerns" question |
| Quiz.SeededOptionsMatchCatalogue | models/quiz.js:219-236 | every seeded option belongs to a seeded question and carries the catalogue points at its position |
| Quiz.SeededPointsPositive | models/quiz.js:219-236 | seeding from a catalogue with positive weights copies only positive points |
| Quiz.SeededOptionsPositive | models/quiz.js:219-236 | the same, for the option blocks |
| Quiz.SeededKeysUnique | models/quiz.js:240-264 | the seeded procedure keys satisfy the UNIQUE constraint |
| Quiz.CreateQuestion | models/quiz.js:291-297 | fails iff question or category is missing (NOT NULL); otherwise appends the row with the defaults and returns its id |
| Quiz.CreateQuestionDefaults | models/quiz.js:291-297 | missing fields default to the star icon, single-select and sort order 0, active |
| Quiz.GetQuestionById | models/quiz.js:279-281 | none iff no question has the id; otherwise a question with that id |
| Quiz.CreateThenGetQuestion | models/quiz.js:279-297 | a created question is found by its returned id |
| Quiz.GetByIdAppend | models/quiz.js:279-281 | a row appended with a fresh id is found by it |
| Quiz.UpdateQuestion | models/quiz.js:299-305 | fails iff question or category is missing for an existing id; otherwise rewrites only that row's columns |
| Quiz.DeleteQuestion | models/quiz.js:307-309 | removes exactly the rows with the id |
| Quiz.GetAllQuestions | models/quiz.js:271-277 | exactly the active questions, by `sort_order` |
| Quiz.CreateOption | models/quiz.js:317-322 | fails iff question id or caption is missing; otherwise appends the option with the defaults |
| Quiz.CreateOptionDefaults | models/quiz.js:317-322 | missing fields default to the check-mark emoji, no points and sort order 0 |
| Quiz.UpdateOption | models/quiz.js:324-328 | fails iff the caption is missing for an existing id; otherwise rewrites only that option, keeping its question |
| Quiz.GetOptionsByQuestionId | models/quiz.js:313-315 | exactly that question's options, by `sort_order` |
| Quiz.GetQuestionsWithOptions | models/quiz.js:283-289 | each active question in order, paired with all of its options (each as often as in the table, no other) in ascending `sort_order` |
| Quiz.DeleteOption | models/quiz.js:330-332 | removes exactly the options with the id |
| Quiz.DeleteOptionsByQuestionId | models/quiz.js:334-336 | removes exactly that question's options, so none are listed afterwards |
| Quiz.CreateSubmission | models/quiz.js:340-361 | the submission is appended with the next id, the completion time, no notification sent, and every given answer: name, email, phone, smile type and its name, timeline, interest, recommendations (empty when missing), source, the three UTM fields, IP address and user agent |
| Quiz.MarkNotificationSent | models/quiz.js:395-397 | only the submission with the id gets the sent flag |
| Quiz.NotificationOneWay | models/quiz.js:395-397 | a sent flag is never cleared, marking twice is marking once, and a new submission leaves the old ones alone |
| Quiz.GetSubmissions | models/quiz.js:370-376 | a page of submissions, newest first, of length `min(limit, count - offset)`, with limit 50 and offset 0 by default |
| Quiz.SubmissionPagesJoin | models/quiz.js:370-376 | two consecutive pages together are the page of their joint size |
| Quiz.AllSubmissionsListed | models/quiz.js:370-376 | one page of `countSubmissions()` rows lists every submission once |
| Quiz.CountAfterSubmission | models/quiz.js:391-393 | each submission raises `countSubmissions()` by one, and the count is the length of the full submission listing |
| Quiz.GetSubmissionById | models/quiz.js:378-380 | none iff no submission has the id; otherwise one with that id |
| Quiz.GetAllProcedures | models/quiz.js:401-403 | exactly the active procedures, by `sort_order` |
| Quiz.GetProcedureByKey | models/quiz.js:405-407 | none iff no procedure has the key; otherwise one with that key |
| Quiz.SeededProcedureLookup | models/quiz.js:240-264 | a seeded key is found for every treatment except the four without a page |
| Quiz.SeededKeyFound | models/quiz.js:240-264 | a treatment's key is found iff the catalogue has a procedure for it |
| QuizStats.Bump | models/quiz.js:418-443 | counting one more value keeps the groups distinct and positive and adds one to that value's count |
| QuizStats.Tally | models/quiz.js:418-443 | `GROUP BY`: one group per distinct value, with its number of occurrences |
| QuizStats.TallyGroups | models/quiz.js:418-443 | the tally is a grouping of the values |
| QuizStats.GroupsOfPermutation | models/quiz.js:418-443 | reordering the groups (the `ORDER BY count DESC`) keeps it a grouping |
| QuizStats.NonNull | models/quiz.js:418-443 | the `IS NOT NULL` filter keeps one value per submission with that column |
| QuizStats.Breakdown | models/quiz.js:418-443 | the groups of the non-null values, largest count first, adding up to the non-null count |
| QuizStats.TopGroups | models/quiz.js:418-425 | the `LIMIT` keeps at most n groups, none smaller than a group left out |
| QuizStats.ConversionRate | models/quiz.js:450 | the percentage rounded to the nearest integer, 0 when there are no submissions |
| QuizStats.ConversionRateBounded | models/quiz.js:450 | a part of the total gives a rate between 0 and 100 |
| QuizStats.GetQuizStats | models/quiz.js:411-455 | the counts (all, with email, today, this week), the rounded rate, the top five interests and the two breakdowns |
| QuizStats.StatsBreakdownsAddUp | models/quiz.js:418-443 | each breakdown adds up to the submissions that answered it, and the top interests are the largest groups |

## Left out

- Dates and clocks: "now", "today", the start of the week and month, and
  the conversion of Google's Unix times to dates are parameters.
  `CURRENT_TIMESTAMP` and the ISO time of a call are the same `now`.
- Text: `toLowerCase`/`toUpperCase` are modelled on ASCII letters only, and
  lengths count code points, not UTF-16 units.
- Sort ties: `ORDER BY` puts tied rows in an order SQLite leaves open. The
  model fixes one such order, and no property depends on which.
- A negative `LIMIT` (no limit in SQLite) is not modelled; limits and
  offsets are natural numbers.
- QuizStats.ConversionRate: the rate is the exact ratio rounded half up;
  the floating-point error of the division before `Math.round` is not
  modelled.
- Posts.ChooseSlug: the `slugify` npm package used by `models/posts.js` is
  a function parameter; its text rules are not part of this model.
- The schemas of the leads, reviews and offers tables are not part of this
  model, so no `NOT NULL` is modelled for them. Offers.Create starts views
  and conversions at 0, as their use in `getStats` implies.
- `createAnswer` and `getSubmissionAnswers` of `models/quiz.js` are not
  modelled: the answers table takes no part in the properties above.
- Foreign keys and `ON DELETE CASCADE` are not modelled; `models/db.js` is
  not part of this model.
- Posts.GetAll: the joins with users and categories that add
  `author_name` and `category_name` are not modelled; only the rows and
  their order are stated.
- Offers.GetActive: states only the order of its result; that the rows are
  those of `getPublished` is stated by Offers.ActiveIsPublished.
- Offers.GetStats: the `SUM(views)` and `SUM(conversions)` columns are not
  stated; Offers.IncrementViewsTotal and Offers.IncrementConversionsTotal
  state how those totals move.
- The brandscript name that `models/offers.js` `getAll` joins in is not
  modelled.
- Brandscripts.GenerateOneLiner: the whole sentence of an empty
  brandscript is not written out, because lower-casing long literals is too
  costly to prove; Brandscripts.OneLinerCharacter, OneLinerProblem,
  OneLinerPlan and OneLinerSuccess state the default of each slot.
- Team.Update, Quiz.UpdateQuestion and GoogleReviews.UpdateById: the
  `updated_at = CURRENT_TIMESTAMP` stamp they write is not modelled; their
  rows carry no `updated_at` field, and no modelled read returns or orders
  by it. Offers, brandscripts, blog posts and social posts do carry it.
- JSON: `JSON.parse` and `JSON.stringify` are taken as exact inverses on
  the lists they store; malformed stored JSON is not modelled.
- The quiz catalogue wording (question texts, captions, blurbs) is
  `SeedCatalogue` data: `QuizSeed` states its shape and weights, not its
  prose.
- The Places API request is an `ApiResponse` parameter, and a network
  failure is one of its cases. Its numbers are taken as integers or
  decimal text.
- The settings transaction of `updateSettings` is taken to succeed.
- Console logging is not modelled.
- The review-store operations that `services/googleReviews.js` does not
  use (`getAll`, `getPublished`, `getFeatured`, `getRecent`, `getStats`,
  `getCountBySource`, `delete`) are not part of this model.
- UpdateQuestion and UpdateOption take `sort_order` as an integer; a NULL
  `sort_order` is not modelled.
- SocialPosts.FirstLink: the contract says the link occurs in the text, not
  that it is the leftmost and longest match the regular expression takes.
- Settings.GetAllSettings is a ghost function: it lists the rows by key,
  but is not meant to run.
