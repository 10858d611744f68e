/** Importing Google reviews: fetching a place's reviews and reconciling
    them with the reviews already stored from Google. The request and the
    clock are parameters: `ApiResponse` is what the Places API answers,
    `dateOf` turns a review's Unix time into its `YYYY-MM-DD` day. */
module GoogleReviews {
  import opened Common
  import opened Ordering
  import Settings

  // ---------------------------------------------------------------------
  // Credentials, fetchReviews, getSyncStatus
  // ---------------------------------------------------------------------

  const ApiKeySetting := "google_places_api_key"
  const PlaceIdSetting := "google_place_id"
  const RatingSetting := "google_overall_rating"
  const TotalSetting := "google_total_reviews"
  const LastSyncSetting := "google_last_sync"

  datatype Credentials = Credentials(apiKey: Text, placeId: Text)

  /** `getCredentials`: the two settings, missing when unset. */
  function GetCredentials(settings: map<string, Text>): (c: Credentials)
    ensures c.apiKey == Settings.Lookup(settings, ApiKeySetting)
    ensures c.placeId == Settings.Lookup(settings, PlaceIdSetting)
  {
    Credentials(Settings.Lookup(settings, ApiKeySetting), Settings.Lookup(settings, PlaceIdSetting))
  }

  /** Credentials saved through the settings page are the ones the service
      reads back. */
  lemma CredentialsAfterSave(s: Settings.Store, apiKey: Text, placeId: Text)
    ensures GetCredentials(Settings.GetSettings(Settings.UpdateSettings(s, [(ApiKeySetting, apiKey), (PlaceIdSetting, placeId)])))
            == Credentials(apiKey, placeId)
  {
    var entries := [(ApiKeySetting, apiKey), (PlaceIdSetting, placeId)];
    assert Settings.DistinctKeys(entries);
    var r := Settings.UpdateSettings(s, entries);
    assert r[entries[0].0] == Settings.Row(apiKey, Settings.DefaultKind);
    assert r[entries[1].0] == Settings.Row(placeId, Settings.DefaultKind);
  }

  /** A review as the Places API returns it; numbers are taken as integers. */
  datatype FetchedReview = FetchedReview(
    authorName: Text, rating: Option<int>, text: Text,
    profilePhotoUrl: Text, authorUrl: Text, time: int)

  /** The `result` object of a Places details answer. `rating` and
      `userRatingsTotal` stand for the numbers by their decimal text. */
  datatype PlaceResult = PlaceResult(
    name: Text, rating: Option<string>, userRatingsTotal: Option<string>, reviews: Option<seq<FetchedReview>>)

  /** The outcome of the HTTP request. */
  datatype ApiResponse = RequestFailed | Answer(status: string, errorMessage: Text, result: PlaceResult)

  datatype FetchError = MissingCredentials | NetworkError | ApiError(message: string)

  datatype GoogleData = GoogleData(
    placeName: Text, overallRating: Option<string>, totalReviews: Option<string>, reviews: seq<FetchedReview>)

  datatype Fetched = Fetched(data: GoogleData) | FetchFailed(error: FetchError)

  const MissingCredentialsMessage := "Google Places API key and Place ID are required. Configure them in Settings."

  function ApiErrorMessage(status: string, errorMessage: Text): string {
    "Google API Error: " + status + " - " + Or(errorMessage, "Unknown error")
  }

  /** `fetchReviews`: fails without both credentials (before any request),
      when the request fails, and when the API status is not `OK`;
      otherwise the place's figures and its reviews (none when absent). */
  function FetchReviews(c: Credentials, response: ApiResponse): (r: Fetched)
    ensures r == FetchFailed(MissingCredentials) <==> !Present(c.apiKey) || !Present(c.placeId)
    ensures r.Fetched? <==> Present(c.apiKey) && Present(c.placeId) && response.Answer? && response.status == "OK"
    ensures r.Fetched? ==> r.data.reviews == response.result.reviews.GetOr([])
    ensures r.FetchFailed? && r.error.ApiError? ==>
      response.Answer? && r.error.message == ApiErrorMessage(response.status, response.errorMessage)
  {
    if !Present(c.apiKey) || !Present(c.placeId) then FetchFailed(MissingCredentials)
    else if response.RequestFailed? then FetchFailed(NetworkError)
    else if response.status != "OK" then FetchFailed(ApiError(ApiErrorMessage(response.status, response.errorMessage)))
    else
      var res := response.result;
      Fetched(GoogleData(res.name, res.rating, res.userRatingsTotal, res.reviews.GetOr([])))
  }

  datatype SyncStatus = SyncStatus(lastSync: Text, overallRating: Text, totalReviews: Text, isConfigured: bool)

  /** `getSyncStatus`: empty settings read as null; configured when both
      credentials are non-empty. */
  function GetSyncStatus(settings: map<string, Text>): (s: SyncStatus)
    ensures s.isConfigured <==> Present(GetCredentials(settings).apiKey) && Present(GetCredentials(settings).placeId)
    ensures KeptOrNull(Settings.Lookup(settings, LastSyncSetting), s.lastSync)
    ensures KeptOrNull(Settings.Lookup(settings, RatingSetting), s.overallRating)
    ensures KeptOrNull(Settings.Lookup(settings, TotalSetting), s.totalReviews)
  {
    SyncStatus(
      OrNull(Settings.Lookup(settings, LastSyncSetting)),
      OrNull(Settings.Lookup(settings, RatingSetting)),
      OrNull(Settings.Lookup(settings, TotalSetting)),
      Present(Settings.Lookup(settings, ApiKeySetting)) && Present(Settings.Lookup(settings, PlaceIdSetting)))
  }

  /** The sync status reports "configured" exactly when a fetch gets past
      the credentials check. */
  lemma ConfiguredIffFetchAttempted(settings: map<string, Text>, response: ApiResponse)
    ensures GetSyncStatus(settings).isConfigured <==>
      FetchReviews(GetCredentials(settings), response) != FetchFailed(MissingCredentials)
  {
  }

  // ---------------------------------------------------------------------
  // The reviews table (create and update as the review store does them)
  // ---------------------------------------------------------------------

  datatype Review = Review(
    id: int, reviewerName: Text, reviewerPhoto: Text, content: Text, rating: int,
    source: string, sourceUrl: Text, reviewDate: Text, featured: int, status: string)

  /** The data the review store's `create` and `update` receive. */
  datatype ReviewInput = ReviewInput(
    reviewerName: Text, reviewerPhoto: Text, content: Text, rating: Option<int>,
    source: Text, sourceUrl: Text, reviewDate: Text, featured: bool, status: Text)

  const GoogleSource := "google"
  const PublishedStatus := "published"

  /** The row `create` inserts and `update` writes: rating 5, source
      `google` and status `published` when missing, photo, URL and date
      NULL when empty, and `featured` as 0/1. */
  function Stored(id: int, d: ReviewInput): (r: Review)
    ensures r.id == id && IsFlag(r.featured) && (r.featured == 1 <==> d.featured)
    ensures r.reviewerName == d.reviewerName && r.content == d.content
    ensures ValueKeptOr(d.status, r.status, PublishedStatus) && ValueKeptOr(d.source, r.source, GoogleSource)
    ensures KeptOrInt(d.rating, r.rating, 5) && r.rating != 0
    ensures KeptOrNull(d.reviewerPhoto, r.reviewerPhoto) && KeptOrNull(d.sourceUrl, r.sourceUrl)
    ensures KeptOrNull(d.reviewDate, r.reviewDate)
  {
    Review(id, d.reviewerName, OrNull(d.reviewerPhoto), d.content, OrInt(d.rating, 5),
      Or(d.source, GoogleSource), OrNull(d.sourceUrl), OrNull(d.reviewDate), Flag(d.featured),
      Or(d.status, PublishedStatus))
  }

  /** `review_date`, the column `getBySource` sorts on. */
  function ReviewDate(x: Review): Text { x.reviewDate }

  /** `getBySource(source)`: the reviews from that source, latest review
      date first, each as often as in the table. */
  function GetBySource(table: seq<Review>, source: string): (r: seq<Review>)
    ensures NewestFirst(r, ReviewDate)
    ensures forall x :: multiset(r)[x] == if x.source == source then multiset(table)[x] else 0
  {
    var p := (x: Review) => x.source == source;
    var r := OrderNewestFirst(Filter(table, p), ReviewDate);
    forall x ensures multiset(r)[x] == if p(x) then multiset(table)[x] else 0 {
      FilterMultiplicity(table, p, x);
    }
    r
  }

  // ---------------------------------------------------------------------
  // importReviews
  // ---------------------------------------------------------------------

  /** `r.reviewer_name === review.author_name && r.rating === review.rating`:
      strict equality, so a missing name or rating on either side never matches. */
  predicate Matches(existing: Review, g: FetchedReview) {
    existing.reviewerName.Some? && g.authorName == existing.reviewerName && g.rating == Some(existing.rating)
  }

  /** `existingReviews.find(...)`: the first match in the snapshot. */
  function FindMatch(snapshot: seq<Review>, g: FetchedReview): (r: Option<Review>)
    ensures r.None? <==> forall x :: x in snapshot ==> !Matches(x, g)
    ensures r.Some? ==> r.value in snapshot && Matches(r.value, g)
  {
    if |snapshot| == 0 then None
    else if Matches(snapshot[0], g) then Some(snapshot[0])
    else
      assert forall x :: x in snapshot ==> x == snapshot[0] || x in snapshot[1..];
      FindMatch(snapshot[1..], g)
  }

  /** What the loop does with one fetched review. */
  datatype Action = Create(input: ReviewInput) | Skip | UpdateRow(id: int, input: ReviewInput)

  /** The options of `importReviews`; a missing option takes its default. */
  datatype ImportOptions = ImportOptions(skipExisting: Option<bool>, defaultStatus: Text)

  function SkipExisting(o: ImportOptions): bool { o.skipExisting.GetOr(true) }

  /** `defaultStatus = 'published'` applies only when the option is absent. */
  function DefaultStatus(o: ImportOptions): Text {
    if o.defaultStatus.None? then Some(PublishedStatus) else o.defaultStatus
  }

  /** The review store input for a fetched review. */
  function FromGoogle(g: FetchedReview, dateOf: int -> string, featured: bool, status: Text): ReviewInput {
    ReviewInput(g.authorName, OrNull(g.profilePhotoUrl), g.text, g.rating, Some(GoogleSource),
      OrNull(g.authorUrl), Some(dateOf(g.time)), featured, status)
  }

  /** `x` is the snapshot row that the update `a` rewrites, its `featured`
      flag and status carried over. */
  predicate PreservedFrom(x: Review, snapshot: seq<Review>, g: FetchedReview, a: Action)
    requires a.UpdateRow?
  {
    x in snapshot && Matches(x, g) && x.id == a.id
    && a.input.featured == (x.featured != 0) && a.input.status == Some(x.status)
  }

  /** One iteration: a matched review is skipped or rewritten keeping its
      `featured` flag and status; an unmatched one is created, not
      featured, with the default status. */
  function Decide(snapshot: seq<Review>, g: FetchedReview, o: ImportOptions, dateOf: int -> string): (a: Action)
    ensures a.Create? <==> forall x :: x in snapshot ==> !Matches(x, g)
    ensures a.Skip? <==> SkipExisting(o) && exists x :: x in snapshot && Matches(x, g)
    ensures a.Create? ==> !a.input.featured && a.input.status == DefaultStatus(o) && a.input.source == Some(GoogleSource)
    ensures a.UpdateRow? ==> exists x :: PreservedFrom(x, snapshot, g, a)
  {
    var m := FindMatch(snapshot, g);
    if m.Some? then
      if SkipExisting(o) then Skip
      else
        var a := UpdateRow(m.value.id, FromGoogle(g, dateOf, m.value.featured != 0, Some(m.value.status)));
        assert PreservedFrom(m.value, snapshot, g, a);
        a
    else Create(FromGoogle(g, dateOf, false, DefaultStatus(o)))
  }

  /** The row an update writes keeps the matched review's 0/1 `featured`
      flag and its non-empty status. */
  lemma UpdateKeepsFeaturedAndStatus(snapshot: seq<Review>, g: FetchedReview, o: ImportOptions, dateOf: int -> string)
    requires Decide(snapshot, g, o, dateOf).UpdateRow?
    ensures var a := Decide(snapshot, g, o, dateOf);
      exists x :: x in snapshot && Matches(x, g) && x.id == a.id
        && (IsFlag(x.featured) ==> Stored(a.id, a.input).featured == x.featured)
        && (x.status != "" ==> Stored(a.id, a.input).status == x.status)
  {
    var a := Decide(snapshot, g, o, dateOf);
    var x :| PreservedFrom(x, snapshot, g, a);
    assert x in snapshot && Matches(x, g) && x.id == a.id;
  }

  /** `UPDATE reviews ... WHERE id = ?`. */
  function UpdateById(table: seq<Review>, id: int, d: ReviewInput): (r: seq<Review>)
    ensures |r| == |table|
    ensures forall i :: 0 <= i < |r| ==> r[i] == if table[i].id == id then Stored(id, d) else table[i]
  {
    if |table| == 0 then [] else [if table[0].id == id then Stored(id, d) else table[0]] + UpdateById(table[1..], id, d)
  }

  /** The effect of one action; a created row takes the next id. */
  function Apply(table: seq<Review>, a: Action, nextId: int): seq<Review> {
    match a
    case Create(d) => table + [Stored(nextId, d)]
    case Skip => table
    case UpdateRow(id, d) => UpdateById(table, id, d)
  }

  datatype Counts = Counts(imported: nat, skipped: nat, updated: nat)

  function Tally(c: Counts, a: Action): Counts {
    match a
    case Create(_) => c.(imported := c.imported + 1)
    case Skip => c.(skipped := c.skipped + 1)
    case UpdateRow(_, _) => c.(updated := c.updated + 1)
  }

  /** The loop of `importReviews` over the fetched reviews, every decision
      taken against the snapshot read before the loop. Every fetched review
      is counted once; with `skipExisting` nothing is updated and the old
      rows stay as they were, new ones being appended. */
  function Run(table: seq<Review>, snapshot: seq<Review>, fetched: seq<FetchedReview>,
               o: ImportOptions, dateOf: int -> string, nextId: int): (r: (seq<Review>, Counts))
    ensures r.1.imported + r.1.skipped + r.1.updated == |fetched|
    ensures |r.0| == |table| + r.1.imported
    ensures SkipExisting(o) ==> r.1.updated == 0 && r.0[..|table|] == table
    decreases |fetched|
  {
    if |fetched| == 0 then (table, Counts(0, 0, 0))
    else
      var a := Decide(snapshot, fetched[0], o, dateOf);
      var next := if a.Create? then nextId + 1 else nextId;
      var rest := Run(Apply(table, a, nextId), snapshot, fetched[1..], o, dateOf, next);
      var c := rest.1;
      var total := match a
        case Create(_) => Counts(c.imported + 1, c.skipped, c.updated)
        case Skip => Counts(c.imported, c.skipped + 1, c.updated)
        case UpdateRow(_, _) => Counts(c.imported, c.skipped, c.updated + 1);
      assert SkipExisting(o) ==> rest.0[..|table|] == table by {
        if SkipExisting(o) {
          assert rest.0[..|Apply(table, a, nextId)|][..|table|] == rest.0[..|table|];
        }
      }
      (rest.0, total)
  }

  datatype ImportResult = ImportResult(
    placeName: Text, overallRating: Option<string>, totalReviews: Option<string>,
    imported: nat, skipped: nat, updated: nat, total: nat)

  /** The state `importReviews` works on. */
  datatype World = World(reviews: seq<Review>, settings: Settings.Store, nextId: int)

  datatype Imported = Imported(result: ImportResult, world: World) | ImportFailed(error: FetchError)

  /** The settings written after the loop. */
  function SyncEntries(data: GoogleData, now: string): seq<(string, Text)> {
    [(RatingSetting, Some(data.overallRating.GetOr(""))),
     (TotalSetting, Some(data.totalReviews.GetOr(""))),
     (LastSyncSetting, Some(now))]
  }

  /** `importReviews(options)`: fetch, reconcile against the Google reviews
      already stored, then record the place's figures and the sync time. A
      failed fetch changes nothing. */
  function ImportReviews(w: World, o: ImportOptions, response: ApiResponse, dateOf: int -> string, now: string): (r: Imported)
    ensures r.ImportFailed? <==> FetchReviews(GetCredentials(Settings.GetSettings(w.settings)), response).FetchFailed?
    ensures r.Imported? ==> r.result.imported + r.result.skipped + r.result.updated == r.result.total
    ensures r.Imported? ==> |r.world.reviews| == |w.reviews| + r.result.imported
    ensures r.Imported? ==> Settings.GetSetting(r.world.settings, LastSyncSetting) == Some(now)
    ensures r.Imported? && SkipExisting(o) ==> r.result.updated == 0 && r.world.reviews[..|w.reviews|] == w.reviews
  {
    var f := FetchReviews(GetCredentials(Settings.GetSettings(w.settings)), response);
    if f.FetchFailed? then ImportFailed(f.error)
    else
      var data := f.data;
      var snapshot := GetBySource(w.reviews, GoogleSource);
      var run := Run(w.reviews, snapshot, data.reviews, o, dateOf, w.nextId);
      var entries := SyncEntries(data, now);
      assert entries[2].0 == LastSyncSetting;
      var settings := Settings.UpdateSettings(w.settings, entries);
      Imported(
        ImportResult(data.placeName, data.overallRating, data.totalReviews,
          run.1.imported, run.1.skipped, run.1.updated, |data.reviews|),
        World(run.0, settings, w.nextId + run.1.imported))
  }

  /** After a successful import the sync status shows the sync time. */
  lemma ImportThenSyncStatus(w: World, o: ImportOptions, response: ApiResponse, dateOf: int -> string, now: string)
    requires now != ""
    requires ImportReviews(w, o, response, dateOf, now).Imported?
    ensures GetSyncStatus(Settings.GetSettings(ImportReviews(w, o, response, dateOf, now).world.settings)).lastSync == Some(now)
  {
    var s := ImportReviews(w, o, response, dateOf, now).world.settings;
    Settings.GetSettingAgrees(s, LastSyncSetting);
  }

  /** Matching uses the snapshot only, so two identical unmatched reviews in
      one batch are both created. */
  lemma DuplicatesBothCreated(table: seq<Review>, snapshot: seq<Review>, g: FetchedReview,
                              o: ImportOptions, dateOf: int -> string, nextId: int)
    requires forall x :: x in snapshot ==> !Matches(x, g)
    ensures Run(table, snapshot, [g, g], o, dateOf, nextId).1 == Counts(2, 0, 0)
  {
    var a := Decide(snapshot, g, o, dateOf);
    assert [g, g][1..] == [g];
    assert [g][1..] == [];
  }
}
