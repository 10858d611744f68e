/** The SEO filename analyser: scores an image filename, suggests better
    names for the place the image is used, and turns text into URL slugs. */
module SeoFilename {
  import opened Common
  import opened TextOps

  // ---------------------------------------------------------------------
  // Extensions
  // ---------------------------------------------------------------------

  /** `s.lastIndexOf(c)`: -1 when `c` does not occur. */
  function LastIndex(s: string, c: char): (r: int)
    ensures -1 <= r < |s|
    ensures r == -1 ==> c !in s
    ensures r >= 0 ==> s[r] == c && c !in s[r + 1..]
  {
    if |s| == 0 then -1
    else if s[|s| - 1] == c then |s| - 1
    else LastIndex(s[..|s| - 1], c)
  }

  /** `filename.replace(/\.[^.]+$/, '')`: drops a final dot and the non-empty,
      dot-free text after it; a name ending in a dot is left alone. */
  function NameOnly(filename: string): (r: string)
    ensures |r| <= |filename| && r == filename[..|r|]
  {
    var i := LastIndex(filename, '.');
    if 0 <= i < |filename| - 1 then filename[..i] else filename
  }

  /** Only the last extension is stripped: `a.b.jpg` is analysed as `a.b`. */
  lemma NameOnlyStripsLastExtension(base: string, ext: string)
    requires |ext| > 0 && '.' !in ext
    ensures NameOnly(base + "." + ext) == base
  {
    var f := base + "." + ext;
    assert f[|base|] == '.';
    assert f[|base| + 1..] == ext;
    assert f[..|base|] == base;
  }

  /** A name with no dot, or whose last dot is its final character, is
      analysed whole. */
  lemma NameOnlyKeepsUnextended(filename: string)
    requires '.' !in filename || filename[|filename| - 1] == '.'
    ensures NameOnly(filename) == filename
  {
  }

  /** The extension every suggestion ends with: the lower-cased text from the
      last dot when that dot is not the first character, otherwise `.jpg`. */
  function SuggestionExtension(filename: string): (r: string)
    ensures |r| >= 1 && r[0] == '.' && '.' !in r[1..]
    ensures forall i :: 0 <= i < |r| ==> !IsAsciiUpper(r[i])
  {
    var i := LastIndex(filename, '.');
    if i > 0 then
      assert filename[i..] == [filename[i]] + filename[i + 1..];
      Lower(filename[i..])
    else ".jpg"
  }

  lemma SuggestionExtensionOf(base: string, ext: string)
    requires |base| > 0 && '.' !in ext
    ensures SuggestionExtension(base + "." + ext) == "." + Lower(ext)
  {
    var f := base + "." + ext;
    assert f[|base|] == '.';
    assert f[|base| + 1..] == ext;
    assert f[|base|..] == "." + ext;
  }

  // ---------------------------------------------------------------------
  // BAD_PATTERNS, as character-level predicates
  // ---------------------------------------------------------------------

  /** The generic-name patterns, in the order the analyser tries them. */
  datatype BadPattern =
    | Img          // /^img[-_]?\d*/i
    | Image        // /^image[-_]?\d*/i
    | Photo        // /^photo[-_]?\d*/i
    | Picture      // /^picture[-_]?\d*/i
    | Screenshot   // /^screenshot[-_]?\d*/i
    | ScreenShot   // /^screen[-_]?shot/i
    | Dsc          // /^dsc[-_]?\d+/i
    | Dcim         // /^dcim[-_]?\d*/i
    | CameraP      // /^p\d{6,}/i
    | Sam          // /^sam[-_]?\d+/i
    | ImgDate      // /^img_\d{8}/i
    | LongNumber   // /^\d{8,}/
    | Hex          // /^[a-f0-9]{8,}$/i
    | Untitled     // /^untitled/i
    | NewFile      // /^new[-_]?file/i
    | CopyOf       // /^copy[-_]?of/i
    | Temp         // /^temp/i
    | Test         // /^test/i
    | File         // /^file[-_]?\d*/i
    | Numbers      // /^\d+[-_]?\d*$/
    | Code         // /^[a-z]{1,3}\d{3,}/i

  const BadPatterns: seq<BadPattern> := [
    Img, Image, Photo, Picture, Screenshot, ScreenShot, Dsc, Dcim, CameraP, Sam,
    ImgDate, LongNumber, Hex, Untitled, NewFile, CopyOf, Temp, Test, File, Numbers, Code
  ]

  predicate IsSep(c: char) { c == '-' || c == '_' }

  /** Position after an optional `[-_]` at `i`. Taking the separator whenever
      it is there is exact for these patterns, because the atom that follows
      never starts with `-` or `_`. */
  function SkipSep(s: string, i: nat): nat {
    if i < |s| && IsSep(s[i]) then i + 1 else i
  }

  /** `s[i..]` starts with the lower-case pattern `w`, ignoring ASCII case. */
  predicate WordAt(s: string, i: nat, w: string) {
    i <= |s| && StartsWithCI(s[i..], w)
  }

  /** `s[i..]` starts with `n` digits. */
  predicate DigitsAt(s: string, i: nat, n: nat) {
    i + n <= |s| && forall j :: i <= j < i + n ==> IsDigit(s[j])
  }

  /** Whether `pattern` tests true on `s`. An optional tail such as
      `[-_]?\d*` cannot make a match fail, so those patterns are prefix tests. */
  predicate Matches(pattern: BadPattern, s: string) {
    match pattern
    case Img => WordAt(s, 0, "img")
    case Image => WordAt(s, 0, "image")
    case Photo => WordAt(s, 0, "photo")
    case Picture => WordAt(s, 0, "picture")
    case Screenshot => WordAt(s, 0, "screenshot")
    case ScreenShot => WordAt(s, 0, "screen") && WordAt(s, SkipSep(s, 6), "shot")
    case Dsc => WordAt(s, 0, "dsc") && DigitsAt(s, SkipSep(s, 3), 1)
    case Dcim => WordAt(s, 0, "dcim")
    case CameraP => WordAt(s, 0, "p") && DigitsAt(s, 1, 6)
    case Sam => WordAt(s, 0, "sam") && DigitsAt(s, SkipSep(s, 3), 1)
    case ImgDate => WordAt(s, 0, "img_") && DigitsAt(s, 4, 8)
    case LongNumber => DigitsAt(s, 0, 8)
    case Hex => |s| >= 8 && All(s, IsHexDigitCI)
    case Untitled => WordAt(s, 0, "untitled")
    case NewFile => WordAt(s, 0, "new") && WordAt(s, SkipSep(s, 3), "file")
    case CopyOf => WordAt(s, 0, "copy") && WordAt(s, SkipSep(s, 4), "of")
    case Temp => WordAt(s, 0, "temp")
    case Test => WordAt(s, 0, "test")
    case File => WordAt(s, 0, "file")
    case Numbers =>
      var k := LeadRun(s, IsDigit);
      k >= 1 && (k == |s| || (IsSep(s[k]) && All(s[k + 1..], IsDigit)))
    case Code =>
      var k := LeadRun(s, IsAsciiLetter);
      1 <= k <= 3 && DigitsAt(s, k, 3)
  }

  /** Some bad pattern matches the name. */
  predicate IsGeneric(name: string) {
    exists i :: 0 <= i < |BadPatterns| && Matches(BadPatterns[i], name)
  }

  // ---------------------------------------------------------------------
  // The checks and their penalties
  // ---------------------------------------------------------------------

  const MinDescriptiveWords := 2
  const MinFilenameLength := 8

  /** The penalised checks, in the order the analyser runs them. */
  datatype Check = Generic | TooShort | FewWords | Spaces | Underscores | Uppercase | Special

  const Checks: seq<Check> := [Generic, TooShort, FewWords, Spaces, Underscores, Uppercase, Special]

  function Penalty(c: Check): nat {
    match c
    case Generic => 40
    case TooShort => 20
    case FewWords => 25
    case Spaces => 10
    case Underscores => 5
    case Uppercase => 5
    case Special => 15
  }

  /** An entry of the analysis' `issues`: a penalised check, or the keyword
      hint that costs nothing. */
  datatype IssueKind = Penalised(check: Check) | NoKeyword

  /** The message the analyser reports for an issue, word for word. */
  function Message(k: IssueKind): string {
    match k
    case Penalised(c) => Issue(c)
    case NoKeyword => KeywordIssue
  }

  function Issue(c: Check): string {
    match c
    case Generic => "Generic or auto-generated filename detected"
    case TooShort => "Filename is too short - add more descriptive words"
    case FewWords => "Use multiple descriptive words separated by hyphens"
    case Spaces => "Use hyphens (-) instead of spaces"
    case Underscores => "Consider using hyphens (-) instead of underscores for better SEO"
    case Uppercase => "Use lowercase letters for consistency"
    case Special => "Avoid special characters - use only letters, numbers, and hyphens"
  }

  const KeywordIssue := "Consider including relevant keywords (e.g., dental, smile, clinic, treatment)"

  const GoodKeywords: seq<string> :=
    ["dental", "dentist", "teeth", "smile", "clinic", "office", "patient", "doctor", "treatment", "service"]

  /** The word separators `[-_\s]`. */
  predicate IsWordSep(c: char) { c == '-' || c == '_' || IsJsSpace(c) }

  predicate NotWordOrHyphen(c: char) { !IsWordOrHyphen(c) }

  /** Number of pieces of `split(/[-_\s]+/)` longer than two characters. */
  function DescriptiveWordCount(name: string): nat {
    CountWhere(SplitRuns(name, IsWordSep), (w: string) => |w| > 2)
  }

  predicate HasGoodKeyword(name: string) {
    exists k :: k in GoodKeywords && Contains(Lower(name), k)
  }

  /** What the checks find in a name. */
  datatype Findings = Findings(
    generic: bool,
    tooShort: bool,
    fewWords: bool,
    spaces: bool,
    underscores: bool,
    uppercase: bool,
    special: bool,
    hasGoodKeyword: bool)

  function FindingsOf(name: string): Findings {
    Findings(
      IsGeneric(name),
      |name| < MinFilenameLength,
      DescriptiveWordCount(name) < MinDescriptiveWords,
      ' ' in name,
      '_' in name,
      name != Lower(name),
      Any(name, NotWordOrHyphen),
      HasGoodKeyword(name))
  }

  predicate Fires(c: Check, f: Findings) {
    match c
    case Generic => f.generic
    case TooShort => f.tooShort
    case FewWords => f.fewWords
    case Spaces => f.spaces
    case Underscores => f.underscores
    case Uppercase => f.uppercase
    case Special => f.special
  }

  /** The penalty a check costs: its weight when it fires, nothing otherwise. */
  function Charge(c: Check, f: Findings): nat {
    if Fires(c, f) then Penalty(c) else 0
  }

  /** The issue a check reports: its message when it fires, nothing otherwise. */
  function Report(c: Check, f: Findings): seq<IssueKind> {
    if Fires(c, f) then [Penalised(c)] else []
  }

  /** The score before it is floored at 0: 100 less every fired penalty. */
  function RawScore(f: Findings): int {
    100 - (Charge(Generic, f) + Charge(TooShort, f) + Charge(FewWords, f) + Charge(Spaces, f)
           + Charge(Underscores, f) + Charge(Uppercase, f) + Charge(Special, f))
  }

  /** One issue per fired check, in the order the checks run. */
  function FiredIssues(f: Findings): seq<IssueKind> {
    Report(Generic, f) + Report(TooShort, f) + Report(FewWords, f) + Report(Spaces, f)
    + Report(Underscores, f) + Report(Uppercase, f) + Report(Special, f)
  }

  /** The keyword hint is given, without penalty, only while the score is above 50. */
  predicate KeywordHint(f: Findings) {
    !f.hasGoodKeyword && RawScore(f) > 50
  }

  function ExpectedIssues(f: Findings): seq<IssueKind> {
    FiredIssues(f) + (if KeywordHint(f) then [NoKeyword] else [])
  }

  // ---------------------------------------------------------------------
  // analyzeFilename
  // ---------------------------------------------------------------------

  /** The loop over the bad patterns: stops at the first that matches, so a
      name is penalised once however many patterns it matches. */
  method MatchesBadPattern(name: string) returns (found: bool)
    ensures found <==> IsGeneric(name)
  {
    found := false;
    var i := 0;
    while i < |BadPatterns|
      invariant 0 <= i <= |BadPatterns|
      invariant forall j :: 0 <= j < i ==> !Matches(BadPatterns[j], name)
    {
      if Matches(BadPatterns[i], name) {
        found := true;
        break;
      }
      i := i + 1;
    }
  }

  datatype Analysis = Analysis(isOptimized: bool, issues: seq<IssueKind>, score: int)

  /** The checks on what the name says: generic, too short, too few words. */
  method ContentChecks(name: string) returns (issues: seq<IssueKind>, score: int)
    ensures issues == Report(Generic, FindingsOf(name)) + Report(TooShort, FindingsOf(name))
      + Report(FewWords, FindingsOf(name))
    ensures score == 100 - Charge(Generic, FindingsOf(name)) - Charge(TooShort, FindingsOf(name))
      - Charge(FewWords, FindingsOf(name))
  {
    issues, score := [], 100;
    var generic := MatchesBadPattern(name);
    if generic {
      issues := issues + [Penalised(Generic)];
      score := score - 40;
    }
    if |name| < MinFilenameLength {
      issues := issues + [Penalised(TooShort)];
      score := score - 20;
    }
    if DescriptiveWordCount(name) < MinDescriptiveWords {
      issues := issues + [Penalised(FewWords)];
      score := score - 25;
    }
  }

  /** The checks on how the name is written, continuing `issues` and `score`. */
  method StyleChecks(name: string, issues0: seq<IssueKind>, score0: int) returns (issues: seq<IssueKind>, score: int)
    ensures issues == issues0 + Report(Spaces, FindingsOf(name)) + Report(Underscores, FindingsOf(name))
      + Report(Uppercase, FindingsOf(name)) + Report(Special, FindingsOf(name))
    ensures score == score0 - Charge(Spaces, FindingsOf(name)) - Charge(Underscores, FindingsOf(name))
      - Charge(Uppercase, FindingsOf(name)) - Charge(Special, FindingsOf(name))
  {
    ghost var f := FindingsOf(name);
    issues, score := issues0, score0;
    if ' ' in name {
      issues := issues + [Penalised(Spaces)];
      score := score - 10;
    }
    assert issues == issues0 + Report(Spaces, f);
    ghost var before := issues;
    if '_' in name {
      issues := issues + [Penalised(Underscores)];
      score := score - 5;
    }
    assert issues == before + Report(Underscores, f);
    before := issues;
    if name != Lower(name) {
      issues := issues + [Penalised(Uppercase)];
      score := score - 5;
    }
    assert issues == before + Report(Uppercase, f);
    before := issues;
    if Any(name, NotWordOrHyphen) {
      issues := issues + [Penalised(Special)];
      score := score - 15;
    }
    assert issues == before + Report(Special, f);
  }

  /** The penalised checks in source order: each that fires appends its
      issue and subtracts its penalty. */
  method RunChecks(name: string) returns (issues: seq<IssueKind>, score: int)
    ensures issues == FiredIssues(FindingsOf(name))
    ensures score == RawScore(FindingsOf(name))
  {
    issues, score := ContentChecks(name);
    issues, score := StyleChecks(name, issues, score);
  }

  /** The score is 100 minus the penalties of the checks that fire, floored
      at 0; the issues are one per fired check in order, then the keyword
      hint; the name is optimised when the score is at least 70 with at most
      one issue. */
  method AnalyzeFilename(filename: string) returns (r: Analysis)
    ensures var f := FindingsOf(NameOnly(filename));
      && r.score == (if RawScore(f) < 0 then 0 else RawScore(f))
      && r.issues == ExpectedIssues(f)
      && (r.isOptimized <==> RawScore(f) >= 70 && |r.issues| <= 1)
    ensures 0 <= r.score <= 100
  {
    var name := NameOnly(filename);
    var issues, score := RunChecks(name);
    var hasGoodKeyword := HasGoodKeyword(name);
    if !hasGoodKeyword && score > 50 {
      issues := issues + [NoKeyword];
    }
    r := Analysis(score >= 70 && |issues| <= 1, issues, if score < 0 then 0 else score);
  }

  /** The `issues` array as the analyser returns it: the message of each issue. */
  function Messages(issues: seq<IssueKind>): (r: seq<string>)
    ensures |r| == |issues|
    ensures forall i :: 0 <= i < |issues| ==> r[i] == Message(issues[i])
  {
    if |issues| == 0 then [] else [Message(issues[0])] + Messages(issues[1..])
  }

  /** The length of each message; the eight lengths differ. */
  function MessageLength(k: IssueKind): nat {
    match k
    case NoKeyword => 77
    case Penalised(c) =>
      match c
      case Generic => 43
      case TooShort => 50
      case FewWords => 51
      case Spaces => 33
      case Underscores => 64
      case Uppercase => 37
      case Special => 65
  }

  lemma MessageLengthOf(k: IssueKind)
    ensures |Message(k)| == MessageLength(k)
  {
    match k
    case NoKeyword =>
    case Penalised(c) =>
  }

  /** Different issues have different messages (the eight messages differ in
      length), so the messages identify the issues. */
  lemma MessageInjective(j: IssueKind, k: IssueKind)
    ensures Message(j) == Message(k) <==> j == k
  {
    MessageLengthOf(j);
    MessageLengthOf(k);
  }

  /** Number of occurrences of `x` in `s`. */
  function Occurrences(s: seq<IssueKind>, x: IssueKind): nat {
    if |s| == 0 then 0 else (if s[0] == x then 1 else 0) + Occurrences(s[1..], x)
  }

  lemma {:induction false} OccurrencesConcat(a: seq<IssueKind>, b: seq<IssueKind>, x: IssueKind)
    ensures Occurrences(a + b, x) == Occurrences(a, x) + Occurrences(b, x)
  {
    if |a| == 0 {
      assert a + b == b;
    } else {
      assert (a + b)[1..] == a[1..] + b;
      OccurrencesConcat(a[1..], b, x);
    }
  }

  lemma ReportOccurrences(c: Check, d: Check, f: Findings)
    ensures Occurrences(Report(d, f), Penalised(c)) == if c == d && Fires(c, f) then 1 else 0
  {
  }

  /** Every penalised check adds its issue exactly once when it fires and
      never otherwise; in particular the generic-name penalty is reported
      (and charged) at most once however many patterns match. */
  lemma {:induction false} IssueOncePerFiredCheck(f: Findings, c: Check)
    ensures Occurrences(ExpectedIssues(f), Penalised(c)) == (if Fires(c, f) then 1 else 0)
  {
    var g, t, w := Report(Generic, f), Report(TooShort, f), Report(FewWords, f);
    var sp, u, up, x := Report(Spaces, f), Report(Underscores, f), Report(Uppercase, f), Report(Special, f);
    var k: seq<IssueKind> := if KeywordHint(f) then [NoKeyword] else [];
    var y := Penalised(c);
    OccurrencesConcat(g + t + w + sp + u + up + x, k, y);
    OccurrencesConcat(g + t + w + sp + u + up, x, y);
    OccurrencesConcat(g + t + w + sp + u, up, y);
    OccurrencesConcat(g + t + w + sp, u, y);
    OccurrencesConcat(g + t + w, sp, y);
    OccurrencesConcat(g + t, w, y);
    OccurrencesConcat(g, t, y);
    ReportOccurrences(c, Generic, f);
    ReportOccurrences(c, TooShort, f);
    ReportOccurrences(c, FewWords, f);
    ReportOccurrences(c, Spaces, f);
    ReportOccurrences(c, Underscores, f);
    ReportOccurrences(c, Uppercase, f);
    ReportOccurrences(c, Special, f);
    assert Occurrences(k, y) == 0;
  }

  /** The keyword hint is the only issue without a penalty; it is present
      exactly when no good keyword occurs and the score is above 50. */
  lemma KeywordHintRule(f: Findings)
    ensures NoKeyword in ExpectedIssues(f) <==> !f.hasGoodKeyword && RawScore(f) > 50
  {
    assert NoKeyword !in FiredIssues(f);
  }

  /** The score never exceeds 100, and a name every check passes scores 100. */
  lemma ScoreBounds(f: Findings)
    ensures -20 <= RawScore(f) <= 100
    ensures RawScore(f) == 100 <==> forall c: Check :: !Fires(c, f)
  {
    if RawScore(f) == 100 {
      forall c: Check ensures !Fires(c, f) {
      }
    }
  }

  // ---------------------------------------------------------------------
  // slugify
  // ---------------------------------------------------------------------

  predicate IsSpaceOrUnderscore(c: char) { IsJsSpace(c) || c == '_' }

  predicate IsSlugChar(c: char) { IsAsciiLower(c) || IsDigit(c) || c == '-' }

  /** A URL slug: only `a-z0-9-`, no `--`, no hyphen at either end. */
  predicate IsSlug(s: string) {
    && All(s, IsSlugChar)
    && NoAdjacent(s, IsHyphen)
    && (|s| > 0 ==> s[0] != '-' && s[|s| - 1] != '-')
  }

  /** `slugify`: lower-case, trim, runs of whitespace and underscores to one
      hyphen, drop everything but `\w` and `-`, collapse hyphen runs, and
      strip leading and trailing hyphens. */
  function Slugify(text: string): string {
    var lowered := Lower(text);
    var trimmed := Trim(lowered);
    var hyphenated := ReplaceRuns(trimmed, IsSpaceOrUnderscore, "-");
    var cleaned := RemoveWhere(hyphenated, NotWordOrHyphen);
    var collapsed := ReplaceRuns(cleaned, IsHyphen, "-");
    TrimEndWhere(TrimStartWhere(collapsed, IsHyphen), IsHyphen)
  }

  predicate NoUpperNoUnderscore(c: char) { !IsAsciiUpper(c) && c != '_' }

  /** The output of `slugify` is always a slug. */
  lemma SlugifyIsSlug(text: string)
    ensures IsSlug(Slugify(text))
  {
    CleanedSlugChars(text);
    HyphenTrimIsSlug(RemoveWhere(ReplaceRuns(Trim(Lower(text)), IsSpaceOrUnderscore, "-"), NotWordOrHyphen));
  }

  /** After the first four steps of `slugify` only `a-z0-9-` is left. */
  lemma CleanedSlugChars(text: string)
    ensures All(RemoveWhere(ReplaceRuns(Trim(Lower(text)), IsSpaceOrUnderscore, "-"), NotWordOrHyphen), IsSlugChar)
  {
    var lowered := Lower(text);
    var trimmed := Trim(lowered);
    var hyphenated := ReplaceRuns(trimmed, IsSpaceOrUnderscore, "-");
    LowerHasNoUpper(text);
    var a := TrimStartWhere(lowered, IsJsSpace);
    AllSlice(lowered, NoUpper, LeadRun(lowered, IsJsSpace), |lowered|);
    AllSlice(a, NoUpper, 0, |a| - TrailRun(a, IsJsSpace));
    assert All(trimmed, NoUpper);
    ReplaceRunsChars(trimmed, IsSpaceOrUnderscore, "-", NoUpperNoUnderscore);
    RemoveWhereChars(hyphenated, NotWordOrHyphen, IsSlugChar);
  }

  /** Collapsing hyphen runs and stripping hyphens at both ends turns text
      over `a-z0-9-` into a slug. */
  lemma HyphenTrimIsSlug(cleaned: string)
    requires All(cleaned, IsSlugChar)
    ensures IsSlug(TrimEndWhere(TrimStartWhere(ReplaceRuns(cleaned, IsHyphen, "-"), IsHyphen), IsHyphen))
  {
    var collapsed := ReplaceRuns(cleaned, IsHyphen, "-");
    ReplaceRunsChars(cleaned, IsHyphen, "-", IsSlugChar);
    ReplaceRunsSingle(cleaned, IsHyphen, '-');
    HyphenTrimOfCollapsed(collapsed);
  }

  /** Stripping the edge hyphens of text over `a-z0-9-` without `--` gives a slug. */
  lemma HyphenTrimOfCollapsed(collapsed: string)
    requires All(collapsed, IsSlugChar) && NoAdjacent(collapsed, IsHyphen)
    ensures IsSlug(TrimEndWhere(TrimStartWhere(collapsed, IsHyphen), IsHyphen))
  {
    var front := TrimStartWhere(collapsed, IsHyphen);
    AllSlice(collapsed, IsSlugChar, LeadRun(collapsed, IsHyphen), |collapsed|);
    NoAdjacentSlice(collapsed, IsHyphen, LeadRun(collapsed, IsHyphen), |collapsed|);
    AllSlice(front, IsSlugChar, 0, |front| - TrailRun(front, IsHyphen));
    NoAdjacentSlice(front, IsHyphen, 0, |front| - TrailRun(front, IsHyphen));
    TrimWhereEnds(collapsed, IsHyphen);
  }

  /** `slugify` leaves a slug unchanged. */
  lemma SlugifyFixesSlug(s: string)
    requires IsSlug(s)
    ensures Slugify(s) == s
  {
    LowerIdentity(s);
    SlugCharsAvoid(s);
    TrimWhereIdentity(s, IsJsSpace);
    var trimmed := Trim(Lower(s));
    assert trimmed == s;
    ReplaceRunsIdentityNone(s, IsSpaceOrUnderscore, "-");
    var hyphenated := ReplaceRuns(trimmed, IsSpaceOrUnderscore, "-");
    assert hyphenated == s;
    RemoveWhereIdentity(s, NotWordOrHyphen);
    var cleaned := RemoveWhere(hyphenated, NotWordOrHyphen);
    assert cleaned == s;
    ReplaceRunsIdentitySingle(s, IsHyphen, '-');
    var collapsed := ReplaceRuns(cleaned, IsHyphen, "-");
    assert collapsed == s;
    TrimWhereIdentity(s, IsHyphen);
  }

  /** No character of a slug is whitespace, an underscore or outside `\w`
      and `-`. */
  lemma SlugCharsAvoid(s: string)
    requires All(s, IsSlugChar)
    ensures !Any(s, IsJsSpace) && !Any(s, IsSpaceOrUnderscore) && !Any(s, NotWordOrHyphen)
  {
    forall i | 0 <= i < |s|
      ensures !IsJsSpace(s[i]) && !IsSpaceOrUnderscore(s[i]) && !NotWordOrHyphen(s[i])
    {
      assert IsSlugChar(s[i]);
    }
  }

  /** `slugify` is idempotent. */
  lemma SlugifyIdempotent(text: string)
    ensures Slugify(Slugify(text)) == Slugify(text)
  {
    SlugifyIsSlug(text);
    SlugifyFixesSlug(Slugify(text));
  }

  // ---------------------------------------------------------------------
  // generateSuggestion
  // ---------------------------------------------------------------------

  /** Where the image is used. `None` is an absent property; every field but
      `businessName` is tested for truthiness, `businessName` only defaults
      to `dentalogix` when it is absent. */
  datatype Context = Context(
    fieldType: Text,
    pageName: Text,
    serviceName: Text,
    postTitle: Text,
    teamMember: Text,
    businessName: Text)

  const DefaultBusinessName := "dentalogix"

  /** `${prefix}${ext}` for each prefix. */
  function WithExt(prefixes: seq<string>, ext: string): (r: seq<string>)
    ensures |r| == |prefixes|
    ensures forall i :: 0 <= i < |r| ==> r[i] == prefixes[i] + ext
  {
    if |prefixes| == 0 then [] else [prefixes[0] + ext] + WithExt(prefixes[1..], ext)
  }

  /** The name stems the switch on `fieldType` pushes, before the fallback. */
  function FieldStems(ctx: Context, business: string): seq<string> {
    if !Present(ctx.fieldType) then []
    else
      var f := ctx.fieldType.value;
      if f == "hero_image" then
        ["" + business + "-hero-banner", "dental-office-welcome-hero"]
        + (if Present(ctx.pageName) then [Slugify(ctx.pageName.value) + "-page-hero"] else [])
      else if f == "featured_image" then
        (if Present(ctx.postTitle) then [Slugify(ctx.postTitle.value)] else [])
        + ["dental-blog-featured-image"]
      else if f == "image" || f == "service_image" then
        (if Present(ctx.serviceName) then
           [Slugify(ctx.serviceName.value) + "-dental-service",
            business + "-" + Slugify(ctx.serviceName.value)]
         else [])
        + ["dental-treatment-procedure"]
      else if f == "photo" || f == "team_photo" then
        (if Present(ctx.teamMember) then
           ["dr-" + Slugify(ctx.teamMember.value) + "-dentist-portrait",
            Slugify(ctx.teamMember.value) + "-dental-team"]
         else [])
        + ["dental-team-member-portrait"]
      else if f == "patient_photo" then
        ["patient-smile-testimonial", "dental-patient-review"]
      else if f == "site_logo" then
        [business + "-dental-logo"]
      else if f == "favicon" then
        [business + "-favicon"]
      else if f == "about_image" || f == "about_image_main" then
        [business + "-dental-office", "about-our-dental-practice"]
      else if f == "logo" then
        ["insurance-provider-logo", "dental-insurance-accepted"]
      else
        [business + "-dental-image"]
  }

  /** SEO-friendly names for the image: at least one and at most three, all
      ending in the same extension; the two generic fallbacks when no truthy
      `fieldType` is given. */
  function GenerateSuggestion(originalFilename: string, ctx: Context): (r: seq<string>)
    ensures 1 <= |r| <= 3
    ensures forall i :: 0 <= i < |r| ==> EndsWith(r[i], SuggestionExtension(originalFilename))
    ensures !Present(ctx.fieldType) ==>
      r == [ctx.businessName.GetOr(DefaultBusinessName) + "-dental-practice" + SuggestionExtension(originalFilename),
            "professional-dental-care" + SuggestionExtension(originalFilename)]
  {
    var ext := SuggestionExtension(originalFilename);
    var business := ctx.businessName.GetOr(DefaultBusinessName);
    var stems := FieldStems(ctx, business);
    var suggestions := WithExt(stems, ext);
    if |suggestions| == 0 then
      WithExt([business + "-dental-practice", "professional-dental-care"], ext)
    else suggestions
  }

  // ---------------------------------------------------------------------
  // createWarningMessage
  // ---------------------------------------------------------------------

  datatype WarningMessage = WarningMessage(
    kind: string,
    title: string,
    message: string,
    issues: seq<string>,
    suggestion: string,
    tips: seq<string>)

  const SuggestionBullet := "\n    - "
  const SuggestionIntro := "For better SEO, rename your file before uploading. Examples:" + SuggestionBullet

  const Tips: seq<string> := [
    "Use descriptive words that describe the image content",
    "Separate words with hyphens (not underscores or spaces)",
    "Include relevant keywords like \"dental\", \"smile\", or service names",
    "Keep filenames lowercase",
    "Avoid generic names like \"image1\" or \"photo\""
  ]

  /** The upload warning: it carries the analysis' issue messages unchanged,
      names the file, and lists each of the first three suggestions (or all,
      when there are fewer) after the introductory sentence. */
  function CreateWarningMessage(filename: string, analysis: Analysis, suggestions: seq<string>): (w: WarningMessage)
    ensures w.kind == "seo_warning" && w.issues == Messages(analysis.issues) && w.tips == Tips
    ensures Contains(w.message, filename)
    ensures StartsWith(w.suggestion, SuggestionIntro)
    ensures forall i :: 0 <= i < |suggestions| && i < 3 ==> Contains(w.suggestion, suggestions[i])
  {
    var shown := suggestions[..if |suggestions| < 3 then |suggestions| else 3];
    var list := Join(shown, SuggestionBullet);
    var message := "The uploaded file \"" + filename + "\" may not be optimal for search engines.";
    ContainsInfix("The uploaded file \"", filename, "\" may not be optimal for search engines.");
    assert forall i :: 0 <= i < |suggestions| && i < 3 ==> Contains(SuggestionIntro + list + "", suggestions[i]) by {
      forall i | 0 <= i < |suggestions| && i < 3
        ensures Contains(SuggestionIntro + list + "", suggestions[i])
      {
        assert shown[i] == suggestions[i];
        JoinContains(shown, SuggestionBullet, i);
        ContainsWiden(list, suggestions[i], SuggestionIntro, "");
      }
    }
    assert SuggestionIntro + list + "" == SuggestionIntro + list;
    assert (SuggestionIntro + list)[..|SuggestionIntro|] == SuggestionIntro;
    WarningMessage(
      "seo_warning",
      "Image Filename Not SEO-Optimized",
      message,
      Messages(analysis.issues),
      SuggestionIntro + list,
      Tips)
  }

  /** The warning an upload gets names every suggestion generated for the
      file (there are never more than three) and one message per issue
      found, in the order the checks found them. */
  lemma WarningShowsEverySuggestion(filename: string, analysis: Analysis, ctx: Context)
    ensures var w := CreateWarningMessage(filename, analysis, GenerateSuggestion(filename, ctx));
      && |w.issues| == |analysis.issues|
      && (forall i :: 0 <= i < |analysis.issues| ==> w.issues[i] == Message(analysis.issues[i]))
      && forall i :: 0 <= i < |GenerateSuggestion(filename, ctx)| ==> Contains(w.suggestion, GenerateSuggestion(filename, ctx)[i])
  {
  }
}
