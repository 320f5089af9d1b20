/**
 * The portfolio project document of backend/src/models/Project.js: the slug
 * derived from the title, the generated short description and SEO fields,
 * the URL validators and the view, like and click counters. Every counter
 * method ends in `save()`, which runs the pre-save hook again.
 */
module ProjectModel {
  import opened Text

  const SHORT_DESCRIPTION_LENGTH := 150
  const SHORT_DESCRIPTION_MAX := 200
  const SEO_DESCRIPTION_LENGTH := 160
  const ELLIPSIS := "..."
  const SEO_TITLE_SUFFIX := " - Jeevan Dangi Portfolio"
  const GITHUB_PREFIX := "https://github.com/"
  const HTTP_PREFIX := "http://"
  const HTTPS_PREFIX := "https://"

  // ---------------------------------------------------------------- the slug

  /** `[^a-z0-9]` */
  predicate NotSlugAlnum(c: char) {
    !IsSlugAlnum(c)
  }

  /** A slug as the hook leaves it: `[a-z0-9-]*`, no "--", no hyphen at either end. */
  predicate IsCleanSlug(s: string) {
    (forall i | 0 <= i < |s| :: IsSlugChar(s[i]))
    && NoDouble(s, '-')
    && (s == [] || (s[0] != '-' && s[|s| - 1] != '-'))
  }

  /** `.replace(/(^-|-$)/g, '')`: one leading and then one trailing hyphen are removed. */
  function StripEdgeHyphens(s: string): (r: string)
    ensures |r| + (if s != [] && s[0] == '-' then 1 else 0) <= |s|
    ensures forall i | 0 <= i < |r| :: r[i] == s[i + (if s != [] && s[0] == '-' then 1 else 0)]
    ensures NoDouble(s, '-') ==> r == [] || (r[0] != '-' && r[|r| - 1] != '-')
    ensures s == [] || (s[0] != '-' && s[|s| - 1] != '-') ==> r == s
  {
    var rest := if s != [] && s[0] == '-' then s[1..] else s;
    if rest != [] && rest[|rest| - 1] == '-' then rest[..|rest| - 1] else rest
  }

  /** The chain after `toLowerCase`: runs outside `[a-z0-9]` become '-', then the edge hyphens go. */
  function ProjectSlugChain(lower: string): (slug: string)
    ensures IsCleanSlug(slug)
  {
    var dashed := ReplaceRuns(lower, NotSlugAlnum, '-');
    DashedIsSlugShaped(lower);
    StripKeepsClean(dashed);
    StripEdgeHyphens(dashed)
  }

  /** The run replacement leaves only slug characters and no doubled hyphen. */
  lemma DashedIsSlugShaped(lower: string)
    ensures var dashed := ReplaceRuns(lower, NotSlugAlnum, '-');
      (forall i | 0 <= i < |dashed| :: IsSlugChar(dashed[i])) && NoDouble(dashed, '-')
  {
    var dashed := ReplaceRuns(lower, NotSlugAlnum, '-');
    assert NotSlugAlnum('-');
    assert forall i | 0 <= i < |dashed| :: IsSlugChar(dashed[i]);
  }

  /** Removing the edge hyphens of slug characters without "--" leaves a clean slug. */
  lemma StripKeepsClean(dashed: string)
    requires forall i | 0 <= i < |dashed| :: IsSlugChar(dashed[i])
    requires NoDouble(dashed, '-')
    ensures IsCleanSlug(StripEdgeHyphens(dashed))
  {
    var slug := StripEdgeHyphens(dashed);
    var k := if dashed != [] && dashed[0] == '-' then 1 else 0;
    forall i | 0 <= i < |slug| ensures IsSlugChar(slug[i]) {
      assert slug[i] == dashed[i + k];
    }
    forall i | 0 <= i < |slug| - 1 ensures !(slug[i] == '-' && slug[i + 1] == '-') {
      assert slug[i] == dashed[i + k] && slug[i + 1] == dashed[i + 1 + k];
    }
  }

  /** The slug the hook derives from a title. */
  function ProjectSlug(title: string): (slug: string)
    ensures IsCleanSlug(slug)
    ensures slug == ProjectSlugChain(ToLower(title))
  {
    ProjectSlugChain(ToLower(title))
  }

  /** A clean slug has no capitals, so lower-casing it changes nothing. */
  lemma CleanSlugIsLower(s: string)
    requires IsCleanSlug(s)
    ensures ToLower(s) == s
  {
    assert forall i | 0 <= i < |s| :: !IsAsciiUpper(s[i]) && s[i] != '\U{212A}' && s[i] != '\U{0130}';
    ToLowerOfLower(s);
  }

  /** A clean slug is its own slug: the derivation is idempotent. */
  lemma {:induction false} ProjectSlugIdempotent(s: string)
    requires IsCleanSlug(s)
    ensures ProjectSlug(s) == s
  {
    CleanSlugIsLower(s);
    ReplaceRunsFixpoint(s, NotSlugAlnum, '-');
    assert ProjectSlugChain(s) == StripEdgeHyphens(s);
  }

  /** Deriving the slug twice gives the slug once. */
  lemma ProjectSlugTwice(title: string)
    ensures ProjectSlug(ProjectSlug(title)) == ProjectSlug(title)
  {
    ProjectSlugIdempotent(ProjectSlug(title));
  }

  /** The slug path's `lowercase` setter stores a derived slug unchanged. */
  lemma DerivedSlugStoredAsIs(title: string)
    ensures ToLower(ProjectSlug(title)) == ProjectSlug(title)
  {
    CleanSlugIsLower(ProjectSlug(title));
  }

  /** A title without a letter or digit once lower-cased, such as "-" or "!!", yields the empty slug. */
  lemma {:induction false} NoAlnumTitleSlug(title: string)
    requires forall i | 0 <= i < |ToLower(title)| :: NotSlugAlnum(ToLower(title)[i])
    ensures ProjectSlug(title) == ""
  {
    var lower := ToLower(title);
    if lower != [] {
      assert SkipRun(lower, NotSlugAlnum) == [];
      assert ReplaceRuns(lower, NotSlugAlnum, '-') == "-";
    }
  }

  // ------------------------------------------------------------ validation

  /** The `githubUrl` validator: absent, or starting with `https://github.com/`. */
  predicate GithubUrlValid(v: string) {
    v == [] || StartsWith(v, GITHUB_PREFIX)
  }

  /** The `liveUrl` validator, `/^https?:\/\//`: absent, or starting with `http://` or `https://`. */
  predicate LiveUrlValid(v: string) {
    v == [] || StartsWith(v, HTTP_PREFIX) || StartsWith(v, HTTPS_PREFIX)
  }

  /** Every URL the GitHub validator accepts the live-URL validator accepts too, but not conversely. */
  lemma GithubUrlIsLiveUrl(v: string)
    ensures GithubUrlValid(v) ==> LiveUrlValid(v)
    ensures LiveUrlValid("http://github.com/") && !GithubUrlValid("http://github.com/")
  {
    if v != [] && StartsWith(v, GITHUB_PREFIX) {
      assert v[..|HTTPS_PREFIX|] == GITHUB_PREFIX[..|HTTPS_PREFIX|];
    }
    assert "http://github.com/"[..|HTTP_PREFIX|] == HTTP_PREFIX;
    assert "http://github.com/"[4] != GITHUB_PREFIX[4];
  }

  // ------------------------------------------------------------- the record

  datatype Clicks = Clicks(github: nat, live: nat, demo: nat)

  datatype Seo = Seo(title: string, description: string)

  /** The fields of a project the hook, the validators and the counters use; "" is an absent string. */
  datatype ProjectRecord = ProjectRecord(
    title: string, slug: string, description: string, shortDescription: string,
    githubUrl: string, liveUrl: string, views: nat, likes: nat, clicks: Clicks, seo: Seo)

  /** The paths of the modelled fields whose validators fail, in schema order. */
  function ValidationErrors(r: ProjectRecord): (errors: seq<string>)
    ensures errors == [] <==>
      r.title != [] && r.description != [] && |r.shortDescription| <= SHORT_DESCRIPTION_MAX
      && GithubUrlValid(r.githubUrl) && LiveUrlValid(r.liveUrl)
    ensures !GithubUrlValid(r.githubUrl) ==> "githubUrl" in errors
    ensures !LiveUrlValid(r.liveUrl) ==> "liveUrl" in errors
  {
    (if r.title != [] then [] else ["title"])
    + (if r.description != [] then [] else ["description"])
    + (if |r.shortDescription| <= SHORT_DESCRIPTION_MAX then [] else ["shortDescription"])
    + (if GithubUrlValid(r.githubUrl) then [] else ["githubUrl"])
    + (if LiveUrlValid(r.liveUrl) then [] else ["liveUrl"])
  }

  // --------------------------------------------------------------- the hook

  /** The hook's first step: a new document, or one whose title changed, takes the title's slug. */
  function SlugStep(r: ProjectRecord, regenerate: bool): (s: ProjectRecord)
    ensures regenerate && r.title != [] ==> s == r.(slug := ProjectSlug(r.title))
    ensures !regenerate || r.title == [] ==> s == r
  {
    if regenerate && r.title != [] then r.(slug := ProjectSlug(r.title)) else r
  }

  /** The hook's second step: a missing short description is the description cut to 150 plus "...". */
  function ShortDescriptionStep(r: ProjectRecord): (s: ProjectRecord)
    ensures r.shortDescription == [] && r.description != [] ==>
      s == r.(shortDescription := Prefix(r.description, SHORT_DESCRIPTION_LENGTH) + ELLIPSIS)
    ensures r.shortDescription != [] || r.description == [] ==> s == r
  {
    if r.shortDescription == [] && r.description != [] then
      r.(shortDescription := Prefix(r.description, SHORT_DESCRIPTION_LENGTH) + ELLIPSIS)
    else r
  }

  /** The hook's last step: missing SEO fields are derived from the title and the descriptions. */
  function SeoStep(r: ProjectRecord): (s: ProjectRecord)
    ensures s.seo.title == if r.seo.title == [] then r.title + SEO_TITLE_SUFFIX else r.seo.title
    ensures s.seo.description ==
      if r.seo.description != [] then r.seo.description
      else if r.shortDescription != [] then r.shortDescription
      else Prefix(r.description, SEO_DESCRIPTION_LENGTH)
    ensures s == r.(seo := s.seo)
  {
    var title := if r.seo.title == [] then r.title + SEO_TITLE_SUFFIX else r.seo.title;
    var description :=
      if r.seo.description != [] then r.seo.description
      else if r.shortDescription != [] then r.shortDescription
      else Prefix(r.description, SEO_DESCRIPTION_LENGTH);
    r.(seo := Seo(title, description))
  }

  /**
   * The record the pre-save hook leaves, for a document that is new or whose
   * title was modified as the flags say.
   */
  function ProjectSaved(r: ProjectRecord, isNew: bool, titleModified: bool): (s: ProjectRecord)
    ensures (isNew || titleModified) && r.title != [] ==> s.slug == ProjectSlug(r.title) && IsCleanSlug(s.slug)
    ensures !(isNew || titleModified) || r.title == [] ==> s.slug == r.slug
    ensures r.shortDescription != [] ==> s.shortDescription == r.shortDescription
    ensures r.shortDescription == [] && r.description != [] ==>
      s.shortDescription == Prefix(r.description, SHORT_DESCRIPTION_LENGTH) + ELLIPSIS
      && |s.shortDescription| <= SHORT_DESCRIPTION_LENGTH + |ELLIPSIS|
    ensures r.seo.title == [] ==> s.seo.title == r.title + SEO_TITLE_SUFFIX
    ensures r.seo.title != [] ==> s.seo.title == r.seo.title
    ensures r.seo.description == [] ==> s.seo.description == if s.shortDescription != [] then s.shortDescription
                                                            else Prefix(r.description, SEO_DESCRIPTION_LENGTH)
    ensures s.(slug := r.slug, shortDescription := r.shortDescription, seo := r.seo) == r
  {
    SeoStep(ShortDescriptionStep(SlugStep(r, isNew || titleModified)))
  }

  /** Saving a saved, unmodified document again changes nothing. */
  lemma {:induction false} SaveIdempotent(r: ProjectRecord, isNew: bool, titleModified: bool)
    ensures ProjectSaved(ProjectSaved(r, isNew, titleModified), false, false) == ProjectSaved(r, isNew, titleModified)
  {
    var s := ProjectSaved(r, isNew, titleModified);
    assert s.seo.title != [];
    assert ShortDescriptionStep(SlugStep(s, false)) == s;
    assert SeoStep(s) == s;
  }

  /** The hook keeps a document that passed validation valid: a generated short description is within 200. */
  lemma SaveKeepsValid(r: ProjectRecord, isNew: bool, titleModified: bool)
    requires ValidationErrors(r) == []
    ensures ValidationErrors(ProjectSaved(r, isNew, titleModified)) == []
  {
    var s := ProjectSaved(r, isNew, titleModified);
    assert s.title == r.title && s.description == r.description;
    assert s.githubUrl == r.githubUrl && s.liveUrl == r.liveUrl;
  }

  // ---------------------------------------------------------------- counters

  /** `incrementViews` on a record: one more view, then the hook of an unmodified save. */
  function ViewCounted(r: ProjectRecord): (s: ProjectRecord)
    ensures s.views == r.views + 1
    ensures s.likes == r.likes && s.clicks == r.clicks && s.title == r.title && s.description == r.description
  {
    ProjectSaved(r.(views := r.views + 1), false, false)
  }

  /** `incrementLikes` on a record. */
  function LikeCounted(r: ProjectRecord): (s: ProjectRecord)
    ensures s.likes == r.likes + 1
    ensures s.views == r.views && s.clicks == r.clicks && s.title == r.title && s.description == r.description
  {
    ProjectSaved(r.(likes := r.likes + 1), false, false)
  }

  /** The click counters `clicks[type]` finds: the three declared in the schema. */
  predicate IsClickKind(kind: string) {
    kind == "github" || kind == "live" || kind == "demo"
  }

  /** The counters after one click of `kind`. */
  function ClickAdded(c: Clicks, kind: string): (d: Clicks)
    requires IsClickKind(kind)
    ensures kind == "github" ==> d == c.(github := c.github + 1)
    ensures kind == "live" ==> d == c.(live := c.live + 1)
    ensures kind == "demo" ==> d == c.(demo := c.demo + 1)
    ensures d.github + d.live + d.demo == c.github + c.live + c.demo + 1
  {
    match kind
    case "github" => c.(github := c.github + 1)
    case "live" => c.(live := c.live + 1)
    case _ => c.(demo := c.demo + 1)
  }

  /** `incrementClick` on a record: a known kind raises its counter and saves; any other kind changes nothing. */
  function ClickCounted(r: ProjectRecord, kind: string): (s: ProjectRecord)
    ensures IsClickKind(kind) ==> s.clicks == ClickAdded(r.clicks, kind) && s.views == r.views && s.likes == r.likes
    ensures !IsClickKind(kind) ==> s == r
  {
    if IsClickKind(kind) then ProjectSaved(r.(clicks := ClickAdded(r.clicks, kind)), false, false) else r
  }

  /** On a saved document a counter changes only its own field. */
  lemma CountersTouchOnlyTheirField(r: ProjectRecord, isNew: bool, titleModified: bool, kind: string)
    ensures var s := ProjectSaved(r, isNew, titleModified);
      ViewCounted(s) == s.(views := s.views + 1) && LikeCounted(s) == s.(likes := s.likes + 1)
      && (IsClickKind(kind) ==> ClickCounted(s, kind) == s.(clicks := ClickAdded(s.clicks, kind)))
  {
    var s := ProjectSaved(r, isNew, titleModified);
    SaveIdempotent(r, isNew, titleModified);
    assert ProjectSaved(s.(views := s.views + 1), false, false) == s.(views := s.views + 1);
    assert ProjectSaved(s.(likes := s.likes + 1), false, false) == s.(likes := s.likes + 1);
    if IsClickKind(kind) {
      assert ProjectSaved(s.(clicks := ClickAdded(s.clicks, kind)), false, false) == s.(clicks := ClickAdded(s.clicks, kind));
    }
  }

  // ------------------------------------------------------------ the document

  /** A loaded project; its methods change its fields and run the save hook. */
  class Project {
    var title: string
    var slug: string
    var description: string
    var shortDescription: string
    var githubUrl: string
    var liveUrl: string
    var views: nat
    var likes: nat
    var clicks: Clicks
    var seo: Seo

    function Record(): ProjectRecord
      reads this
    {
      ProjectRecord(title, slug, description, shortDescription, githubUrl, liveUrl, views, likes, clicks, seo)
    }

    constructor (r: ProjectRecord)
      ensures Record() == r
    {
      title, slug, description, shortDescription := r.title, r.slug, r.description, r.shortDescription;
      githubUrl, liveUrl := r.githubUrl, r.liveUrl;
      views, likes, clicks, seo := r.views, r.likes, r.clicks, r.seo;
    }

    /** The pre-save hook: its three steps in order. */
    method PreSave(isNew: bool, titleModified: bool)
      modifies this
      ensures Record() == ProjectSaved(old(Record()), isNew, titleModified)
    {
      GenerateSlug(isNew || titleModified);
      FillShortDescription();
      FillSeo();
    }

    method GenerateSlug(regenerate: bool)
      modifies this
      ensures Record() == SlugStep(old(Record()), regenerate)
    {
      if regenerate && title != [] {
        slug := ProjectSlug(title);
      }
    }

    method FillShortDescription()
      modifies this
      ensures Record() == ShortDescriptionStep(old(Record()))
    {
      if shortDescription == [] && description != [] {
        shortDescription := Prefix(description, SHORT_DESCRIPTION_LENGTH) + ELLIPSIS;
      }
    }

    method FillSeo()
      modifies this
      ensures Record() == SeoStep(old(Record()))
    {
      if seo.title == [] {
        seo := seo.(title := title + SEO_TITLE_SUFFIX);
      }
      if seo.description == [] {
        seo := seo.(description := if shortDescription != [] then shortDescription
                                   else Prefix(description, SEO_DESCRIPTION_LENGTH));
      }
    }

    /** `incrementViews` */
    method IncrementViews()
      modifies this
      ensures Record() == ViewCounted(old(Record()))
    {
      views := views + 1;
      PreSave(false, false);
    }

    /** `incrementLikes` */
    method IncrementLikes()
      modifies this
      ensures Record() == LikeCounted(old(Record()))
    {
      likes := likes + 1;
      PreSave(false, false);
    }

    /** `incrementClick`: `saved` tells whether the document was saved. */
    method IncrementClick(kind: string) returns (saved: bool)
      modifies this
      ensures saved <==> IsClickKind(kind)
      ensures Record() == ClickCounted(old(Record()), kind)
    {
      if IsClickKind(kind) {
        clicks := ClickAdded(clicks, kind);
        PreSave(false, false);
        return true;
      }
      return false;
    }
  }
}
