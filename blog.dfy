/**
 * The blog post document of backend/src/models/Blog.js: the slug generated
 * from the title, the read-time estimate, the first-publication date, the
 * generated meta fields and the counters. Every instance method ends in
 * `save()`, which runs the pre-save hook again.
 */
module BlogModel {
  import opened Wrappers
  import opened Text

  const BLOG_CATEGORIES: seq<string> := ["Web Development", "JavaScript", "React", "Node.js", "Tutorial", "Tips & Tricks", "Career", "Technology"]
  const DEFAULT_CATEGORY := "Web Development"
  const WORDS_PER_MINUTE := 200
  const META_TITLE_LENGTH := 60
  const META_DESCRIPTION_LENGTH := 160
  const TITLE_MAX := 200
  const EXCERPT_MAX := 500
  const DEFAULT_READ_TIME := 5

  // ---------------------------------------------------------------- the slug

  /** The characters `/[^a-z0-9\s-]/g` does not remove. */
  predicate KeptBySlugFilter(c: char) {
    IsSlugAlnum(c) || IsSpace(c) || c == '-'
  }

  predicate IsHyphen(c: char) {
    c == '-'
  }

  /**
   * The title-to-slug chain of the hook: lower-case, drop characters outside
   * `[a-z0-9\s-]`, turn white-space runs into '-', collapse hyphen runs, then
   * `.trim('-')`, which ignores its argument and trims white space only.
   */
  function BlogSlug(title: string): (slug: string)
    ensures forall i | 0 <= i < |slug| :: IsSlugChar(slug[i])
    ensures NoDouble(slug, '-')
    ensures slug == SlugChain(ToLower(title))
  {
    var collapsed := SlugChain(ToLower(title));
    SlugCharsNoSpace(collapsed);
    TrimNoSpace(collapsed);
    Trim(collapsed)
  }

  /** The chain between `toLowerCase` and the final `trim`. */
  function SlugChain(lower: string): (collapsed: string)
    ensures forall i | 0 <= i < |collapsed| :: IsSlugChar(collapsed[i])
    ensures NoDouble(collapsed, '-')
  {
    var kept := Keep(lower, KeptBySlugFilter);
    var dashed := ReplaceRuns(kept, IsSpace, '-');
    DashedSlugChars(kept, dashed);
    var collapsed := ReplaceRuns(dashed, IsHyphen, '-');
    DashedSlugChars(dashed, collapsed);
    collapsed
  }

  /** A run replacement by '-' keeps a string within the slug characters plus white space. */
  lemma DashedSlugChars(before: string, after: string)
    requires forall i | 0 <= i < |before| :: KeptBySlugFilter(before[i])
    requires forall i | 0 <= i < |after| :: after[i] == '-' || (after[i] in before && !IsSpace(after[i]))
    ensures forall i | 0 <= i < |after| :: IsSlugChar(after[i])
  {
    forall i | 0 <= i < |after| ensures IsSlugChar(after[i]) {
      if after[i] != '-' {
        var j :| 0 <= j < |before| && before[j] == after[i];
      }
    }
  }

  /** A slug with no doubled hyphen is its own slug: the chain is idempotent. */
  lemma {:induction false} BlogSlugIdempotent(s: string)
    requires forall i | 0 <= i < |s| :: IsSlugChar(s[i])
    requires NoDouble(s, '-')
    ensures SlugChain(s) == s
    ensures BlogSlug(s) == s
  {
    assert forall i | 0 <= i < |s| :: !IsAsciiUpper(s[i]) && s[i] != '\U{212A}' && s[i] != '\U{0130}';
    ToLowerOfLower(s);
    assert BlogSlug(s) == SlugChain(s);
    assert forall i | 0 <= i < |s| :: KeptBySlugFilter(s[i]);
    assert Keep(s, KeptBySlugFilter) == s;
    SlugCharsNoSpace(s);
    ReplaceRunsNone(s, IsSpace, '-');
    ReplaceRunsFixpoint(s, IsHyphen, '-');
  }

  /**
   * Hyphens at the ends survive: `.trim('-')` leaves them, so a title
   * '-word-' keeps both edge hyphens in its slug.
   */
  lemma {:induction false} EdgeHyphensSurvive(word: string)
    requires word != [] && forall i | 0 <= i < |word| :: IsSlugAlnum(word[i])
    ensures BlogSlug("-" + word + "-") == "-" + word + "-"
  {
    var s := "-" + word + "-";
    forall i | 0 <= i < |s| ensures IsSlugChar(s[i]) {
      if 0 < i < |s| - 1 {
        assert s[i] == word[i - 1];
      }
    }
    forall i | 0 <= i < |s| - 1 ensures !(s[i] == '-' && s[i + 1] == '-') {
      if i == 0 {
        assert s[1] == word[0];
      } else {
        assert s[i] == word[i - 1];
      }
    }
    BlogSlugIdempotent(s);
  }

  lemma SlugCharNotSpace(c: char)
    requires IsSlugChar(c)
    ensures !IsSpace(c)
  {
  }

  lemma SlugCharsNoSpace(s: string)
    requires forall i | 0 <= i < |s| :: IsSlugChar(s[i])
    ensures NoSpace(s)
  {
    forall i | 0 <= i < |s| ensures !IsSpace(s[i]) {
      SlugCharNotSpace(s[i]);
    }
  }

  /** The slug path's setters, `lowercase` and `trim`, applied on assignment. */
  function SlugSetter(v: string): string {
    Trim(ToLower(v))
  }

  /** A generated slug is stored exactly as generated. */
  lemma GeneratedSlugStoredAsIs(title: string)
    ensures SlugSetter(BlogSlug(title)) == BlogSlug(title)
  {
    var slug := BlogSlug(title);
    assert forall i | 0 <= i < |slug| :: !IsAsciiUpper(slug[i]) && slug[i] != '\U{212A}' && slug[i] != '\U{0130}';
    ToLowerOfLower(slug);
    SlugCharsNoSpace(slug);
    TrimNoSpace(slug);
  }

  // --------------------------------------------------------------- read time

  /** The number of white-space runs in `s`. */
  function SpaceRuns(s: string): nat
    decreases |s|
  {
    if s == [] then 0
    else if IsSpace(s[0]) then 1 + SpaceRuns(SkipRun(s, IsSpace))
    else SpaceRuns(s[1..])
  }

  /** `content.split(/\s+/).length`: one piece more than there are white-space runs. */
  function Pieces(content: string): nat {
    SpaceRuns(content) + 1
  }

  /** `Math.max(1, Math.ceil(pieces / 200))` */
  function ReadTime(pieces: nat): (minutes: nat)
    ensures minutes >= 1
    ensures pieces >= 1 ==> minutes * WORDS_PER_MINUTE >= pieces && (minutes - 1) * WORDS_PER_MINUTE < pieces
  {
    var ceiling := (pieces + WORDS_PER_MINUTE - 1) / WORDS_PER_MINUTE;
    if ceiling < 1 then 1 else ceiling
  }

  /** Content is one piece exactly when it holds no white space; any white space makes two pieces at least. */
  lemma {:induction false} OnePieceIffNoSpace(s: string)
    ensures Pieces(s) == 1 <==> NoSpace(s)
    decreases |s|
  {
    if NoSpace(s) {
      NoSpaceHasNoRuns(s);
    } else if !IsSpace(s[0]) {
      assert !NoSpace(s[1..]) by {
        var i :| 0 <= i < |s| && IsSpace(s[i]);
        assert s[1..][i - 1] == s[i];
      }
      OnePieceIffNoSpace(s[1..]);
    }
  }

  lemma {:induction false} NoSpaceHasNoRuns(s: string)
    requires NoSpace(s)
    ensures SpaceRuns(s) == 0
  {
    if s != [] {
      NoSpaceHasNoRuns(s[1..]);
    }
  }

  // ------------------------------------------------------------- the record

  datatype BlogRecord = BlogRecord(
    title: string, slug: string, excerpt: string, content: string, category: string,
    isPublished: bool, isFeatured: bool, views: nat, likes: nat, readTime: nat,
    publishedAt: Option<nat>, metaTitle: string, metaDescription: string, totalViews: nat)

  /** A meta field generated from `source`: its first `n` characters, through the `trim` setter. */
  function MetaPrefix(source: string, n: nat): (m: string)
    ensures |m| <= n && |m| <= |source|
    ensures source == [] || !IsSpace(source[0]) ==> m == source[..|m|]
  {
    var p := Prefix(source, n);
    if p == [] || !IsSpace(p[0]) then
      TrimWithoutLeadingSpace(p);
      Trim(p)
    else
      Trim(p)
  }

  /** The hook's first step: a missing slug is generated from a non-empty title. */
  function SlugStep(r: BlogRecord): (s: BlogRecord)
    ensures r.slug != [] || r.title == [] ==> s == r
    ensures r.slug == [] && r.title != [] ==> s == r.(slug := BlogSlug(r.title))
  {
    if r.slug == [] && r.title != [] then r.(slug := BlogSlug(r.title)) else r
  }

  /** The hook's second step: a published post without a date is stamped `now`. */
  function PublishStep(r: BlogRecord, now: nat): (s: BlogRecord)
    ensures s.isPublished ==> s.publishedAt.Some?
    ensures r.publishedAt.Some? || !r.isPublished ==> s == r
    ensures s == r.(publishedAt := s.publishedAt)
  {
    if r.isPublished && r.publishedAt.None? then r.(publishedAt := Some(now)) else r
  }

  /** The hook's third step: the read time follows non-empty content. */
  function ReadTimeStep(r: BlogRecord): (s: BlogRecord)
    ensures r.content != [] ==> s.readTime == ReadTime(Pieces(r.content)) && s.readTime >= 1
    ensures r.content == [] ==> s == r
    ensures s == r.(readTime := s.readTime)
  {
    if r.content != [] then r.(readTime := ReadTime(Pieces(r.content))) else r
  }

  /** The hook's last step: empty meta fields are cut from the title and the excerpt. */
  function MetaStep(r: BlogRecord): (s: BlogRecord)
    ensures s.metaTitle == if r.metaTitle == [] then MetaPrefix(r.title, META_TITLE_LENGTH) else r.metaTitle
    ensures s.metaDescription ==
      if r.metaDescription == [] then MetaPrefix(r.excerpt, META_DESCRIPTION_LENGTH) else r.metaDescription
    ensures s == r.(metaTitle := s.metaTitle, metaDescription := s.metaDescription)
  {
    var t := if r.metaTitle == [] then MetaPrefix(r.title, META_TITLE_LENGTH) else r.metaTitle;
    var d := if r.metaDescription == [] then MetaPrefix(r.excerpt, META_DESCRIPTION_LENGTH) else r.metaDescription;
    r.(metaTitle := t, metaDescription := d)
  }

  /**
   * The record the pre-save hook leaves at time `now`: its four steps in
   * order. The slug path's setters leave a generated slug as it is
   * (`GeneratedSlugStoredAsIs`), so the generated slug is stored directly.
   */
  function BlogSaved(r: BlogRecord, now: nat): (s: BlogRecord)
    ensures r.slug != [] ==> s.slug == r.slug
    ensures r.slug == [] && r.title != [] ==> s.slug == BlogSlug(r.title)
    ensures r.publishedAt.Some? ==> s.publishedAt == r.publishedAt
    ensures s.isPublished ==> s.publishedAt.Some?
    ensures !r.isPublished ==> s.publishedAt == r.publishedAt
    ensures r.content != [] ==> s.readTime == ReadTime(Pieces(r.content)) && s.readTime >= 1
    ensures r.content == [] ==> s.readTime == r.readTime
    ensures r.metaTitle == [] ==> s.metaTitle == MetaPrefix(r.title, META_TITLE_LENGTH)
    ensures r.metaTitle != [] ==> s.metaTitle == r.metaTitle
    ensures r.metaDescription == [] ==> s.metaDescription == MetaPrefix(r.excerpt, META_DESCRIPTION_LENGTH)
    ensures r.metaDescription != [] ==> s.metaDescription == r.metaDescription
    ensures s.(slug := r.slug, publishedAt := r.publishedAt, readTime := r.readTime,
               metaTitle := r.metaTitle, metaDescription := r.metaDescription) == r
  {
    MetaStep(ReadTimeStep(PublishStep(SlugStep(r), now)))
  }

  /** A generated meta title is a prefix of the title as stored (trimmed). */
  lemma MetaTitleIsPrefix(r: BlogRecord, now: nat)
    requires r.metaTitle == []
    requires r.title == [] || !IsSpace(r.title[0])
    ensures |BlogSaved(r, now).metaTitle| <= META_TITLE_LENGTH
    ensures BlogSaved(r, now).metaTitle == r.title[..|BlogSaved(r, now).metaTitle|]
  {
    var t := MetaPrefix(r.title, META_TITLE_LENGTH);
    assert BlogSaved(r, now).metaTitle == t;
  }

  /** A generated meta description is a prefix of the excerpt as stored (trimmed). */
  lemma MetaDescriptionIsPrefix(r: BlogRecord, now: nat)
    requires r.metaDescription == []
    requires r.excerpt == [] || !IsSpace(r.excerpt[0])
    ensures |BlogSaved(r, now).metaDescription| <= META_DESCRIPTION_LENGTH
    ensures BlogSaved(r, now).metaDescription == r.excerpt[..|BlogSaved(r, now).metaDescription|]
  {
    var d := MetaPrefix(r.excerpt, META_DESCRIPTION_LENGTH);
    assert BlogSaved(r, now).metaDescription == d;
  }

  /** `togglePublish` on a record. */
  function PublishToggled(r: BlogRecord, now: nat): (s: BlogRecord)
    ensures s.isPublished == !r.isPublished
    ensures r.publishedAt.Some? ==> s.publishedAt == r.publishedAt
    ensures !r.isPublished && r.publishedAt.None? ==> s.publishedAt == Some(now)
    ensures s.views == r.views && s.likes == r.likes && s.totalViews == r.totalViews
  {
    var published := !r.isPublished;
    BlogSaved(r.(isPublished := published,
                 publishedAt := if published && r.publishedAt.None? then Some(now) else r.publishedAt), now)
  }

  /**
   * Toggling twice restores the publication flag and keeps the first
   * publication date; unpublishing never clears it.
   */
  lemma {:induction false} PublishTwice(r: BlogRecord, t1: nat, t2: nat)
    ensures PublishToggled(PublishToggled(r, t1), t2).isPublished == r.isPublished
    ensures r.publishedAt.Some? ==> PublishToggled(PublishToggled(r, t1), t2).publishedAt == r.publishedAt
    ensures !r.isPublished && r.publishedAt.None? ==> PublishToggled(PublishToggled(r, t1), t2).publishedAt == Some(t1)
  {
    var once := PublishToggled(r, t1);
    if !r.isPublished && r.publishedAt.None? {
      assert once.publishedAt == Some(t1);
    }
  }

  /** `incrementViews` on a record. */
  function ViewCounted(r: BlogRecord, now: nat): (s: BlogRecord)
    ensures s.views == r.views + 1 && s.totalViews == r.totalViews + 1
    ensures s.likes == r.likes && s.isPublished == r.isPublished
  {
    BlogSaved(r.(views := r.views + 1, totalViews := r.totalViews + 1), now)
  }

  /** `incrementLikes` on a record. */
  function LikeCounted(r: BlogRecord, now: nat): (s: BlogRecord)
    ensures s.likes == r.likes + 1
    ensures s.views == r.views && s.totalViews == r.totalViews && s.isPublished == r.isPublished
  {
    BlogSaved(r.(likes := r.likes + 1), now)
  }

  // ---------------------------------------------------------------- creation

  /** The fields a create request supplies; `None` is an absent field. */
  datatype BlogInput = BlogInput(title: Option<string>, slug: Option<string>, excerpt: Option<string>,
                                 content: Option<string>, category: Option<string>, isPublished: bool,
                                 readTime: Option<nat>, metaTitle: Option<string>, metaDescription: Option<string>)

  /** The document after the setters (`trim`, `lowercase`) and the defaults. */
  function Assigned(input: BlogInput): (r: BlogRecord)
    ensures r.views == 0 && r.likes == 0 && r.totalViews == 0 && r.publishedAt.None? && !r.isFeatured
    ensures r.readTime == input.readTime.GetOr(DEFAULT_READ_TIME)
    ensures input.category.None? ==> r.category == DEFAULT_CATEGORY
    ensures r.isPublished == input.isPublished
  {
    BlogRecord(Trim(input.title.GetOr("")), SlugSetter(input.slug.GetOr("")), Trim(input.excerpt.GetOr("")),
               input.content.GetOr(""), input.category.GetOr(DEFAULT_CATEGORY), input.isPublished, false,
               0, 0, input.readTime.GetOr(DEFAULT_READ_TIME), None,
               Trim(input.metaTitle.GetOr("")), Trim(input.metaDescription.GetOr("")), 0)
  }

  /** `^[a-z0-9-]+$` */
  predicate IsSlugShape(s: string) {
    s != [] && forall i | 0 <= i < |s| :: IsSlugChar(s[i])
  }

  /** The paths whose validators fail, in schema order. */
  function ValidationErrors(r: BlogRecord): (errors: seq<string>)
    ensures errors == [] <==>
      0 < |r.title| <= TITLE_MAX && IsSlugShape(r.slug) && 0 < |r.excerpt| <= EXCERPT_MAX
      && r.content != [] && r.category in BLOG_CATEGORIES && r.readTime >= 1
      && |r.metaTitle| <= META_TITLE_LENGTH && |r.metaDescription| <= META_DESCRIPTION_LENGTH
    ensures r.slug == [] ==> "slug" in errors
    ensures |r.metaTitle| > META_TITLE_LENGTH ==> "metaTitle" in errors
    ensures |r.metaDescription| > META_DESCRIPTION_LENGTH ==> "metaDescription" in errors
  {
    (if 0 < |r.title| <= TITLE_MAX then [] else ["title"])
    + (if IsSlugShape(r.slug) then [] else ["slug"])
    + (if 0 < |r.excerpt| <= EXCERPT_MAX then [] else ["excerpt"])
    + (if r.content != [] then [] else ["content"])
    + (if r.category in BLOG_CATEGORIES then [] else ["category"])
    + (if r.readTime >= 1 then [] else ["readTime"])
    + (if |r.metaTitle| <= META_TITLE_LENGTH then [] else ["metaTitle"])
    + (if |r.metaDescription| <= META_DESCRIPTION_LENGTH then [] else ["metaDescription"])
  }

  /**
   * The hook keeps a valid post valid: the fields it fills (slug, read time,
   * meta fields) stay within their validators, so a validated post can be
   * saved again.
   */
  lemma {:induction false} SavedStaysValid(r: BlogRecord, now: nat)
    requires ValidationErrors(r) == []
    ensures ValidationErrors(BlogSaved(r, now)) == []
  {
    var s := BlogSaved(r, now);
    assert s.title == r.title && s.excerpt == r.excerpt && s.content == r.content && s.category == r.category;
    assert |s.metaTitle| <= META_TITLE_LENGTH;
    assert |s.metaDescription| <= META_DESCRIPTION_LENGTH;
  }

  /**
   * `Blog.create` as the schema is written: validation runs before the
   * pre-save hook, so the slug is checked before the hook could generate it.
   */
  function NewBlogAsWritten(input: BlogInput, now: nat): (r: Result<BlogRecord, seq<string>>)
    ensures r.Failure? <==> ValidationErrors(Assigned(input)) != []
    ensures r.Success? ==> r.value == BlogSaved(Assigned(input), now)
  {
    var doc := Assigned(input);
    var errors := ValidationErrors(doc);
    if errors != [] then Failure(errors) else Success(BlogSaved(doc, now))
  }

  /** A create request without a slug is always refused, whatever its title. */
  lemma SluglessBlogRefused(input: BlogInput, now: nat)
    requires input.slug.None?
    ensures NewBlogAsWritten(input, now).Failure? && "slug" in NewBlogAsWritten(input, now).error
  {
    assert ToLower("") == "";
    assert Assigned(input).slug == [];
  }

  /** On a document that passed validation the hook's slug branch never runs. */
  lemma HookSlugBranchDead(r: BlogRecord, now: nat)
    requires ValidationErrors(r) == []
    ensures BlogSaved(r, now).slug == r.slug
  {
  }

  /** The slug generation, as a step that runs before validation. */
  function WithGeneratedSlug(r: BlogRecord): (s: BlogRecord)
    ensures r.slug == [] && r.title != [] ==> s.slug == BlogSlug(r.title)
    ensures s.(slug := r.slug) == r
  {
    r.(slug := if r.slug == [] && r.title != [] then BlogSlug(r.title) else r.slug)
  }

  /** `Blog.create` with the slug generated before validation, as the hook means it. */
  function NewBlog(input: BlogInput, now: nat): (r: Result<BlogRecord, seq<string>>)
    ensures r.Failure? <==> ValidationErrors(WithGeneratedSlug(Assigned(input))) != []
    ensures r.Success? ==> r.value == BlogSaved(WithGeneratedSlug(Assigned(input)), now)
  {
    var doc := WithGeneratedSlug(Assigned(input));
    var errors := ValidationErrors(doc);
    if errors != [] then Failure(errors) else Success(BlogSaved(doc, now))
  }

  /** A caller's meta title longer than 60 characters after trimming is refused, on either creation path. */
  lemma LongMetaTitleRefused(input: BlogInput, now: nat)
    requires |Trim(input.metaTitle.GetOr(""))| > META_TITLE_LENGTH
    ensures NewBlogAsWritten(input, now).Failure? && "metaTitle" in NewBlogAsWritten(input, now).error
    ensures NewBlog(input, now).Failure? && "metaTitle" in NewBlog(input, now).error
  {
    assert WithGeneratedSlug(Assigned(input)).metaTitle == Assigned(input).metaTitle;
  }

  /**
   * Without a slug, a post whose other fields are valid and whose title
   * yields a non-empty slug is created, with the slug taken from its title.
   */
  lemma SlugGeneratedOnCreate(input: BlogInput, now: nat)
    requires input.slug.None? && input.title.Some? && input.excerpt.Some? && input.content.Some?
    requires 0 < |Trim(input.title.value)| <= TITLE_MAX && BlogSlug(Trim(input.title.value)) != []
    requires 0 < |Trim(input.excerpt.value)| <= EXCERPT_MAX && input.content.value != []
    requires input.category.None? || input.category.value in BLOG_CATEGORIES
    requires input.readTime.None? || input.readTime.value >= 1
    requires |Trim(input.metaTitle.GetOr(""))| <= META_TITLE_LENGTH
    requires |Trim(input.metaDescription.GetOr(""))| <= META_DESCRIPTION_LENGTH
    ensures NewBlog(input, now).Success?
    ensures NewBlog(input, now).value.slug == BlogSlug(Trim(input.title.value))
  {
    var doc := WithGeneratedSlug(Assigned(input));
    GeneratedDocValid(input);
    assert NewBlog(input, now).value == BlogSaved(doc, now);
  }

  lemma GeneratedDocValid(input: BlogInput)
    requires input.slug.None? && input.title.Some? && input.excerpt.Some? && input.content.Some?
    requires 0 < |Trim(input.title.value)| <= TITLE_MAX && BlogSlug(Trim(input.title.value)) != []
    requires 0 < |Trim(input.excerpt.value)| <= EXCERPT_MAX && input.content.value != []
    requires input.category.None? || input.category.value in BLOG_CATEGORIES
    requires input.readTime.None? || input.readTime.value >= 1
    requires |Trim(input.metaTitle.GetOr(""))| <= META_TITLE_LENGTH
    requires |Trim(input.metaDescription.GetOr(""))| <= META_DESCRIPTION_LENGTH
    ensures WithGeneratedSlug(Assigned(input)).slug == BlogSlug(Trim(input.title.value))
    ensures ValidationErrors(WithGeneratedSlug(Assigned(input))) == []
  {
    AssignedWithoutSlug(input);
    var a := Assigned(input);
    NonEmptySlugIsShaped(a.title);
    var doc := a.(slug := BlogSlug(a.title));
    assert WithGeneratedSlug(a) == doc;
    ValidWithShapedSlug(doc);
  }

  lemma ValidWithShapedSlug(doc: BlogRecord)
    requires 0 < |doc.title| <= TITLE_MAX && IsSlugShape(doc.slug) && 0 < |doc.excerpt| <= EXCERPT_MAX
    requires doc.content != [] && doc.category in BLOG_CATEGORIES && doc.readTime >= 1
    requires |doc.metaTitle| <= META_TITLE_LENGTH && |doc.metaDescription| <= META_DESCRIPTION_LENGTH
    ensures ValidationErrors(doc) == []
  {
  }

  lemma NonEmptySlugIsShaped(title: string)
    requires BlogSlug(title) != []
    ensures IsSlugShape(BlogSlug(title))
  {
  }

  lemma AssignedWithoutSlug(input: BlogInput)
    requires input.slug.None?
    ensures Assigned(input).slug == []
    ensures Assigned(input).title == Trim(input.title.GetOr(""))
    ensures Assigned(input).excerpt == Trim(input.excerpt.GetOr(""))
    ensures Assigned(input).content == input.content.GetOr("")
    ensures input.category.None? ==> Assigned(input).category == DEFAULT_CATEGORY
    ensures input.category.Some? ==> Assigned(input).category == input.category.value
    ensures Assigned(input).readTime == input.readTime.GetOr(DEFAULT_READ_TIME)
    ensures Assigned(input).metaTitle == Trim(input.metaTitle.GetOr(""))
    ensures Assigned(input).metaDescription == Trim(input.metaDescription.GetOr(""))
  {
    SlugSetterEmpty();
  }

  lemma SlugSetterEmpty()
    ensures SlugSetter("") == ""
  {
    assert ToLower("") == "";
  }

  // ------------------------------------------------------------ the document

  /** A loaded blog post; its methods change its fields and run the save hook. */
  class Blog {
    var title: string
    var slug: string
    var excerpt: string
    var content: string
    var category: string
    var isPublished: bool
    var isFeatured: bool
    var views: nat
    var likes: nat
    var readTime: nat
    var publishedAt: Option<nat>
    var metaTitle: string
    var metaDescription: string
    var totalViews: nat

    function Record(): BlogRecord
      reads this
    {
      BlogRecord(title, slug, excerpt, content, category, isPublished, isFeatured, views, likes, readTime,
                 publishedAt, metaTitle, metaDescription, totalViews)
    }

    constructor (r: BlogRecord)
      ensures Record() == r
    {
      title, slug, excerpt, content, category := r.title, r.slug, r.excerpt, r.content, r.category;
      isPublished, isFeatured := r.isPublished, r.isFeatured;
      views, likes, readTime := r.views, r.likes, r.readTime;
      publishedAt, metaTitle, metaDescription, totalViews := r.publishedAt, r.metaTitle, r.metaDescription, r.totalViews;
    }

    /** The `url` virtual. */
    function Url(): (u: string)
      reads this
      ensures StartsWith(u, "/blog/") && u[|"/blog/"|..] == slug
    {
      "/blog/" + slug
    }

    /** The pre-save hook, at time `now`: its four steps in order. */
    method PreSave(now: nat)
      modifies this
      ensures Record() == BlogSaved(old(Record()), now)
    {
      GenerateSlug();
      StampPublished(now);
      ComputeReadTime();
      FillMeta();
    }

    method GenerateSlug()
      modifies this
      ensures Record() == SlugStep(old(Record()))
    {
      if slug == [] && title != [] {
        slug := BlogSlug(title);
      }
    }

    method StampPublished(now: nat)
      modifies this
      ensures Record() == PublishStep(old(Record()), now)
    {
      if isPublished && publishedAt.None? {
        publishedAt := Some(now);
      }
    }

    method ComputeReadTime()
      modifies this
      ensures Record() == ReadTimeStep(old(Record()))
    {
      if content != [] {
        readTime := ReadTime(Pieces(content));
      }
    }

    method FillMeta()
      modifies this
      ensures Record() == MetaStep(old(Record()))
    {
      if metaTitle == [] {
        metaTitle := MetaPrefix(title, META_TITLE_LENGTH);
      }
      if metaDescription == [] {
        metaDescription := MetaPrefix(excerpt, META_DESCRIPTION_LENGTH);
      }
    }

    /** `togglePublish` */
    method TogglePublish(now: nat)
      modifies this
      ensures Record() == PublishToggled(old(Record()), now)
    {
      isPublished := !isPublished;
      if isPublished && publishedAt.None? {
        publishedAt := Some(now);
      }
      PreSave(now);
    }

    /** `incrementViews` */
    method IncrementViews(now: nat)
      modifies this
      ensures Record() == ViewCounted(old(Record()), now)
    {
      views := views + 1;
      totalViews := totalViews + 1;
      PreSave(now);
    }

    /** `incrementLikes` */
    method IncrementLikes(now: nat)
      modifies this
      ensures Record() == LikeCounted(old(Record()), now)
    {
      likes := likes + 1;
      PreSave(now);
    }
  }
}
