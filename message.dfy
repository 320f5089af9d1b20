/**
 * The contact-message document of backend/src/models/Message.js: its field
 * bounds, the pre-save hook that scores spam and picks a category, and the
 * instance methods the admin screens call. Each instance method ends in
 * `save()`, which validates the document and then runs the hook again; the
 * write itself is the caller's (`MessageStore.Put` in MessageController).
 */
module MessageModel {
  import opened Wrappers
  import opened Text

  type MessageId = nat

  datatype Reply = Reply(subject: string, message: string, sentAt: nat, sentBy: string)
  datatype Note = Note(note: string, addedAt: nat)

  /**
   * A stored message. `status`, `category` and `priority` are strings rather
   * than enumerations: `updateMany` skips the schema validators, so a bulk
   * update can store any value in them.
   */
  datatype MessageRecord = MessageRecord(
    name: string, email: string, subject: string, message: string,
    category: string, priority: string, status: string,
    isStarred: bool, isFlagged: bool,
    replies: seq<Reply>, lastRepliedAt: Option<nat>,
    readAt: Option<nat>, readCount: nat,
    internalNotes: seq<Note>,
    spamScore: nat, isSpam: bool, createdAt: nat)

  const STATUSES: seq<string> := ["Unread", "Read", "Replied", "Archived", "Spam"]
  const CATEGORIES: seq<string> := ["Business", "Job Offer", "Freelance", "Partnership", "Speaking", "Nonprofit", "General", "Spam"]
  const PRIORITIES: seq<string> := ["Low", "Medium", "High", "Urgent"]
  const DEFAULT_SENDER := "Jeevan Dangi"

  // ---------------------------------------------------------------- spam score

  const SPAM_KEYWORDS: seq<string> := ["viagra", "casino", "lottery", "winner", "congratulations", "click here", "free money"]
  const KEYWORD_POINTS := 20
  const LINK_LIMIT := 3
  const LINK_POINTS := 30
  const CAPS_POINTS := 25
  const SPAM_THRESHOLD := 60
  const MAX_SPAM_SCORE := 100

  /** The text the hook inspects: message, a space and subject, lower-cased. */
  function SpamText(message: string, subject: string): string {
    ToLower(message + " " + subject)
  }

  /** How many of `keywords` occur in `text`. */
  function KeywordHits(text: string, keywords: seq<string>): (n: nat)
    ensures n <= |keywords|
  {
    if keywords == [] then 0
    else KeywordHits(text, keywords[..|keywords| - 1]) + (if Contains(text, keywords[|keywords| - 1]) then 1 else 0)
  }

  /** `(text.match(/http/g) || []).length` */
  function LinkCount(text: string): nat {
    CountMatches(text, "http")
  }

  /**
   * The capitals rule: the ratio of `[A-Z]` matches to the length exceeds 0.5.
   * On the empty text the ratio is NaN and the comparison is false.
   */
  function CapsPoints(text: string): nat {
    if 2 * CountUpper(text) > |text| then CAPS_POINTS else 0
  }

  /** The score before clamping, as the hook accumulates it. */
  function RawSpamScore(text: string): nat {
    KEYWORD_POINTS * KeywordHits(text, SPAM_KEYWORDS) + (if LinkCount(text) > LINK_LIMIT then LINK_POINTS else 0) + CapsPoints(text)
  }

  /** The spam fields a save stores: clamped score and the verdict on the raw score. */
  predicate SpamConsistent(r: MessageRecord) {
    var raw := RawSpamScore(SpamText(r.message, r.subject));
    r.spamScore == Min(raw, MAX_SPAM_SCORE) && (r.isSpam <==> raw > SPAM_THRESHOLD)
  }

  /** The hook's scoring loop over the keyword list, then the link and capitals rules. */
  method ScoreText(text: string) returns (score: nat)
    ensures score == RawSpamScore(text)
  {
    score := 0;
    var i := 0;
    while i < |SPAM_KEYWORDS|
      invariant 0 <= i <= |SPAM_KEYWORDS|
      invariant score == KEYWORD_POINTS * KeywordHits(text, SPAM_KEYWORDS[..i])
    {
      assert SPAM_KEYWORDS[..i + 1][..i] == SPAM_KEYWORDS[..i];
      if Contains(text, SPAM_KEYWORDS[i]) {
        score := score + KEYWORD_POINTS;
      }
      i := i + 1;
    }
    assert SPAM_KEYWORDS[..i] == SPAM_KEYWORDS;
    var linkCount := LinkCount(text);
    if linkCount > LINK_LIMIT {
      score := score + LINK_POINTS;
    }
    score := score + CapsPoints(text);
  }

  /** The capitals rule never adds points: the text it counts in is already lower-cased. */
  lemma {:induction false} CapsRuleNeverFires(message: string, subject: string)
    ensures CapsPoints(SpamText(message, subject)) == 0
  {
    ToLowerHasNoUpper(message + " " + subject);
    CountUpperNone(SpamText(message, subject));
  }

  /**
   * A message is spam exactly when four keywords occur, or two keywords and
   * more than three links; the stored score never exceeds 100.
   */
  lemma SpamVerdict(message: string, subject: string)
    ensures var t := SpamText(message, subject);
      var hits := KeywordHits(t, SPAM_KEYWORDS);
      (RawSpamScore(t) > SPAM_THRESHOLD <==> hits >= 4 || (hits >= 2 && LinkCount(t) > LINK_LIMIT))
      && RawSpamScore(t) == KEYWORD_POINTS * hits + (if LinkCount(t) > LINK_LIMIT then LINK_POINTS else 0)
      && RawSpamScore(t) <= 170
  {
    CapsRuleNeverFires(message, subject);
  }

  // ------------------------------------------------------------ auto-category

  predicate JobWords(t: string) { Contains(t, "job") || Contains(t, "position") || Contains(t, "hire") }
  predicate FreelanceWords(t: string) { Contains(t, "freelance") || Contains(t, "project") || Contains(t, "contract") }
  predicate PartnershipWords(t: string) { Contains(t, "partnership") || Contains(t, "collaborate") }
  predicate SpeakingWords(t: string) { Contains(t, "speak") || Contains(t, "presentation") || Contains(t, "conference") }

  /** The rule runs when the category was not changed in this save, or is 'General'. */
  predicate CategorizeApplies(category: string, categoryModified: bool) {
    !categoryModified || category == "General"
  }

  /** The category the hook leaves: the first matching keyword group wins, otherwise the category stays. */
  function AutoCategory(text: string, category: string, categoryModified: bool): (c: string)
    ensures !CategorizeApplies(category, categoryModified) ==> c == category
    ensures c == category || c in ["Job Offer", "Freelance", "Partnership", "Speaking"]
    ensures category in CATEGORIES ==> c in CATEGORIES
  {
    if !CategorizeApplies(category, categoryModified) then category
    else if JobWords(text) then "Job Offer"
    else if FreelanceWords(text) then "Freelance"
    else if PartnershipWords(text) then "Partnership"
    else if SpeakingWords(text) then "Speaking"
    else category
  }

  /**
   * Precedence of the groups when the rule applies: a job word decides
   * whatever else occurs, a later group decides only when every earlier one
   * is absent, and without any group word the category is kept.
   */
  lemma CategoryPrecedence(t: string, category: string, modified: bool)
    requires CategorizeApplies(category, modified)
    ensures JobWords(t) ==> AutoCategory(t, category, modified) == "Job Offer"
    ensures !JobWords(t) && FreelanceWords(t) ==> AutoCategory(t, category, modified) == "Freelance"
    ensures !JobWords(t) && !FreelanceWords(t) && PartnershipWords(t) ==> AutoCategory(t, category, modified) == "Partnership"
    ensures !JobWords(t) && !FreelanceWords(t) && !PartnershipWords(t) && SpeakingWords(t) ==> AutoCategory(t, category, modified) == "Speaking"
    ensures !JobWords(t) && !FreelanceWords(t) && !PartnershipWords(t) && !SpeakingWords(t) ==> AutoCategory(t, category, modified) == category
  {
  }

  /** Re-categorising an auto-categorised message changes nothing. */
  lemma AutoCategoryIdempotent(t: string, category: string, modified: bool)
    ensures CategorizeApplies(category, modified) ==> AutoCategory(t, AutoCategory(t, category, modified), false) == AutoCategory(t, category, modified)
  {
  }

  // ------------------------------------------------------------------ the hook

  /** The record the pre-save hook leaves. */
  function Saved(r: MessageRecord, categoryModified: bool): (s: MessageRecord)
    ensures SpamConsistent(s) && s.spamScore <= MAX_SPAM_SCORE
    ensures s.category == AutoCategory(SpamText(r.message, r.subject), r.category, categoryModified)
    ensures s.(spamScore := r.spamScore, isSpam := r.isSpam, category := r.category) == r
  {
    var text := SpamText(r.message, r.subject);
    var raw := RawSpamScore(text);
    r.(spamScore := Min(raw, MAX_SPAM_SCORE), isSpam := raw > SPAM_THRESHOLD,
       category := AutoCategory(text, r.category, categoryModified))
  }

  /** Saving a record the hook has already processed (with an unmodified category) changes nothing. */
  lemma SavedIdempotent(r: MessageRecord, categoryModified: bool)
    requires CategorizeApplies(r.category, categoryModified)
    ensures Saved(Saved(r, categoryModified), false) == Saved(r, categoryModified)
  {
    AutoCategoryIdempotent(SpamText(r.message, r.subject), r.category, categoryModified);
  }

  // ------------------------------------------------------- validation on save

  /**
   * The schema's enumerations for category, priority and status. `save()`
   * checks every loaded path before the hook runs; these three are the only
   * checked fields a later write can take out of bounds (`updateMany` skips
   * the validators), the text bounds being checked once at creation.
   */
  predicate EnumsValid(r: MessageRecord) {
    r.category in CATEGORIES && r.priority in PRIORITIES && r.status in STATUSES
  }

  /** The hook never takes a valid record out of the enumerations. */
  lemma SavedKeepsEnums(r: MessageRecord, categoryModified: bool)
    ensures EnumsValid(r) ==> EnumsValid(Saved(r, categoryModified))
    ensures Saved(r, categoryModified).priority == r.priority && Saved(r, categoryModified).status == r.status
  {
  }

  // --------------------------------------------------------- instance methods

  /** The assignments of `markAsRead`, before its `save()`. */
  function ReadAssigned(r: MessageRecord, now: nat): (a: MessageRecord)
    ensures EnumsValid(a) <==> EnumsValid(r)
  {
    var unread := r.status == "Unread";
    r.(status := if unread then "Read" else r.status,
       readAt := if unread then Some(now) else r.readAt,
       readCount := r.readCount + 1)
  }

  /** `markAsRead` on a record whose save validates. */
  function MarkedRead(r: MessageRecord, now: nat): (s: MessageRecord)
    ensures r.status == "Unread" ==> s.status == "Read" && s.readAt == Some(now)
    ensures r.status != "Unread" ==> s.status == r.status && s.readAt == r.readAt
    ensures s.readCount == r.readCount + 1
    ensures s.replies == r.replies && s.internalNotes == r.internalNotes
    ensures s.isStarred == r.isStarred && s.isFlagged == r.isFlagged && s.priority == r.priority
    ensures SpamConsistent(s)
  {
    Saved(ReadAssigned(r, now), false)
  }

  /** The assignments of `addReply`, before its `save()`: the status becomes a valid one. */
  function ReplyAssigned(r: MessageRecord, subject: string, message: string, sentBy: string, now: nat): (a: MessageRecord)
    ensures EnumsValid(a) <==> r.category in CATEGORIES && r.priority in PRIORITIES
  {
    r.(replies := r.replies + [Reply(subject, message, now, sentBy)], status := "Replied", lastRepliedAt := Some(now))
  }

  /** `addReply` on a record whose save validates. */
  function Replied(r: MessageRecord, subject: string, message: string, sentBy: string, now: nat): (s: MessageRecord)
    ensures s.replies == r.replies + [Reply(subject, message, now, sentBy)]
    ensures s.status == "Replied" && s.lastRepliedAt == Some(now)
    ensures s.internalNotes == r.internalNotes && s.readAt == r.readAt && s.readCount == r.readCount
    ensures SpamConsistent(s)
  {
    Saved(ReplyAssigned(r, subject, message, sentBy, now), false)
  }

  /** `toggleStar` on a record. */
  function StarToggled(r: MessageRecord): (s: MessageRecord)
    ensures s.isStarred == !r.isStarred
    ensures s == Saved(r, false).(isStarred := !r.isStarred)
  {
    Saved(r.(isStarred := !r.isStarred), false)
  }

  /** `toggleFlag` on a record. */
  function FlagToggled(r: MessageRecord): (s: MessageRecord)
    ensures s.isFlagged == !r.isFlagged
    ensures s == Saved(r, false).(isFlagged := !r.isFlagged)
  {
    Saved(r.(isFlagged := !r.isFlagged), false)
  }

  /** `addNote` on a record. */
  function Noted(r: MessageRecord, note: string, now: nat): (s: MessageRecord)
    ensures s.internalNotes == r.internalNotes + [Note(note, now)]
    ensures s.status == r.status && s.replies == r.replies && s.readAt == r.readAt
    ensures SpamConsistent(s)
  {
    Saved(r.(internalNotes := r.internalNotes + [Note(note, now)]), false)
  }

  /**
   * Toggling the star twice restores the flag and leaves the record as one
   * save would; a record already processed by the hook comes back unchanged.
   */
  lemma {:induction false} StarTwiceRestores(r: MessageRecord)
    ensures StarToggled(StarToggled(r)) == Saved(r, false)
    ensures r == Saved(r, false) ==> StarToggled(StarToggled(r)) == r
  {
    SavedIdempotent(r, false);
    var once := StarToggled(r);
    assert once.(isStarred := r.isStarred) == Saved(r, false);
  }

  /** Toggling the flag twice restores it, as for the star. */
  lemma {:induction false} FlagTwiceRestores(r: MessageRecord)
    ensures FlagToggled(FlagToggled(r)) == Saved(r, false)
    ensures r == Saved(r, false) ==> FlagToggled(FlagToggled(r)) == r
  {
    SavedIdempotent(r, false);
    var once := FlagToggled(r);
    assert once.(isFlagged := r.isFlagged) == Saved(r, false);
  }

  /**
   * Any later save re-runs the category rule, because the category is not
   * modified in that save: a category chosen by hand is replaced as soon as
   * the text holds a group word.
   */
  lemma {:induction false} SaveOverridesCategory(r: MessageRecord)
    requires Contains(SpamText(r.message, r.subject), "job")
    ensures StarToggled(r.(category := "Business")).category == "Job Offer"
  {
  }

  // ------------------------------------------------------------- field bounds

  /** `/^\S+@\S+\.\S+$/.test(s)`, read off the pattern: an '@' after one character, a '.' after one more, one after it. */
  predicate MatchesEmailPattern(s: string) {
    NoSpace(s) && exists i, j | 1 <= i && i + 2 <= j && j + 2 <= |s| :: s[i] == '@' && s[j] == '.'
  }

  /** The index of the first '@' at or after `from`, or `|s|` when there is none. */
  function AtFrom(s: string, from: nat): (k: nat)
    requires from <= |s|
    ensures from <= k <= |s|
    ensures k < |s| ==> s[k] == '@'
    ensures forall m | from <= m < k :: s[m] != '@'
    decreases |s| - from
  {
    if from == |s| || s[from] == '@' then from else AtFrom(s, from + 1)
  }

  /** Whether a '.' lies at some index from `lo` to `hi`. */
  predicate DotWithin(s: string, lo: nat, hi: int)
    requires hi < |s|
    decreases if hi < lo then 0 else hi - lo + 1
  {
    lo <= hi && (s[lo] == '.' || DotWithin(s, lo + 1, hi))
  }

  /**
   * The address check as a scan: no white space, and a '.' at least two
   * places after the first '@' that is not the first character, with one
   * character after the '.'.
   */
  predicate IsEmailShape(s: string) {
    NoSpace(s) && var k := AtFrom(s, if s == [] then 0 else 1);
    k < |s| && DotWithin(s, k + 2, |s| - 2)
  }

  lemma {:induction false} DotWithinWitness(s: string, lo: nat, hi: int) returns (j: nat)
    requires hi < |s| && DotWithin(s, lo, hi)
    ensures lo <= j <= hi && s[j] == '.'
    decreases if hi < lo then 0 else hi - lo + 1
  {
    if s[lo] == '.' {
      j := lo;
    } else {
      j := DotWithinWitness(s, lo + 1, hi);
    }
  }

  lemma {:induction false} DotWithinAt(s: string, lo: nat, hi: int, j: nat)
    requires hi < |s| && lo <= j <= hi && s[j] == '.'
    ensures DotWithin(s, lo, hi)
    decreases j - lo
  {
    if j != lo {
      DotWithinAt(s, lo + 1, hi, j);
    }
  }

  /** The scan accepts exactly the addresses the pattern matches. */
  lemma EmailScanMatchesPattern(s: string)
    ensures IsEmailShape(s) <==> MatchesEmailPattern(s)
  {
    if IsEmailShape(s) {
      var k := AtFrom(s, 1);
      var j := DotWithinWitness(s, k + 2, |s| - 2);
      assert 1 <= k && k + 2 <= j && j + 2 <= |s| && s[k] == '@' && s[j] == '.';
    }
    if MatchesEmailPattern(s) {
      var i, j :| 1 <= i && i + 2 <= j && j + 2 <= |s| && s[i] == '@' && s[j] == '.';
      var k := AtFrom(s, 1);
      assert k <= i;
      DotWithinAt(s, k + 2, |s| - 2, j);
    }
  }

  datatype ErrorKind = Required | TooShort | TooLong | Invalid
  datatype FieldError = FieldError(path: string, kind: ErrorKind)

  /** The contact form as submitted; `None` is a missing field. */
  datatype Submission = Submission(name: Option<string>, email: Option<string>, subject: Option<string>, message: Option<string>)

  /**
   * The first failing validator of one path, in declaration order: required
   * (a missing or empty value), then the length bounds, then the format.
   */
  function CheckText(path: string, v: Option<string>, minLength: nat, maxLength: nat): (e: Option<FieldError>)
    ensures e.None? <==> v.Some? && v.value != [] && minLength <= |v.value| <= maxLength
    ensures e.Some? ==> e.value.path == path
    ensures e == Some(FieldError(path, Required)) <==> v.None? || v.value == []
  {
    if v.None? || v.value == [] then Some(FieldError(path, Required))
    else if |v.value| < minLength then Some(FieldError(path, TooShort))
    else if |v.value| > maxLength then Some(FieldError(path, TooLong))
    else None
  }

  function CheckEmail(v: Option<string>): (e: Option<FieldError>)
    ensures e.None? <==> v.Some? && v.value != [] && IsEmailShape(v.value)
  {
    if v.None? || v.value == [] then Some(FieldError("email", Required))
    else if !IsEmailShape(v.value) then Some(FieldError("email", Invalid))
    else None
  }

  /** A failing validator's error as a list of at most one entry. */
  function AsList(e: Option<FieldError>): (r: seq<FieldError>)
    ensures r == [] <==> e.None?
  {
    if e.Some? then [e.value] else []
  }

  /** The `trim` setter on a field that may be missing. */
  function Trimmed(v: Option<string>): (r: Option<string>)
    ensures r.Some? <==> v.Some?
    ensures r.Some? ==> r.value == Trim(v.value)
  {
    if v.Some? then Some(Trim(v.value)) else None
  }

  /** The address setters on a field that may be missing. */
  function NormalizedEmail(v: Option<string>): (r: Option<string>)
    ensures r.Some? <==> v.Some?
    ensures r.Some? ==> r.value == NormalizeEmail(v.value)
  {
    if v.Some? then Some(NormalizeEmail(v.value)) else None
  }

  /** Four validators report nothing exactly when each of them passes. */
  lemma NoErrorsIff(a: Option<FieldError>, b: Option<FieldError>, c: Option<FieldError>, d: Option<FieldError>)
    ensures AsList(a) + AsList(b) + AsList(c) + AsList(d) == [] <==> a.None? && b.None? && c.None? && d.None?
  {
  }

  /** The four form fields after their setters. */
  datatype FormFields = FormFields(name: string, email: string, subject: string, message: string)

  /**
   * The setters, then the validators: every failing path is reported, in the
   * schema's field order.
   */
  function ValidateSubmission(sub: Submission): (r: Result<FormFields, seq<FieldError>>)
    ensures r.Failure? ==> r.error != []
    ensures r.Failure? <==>
      sub.name.None? || !(0 < |Trim(sub.name.value)| <= 100)
      || sub.email.None? || !(0 < |NormalizeEmail(sub.email.value)| && IsEmailShape(NormalizeEmail(sub.email.value)))
      || sub.subject.None? || !(0 < |Trim(sub.subject.value)| <= 200)
      || sub.message.None? || !(10 <= |Trim(sub.message.value)| <= 2000)
    ensures r.Success? ==>
      r.value == FormFields(Trim(sub.name.value), NormalizeEmail(sub.email.value),
                            Trim(sub.subject.value), Trim(sub.message.value))
  {
    var name, email, subject, message :=
      Trimmed(sub.name), NormalizedEmail(sub.email), Trimmed(sub.subject), Trimmed(sub.message);
    var checks := [CheckText("name", name, 0, 100), CheckEmail(email),
                   CheckText("subject", subject, 0, 200), CheckText("message", message, 10, 2000)];
    var errors := AsList(checks[0]) + AsList(checks[1]) + AsList(checks[2]) + AsList(checks[3]);
    NoErrorsIff(checks[0], checks[1], checks[2], checks[3]);
    if errors != [] then Failure(errors)
    else Success(FormFields(name.value, email.value, subject.value, message.value))
  }

  /** A new message from validated fields at `now`: the schema defaults, then the pre-save hook. */
  function Created(f: FormFields, now: nat): (m: MessageRecord)
    ensures m.name == f.name && m.email == f.email && m.subject == f.subject && m.message == f.message
    ensures m.status == "Unread" && m.priority == "Medium" && !m.isStarred && !m.isFlagged
    ensures m.replies == [] && m.internalNotes == [] && m.readCount == 0 && m.readAt.None?
    ensures SpamConsistent(m) && m.createdAt == now
  {
    Saved(MessageRecord(f.name, f.email, f.subject, f.message, "General", "Medium", "Unread",
                        false, false, [], None, None, 0, [], 0, false, now), false)
  }

  /**
   * `Message.create` on a submission at `now`: the setters run, then the
   * validators, then the pre-save hook.
   */
  function NewMessage(sub: Submission, now: nat): (r: Result<MessageRecord, seq<FieldError>>)
    ensures r.Success? ==> SpamConsistent(r.value) && r.value.createdAt == now
    ensures r.Failure? ==> r.error != []
  {
    var v := ValidateSubmission(sub);
    if v.Failure? then Failure(v.error) else Success(Created(v.value, now))
  }

  /**
   * A submission is accepted exactly when every field passes its bounds after
   * its setter; the stored message holds the normalised fields and the
   * defaults of a new message.
   */
  lemma NewMessageAccepts(sub: Submission, now: nat)
    ensures var r := NewMessage(sub, now);
      r.Failure? <==>
        sub.name.None? || !(0 < |Trim(sub.name.value)| <= 100)
        || sub.email.None? || !(0 < |NormalizeEmail(sub.email.value)| && MatchesEmailPattern(NormalizeEmail(sub.email.value)))
        || sub.subject.None? || !(0 < |Trim(sub.subject.value)| <= 200)
        || sub.message.None? || !(10 <= |Trim(sub.message.value)| <= 2000)
    ensures var r := NewMessage(sub, now);
      r.Success? ==>
        var m := r.value;
        sub.name.Some? && m.name == Trim(sub.name.value) && 0 < |m.name| <= 100
        && sub.email.Some? && m.email == NormalizeEmail(sub.email.value) && MatchesEmailPattern(m.email)
        && sub.subject.Some? && m.subject == Trim(sub.subject.value) && 0 < |m.subject| <= 200
        && sub.message.Some? && m.message == Trim(sub.message.value) && 10 <= |m.message| <= 2000
        && m.status == "Unread" && m.priority == "Medium" && !m.isStarred && !m.isFlagged
        && m.replies == [] && m.internalNotes == [] && m.readCount == 0 && m.readAt.None?
  {
    if sub.email.Some? {
      EmailScanMatchesPattern(NormalizeEmail(sub.email.value));
    }
    var v := ValidateSubmission(sub);
    if v.Success? {
      var m := Created(v.value, now);
      assert NewMessage(sub, now) == Success(m);
    }
  }

  // --------------------------------------------------------- the document

  /** A loaded message document; its methods change its fields and run the save hook. */
  class Message {
    var name: string
    var email: string
    var subject: string
    var message: string
    var category: string
    var priority: string
    var status: string
    var isStarred: bool
    var isFlagged: bool
    var replies: seq<Reply>
    var lastRepliedAt: Option<nat>
    var readAt: Option<nat>
    var readCount: nat
    var internalNotes: seq<Note>
    var spamScore: nat
    var isSpam: bool
    var createdAt: nat

    /** The document as stored. */
    function Record(): MessageRecord
      reads this
    {
      MessageRecord(name, email, subject, message, category, priority, status, isStarred, isFlagged,
                    replies, lastRepliedAt, readAt, readCount, internalNotes, spamScore, isSpam, createdAt)
    }

    /** Hydrate a document from a stored record, as `findById` does. */
    constructor (r: MessageRecord)
      ensures Record() == r
    {
      name, email, subject, message := r.name, r.email, r.subject, r.message;
      category, priority, status := r.category, r.priority, r.status;
      isStarred, isFlagged := r.isStarred, r.isFlagged;
      replies, lastRepliedAt := r.replies, r.lastRepliedAt;
      readAt, readCount := r.readAt, r.readCount;
      internalNotes := r.internalNotes;
      spamScore, isSpam, createdAt := r.spamScore, r.isSpam, r.createdAt;
    }

    /** The pre-save hook. */
    method PreSave(categoryModified: bool)
      modifies this
      ensures Record() == Saved(old(Record()), categoryModified)
    {
      var text := SpamText(message, subject);
      var score := ScoreText(text);
      spamScore := Min(score, MAX_SPAM_SCORE);
      isSpam := score > SPAM_THRESHOLD;
      category := AutoCategory(text, category, categoryModified);
      assert Record() == old(Record()).(spamScore := spamScore, isSpam := isSpam, category := category);
    }

    /**
     * `save()`: the enumerations are validated first, and only a valid
     * document reaches the hook; a refused save leaves the in-memory
     * document as the caller's assignments left it.
     */
    method Save(categoryModified: bool) returns (saved: bool)
      modifies this
      ensures saved == EnumsValid(old(Record()))
      ensures Record() == if saved then Saved(old(Record()), categoryModified) else old(Record())
    {
      saved := category in CATEGORIES && priority in PRIORITIES && status in STATUSES;
      if saved {
        PreSave(categoryModified);
      }
    }

    /** `markAsRead`; `saved` is false when `save()` rejects the document. */
    method MarkAsRead(now: nat) returns (saved: bool)
      modifies this
      ensures saved == EnumsValid(old(Record()))
      ensures Record() == if saved then MarkedRead(old(Record()), now) else ReadAssigned(old(Record()), now)
    {
      if status == "Unread" {
        status := "Read";
        readAt := Some(now);
      }
      readCount := readCount + 1;
      assert Record() == ReadAssigned(old(Record()), now);
      saved := Save(false);
    }

    /** `addReply`: the new status is valid, so only a category or priority outside the schema refuses the save. */
    method AddReply(replySubject: string, replyMessage: string, sentBy: string, now: nat) returns (saved: bool)
      modifies this
      ensures saved <==> old(category) in CATEGORIES && old(priority) in PRIORITIES
      ensures Record() == if saved then Replied(old(Record()), replySubject, replyMessage, sentBy, now)
                          else ReplyAssigned(old(Record()), replySubject, replyMessage, sentBy, now)
    {
      replies := replies + [Reply(replySubject, replyMessage, now, sentBy)];
      status := "Replied";
      lastRepliedAt := Some(now);
      assert Record() == ReplyAssigned(old(Record()), replySubject, replyMessage, sentBy, now);
      saved := Save(false);
    }

    /** `toggleStar` */
    method ToggleStar() returns (saved: bool)
      modifies this
      ensures saved == EnumsValid(old(Record()))
      ensures Record() == if saved then StarToggled(old(Record())) else old(Record()).(isStarred := !old(isStarred))
    {
      isStarred := !isStarred;
      saved := Save(false);
    }

    /** `toggleFlag` */
    method ToggleFlag() returns (saved: bool)
      modifies this
      ensures saved == EnumsValid(old(Record()))
      ensures Record() == if saved then FlagToggled(old(Record())) else old(Record()).(isFlagged := !old(isFlagged))
    {
      isFlagged := !isFlagged;
      saved := Save(false);
    }

    /** `addNote` */
    method AddNote(note: string, now: nat) returns (saved: bool)
      modifies this
      ensures saved == EnumsValid(old(Record()))
      ensures Record() == if saved then Noted(old(Record()), note, now)
                          else old(Record()).(internalNotes := old(internalNotes) + [Note(note, now)])
    {
      internalNotes := internalNotes + [Note(note, now)];
      saved := Save(false);
    }
  }
}
