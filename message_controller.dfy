/**
 * The admin message handlers of backend/src/controllers/messageController.js
 * over a message collection: look-ups that answer 404 for an unknown id, the
 * request guards that answer 400 before any look-up, the bulk update that
 * bypasses the document hooks, and the list's page arithmetic.
 */
module MessageController {
  import opened Wrappers
  import opened MessageModel
  import opened Http

  /** What the handlers put under `data` in their replies. */
  datatype MessageData =
    | Doc(record: MessageRecord)
    | Receipt(id: MessageId, name: string, email: string, subject: string, createdAt: nat)
    | Listing(messages: seq<MessageRecord>, page: nat, limit: nat, total: nat, pages: Option<nat>)
    | NoData

  const NOT_FOUND := ApiError(404, "Message not found", None)
  const INVALID_STATUS := ApiError(400, "Invalid status", None)
  const REPLY_REQUIRED := ApiError(400, "Subject and message are required", None)
  const NOTE_REQUIRED := ApiError(400, "Note is required", None)
  const IDS_REQUIRED := ApiError(400, "Message IDs array is required", None)
  const INVALID_ACTION := ApiError(400, "Invalid action", None)
  /** Errors raised by Mongoose itself carry no status code. */
  const VALIDATION_FAILED := ApiError(0, "Message validation failed", None)
  const CAST_FAILED := ApiError(0, "Cast to Boolean failed", None)
  const NEGATIVE_SKIP := ApiError(0, "skip value must be non-negative", None)

  /** A request-body value as JavaScript tests it with `!value`. */
  predicate Truthy(v: Option<string>) {
    v.Some? && v.value != []
  }

  // --------------------------------------------------------------- the store

  /** The message collection: documents by id. */
  class MessageStore {
    var docs: map<MessageId, MessageRecord>

    /** Every stored document carries the spam fields its own text gives. */
    ghost predicate Valid()
      reads this
    {
      forall id | id in docs :: SpamConsistent(docs[id])
    }

    constructor ()
      ensures docs == map[] && Valid()
    {
      docs := map[];
    }

    /** `findById`: a fresh document for a stored id, `null` otherwise. */
    method Load(id: MessageId) returns (m: Message?)
      ensures m == null <==> id !in docs
      ensures m != null ==> fresh(m) && m.Record() == docs[id]
    {
      if id !in docs {
        return null;
      }
      m := new Message(docs[id]);
    }

    /** Writing a document back, as `save` and `create` do. */
    method Put(id: MessageId, r: MessageRecord)
      requires Valid() && SpamConsistent(r)
      modifies this
      ensures docs == old(docs)[id := r] && Valid()
    {
      docs := docs[id := r];
    }

    /** `deleteOne` */
    method Remove(id: MessageId)
      modifies this
      ensures docs == old(docs) - {id}
    {
      docs := docs - {id};
    }

    /** `updateMany({ _id: { $in: ids } }, update)`: no hook, no validator. */
    method UpdateMany(ids: seq<MessageId>, u: BulkUpdate)
      modifies this
      ensures docs == BulkApplied(old(docs), ids, u)
    {
      docs := BulkApplied(docs, ids, u);
    }
  }

  // ------------------------------------------------------ single-message handlers

  /**
   * `getMessage`: an unread message is marked read (and saved) before it is
   * returned; when that save is refused, the validation error is a 500 and
   * nothing is written.
   */
  method GetMessage(res: Response<MessageData>, store: MessageStore, id: MessageId, now: nat)
    requires store.Valid()
    modifies store, res
    ensures store.Valid()
    ensures id !in old(store.docs) ==>
      store.docs == old(store.docs) && res.status == 404 && res.body == Some(Fail(NOT_FOUND.message, None, None))
    ensures id in old(store.docs) && old(store.docs[id]).status == "Unread" && !EnumsValid(old(store.docs[id])) ==>
      store.docs == old(store.docs) && res.status == 500
    ensures id in old(store.docs) && (old(store.docs[id]).status != "Unread" || EnumsValid(old(store.docs[id]))) ==>
      var r := old(store.docs[id]);
      var r' := if r.status == "Unread" then MarkedRead(r, now) else r;
      store.docs == old(store.docs)[id := r'] && res.status == 200
      && res.body == Some(Data(Doc(r'), "Message retrieved successfully"))
    ensures res.cookies == old(res.cookies)
  {
    var m := store.Load(id);
    if m == null {
      res.Error(NOT_FOUND);
      return;
    }
    if m.status == "Unread" {
      var saved := m.MarkAsRead(now);
      if !saved {
        res.Error(VALIDATION_FAILED);
        return;
      }
      store.Put(id, m.Record());
    }
    res.Json(200, Data(Doc(m.Record()), "Message retrieved successfully"));
  }

  /** The assignments of `updateMessageStatus`, before its `save()`. */
  function StatusAssigned(r: MessageRecord, status: string, now: nat): (a: MessageRecord)
    ensures status in STATUSES ==> (EnumsValid(a) <==> r.category in CATEGORIES && r.priority in PRIORITIES)
  {
    r.(status := status, readAt := if status == "Read" && r.readAt.None? then Some(now) else r.readAt)
  }

  /** What `updateMessageStatus` stores: the new status, `readAt` filled only when it is empty, then the hook. */
  function StatusSet(r: MessageRecord, status: string, now: nat): (s: MessageRecord)
    ensures s.status == status
    ensures r.readAt.Some? ==> s.readAt == r.readAt
    ensures r.readAt.None? ==> (s.readAt.Some? <==> status == "Read") && (s.readAt.Some? ==> s.readAt.value == now)
    ensures s.readCount == r.readCount && s.replies == r.replies && s.internalNotes == r.internalNotes
    ensures SpamConsistent(s)
  {
    Saved(StatusAssigned(r, status, now), false)
  }

  /** The handler's own assignments to the loaded document, then `save()`; `saved` is false when it is refused. */
  method AssignStatus(m: Message, status: string, now: nat) returns (saved: bool)
    modifies m
    ensures saved == EnumsValid(StatusAssigned(old(m.Record()), status, now))
    ensures m.Record() == if saved then StatusSet(old(m.Record()), status, now) else StatusAssigned(old(m.Record()), status, now)
  {
    m.status := status;
    if status == "Read" && m.readAt.None? {
      m.readAt := Some(now);
    }
    assert m.Record() == StatusAssigned(old(m.Record()), status, now);
    saved := m.Save(false);
  }

  /** `updateMessageStatus`: a status outside the five is refused before the message is looked up. */
  method UpdateMessageStatus(res: Response<MessageData>, store: MessageStore, id: MessageId, status: Option<string>, now: nat)
    requires store.Valid()
    modifies store, res
    ensures store.Valid()
    ensures status.None? || status.value !in STATUSES ==>
      store.docs == old(store.docs) && res.status == 400 && res.body == Some(Fail(INVALID_STATUS.message, None, None))
    ensures status.Some? && status.value in STATUSES && id !in old(store.docs) ==>
      store.docs == old(store.docs) && res.status == 404
    ensures status.Some? && status.value in STATUSES && id in old(store.docs) && !EnumsValid(old(store.docs[id]).(status := status.value)) ==>
      store.docs == old(store.docs) && res.status == 500
    ensures status.Some? && status.value in STATUSES && id in old(store.docs) && EnumsValid(old(store.docs[id]).(status := status.value)) ==>
      var r' := StatusSet(old(store.docs[id]), status.value, now);
      store.docs == old(store.docs)[id := r'] && res.status == 200
      && res.body == Some(Data(Doc(r'), "Message status updated successfully"))
    ensures res.cookies == old(res.cookies)
  {
    if status.None? || status.value !in STATUSES {
      res.Error(INVALID_STATUS);
      return;
    }
    var m := store.Load(id);
    if m == null {
      res.Error(NOT_FOUND);
      return;
    }
    var saved := AssignStatus(m, status.value, now);
    if !saved {
      res.Error(VALIDATION_FAILED);
      return;
    }
    store.Put(id, m.Record());
    res.Json(200, Data(Doc(m.Record()), "Message status updated successfully"));
  }

  /** `replyToMessage`: subject and text are both required before the look-up; the sender defaults. */
  method ReplyToMessage(res: Response<MessageData>, store: MessageStore, id: MessageId,
                        subject: Option<string>, message: Option<string>, sentBy: Option<string>, now: nat)
    requires store.Valid()
    modifies store, res
    ensures store.Valid()
    ensures !Truthy(subject) || !Truthy(message) ==>
      store.docs == old(store.docs) && res.status == 400 && res.body == Some(Fail(REPLY_REQUIRED.message, None, None))
    ensures Truthy(subject) && Truthy(message) && id !in old(store.docs) ==>
      store.docs == old(store.docs) && res.status == 404
    ensures Truthy(subject) && Truthy(message) && id in old(store.docs) && !EnumsValid(old(store.docs[id]).(status := "Replied")) ==>
      store.docs == old(store.docs) && res.status == 500
    ensures Truthy(subject) && Truthy(message) && id in old(store.docs) && EnumsValid(old(store.docs[id]).(status := "Replied")) ==>
      var r' := Replied(old(store.docs[id]), subject.value, message.value, sentBy.GetOr(DEFAULT_SENDER), now);
      store.docs == old(store.docs)[id := r'] && res.status == 200
      && res.body == Some(Data(Doc(r'), "Reply sent successfully"))
    ensures res.cookies == old(res.cookies)
  {
    if !Truthy(subject) || !Truthy(message) {
      res.Error(REPLY_REQUIRED);
      return;
    }
    var m := store.Load(id);
    if m == null {
      res.Error(NOT_FOUND);
      return;
    }
    var saved := m.AddReply(subject.value, message.value, sentBy.GetOr(DEFAULT_SENDER), now);
    if !saved {
      res.Error(VALIDATION_FAILED);
      return;
    }
    store.Put(id, m.Record());
    res.Json(200, Data(Doc(m.Record()), "Reply sent successfully"));
  }

  /** `toggleStar`; the reply names the new state. */
  method ToggleStar(res: Response<MessageData>, store: MessageStore, id: MessageId)
    requires store.Valid()
    modifies store, res
    ensures store.Valid()
    ensures id !in old(store.docs) ==>
      store.docs == old(store.docs) && res.status == 404 && res.body == Some(Fail(NOT_FOUND.message, None, None))
    ensures id in old(store.docs) && !EnumsValid(old(store.docs[id])) ==>
      store.docs == old(store.docs) && res.status == 500
    ensures id in old(store.docs) && EnumsValid(old(store.docs[id])) ==>
      var r' := StarToggled(old(store.docs[id]));
      store.docs == old(store.docs)[id := r'] && res.status == 200
      && res.body == Some(Data(Doc(r'), if r'.isStarred then "Message starred successfully" else "Message unstarred successfully"))
    ensures res.cookies == old(res.cookies)
  {
    var m := store.Load(id);
    if m == null {
      res.Error(NOT_FOUND);
      return;
    }
    var saved := m.ToggleStar();
    if !saved {
      res.Error(VALIDATION_FAILED);
      return;
    }
    store.Put(id, m.Record());
    res.Json(200, Data(Doc(m.Record()), if m.isStarred then "Message starred successfully" else "Message unstarred successfully"));
  }

  /** `toggleFlag`; the reply names the new state. */
  method ToggleFlag(res: Response<MessageData>, store: MessageStore, id: MessageId)
    requires store.Valid()
    modifies store, res
    ensures store.Valid()
    ensures id !in old(store.docs) ==>
      store.docs == old(store.docs) && res.status == 404 && res.body == Some(Fail(NOT_FOUND.message, None, None))
    ensures id in old(store.docs) && !EnumsValid(old(store.docs[id])) ==>
      store.docs == old(store.docs) && res.status == 500
    ensures id in old(store.docs) && EnumsValid(old(store.docs[id])) ==>
      var r' := FlagToggled(old(store.docs[id]));
      store.docs == old(store.docs)[id := r'] && res.status == 200
      && res.body == Some(Data(Doc(r'), if r'.isFlagged then "Message flagged successfully" else "Message unflagged successfully"))
    ensures res.cookies == old(res.cookies)
  {
    var m := store.Load(id);
    if m == null {
      res.Error(NOT_FOUND);
      return;
    }
    var saved := m.ToggleFlag();
    if !saved {
      res.Error(VALIDATION_FAILED);
      return;
    }
    store.Put(id, m.Record());
    res.Json(200, Data(Doc(m.Record()), if m.isFlagged then "Message flagged successfully" else "Message unflagged successfully"));
  }

  /** `addNote`: the note text is required before the look-up. */
  method AddNote(res: Response<MessageData>, store: MessageStore, id: MessageId, note: Option<string>, now: nat)
    requires store.Valid()
    modifies store, res
    ensures store.Valid()
    ensures !Truthy(note) ==>
      store.docs == old(store.docs) && res.status == 400 && res.body == Some(Fail(NOTE_REQUIRED.message, None, None))
    ensures Truthy(note) && id !in old(store.docs) ==>
      store.docs == old(store.docs) && res.status == 404
    ensures Truthy(note) && id in old(store.docs) && !EnumsValid(old(store.docs[id])) ==>
      store.docs == old(store.docs) && res.status == 500
    ensures Truthy(note) && id in old(store.docs) && EnumsValid(old(store.docs[id])) ==>
      var r' := Noted(old(store.docs[id]), note.value, now);
      store.docs == old(store.docs)[id := r'] && res.status == 200
      && res.body == Some(Data(Doc(r'), "Note added successfully"))
    ensures res.cookies == old(res.cookies)
  {
    if !Truthy(note) {
      res.Error(NOTE_REQUIRED);
      return;
    }
    var m := store.Load(id);
    if m == null {
      res.Error(NOT_FOUND);
      return;
    }
    var saved := m.AddNote(note.value, now);
    if !saved {
      res.Error(VALIDATION_FAILED);
      return;
    }
    store.Put(id, m.Record());
    res.Json(200, Data(Doc(m.Record()), "Note added successfully"));
  }

  /** `deleteMessage` */
  method DeleteMessage(res: Response<MessageData>, store: MessageStore, id: MessageId)
    requires store.Valid()
    modifies store, res
    ensures store.Valid()
    ensures id !in old(store.docs) ==>
      store.docs == old(store.docs) && res.status == 404 && res.body == Some(Fail(NOT_FOUND.message, None, None))
    ensures id in old(store.docs) ==>
      store.docs == old(store.docs) - {id} && res.status == 200
      && res.body == Some(Data(NoData, "Message deleted successfully"))
    ensures res.cookies == old(res.cookies)
  {
    var m := store.Load(id);
    if m == null {
      res.Error(NOT_FOUND);
      return;
    }
    store.Remove(id);
    res.Json(200, Data(NoData, "Message deleted successfully"));
  }

  /** `createMessage`: the public contact form; a validation failure reaches the global handler as a 500. */
  method CreateMessage(res: Response<MessageData>, store: MessageStore, newId: MessageId, sub: Submission, now: nat)
    requires store.Valid()
    modifies store, res
    ensures store.Valid()
    ensures NewMessage(sub, now).Failure? ==> store.docs == old(store.docs) && res.status == 500
    ensures NewMessage(sub, now).Success? ==>
      var r := NewMessage(sub, now).value;
      store.docs == old(store.docs)[newId := r] && res.status == 201
      && res.body == Some(Data(Receipt(newId, r.name, r.email, r.subject, now), "Message sent successfully! I'll get back to you soon."))
    ensures res.cookies == old(res.cookies)
  {
    var created := StoreNew(store, newId, sub, now);
    ReplyCreated(res, created, newId, now);
  }

  /** The reply of `createMessage`: 201 with the receipt, or the validation failure as a 500. */
  method ReplyCreated(res: Response<MessageData>, created: Result<MessageRecord, seq<FieldError>>, newId: MessageId, now: nat)
    modifies res
    ensures created.Failure? ==> res.status == 500
    ensures created.Success? ==>
      var r := created.value;
      res.status == 201
      && res.body == Some(Data(Receipt(newId, r.name, r.email, r.subject, now), "Message sent successfully! I'll get back to you soon."))
    ensures res.cookies == old(res.cookies)
  {
    if created.Failure? {
      res.Error(VALIDATION_FAILED);
      return;
    }
    var r := created.value;
    res.Json(201, Data(Receipt(newId, r.name, r.email, r.subject, now), "Message sent successfully! I'll get back to you soon."));
  }

  /** The write of `Message.create`: the new document is stored when it validates. */
  method StoreNew(store: MessageStore, newId: MessageId, sub: Submission, now: nat) returns (created: Result<MessageRecord, seq<FieldError>>)
    requires store.Valid()
    modifies store
    ensures store.Valid() && created == NewMessage(sub, now)
    ensures created.Failure? ==> store.docs == old(store.docs)
    ensures created.Success? ==> store.docs == old(store.docs)[newId := created.value]
  {
    created := NewMessage(sub, now);
    if created.Success? {
      store.Put(newId, created.value);
    }
  }

  // -------------------------------------------------------------- bulk update

  /** The request's `value`, as far as the handler passes it on. */
  datatype JsonValue = JString(s: string) | JBool(b: bool)

  /** The one-field update each action builds. */
  datatype BulkUpdate =
    | SetStatus(status: string)
    | SetStarred(starred: bool)
    | SetFlagged(flagged: bool)
    | SetCategory(category: string)
    | SetPriority(priority: string)

  /** Mongoose's cast of a value to a string path. */
  function CastString(v: JsonValue): string {
    match v
    case JString(s) => s
    case JBool(b) => if b then "true" else "false"
  }

  /** Mongoose's cast of a value to a Boolean path; `None` is a cast error. */
  function CastBoolean(v: JsonValue): (r: Option<bool>)
    ensures v.JBool? ==> r == Some(v.b)
    ensures v.JString? ==> (r == Some(true) <==> v.s in ["true", "1", "yes"])
    ensures v.JString? ==> (r == Some(false) <==> v.s in ["false", "0", "no"])
  {
    match v
    case JBool(b) => Some(b)
    case JString(s) =>
      if s in ["true", "1", "yes"] then Some(true)
      else if s in ["false", "0", "no"] then Some(false)
      else None
  }

  /** The action switch, then the cast `updateMany` applies to the value. */
  function BulkAction(action: string, value: JsonValue): (r: Result<BulkUpdate, ApiError>)
    ensures action !in ["status", "star", "flag", "category", "priority"] <==> r == Failure(INVALID_ACTION)
    ensures action == "status" ==> r == Success(SetStatus(CastString(value)))
    ensures action == "category" ==> r == Success(SetCategory(CastString(value)))
    ensures action == "priority" ==> r == Success(SetPriority(CastString(value)))
    ensures action == "star" ==> (r.Success? <==> CastBoolean(value).Some?) && (r.Success? ==> r.value == SetStarred(CastBoolean(value).value))
    ensures action == "flag" ==> (r.Success? <==> CastBoolean(value).Some?) && (r.Success? ==> r.value == SetFlagged(CastBoolean(value).value))
  {
    if action == "status" then Success(SetStatus(CastString(value)))
    else if action == "star" then
      (if CastBoolean(value).Some? then Success(SetStarred(CastBoolean(value).value)) else Failure(CAST_FAILED))
    else if action == "flag" then
      (if CastBoolean(value).Some? then Success(SetFlagged(CastBoolean(value).value)) else Failure(CAST_FAILED))
    else if action == "category" then Success(SetCategory(CastString(value)))
    else if action == "priority" then Success(SetPriority(CastString(value)))
    else Failure(INVALID_ACTION)
  }

  /** One document under a bulk update: exactly the named field changes, and the hook does not run. */
  function ApplyUpdate(r: MessageRecord, u: BulkUpdate): (s: MessageRecord)
    ensures u.SetStatus? ==> s == r.(status := u.status)
    ensures u.SetStarred? ==> s == r.(isStarred := u.starred)
    ensures u.SetFlagged? ==> s == r.(isFlagged := u.flagged)
    ensures u.SetCategory? ==> s == r.(category := u.category)
    ensures u.SetPriority? ==> s == r.(priority := u.priority)
    ensures s.message == r.message && s.subject == r.subject && s.spamScore == r.spamScore && s.isSpam == r.isSpam
  {
    match u
    case SetStatus(v) => r.(status := v)
    case SetStarred(v) => r.(isStarred := v)
    case SetFlagged(v) => r.(isFlagged := v)
    case SetCategory(v) => r.(category := v)
    case SetPriority(v) => r.(priority := v)
  }

  /** The collection after `updateMany`: listed ids that exist are updated, nothing else changes. */
  function BulkApplied(docs: map<MessageId, MessageRecord>, ids: seq<MessageId>, u: BulkUpdate): (d: map<MessageId, MessageRecord>)
    ensures d.Keys == docs.Keys
    ensures forall id | id in docs :: d[id] == if id in ids then ApplyUpdate(docs[id], u) else docs[id]
  {
    map id | id in docs :: if id in ids then ApplyUpdate(docs[id], u) else docs[id]
  }

  /** `bulkUpdateMessages` */
  method BulkUpdateMessages(res: Response<MessageData>, store: MessageStore, ids: Option<seq<MessageId>>, action: string, value: JsonValue)
    requires store.Valid()
    modifies store, res
    ensures store.Valid()
    ensures ids.None? || ids.value == [] ==>
      store.docs == old(store.docs) && res.status == 400 && res.body == Some(Fail(IDS_REQUIRED.message, None, None))
    ensures ids.Some? && ids.value != [] && BulkAction(action, value).Failure? ==>
      store.docs == old(store.docs) && res.status == ErrorStatus(BulkAction(action, value).error)
    ensures ids.Some? && ids.value != [] && BulkAction(action, value).Success? ==>
      store.docs == BulkApplied(old(store.docs), ids.value, BulkAction(action, value).value)
      && res.status == 200 && res.body == Some(Data(NoData, "Messages updated successfully"))
    ensures res.cookies == old(res.cookies)
  {
    if ids.None? || ids.value == [] {
      res.Error(IDS_REQUIRED);
      return;
    }
    var update := BulkAction(action, value);
    if update.Failure? {
      res.Error(update.error);
      return;
    }
    store.UpdateMany(ids.value, update.value);
    res.Json(200, Data(NoData, "Messages updated successfully"));
  }

  /** An unknown action is a 400 and touches no document. */
  lemma UnknownActionRefused(action: string, value: JsonValue)
    requires action !in ["status", "star", "flag", "category", "priority"]
    ensures BulkAction(action, value).Failure? && ErrorStatus(BulkAction(action, value).error) == 400
  {
  }

  /**
   * The bulk path skips the validators the single-message path applies: a
   * status outside the five can be stored in bulk, never by
   * `updateMessageStatus`.
   */
  lemma {:induction false} BulkBypassesStatusEnum(r: MessageRecord, now: nat)
    ensures ApplyUpdate(r, BulkAction("status", JString("Done")).value).status == "Done"
    ensures "Done" !in STATUSES
    ensures forall s | s in STATUSES :: StatusSet(r, s, now).status in STATUSES
  {
    assert "Done" != "Unread" && "Done" != "Read" && "Done" != "Replied" && "Done" != "Archived" && "Done" != "Spam";
  }

  /**
   * What a bulk update does to the schema's enumerations: from a valid
   * message it keeps them exactly when its value lies in the field's list.
   */
  lemma BulkUpdateEnums(r: MessageRecord, u: BulkUpdate)
    requires EnumsValid(r)
    ensures EnumsValid(ApplyUpdate(r, u)) <==>
      (u.SetStatus? ==> u.status in STATUSES) && (u.SetCategory? ==> u.category in CATEGORIES)
      && (u.SetPriority? ==> u.priority in PRIORITIES)
  {
  }

  /**
   * A bulk category outside the schema, then a star toggle on that message:
   * the bulk write goes through, and the toggle's save is refused with 500.
   */
  method BulkCategoryThenStar(res: Response<MessageData>, store: MessageStore, id: MessageId, category: string)
    requires store.Valid() && id in store.docs && category !in CATEGORIES
    modifies store, res
    ensures res.status == 500
    ensures store.docs == old(store.docs)[id := old(store.docs[id]).(category := category)]
  {
    var bulk := new Response<MessageData>();
    BulkOfOne(store.docs, id, SetCategory(category));
    BulkUpdateMessages(bulk, store, Some([id]), "category", JString(category));
    ToggleStar(res, store, id);
  }

  /** A bulk update of one listed id changes that document alone. */
  lemma BulkOfOne(docs: map<MessageId, MessageRecord>, id: MessageId, u: BulkUpdate)
    requires id in docs
    ensures BulkApplied(docs, [id], u) == docs[id := ApplyUpdate(docs[id], u)]
  {
  }

  // ---------------------------------------------------------------- the list

  /** The admin list's query parameters; an absent parameter is `None`. */
  datatype ListQuery = ListQuery(status: Option<string>, category: Option<string>, priority: Option<string>,
                                 starred: Option<string>, flagged: Option<string>)

  /** The list filter: spam is always excluded; empty strings do not filter; `starred`/`flagged` compare with 'true'. */
  predicate Listed(r: MessageRecord, q: ListQuery)
    ensures Listed(r, q) ==> !r.isSpam
  {
    !r.isSpam
    && (Truthy(q.status) ==> r.status == q.status.value)
    && (Truthy(q.category) ==> r.category == q.category.value)
    && (Truthy(q.priority) ==> r.priority == q.priority.value)
    && (q.starred.Some? ==> r.isStarred == (q.starred.value == "true"))
    && (q.flagged.Some? ==> r.isFlagged == (q.flagged.value == "true"))
  }

  function Matching(xs: seq<MessageRecord>, q: ListQuery): (ys: seq<MessageRecord>)
    ensures |ys| <= |xs|
    ensures forall y | y in ys :: y in xs && Listed(y, q)
    ensures forall x | x in xs && Listed(x, q) :: x in ys
  {
    if xs == [] then []
    else (if Listed(xs[0], q) then [xs[0]] else []) + Matching(xs[1..], q)
  }

  /** `(page - 1) * limit` */
  function Skip(page: nat, limit: nat): int {
    (page - 1) * limit
  }

  /** `Math.ceil(total / limit)`; a zero limit divides to Infinity or NaN, both written as `null`. */
  function PageCount(total: nat, limit: nat): (pages: Option<nat>)
    ensures pages.None? <==> limit == 0
    ensures pages.Some? ==> pages.value * limit >= total
    ensures pages.Some? && pages.value > 0 ==> (pages.value - 1) * limit < total
  {
    if limit == 0 then None else Some((total + limit - 1) / limit)
  }

  /**
   * `.limit(limit).skip(skip)` on the sorted matches: the server applies the
   * skip first; a limit of 0 means no limit; a negative skip is an error.
   */
  function PageOf(xs: seq<MessageRecord>, page: nat, limit: nat): (r: Option<seq<MessageRecord>>)
    ensures r.None? <==> page == 0 && limit > 0
    ensures r.Some? && limit > 0 ==> |r.value| <= limit
    ensures r.Some? ==> forall k | 0 <= k < |r.value| :: Skip(page, limit) + k < |xs| && r.value[k] == xs[Skip(page, limit) + k]
  {
    var skip := Skip(page, limit);
    if skip < 0 then None
    else if skip >= |xs| then Some([])
    else if limit == 0 || skip + limit >= |xs| then Some(xs[skip..])
    else Some(xs[skip..skip + limit])
  }

  /** Every match appears on the page its position gives, at its offset in that page. */
  lemma {:induction false} EveryMatchOnItsPage(xs: seq<MessageRecord>, limit: nat, i: nat)
    requires limit > 0 && i < |xs|
    ensures var p := i / limit + 1;
      p <= PageCount(|xs|, limit).value
      && PageOf(xs, p, limit).Some? && i % limit < |PageOf(xs, p, limit).value|
      && PageOf(xs, p, limit).value[i % limit] == xs[i]
  {
    var p := i / limit + 1;
    PageWithinCount(|xs|, limit, i);
    assert Skip(p, limit) + i % limit == i by {
      assert (i / limit) * limit + i % limit == i;
    }
    assert (p - 1) * limit <= i;
  }

  /** The page an index falls on is one of the pages the list reports. */
  lemma PageWithinCount(total: nat, limit: nat, i: nat)
    requires limit > 0 && i < total
    ensures i / limit + 1 <= PageCount(total, limit).value
  {
    var pages := PageCount(total, limit).value;
    if pages < i / limit + 1 {
      assert false;
    }
  }

  /** `order` lists every stored id exactly once, as `find` returns the whole collection once. */
  ghost predicate ListsCollection(docs: map<MessageId, MessageRecord>, order: seq<MessageId>) {
    (forall id :: id in docs <==> id in order)
    && forall i, j | 0 <= i < j < |order| :: order[i] != order[j]
  }

  /** The stored ids whose message the list shows. */
  function ListedIds(docs: map<MessageId, MessageRecord>, q: ListQuery): set<MessageId> {
    set id | id in docs && Listed(docs[id], q)
  }

  /**
   * Matching the documents of a listing of the whole collection counts each
   * stored message the query shows exactly once: the `total` is the
   * `countDocuments` of the same query.
   */
  lemma MatchCountIsCollectionCount(docs: map<MessageId, MessageRecord>, order: seq<MessageId>, q: ListQuery)
    requires ListsCollection(docs, order)
    ensures |Matching(Ordered(docs, order), q)| == |ListedIds(docs, q)|
  {
    MatchCount(docs, order, q);
    ListedInMembers(docs, order, q);
    assert ListedIn(docs, order, q) == ListedIds(docs, q);
  }

  /** The ids of `order` whose message the list shows, gathered one by one. */
  ghost function ListedIn(docs: map<MessageId, MessageRecord>, order: seq<MessageId>, q: ListQuery): set<MessageId>
    requires forall k | 0 <= k < |order| :: order[k] in docs
  {
    if order == [] then {}
    else (if Listed(docs[order[0]], q) then {order[0]} else {}) + ListedIn(docs, order[1..], q)
  }

  lemma {:induction false} ListedInMembers(docs: map<MessageId, MessageRecord>, order: seq<MessageId>, q: ListQuery)
    requires forall k | 0 <= k < |order| :: order[k] in docs
    ensures forall k :: k in ListedIn(docs, order, q) <==> k in order && Listed(docs[k], q)
  {
    if order != [] {
      ListedInMembers(docs, order[1..], q);
      assert forall k :: k in order <==> k == order[0] || k in order[1..];
    }
  }

  lemma {:induction false} MatchCount(docs: map<MessageId, MessageRecord>, order: seq<MessageId>, q: ListQuery)
    requires forall k | 0 <= k < |order| :: order[k] in docs
    requires forall i, j | 0 <= i < j < |order| :: order[i] != order[j]
    ensures |Matching(Ordered(docs, order), q)| == |ListedIn(docs, order, q)|
  {
    if order != [] {
      var rest := order[1..];
      MatchCount(docs, rest, q);
      ListedInMembers(docs, rest, q);
      assert order[0] !in ListedIn(docs, rest, q);
      assert Ordered(docs, order)[1..] == Ordered(docs, rest);
    }
  }

  /** `getAdminMessages` over the whole collection in the requested sort order. */
  method GetAdminMessages(res: Response<MessageData>, store: MessageStore, order: seq<MessageId>, q: ListQuery, page: nat, limit: nat)
    requires ListsCollection(store.docs, order)
    modifies res
    ensures var matches := Matching(Ordered(store.docs, order), q);
      |matches| == |ListedIds(store.docs, q)|
      && (page == 0 && limit > 0 ==> res.status == 500)
      && (PageOf(matches, page, limit).Some? ==>
          res.status == 200
          && res.body == Some(Data(Listing(PageOf(matches, page, limit).value, page, limit, |matches|, PageCount(|matches|, limit)),
                                   "Messages retrieved successfully")))
    ensures res.cookies == old(res.cookies)
  {
    var matches := Matching(Ordered(store.docs, order), q);
    MatchCountIsCollectionCount(store.docs, order, q);
    var window := PageOf(matches, page, limit);
    if window.None? {
      res.Error(NEGATIVE_SKIP);
      return;
    }
    res.Json(200, Data(Listing(window.value, page, limit, |matches|, PageCount(|matches|, limit)), "Messages retrieved successfully"));
  }

  /** The documents of `order`, looked up in `docs`. */
  function Ordered(docs: map<MessageId, MessageRecord>, order: seq<MessageId>): (xs: seq<MessageRecord>)
    requires forall k | 0 <= k < |order| :: order[k] in docs
    ensures |xs| == |order| && forall k | 0 <= k < |order| :: xs[k] == docs[order[k]]
  {
    if order == [] then [] else [docs[order[0]]] + Ordered(docs, order[1..])
  }
}
