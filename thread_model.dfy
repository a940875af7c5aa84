/**
 * The Thread model: MessageSchema and ThreadSchema as datatypes with the
 * validity the schemas enforce on save, the `_id` type Mongoose gives every
 * document, and the two objects the handlers work with: a Thread document
 * (created with `new Thread(...)` or loaded by `findOne`, changed in place,
 * then saved) and the collection of stored threads.
 */
module ThreadModel {
  import opened Wrappers

  // ---------------------------------------------------------------- ids

  predicate IsHexDigit(c: char)
  {
    ('0' <= c <= '9') || ('a' <= c <= 'f') || ('A' <= c <= 'F')
  }

  predicate IsLowerHexDigit(c: char)
  {
    ('0' <= c <= '9') || ('a' <= c <= 'f')
  }

  /** The value of a hexadecimal digit, whatever its case. */
  function HexValue(c: char): (v: nat)
    requires IsHexDigit(c)
    ensures v < 16
  {
    if '0' <= c <= '9' then c as nat - '0' as nat
    else if 'a' <= c <= 'f' then c as nat - 'a' as nat + 10
    else c as nat - 'A' as nat + 10
  }

  /** The canonical text of an ObjectId: 24 lower-case hexadecimal digits. */
  type ObjectId = s: string | |s| == 24 && forall i :: 0 <= i < |s| ==> IsLowerHexDigit(s[i])
    witness "000000000000000000000000"

  function LowerHexDigit(c: char): (d: char)
    requires IsHexDigit(c)
    ensures IsLowerHexDigit(d) && HexValue(d) == HexValue(c)
  {
    if 'A' <= c <= 'F' then (c as int - 'A' as int + 'a' as int) as char else c
  }

  /**
   * The cast Mongoose applies to a string compared with `_id`: a string of
   * 24 hexadecimal digits (either case) denotes the ObjectId of those 12
   * bytes; any other string makes the query fail with a cast error.
   */
  function CastObjectId(s: string): (r: Option<ObjectId>)
    ensures r.Some? <==> |s| == 24 && forall i :: 0 <= i < |s| ==> IsHexDigit(s[i])
    ensures r.Some? ==> forall i :: 0 <= i < 24 ==> HexValue(r.value[i]) == HexValue(s[i])
  {
    if |s| == 24 && forall i :: 0 <= i < |s| ==> IsHexDigit(s[i]) then
      var id := seq(24, i requires 0 <= i < 24 => LowerHexDigit(s[i]));
      Some(id)
    else
      None
  }

  /** Two ids with the same digit values are the same id. */
  lemma {:induction false} SameDigitsSameId(a: ObjectId, b: ObjectId)
    requires forall i :: 0 <= i < 24 ==> HexValue(a[i]) == HexValue(b[i])
    ensures a == b
  {
    forall i | 0 <= i < 24
      ensures a[i] == b[i]
    {
      assert HexValue(a[i]) == HexValue(b[i]);
    }
  }

  /** Casting the canonical text of an id gives that id back. */
  lemma CastCanonical(id: ObjectId)
    ensures CastObjectId(id) == Some(id)
  {
    var r := CastObjectId(id);
    SameDigitsSameId(r.value, id);
  }

  /** Two strings denote the same id exactly when they spell the same digits, ignoring case. */
  lemma CastIgnoresCase(s: string, t: string)
    requires CastObjectId(s).Some? && CastObjectId(t).Some?
    ensures CastObjectId(s) == CastObjectId(t) <==> forall i :: 0 <= i < 24 ==> HexValue(s[i]) == HexValue(t[i])
  {
    var a, b := CastObjectId(s).value, CastObjectId(t).value;
    if forall i :: 0 <= i < 24 ==> HexValue(s[i]) == HexValue(t[i]) {
      SameDigitsSameId(a, b);
    }
  }

  // ---------------------------------------------------------------- schemas

  /** MessageSchema.role: a string restricted to the enum ["user", "assistant"]. */
  datatype Role = User | Assistant

  function RoleName(r: Role): string
  {
    match r
    case User => "user"
    case Assistant => "assistant"
  }

  /** Casting a string against the role enum. */
  function ParseRole(s: string): (r: Option<Role>)
    ensures r.Some? <==> s == "user" || s == "assistant"
    ensures r.Some? ==> RoleName(r.value) == s
  {
    if s == "user" then Some(User)
    else if s == "assistant" then Some(Assistant)
    else None
  }

  lemma RoleRoundTrip(r: Role)
    ensures ParseRole(RoleName(r)) == Some(r)
    ensures RoleName(r) == "user" || RoleName(r) == "assistant"
  {
  }

  /** A message subdocument; `timestamps: true` gives it createdAt and updatedAt. */
  datatype Message = Message(role: Role, content: string, createdAt: nat, updatedAt: nat)

  /** A thread document (without its `_id`, which is the key it is stored under). */
  datatype Thread = Thread(userId: string, title: string, messages: seq<Message>, createdAt: nat, updatedAt: nat)

  const DefaultTitle: string := "New Chat"
  const MaxTitleLength: nat := 100

  /** The paths a failed validation reports. */
  datatype Path = UserIdPath | TitlePath | ContentPath(index: nat)

  /**
   * What validation reports for a thread: `userId` and each message's
   * `content` are required (for a String, Mongoose's required check also
   * rejects ""), and `title` has at most MaxTitleLength characters. The role
   * enum holds by the type of Role.
   */
  function Violations(t: Thread): set<Path>
  {
    (if t.userId == "" then {UserIdPath} else {})
    + (if |t.title| > MaxTitleLength then {TitlePath} else {})
    + (set i | 0 <= i < |t.messages| && t.messages[i].content == "" :: ContentPath(i))
  }

  predicate ValidMessage(m: Message)
  {
    m.content != ""
  }

  predicate ValidThread(t: Thread)
  {
    && t.userId != ""
    && |t.title| <= MaxTitleLength
    && forall i :: 0 <= i < |t.messages| ==> ValidMessage(t.messages[i])
  }

  /** Validation passes exactly for valid threads, and names each offending path. */
  lemma ViolationsIffInvalid(t: Thread)
    ensures Violations(t) == {} <==> ValidThread(t)
    ensures UserIdPath in Violations(t) <==> t.userId == ""
    ensures TitlePath in Violations(t) <==> |t.title| > MaxTitleLength
    ensures forall i: nat :: ContentPath(i) in Violations(t) <==> i < |t.messages| && t.messages[i].content == ""
  {
    forall i: nat | ContentPath(i) in Violations(t)
      ensures i < |t.messages| && t.messages[i].content == ""
    {
      var j :| 0 <= j < |t.messages| && t.messages[j].content == "" && ContentPath(j) == ContentPath(i);
    }
    if !ValidThread(t) && t.userId != "" && |t.title| <= MaxTitleLength {
      var i :| 0 <= i < |t.messages| && !ValidMessage(t.messages[i]);
      assert ContentPath(i) in Violations(t);
    }
  }

  /** Appending valid messages to a valid thread keeps it valid. */
  lemma AppendKeepsValid(t: Thread, ms: seq<Message>)
    requires ValidThread(t)
    requires forall i :: 0 <= i < |ms| ==> ValidMessage(ms[i])
    ensures ValidThread(t.(messages := t.messages + ms))
  {
    var u := t.messages + ms;
    forall i | 0 <= i < |u|
      ensures ValidMessage(u[i])
    {
      if i >= |t.messages| {
        assert u[i] == ms[i - |t.messages|];
      }
    }
  }

  /** The stored collection: every stored thread passed validation when it was saved. */
  ghost predicate ValidStore(docs: map<ObjectId, Thread>)
  {
    forall id :: id in docs ==> ValidThread(docs[id])
  }

  // ---------------------------------------------------------------- saving

  datatype SaveError =
    | ValidationFailed(paths: set<Path>)
    | Unreachable
    | DuplicateKey
    | DocumentNotFound

  /**
   * The effect of `save()` on the stored collection: validation first, then
   * an insert (a new document, stamped createdAt = updatedAt = now) or an
   * update of the stored one (updatedAt = now).
   */
  function Commit(docs: map<ObjectId, Thread>, id: ObjectId, isNew: bool, t: Thread, reachable: bool, now: nat)
    : (r: Result<map<ObjectId, Thread>, SaveError>)
    ensures r.Ok? <==> ValidThread(t) && reachable && (isNew <==> id !in docs)
    ensures r.Ok? ==> r.value.Keys == docs.Keys + {id}
    ensures r.Ok? ==> forall other :: other in docs && other != id ==> r.value[other] == docs[other]
    ensures r.Ok? ==> (r.value[id].messages == t.messages && r.value[id].userId == t.userId
                       && r.value[id].title == t.title && r.value[id].updatedAt == now)
    ensures r.Ok? ==> r.value[id].createdAt == if isNew then now else t.createdAt
    ensures r.Ok? ==> ValidStore(docs) ==> ValidStore(r.value)
  {
    ViolationsIffInvalid(t);
    if Violations(t) != {} then Err(ValidationFailed(Violations(t)))
    else if !reachable then Err(Unreachable)
    else if isNew && id in docs then Err(DuplicateKey)
    else if !isNew && id !in docs then Err(DocumentNotFound)
    else
      var stamped := t.(createdAt := if isNew then now else t.createdAt, updatedAt := now);
      Ok(docs[id := stamped])
  }

  // ---------------------------------------------------------------- objects

  /** A Mongoose document of the Thread model, changed in place before `save()`. */
  class ThreadDocument {
    const id: ObjectId
    var isNew: bool
    var userId: string
    var title: string
    var messages: seq<Message>
    var createdAt: nat
    var updatedAt: nat

    function Value(): Thread
      reads this
    {
      Thread(userId, title, messages, createdAt, updatedAt)
    }

    /** `new Thread({userId, title, messages})`: a fresh `_id`, the title default applied, not yet stored. */
    constructor Create(id: ObjectId, userId: string, title: Option<string>, messages: seq<Message>)
      ensures this.id == id && isNew
      ensures this.userId == userId && this.messages == messages
      ensures this.title == if title.Some? then title.value else DefaultTitle
      ensures createdAt == 0 && updatedAt == 0
    {
      this.id := id;
      isNew := true;
      this.userId := userId;
      this.title := if title.Some? then title.value else DefaultTitle;
      this.messages := messages;
      createdAt, updatedAt := 0, 0;
    }

    /** A document hydrated from the stored thread `t`. */
    constructor Hydrate(id: ObjectId, t: Thread)
      ensures this.id == id && !isNew && Value() == t
    {
      this.id := id;
      isNew := false;
      userId, title, messages := t.userId, t.title, t.messages;
      createdAt, updatedAt := t.createdAt, t.updatedAt;
    }

    /** `this.messages.push(m)`: the array keeps its order and gains `m` at the end. */
    method Push(m: Message)
      modifies this`messages
      ensures messages == old(messages) + [m]
    {
      messages := messages + [m];
    }
  }

  /** The stored Thread collection, keyed by `_id`. */
  class ThreadCollection {
    var docs: map<ObjectId, Thread>

    ghost predicate Valid()
      reads this
    {
      ValidStore(docs)
    }

    /** `Thread.findOne({_id: id, userId})`: another owner's thread is not found, just like a missing one. */
    method FindOne(id: ObjectId, userId: string) returns (doc: ThreadDocument?)
      ensures doc != null <==> id in docs && docs[id].userId == userId
      ensures doc != null ==> fresh(doc) && !doc.isNew && doc.id == id && doc.Value() == docs[id]
    {
      if id in docs && docs[id].userId == userId {
        doc := new ThreadDocument.Hydrate(id, docs[id]);
      } else {
        doc := null;
      }
    }

    /** `doc.save()`: the only write to the collection. */
    method Save(doc: ThreadDocument, reachable: bool, now: nat) returns (err: Option<SaveError>)
      requires Valid()
      modifies this, doc
      ensures Valid()
      ensures var c := Commit(old(docs), doc.id, old(doc.isNew), old(doc.Value()), reachable, now);
              (err.None? <==> c.Ok?) && docs == (if c.Ok? then c.value else old(docs))
      ensures err.None? ==> !doc.isNew && doc.Value() == docs[doc.id]
    {
      var c := Commit(docs, doc.id, doc.isNew, doc.Value(), reachable, now);
      if c.Err? {
        return Some(c.error);
      }
      docs := c.value;
      doc.createdAt := if doc.isNew then now else doc.createdAt;
      doc.updatedAt := now;
      doc.isNew := false;
      err := None;
    }
  }
}
