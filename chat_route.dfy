/**
 * The send-message handler (`POST` of the chat route): it authenticates the
 * caller, validates the message, continues the caller's thread or starts a
 * new one, asks the completion service for a reply with the whole
 * conversation as context, and commits the thread with a single `save()`.
 *
 * `Handle` is the handler as a transition of the stored collection; `Post`
 * is the handler as written, step by step over a Thread document, and is
 * proved to make exactly that transition.
 */
module ChatRoute {
  import opened Wrappers
  import opened JsText
  import opened ThreadModel
  import Completion

  /** The `message` field of the request body. */
  datatype MessageField =
    | Missing       // absent or null: `message?.trim()` is undefined
    | Text(text: string)
    | NotText       // a number, boolean, array or object: calling `.trim` throws a TypeError

  /** The request body after `req.json()`; `threadId` absent or null is None. */
  datatype ChatBody = ChatBody(threadId: Option<string>, message: MessageField)

  /**
   * What the handler depends on besides the caller, the body and the
   * collection: the API key, the provider behind `fetch`, whether the
   * database connects and is reachable on save, the `_id` a new Thread
   * document gets, and the clock.
   */
  datatype Env = Env(
    apiKey: Option<string>,
    provider: Completion.Request -> Completion.Exchange,
    connected: bool,
    saveReachable: bool,
    newId: ObjectId,
    now: nat)

  datatype ChatResponse =
    | Replied(reply: string, threadId: ObjectId)   // 200 {reply, threadId}
    | Failed(status: nat, error: string)

  const Unauthorized: ChatResponse := Failed(401, "Unauthorized")
  const MessageRequired: ChatResponse := Failed(400, "Message is required")
  const ThreadNotFound: ChatResponse := Failed(404, "Thread not found")
  const ProcessingFailed: ChatResponse := Failed(500, "Failed to process message")

  /** The number of characters of the raw message a new thread's title keeps. */
  const TitleLength: nat := 50

  /**
   * One run of the handler: the response, the collection afterwards, and
   * the conversation handed to the completion service (None when the
   * handler stopped before calling it).
   */
  datatype Outcome = Outcome(response: ChatResponse, docs: map<ObjectId, Thread>, context: Option<seq<Completion.ChatMessage>>)

  /** The thread the handler works on: its `_id`, whether it is new, and its content. */
  datatype Draft = Draft(id: ObjectId, isNew: bool, thread: Thread)

  /** `thread.messages.map(m => ({role: m.role, content: m.content}))`. */
  function History(ms: seq<Message>): (h: seq<Completion.ChatMessage>)
    ensures |h| == |ms|
    ensures forall i :: 0 <= i < |ms| ==> h[i] == Completion.ChatMessage(RoleName(ms[i].role), ms[i].content)
  {
    seq(|ms|, i requires 0 <= i < |ms| => Completion.ChatMessage(RoleName(ms[i].role), ms[i].content))
  }

  /** The context is built pair by pair, in order: appending a message appends its pair. */
  lemma HistoryAppend(ms: seq<Message>, m: Message)
    ensures History(ms + [m]) == History(ms) + [Completion.ChatMessage(RoleName(m.role), m.content)]
  {
    assert History(ms + [m])[|ms|] == Completion.ChatMessage(RoleName(m.role), m.content);
  }

  /** The two messages a successful call adds. */
  function Turn(message: string, reply: string, now: nat): seq<Message>
  {
    [Message(User, Trim(message), now, now), Message(Assistant, reply, now, now)]
  }

  /** Both messages of a turn pass validation when neither text is empty. */
  lemma TurnValid(message: string, reply: string, now: nat)
    requires Trim(message) != "" && reply != ""
    ensures forall i :: 0 <= i < |Turn(message, reply, now)| ==> ValidMessage(Turn(message, reply, now)[i])
  {
  }

  /**
   * Finding or creating the thread. A truthy `threadId` must name a thread
   * the caller owns (an id that is not a 24-digit hexadecimal string makes
   * the query throw); a missing, null or empty one starts a new thread
   * titled with the first TitleLength characters of the untrimmed message.
   */
  function Resolve(docs: map<ObjectId, Thread>, userId: string, threadId: Option<string>, message: string, newId: ObjectId)
    : (r: Result<Draft, ChatResponse>)
    ensures !Truthy(threadId) ==> r == Ok(Draft(newId, true, Thread(userId, Prefix(message, TitleLength), [], 0, 0)))
    ensures Truthy(threadId) && CastObjectId(threadId.value).None? ==> r == Err(ProcessingFailed)
    ensures Truthy(threadId) && CastObjectId(threadId.value).Some? ==>
              var id := CastObjectId(threadId.value).value;
              && (r.Ok? <==> id in docs && docs[id].userId == userId)
              && (r.Ok? ==> r.value == Draft(id, false, docs[id]))
              && (r.Err? ==> r.error == ThreadNotFound)
  {
    if Truthy(threadId) then
      match CastObjectId(threadId.value)
      case None => Err(ProcessingFailed)
      case Some(id) =>
        if id in docs && docs[id].userId == userId then Ok(Draft(id, false, docs[id])) else Err(ThreadNotFound)
    else
      Ok(Draft(newId, true, Thread(userId, Prefix(message, TitleLength), [], 0, 0)))
  }

  /**
   * What follows the completion call: a failure writes nothing; a reply is
   * committed in one save of the thread with the user's message and the reply.
   */
  function Settle(docs: map<ObjectId, Thread>, draft: Draft, message: string, result: Result<string, Completion.Thrown>, env: Env)
    : (p: (ChatResponse, map<ObjectId, Thread>))
    ensures p.0.Failed? ==> p.0 == ProcessingFailed && p.1 == docs
    ensures result.Err? ==> p.0.Failed?
    ensures p.0.Replied? ==>
              && result == Ok(p.0.reply)
              && p.0.threadId == draft.id
              && Commit(docs, draft.id, draft.isNew, draft.thread.(messages := draft.thread.messages + Turn(message, p.0.reply, env.now)),
                        env.saveReachable, env.now) == Ok(p.1)
  {
    if result.Err? then
      (ProcessingFailed, docs)
    else
      var final := draft.thread.(messages := draft.thread.messages + Turn(message, result.value, env.now));
      match Commit(docs, draft.id, draft.isNew, final, env.saveReachable, env.now)
      case Err(_) => (ProcessingFailed, docs)
      case Ok(committed) => (Replied(result.value, draft.id), committed)
  }

  /**
   * From the user's turn to the commit: the reply is asked for with the
   * thread's messages followed by the user's, and only once it has arrived
   * is anything written, in one save of the thread with both messages.
   */
  function Converse(docs: map<ObjectId, Thread>, draft: Draft, message: string, env: Env): (o: Outcome)
    ensures o.context == Some(History(draft.thread.messages) + [Completion.ChatMessage("user", Trim(message))])
    ensures o.response.Failed? ==> o.response == ProcessingFailed && o.docs == docs
    ensures o.response.Replied? ==>
              var c := Completion.GetResponse(env.apiKey, Completion.Messages(o.context.value), env.provider);
              && c.result == Ok(o.response.reply)
              && o.response.threadId == draft.id
              && Commit(docs, draft.id, draft.isNew, draft.thread.(messages := draft.thread.messages + Turn(message, o.response.reply, env.now)),
                        env.saveReachable, env.now) == Ok(o.docs)
    ensures Completion.GetResponse(env.apiKey, Completion.Messages(o.context.value), env.provider).result.Err? ==>
              o.response == ProcessingFailed && o.docs == docs
    ensures ValidStore(docs) && ValidThread(draft.thread) && Trim(message) != "" ==> ValidStore(o.docs)
    ensures o.response.Replied? ==>
              && o.docs.Keys == docs.Keys + {draft.id}
              && (forall id :: id in docs && id != draft.id ==> o.docs[id] == docs[id])
              && o.docs[draft.id].userId == draft.thread.userId
              && o.docs[draft.id].updatedAt == env.now
              && o.response.reply != ""
  {
    var user := Message(User, Trim(message), env.now, env.now);
    var context := History(draft.thread.messages + [user]);
    HistoryAppend(draft.thread.messages, user);
    var call := Completion.GetResponse(env.apiKey, Completion.Messages(context), env.provider);
    var p := Settle(docs, draft, message, call.result, env);
    Outcome(p.0, p.1, Some(context))
  }

  /** The request passes every check before the thread is looked up. */
  predicate Admitted(caller: Option<string>, body: Option<ChatBody>, env: Env)
  {
    Truthy(caller) && body.Some? && body.value.message.Text? && Trim(body.value.message.text) != "" && env.connected
  }

  /**
   * The admitted part of the handler: find or create the thread, then
   * converse. A reply writes only the thread it names, which is the caller's.
   */
  function Proceed(docs: map<ObjectId, Thread>, userId: string, threadId: Option<string>, message: string, env: Env): (o: Outcome)
    requires userId != "" && Trim(message) != ""
    ensures o.response.Failed? ==> o.response in {ThreadNotFound, ProcessingFailed} && o.docs == docs
    ensures o.context.Some? ==>
              var c := Completion.GetResponse(env.apiKey, Completion.Messages(o.context.value), env.provider);
              && (c.result.Err? ==> o.response == ProcessingFailed)
              && (o.response.Replied? ==> c.result == Ok(o.response.reply))
    ensures ValidStore(docs) ==> ValidStore(o.docs)
    ensures o.response.Replied? ==>
              && o.context.Some?
              && o.docs.Keys == docs.Keys + {o.response.threadId}
              && (forall id :: id in docs && id != o.response.threadId ==> o.docs[id] == docs[id])
              && o.docs[o.response.threadId].userId == userId
              && o.docs[o.response.threadId].updatedAt == env.now
              && o.response.reply != ""
  {
    match Resolve(docs, userId, threadId, message, env.newId)
    case Err(response) => Outcome(response, docs, None)
    case Ok(draft) =>
      Converse(docs, draft, message, env)
  }

  /** The handler as one transition of the stored collection. */
  function Handle(docs: map<ObjectId, Thread>, caller: Option<string>, body: Option<ChatBody>, env: Env): (o: Outcome)
    ensures !Truthy(caller) ==> o == Outcome(Unauthorized, docs, None)
    ensures Truthy(caller) && body.Some? && body.value.message.Missing? ==> o == Outcome(MessageRequired, docs, None)
    ensures Truthy(caller) && body.Some? && body.value.message.Text? && AllWhiteSpace(body.value.message.text) ==>
              o == Outcome(MessageRequired, docs, None)
    ensures o.response == MessageRequired ==>
              body.Some? && (body.value.message.Missing? || (body.value.message.Text? && AllWhiteSpace(body.value.message.text)))
    ensures o.response.Failed? ==> o.docs == docs
    ensures ValidStore(docs) ==> ValidStore(o.docs)
    ensures o.context.Some? ==> Admitted(caller, body, env)
    ensures o.context.Some? ==>
              var c := Completion.GetResponse(env.apiKey, Completion.Messages(o.context.value), env.provider);
              && (c.result.Err? ==> o.response == ProcessingFailed)
              && (o.response.Replied? ==> c.result == Ok(o.response.reply))
    ensures o.response.Replied? ==>
              && o.context.Some?
              && o.docs.Keys == docs.Keys + {o.response.threadId}
              && (forall id :: id in docs && id != o.response.threadId ==> o.docs[id] == docs[id])
              && o.docs[o.response.threadId].userId == caller.value
              && o.docs[o.response.threadId].updatedAt == env.now
              && o.response.reply != ""
  {
    if !Truthy(caller) then
      Outcome(Unauthorized, docs, None)
    else if body.None? then
      Outcome(ProcessingFailed, docs, None)
    else
      TrimEmptyIffBlank(if body.value.message.Text? then body.value.message.text else "");
      match body.value.message
      case Missing => Outcome(MessageRequired, docs, None)
      case NotText => Outcome(ProcessingFailed, docs, None)
      case Text(message) =>
        if Trim(message) == "" then
          Outcome(MessageRequired, docs, None)
        else if !env.connected then
          Outcome(ProcessingFailed, docs, None)
        else
          Proceed(docs, caller.value, body.value.threadId, message, env)
  }

  /**
   * A successful call with a truthy `threadId` commits exactly one turn to
   * the caller's stored thread with that id: its messages gain the user's
   * trimmed message and the reply, and nothing else in the collection
   * changes. The context was the stored messages followed by the user's.
   */
  lemma RepliedToOwnedThread(docs: map<ObjectId, Thread>, caller: Option<string>, body: Option<ChatBody>, env: Env)
    requires Handle(docs, caller, body, env).response.Replied?
    requires body.Some? && Truthy(body.value.threadId)
    ensures Admitted(caller, body, env)
    ensures var o := Handle(docs, caller, body, env);
            var id, message := o.response.threadId, body.value.message.text;
            && CastObjectId(body.value.threadId.value) == Some(id)
            && id in docs && docs[id].userId == caller.value
            && o.docs == docs[id := docs[id].(messages := docs[id].messages + Turn(message, o.response.reply, env.now), updatedAt := env.now)]
            && o.context == Some(History(docs[id].messages) + [Completion.ChatMessage("user", Trim(message))])
  {
    var o := Handle(docs, caller, body, env);
    var message := body.value.message.text;
    var r := Resolve(docs, caller.value, body.value.threadId, message, env.newId);
    assert r.Ok? && o == Converse(docs, r.value, message, env);
    ConverseCommits(docs, r.value, message, env);
  }

  /**
   * A successful call without a truthy `threadId` creates one thread under
   * the fresh `_id`, owned by the caller, titled with the first TitleLength
   * characters of the untrimmed message and holding just the user's trimmed
   * message and the reply; nothing else in the collection changes. The
   * context was the user's message alone.
   */
  lemma RepliedInNewThread(docs: map<ObjectId, Thread>, caller: Option<string>, body: Option<ChatBody>, env: Env)
    requires Handle(docs, caller, body, env).response.Replied?
    requires body.Some? && !Truthy(body.value.threadId)
    ensures Admitted(caller, body, env)
    ensures var o := Handle(docs, caller, body, env);
            var message := body.value.message.text;
            && o.response.threadId == env.newId && env.newId !in docs
            && o.docs == docs[env.newId := Thread(caller.value, Prefix(message, TitleLength), Turn(message, o.response.reply, env.now), env.now, env.now)]
            && o.context == Some([Completion.ChatMessage("user", Trim(message))])
  {
    var o := Handle(docs, caller, body, env);
    var message := body.value.message.text;
    var r := Resolve(docs, caller.value, body.value.threadId, message, env.newId);
    assert r.Ok? && o == Converse(docs, r.value, message, env);
    var draft := r.value;
    assert draft.thread == Thread(caller.value, Prefix(message, TitleLength), [], 0, 0);
    ConverseCommits(docs, draft, message, env);
    var turn := Turn(message, o.response.reply, env.now);
    var final := draft.thread.(messages := draft.thread.messages + turn);
    assert draft.thread.messages + turn == turn;
    var t := Thread(caller.value, Prefix(message, TitleLength), turn, env.now, env.now);
    assert final.(createdAt := env.now, updatedAt := env.now) == t;
    assert o.docs == docs[env.newId := t];
    var user := [Completion.ChatMessage("user", Trim(message))];
    assert History(draft.thread.messages) == [];
    assert History(draft.thread.messages) + user == user;
    assert o.context == Some(user);
  }

  /** What a successful `Converse` writes: the draft with the turn appended, stamped by the save. */
  lemma ConverseCommits(docs: map<ObjectId, Thread>, draft: Draft, message: string, env: Env)
    requires Converse(docs, draft, message, env).response.Replied?
    ensures var o := Converse(docs, draft, message, env);
            var final := draft.thread.(messages := draft.thread.messages + Turn(message, o.response.reply, env.now));
            && (draft.isNew <==> draft.id !in docs)
            && o.docs == docs[draft.id := final.(createdAt := if draft.isNew then env.now else final.createdAt, updatedAt := env.now)]
  {
    var o := Converse(docs, draft, message, env);
    var final := draft.thread.(messages := draft.thread.messages + Turn(message, o.response.reply, env.now));
    var stamped := final.(createdAt := if draft.isNew then env.now else final.createdAt, updatedAt := env.now);
    var c := Commit(docs, draft.id, draft.isNew, final, env.saveReachable, env.now);
    assert c == Ok(o.docs);
    assert o.docs[draft.id] == stamped;
    assert o.docs == docs[draft.id := stamped];
  }

  /**
   * A conversation on a valid thread with a non-blank message succeeds when
   * the completion service answers and the save reaches the database.
   */
  lemma ConverseReplies(docs: map<ObjectId, Thread>, draft: Draft, message: string, env: Env)
    requires ValidThread(draft.thread) && (draft.isNew <==> draft.id !in docs)
    requires Trim(message) != "" && env.saveReachable
    requires Completion.GetResponse(env.apiKey, Completion.Messages(Converse(docs, draft, message, env).context.value), env.provider).result.Ok?
    ensures Converse(docs, draft, message, env).response.Replied?
  {
    var context := History(draft.thread.messages + [Message(User, Trim(message), env.now, env.now)]);
    var call := Completion.GetResponse(env.apiKey, Completion.Messages(context), env.provider);
    var turn := Turn(message, call.result.value, env.now);
    TurnValid(message, call.result.value, env.now);
    AppendKeepsValid(draft.thread, turn);
    assert Commit(docs, draft.id, draft.isNew, draft.thread.(messages := draft.thread.messages + turn), env.saveReachable, env.now).Ok?;
    assert Settle(docs, draft, message, call.result, env).0.Replied?;
  }

  /**
   * When the completion service answers and the save reaches the database,
   * an admitted request for the caller's own thread, or for a new one under
   * an unused `_id`, is answered: schema validation never rejects what the
   * handler commits.
   */
  lemma RepliesWhenServicesAnswer(docs: map<ObjectId, Thread>, caller: Option<string>, body: Option<ChatBody>, env: Env)
    requires ValidStore(docs)
    requires Admitted(caller, body, env)
    requires Truthy(body.value.threadId) ==>
               var id := CastObjectId(body.value.threadId.value);
               id.Some? && id.value in docs && docs[id.value].userId == caller.value
    requires !Truthy(body.value.threadId) ==> env.newId !in docs
    requires Truthy(env.apiKey) && env.saveReachable
    requires forall request :: Completion.Classify(env.provider(request)).Ok?
    ensures Handle(docs, caller, body, env).response.Replied?
  {
    var message := body.value.message.text;
    var r := Resolve(docs, caller.value, body.value.threadId, message, env.newId);
    assert r.Ok?;
    var draft := r.value;
    assert ValidThread(draft.thread) && (draft.isNew <==> draft.id !in docs);
    ConverseReplies(docs, draft, message, env);
    assert Handle(docs, caller, body, env) == Converse(docs, draft, message, env);
  }

  /**
   * Another owner's thread looks exactly like a missing one: the response
   * is the same as if the thread were not stored at all (404 once the
   * request is admitted), and nothing is written.
   */
  lemma ForeignThreadLooksMissing(docs: map<ObjectId, Thread>, caller: Option<string>, body: Option<ChatBody>, env: Env, id: ObjectId)
    requires body.Some? && Truthy(body.value.threadId) && CastObjectId(body.value.threadId.value) == Some(id)
    requires id in docs && Truthy(caller) && docs[id].userId != caller.value
    ensures Handle(docs, caller, body, env).response == Handle(docs - {id}, caller, body, env).response
    ensures Handle(docs, caller, body, env).docs == docs
    ensures Admitted(caller, body, env) ==> Handle(docs, caller, body, env).response == ThreadNotFound
  {
    var message := if body.value.message.Text? then body.value.message.text else "";
    assert Resolve(docs, caller.value, body.value.threadId, message, env.newId) == Err(ThreadNotFound);
    assert Resolve(docs - {id}, caller.value, body.value.threadId, message, env.newId) == Err(ThreadNotFound);
  }

  /** Messages that come in user/assistant pairs, starting with the user. */
  predicate Paired(ms: seq<Message>)
  {
    |ms| % 2 == 0 && forall i :: 0 <= i < |ms| ==> ms[i].role == (if i % 2 == 0 then User else Assistant)
  }

  ghost predicate AllPaired(docs: map<ObjectId, Thread>)
  {
    forall id :: id in docs ==> Paired(docs[id].messages)
  }

  /** A whole turn appended to paired messages leaves them paired. */
  lemma PairedAppendTurn(prior: seq<Message>, message: string, reply: string, now: nat)
    requires Paired(prior)
    ensures Paired(prior + Turn(message, reply, now))
  {
    var ms := prior + Turn(message, reply, now);
    forall i | 0 <= i < |ms|
      ensures ms[i].role == (if i % 2 == 0 then User else Assistant)
    {
      if i >= |prior| {
        assert i == |prior| || i == |prior| + 1;
      }
    }
  }

  /** The handler only ever appends whole turns, so every stored conversation stays in user/assistant pairs. */
  lemma HandleKeepsPairs(docs: map<ObjectId, Thread>, caller: Option<string>, body: Option<ChatBody>, env: Env)
    requires AllPaired(docs)
    ensures AllPaired(Handle(docs, caller, body, env).docs)
  {
    var o := Handle(docs, caller, body, env);
    if o.response.Replied? {
      var id, message, reply := o.response.threadId, body.value.message.text, o.response.reply;
      var prior: seq<Message>;
      if Truthy(body.value.threadId) {
        RepliedToOwnedThread(docs, caller, body, env);
        prior := docs[id].messages;
      } else {
        RepliedInNewThread(docs, caller, body, env);
        prior := [];
        assert prior + Turn(message, reply, env.now) == Turn(message, reply, env.now);
      }
      assert o.docs[id].messages == prior + Turn(message, reply, env.now);
      PairedAppendTurn(prior, message, reply, env.now);
      forall other | other in o.docs
        ensures Paired(o.docs[other].messages)
      {
        if other != id {
          assert o.docs[other] == docs[other];
        }
      }
    }
  }

  /**
   * The handler as written: `thread` is assigned on one of two branches,
   * then `Continue` pushes to its messages twice and saves it.
   */
  method Post(db: ThreadCollection, caller: Option<string>, body: Option<ChatBody>, env: Env) returns (response: ChatResponse)
    requires db.Valid()
    modifies db
    ensures db.Valid()
    ensures var o := Handle(old(db.docs), caller, body, env); response == o.response && db.docs == o.docs
  {
    if !Truthy(caller) {
      return Unauthorized;
    }
    var userId := caller.value;
    if body.None? {
      return ProcessingFailed;
    }
    var threadId, field := body.value.threadId, body.value.message;
    if field.NotText? {
      return ProcessingFailed;
    }
    if field.Missing? || Trim(field.text) == "" {
      return MessageRequired;
    }
    var message := field.text;
    if !env.connected {
      return ProcessingFailed;
    }
    ghost var draft := Resolve(db.docs, userId, threadId, message, env.newId);
    var thread: ThreadDocument;
    if Truthy(threadId) {
      var id := CastObjectId(threadId.value);
      if id.None? {
        return ProcessingFailed;
      }
      var found := db.FindOne(id.value, userId);
      if found == null {
        return ThreadNotFound;
      }
      thread := found;
    } else {
      thread := new ThreadDocument.Create(env.newId, userId, Some(Prefix(message, TitleLength)), []);
    }
    assert draft == Ok(Draft(thread.id, thread.isNew, thread.Value()));
    response := Continue(db, thread, message, env);
  }

  /** From the first push to the save, on the document `thread`. */
  method Continue(db: ThreadCollection, thread: ThreadDocument, message: string, env: Env) returns (response: ChatResponse)
    requires db.Valid()
    modifies db, thread
    ensures db.Valid()
    ensures var o := Converse(old(db.docs), Draft(thread.id, old(thread.isNew), old(thread.Value())), message, env);
            response == o.response && db.docs == o.docs
  {
    ghost var docs, draft := db.docs, Draft(thread.id, thread.isNew, thread.Value());
    var user := Message(User, Trim(message), env.now, env.now);
    thread.Push(user);
    var history := History(thread.messages);
    var call := Completion.GetResponse(env.apiKey, Completion.Messages(history), env.provider);
    ghost var settled := Settle(docs, draft, message, call.result, env);
    assert Converse(docs, draft, message, env) == Outcome(settled.0, settled.1, Some(history));
    if call.result.Err? {
      assert settled == (ProcessingFailed, docs);
      return ProcessingFailed;
    }
    var reply := call.result.value;
    thread.Push(Message(Assistant, reply, env.now, env.now));
    ghost var final := draft.thread.(messages := draft.thread.messages + Turn(message, reply, env.now));
    assert thread.Value() == final && thread.isNew == draft.isNew && db.docs == docs;
    ghost var c := Commit(db.docs, thread.id, thread.isNew, thread.Value(), env.saveReachable, env.now);
    assert settled == if c.Ok? then (Replied(reply, draft.id), c.value) else (ProcessingFailed, docs);
    var err := db.Save(thread, env.saveReachable, env.now);
    if err.Some? {
      assert c.Err? && db.docs == docs;
      return ProcessingFailed;
    }
    assert c.Ok? && db.docs == c.value;
    response := Replied(reply, thread.id);
  }
}
