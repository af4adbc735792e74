/** The `POST /chat` handler and the health report: per-request control flow
    over the in-memory session histories and the vector store. */
module Server {
  import opened Outcomes
  import opened Messages
  import opened Database

  const Human := "human"
  const Assistant := "assistant"
  const MissingInputDetail := "Missing user_input."

  /** `session_data`: session id to its turns, oldest first. */
  type Sessions = map<string, seq<Pair>>

  /** The request body: JSON that failed to parse (a `ValueError`), or an object
      whose `session_id` and `user_input` keys may be absent or null. */
  datatype Body = Unparseable(detail: string) | Json(sessionId: Option<string>, userInput: Option<string>)

  /** What `genai_model.invoke(messages)` does: return a reply or raise. */
  datatype ModelOutcome = Reply(content: string) | Raised(error: Exception)
  type ModelFn = seq<Message> -> ModelOutcome

  /** The HTTP answer: 200 with the session id and reply, or an error status with a detail. */
  datatype Response = Answer(sessionId: string, response: string) | HttpError(status: int, detail: string)

  datatype Health = Health(status: string, databaseConnection: string, modelStatus: string, sessionCount: nat)

  /** The outcome of one request: the response and the new state. */
  datatype Effect = Effect(response: Response, sessions: Sessions, store: seq<Fragment>)

  /** The turns recorded for a session; none for a session never seen. */
  function HistoryOf(sessions: Sessions, sessionId: string): seq<Pair>
  {
    if sessionId in sessions then sessions[sessionId] else []
  }

  /** The session id a request uses: the one it names, unless that is absent,
      null or empty, in which case the freshly generated one. */
  function ResolveSessionId(given: Option<string>, freshId: string): (sessionId: string)
    ensures given.Some? && given.value != "" ==> sessionId == given.value
    ensures given.None? || given.value == "" ==> sessionId == freshId
  {
    if given.Some? && given.value != "" then given.value else freshId
  }

  /** The input counts as missing when the key is absent or null, or when the
      text is empty. */
  predicate MissingInput(userInput: Option<string>)
  {
    userInput.None? || userInput.value == ""
  }

  /** The `except` clauses of the handler: a `ValueError` is the client's fault,
      everything else is a server error; only the catch-all prefixes its detail. */
  function ErrorResponse(e: Exception): (r: Response)
    ensures r.HttpError?
    ensures r.status == 400 <==> e.ValueError?
    ensures r.status == 500 <==> !e.ValueError?
    ensures (e.ValueError? || e.RuntimeError?) ==> r.detail == Str(e)
    ensures (e.KeyError? || e.OtherError?) ==> r.detail == "Unexpected error: " + Str(e)
  {
    match e
    case ValueError(m) => HttpError(400, m)
    case RuntimeError(m) => HttpError(500, m)
    case _ => HttpError(500, "Unexpected error: " + Str(e))
  }

  /** One request of `chat`, step by step: validate, record and persist the human
      turn, retrieve and assemble, invoke the model, record and persist the reply.
      An exception ends the request where it is raised; what was done stays done. */
  function HandleChat(sessions: Sessions, store: seq<Fragment>, body: Body, freshId: string,
                      search: SearchFn, invoke: ModelFn): (o: Effect)
    ensures |store| <= |o.store| <= |store| + 2 && o.store[..|store|] == store
    ensures sessions.Keys <= o.sessions.Keys
    ensures forall s :: s in sessions ==> sessions[s] <= o.sessions[s]
  {
    match body
    case Unparseable(detail) => Effect(ErrorResponse(ValueError(detail)), sessions, store)
    case Json(given, userInput) =>
      if MissingInput(userInput) then Effect(HttpError(400, MissingInputDetail), sessions, store)
      else
        var sessionId := ResolveSessionId(given, freshId);
        var input := userInput.value;
        var history := HistoryOf(sessions, sessionId) + [(Human, input)];
        var sessions' := sessions[sessionId := history];
        var store' := store + [Tagged(input, Human, sessionId)];
        match RetrieveSimilarContext(store', search, sessionId, input)
        case Err(e) => Effect(ErrorResponse(e), sessions', store')
        case Ok(context) =>
          match invoke(GenerateMessages(context, history))
          case Raised(e) => Effect(ErrorResponse(e), sessions', store')
          case Reply(reply) =>
            Effect(Answer(sessionId, reply),
                   sessions'[sessionId := history + [(Assistant, reply)]],
                   store' + [Tagged(reply, Assistant, sessionId)])
  }

  /** A body that is not JSON, or one without a non-empty `user_input`, is
      answered with 400 before anything is recorded or stored. */
  lemma RejectedBeforeAnyChange(sessions: Sessions, store: seq<Fragment>, body: Body, freshId: string,
                                search: SearchFn, invoke: ModelFn)
    requires body.Unparseable? || MissingInput(body.userInput)
    ensures var o := HandleChat(sessions, store, body, freshId, search, invoke);
            && o.sessions == sessions && o.store == store
            && o.response == if body.Unparseable? then HttpError(400, body.detail)
                             else HttpError(400, MissingInputDetail)
  {
  }

  /** A successful request answers with the session id it used and the model's
      reply to the prompt built from the session's filtered context and its
      history ending in the new input; the session gains the human turn and then
      the reply, every other session is untouched, and the store gains the two
      tagged turns in that order. */
  lemma SuccessfulTurn(sessions: Sessions, store: seq<Fragment>, body: Body, freshId: string,
                       search: SearchFn, invoke: ModelFn)
    requires HandleChat(sessions, store, body, freshId, search, invoke).response.Answer?
    ensures body.Json? && !MissingInput(body.userInput)
    ensures var o := HandleChat(sessions, store, body, freshId, search, invoke);
            var sessionId, input, reply := ResolveSessionId(body.sessionId, freshId), body.userInput.value, o.response.response;
            var history := HistoryOf(sessions, sessionId) + [(Human, input)];
            var context := RetrieveSimilarContext(store + [Tagged(input, Human, sessionId)], search, sessionId, input);
            && o.response.sessionId == sessionId
            && context.Ok?
            && invoke(GenerateMessages(context.value, history)) == Reply(reply)
            && o.sessions == sessions[sessionId := HistoryOf(sessions, sessionId) + [(Human, input), (Assistant, reply)]]
            && o.sessions.Keys == sessions.Keys + {sessionId}
            && (forall other :: other != sessionId ==> HistoryOf(o.sessions, other) == HistoryOf(sessions, other))
            && o.store == store + [Tagged(input, Human, sessionId), Tagged(reply, Assistant, sessionId)]
  {
    var o := HandleChat(sessions, store, body, freshId, search, invoke);
    var sessionId, input, reply := ResolveSessionId(body.sessionId, freshId), body.userInput.value, o.response.response;
    var history := HistoryOf(sessions, sessionId) + [(Human, input)];
    var store' := store + [Tagged(input, Human, sessionId)];
    var context := RetrieveSimilarContext(store', search, sessionId, input);
    assert context.Ok? && invoke(GenerateMessages(context.value, history)) == Reply(reply);
    assert o == Effect(Answer(sessionId, reply), sessions[sessionId := history][sessionId := history + [(Assistant, reply)]],
                       store' + [Tagged(reply, Assistant, sessionId)]);
    assert history + [(Assistant, reply)] == HistoryOf(sessions, sessionId) + [(Human, input), (Assistant, reply)];
    assert store + [Tagged(input, Human, sessionId)] + [Tagged(reply, Assistant, sessionId)]
        == store + [Tagged(input, Human, sessionId), Tagged(reply, Assistant, sessionId)];
  }

  /** A validated request is answered exactly when retrieval succeeds and the
      model replies to the prompt; with `SuccessfulTurn` and
      `FailedTurnKeepsInput` this settles the outcome of every request. */
  lemma AnsweredExactlyWhenModelReplies(sessions: Sessions, store: seq<Fragment>, body: Body, freshId: string,
                                        search: SearchFn, invoke: ModelFn)
    requires body.Json? && !MissingInput(body.userInput)
    ensures var o := HandleChat(sessions, store, body, freshId, search, invoke);
            var sessionId, input := ResolveSessionId(body.sessionId, freshId), body.userInput.value;
            var history := HistoryOf(sessions, sessionId) + [(Human, input)];
            var context := RetrieveSimilarContext(store + [Tagged(input, Human, sessionId)], search, sessionId, input);
            o.response.Answer? <==> context.Ok? && invoke(GenerateMessages(context.value, history)).Reply?
  {
  }

  /** A request that fails after validation keeps the human turn it recorded, in
      the session and in the store; it is a 400 exactly when the model raised a
      `ValueError`, and a 500 otherwise (a `KeyError` from retrieval included),
      and its response is the one `ErrorResponse` gives for the exception raised. */
  lemma FailedTurnKeepsInput(sessions: Sessions, store: seq<Fragment>, body: Body, freshId: string,
                             search: SearchFn, invoke: ModelFn)
    requires body.Json? && !MissingInput(body.userInput)
    requires HandleChat(sessions, store, body, freshId, search, invoke).response.HttpError?
    ensures var o := HandleChat(sessions, store, body, freshId, search, invoke);
            var sessionId, input := ResolveSessionId(body.sessionId, freshId), body.userInput.value;
            var history := HistoryOf(sessions, sessionId) + [(Human, input)];
            var context := RetrieveSimilarContext(store + [Tagged(input, Human, sessionId)], search, sessionId, input);
            && o.sessions == sessions[sessionId := history]
            && o.store == store + [Tagged(input, Human, sessionId)]
            && (o.response.status == 400 <==>
                  context.Ok? && invoke(GenerateMessages(context.value, history)).Raised? &&
                  invoke(GenerateMessages(context.value, history)).error.ValueError?)
            && (o.response.status == 400 || o.response.status == 500)
            && o.response == ErrorResponse(if context.Err? then context.error
                                           else invoke(GenerateMessages(context.value, history)).error)
  {
  }

  /** The detail a request gets when an in-session hit lacks its `role` key. */
  lemma MissingRoleDetail()
    ensures ErrorResponse(KeyError(RoleKey)) == HttpError(500, "Unexpected error: 'role'")
  {
  }

  /** The prompt always ends with the input just received, after the session's
      earlier turns and after the retrieved context. */
  lemma PromptEndsWithInput(context: seq<Pair>, sessions: Sessions, sessionId: string, input: string)
    ensures var prompt := GenerateMessages(context, HistoryOf(sessions, sessionId) + [(Human, input)]);
            && |prompt| == |context| + |HistoryOf(sessions, sessionId)| + 1
            && prompt[|prompt| - 1] == Message(Human, input)
            && forall j :: 0 <= j < |HistoryOf(sessions, sessionId)| ==>
                 prompt[|context| + j] == AsMessage(HistoryOf(sessions, sessionId)[j])
  {
    var history := HistoryOf(sessions, sessionId) + [(Human, input)];
    assert history[|history| - 1] == (Human, input);
    forall j | 0 <= j < |HistoryOf(sessions, sessionId)|
      ensures GenerateMessages(context, history)[|context| + j] == AsMessage(HistoryOf(sessions, sessionId)[j])
    {
      assert history[j] == HistoryOf(sessions, sessionId)[j];
    }
  }

  /** `len(session_data)` grows by one exactly when a validated request names a
      session not seen before, whether or not the request then succeeds. */
  lemma SessionCountAfterChat(sessions: Sessions, store: seq<Fragment>, body: Body, freshId: string,
                              search: SearchFn, invoke: ModelFn)
    ensures var o := HandleChat(sessions, store, body, freshId, search, invoke);
            |o.sessions| == |sessions| +
              if body.Json? && !MissingInput(body.userInput) && ResolveSessionId(body.sessionId, freshId) !in sessions
              then 1 else 0
  {
  }

  /** Every session's history equals, in order, the `(role, content)` of the
      fragments stored for that session since the server started: history and
      store are written together, turn by turn. */
  ghost predicate Mirrors(sessions: Sessions, turns: seq<Fragment>)
  {
    forall sessionId :: FilterToSession(turns, sessionId) == Ok(HistoryOf(sessions, sessionId))
  }

  /** Recording a turn in a session and storing it, tagged, keeps the mirror. */
  lemma RecordTurnMirrors(sessions: Sessions, turns: seq<Fragment>, sessionId: string, role: string, content: string)
    requires Mirrors(sessions, turns)
    ensures Mirrors(sessions[sessionId := HistoryOf(sessions, sessionId) + [(role, content)]],
                    turns + [Tagged(content, role, sessionId)])
  {
    var sessions' := sessions[sessionId := HistoryOf(sessions, sessionId) + [(role, content)]];
    forall s ensures FilterToSession(turns + [Tagged(content, role, sessionId)], s) == Ok(HistoryOf(sessions', s)) {
      FilterAppendTagged(turns, content, role, sessionId, s);
    }
  }

  /** Every request, whatever its outcome, keeps histories and store in step. */
  lemma HandleChatMirrors(sessions: Sessions, store: seq<Fragment>, base: nat, body: Body, freshId: string,
                          search: SearchFn, invoke: ModelFn)
    requires base <= |store| && Mirrors(sessions, store[base..])
    ensures var o := HandleChat(sessions, store, body, freshId, search, invoke);
            base <= |o.store| && Mirrors(o.sessions, o.store[base..])
  {
    var o := HandleChat(sessions, store, body, freshId, search, invoke);
    if o.response.Answer? {
      SuccessfulTurn(sessions, store, body, freshId, search, invoke);
      var sessionId, input, reply := ResolveSessionId(body.sessionId, freshId), body.userInput.value, o.response.response;
      var history := HistoryOf(sessions, sessionId) + [(Human, input)];
      var turns := store[base..] + [Tagged(input, Human, sessionId)];
      RecordTurnMirrors(sessions, store[base..], sessionId, Human, input);
      RecordTurnMirrors(sessions[sessionId := history], turns, sessionId, Assistant, reply);
      assert HistoryOf(sessions, sessionId) + [(Human, input), (Assistant, reply)] == history + [(Assistant, reply)];
      assert o.store[base..] == turns + [Tagged(reply, Assistant, sessionId)];
    } else if body.Json? && !MissingInput(body.userInput) {
      FailedTurnKeepsInput(sessions, store, body, freshId, search, invoke);
      var sessionId, input := ResolveSessionId(body.sessionId, freshId), body.userInput.value;
      RecordTurnMirrors(sessions, store[base..], sessionId, Human, input);
      assert o.store[base..] == store[base..] + [Tagged(input, Human, sessionId)];
    } else {
      RejectedBeforeAnyChange(sessions, store, body, freshId, search, invoke);
    }
  }

  /** The process-wide state of the chat server: the session map and the store. */
  class ChatServer {
    const db: VectorDb
    var sessionData: Sessions
    /** How many fragments the store held when the server started. */
    ghost const base: nat

    ghost predicate Valid()
      reads this, db
    {
      db.Flushed() && base <= |db.fragments| && Mirrors(sessionData, db.fragments[base..])
    }

    /** Start-up: no sessions yet, over an opened store. */
    constructor (db: VectorDb)
      requires db.Flushed()
      ensures Valid() && this.db == db && sessionData == map[] && base == |db.fragments|
    {
      this.db := db;
      sessionData := map[];
      base := |db.fragments|;
      new;
      assert db.fragments[base..] == [];
    }

    /** Session creation in `chat` (backend/gpt_server.py, lines 64-65): a session
        seen for the first time gets an empty history. */
    method OpenSession(sessionId: string)
      requires Valid()
      modifies this`sessionData
      ensures Valid() && sessionId in sessionData
      ensures sessionData == if sessionId in old(sessionData) then old(sessionData)
                             else old(sessionData)[sessionId := []]
    {
      if sessionId !in sessionData {
        ghost var before := sessionData;
        sessionData := sessionData[sessionId := []];
        assert forall s :: HistoryOf(sessionData, s) == HistoryOf(before, s);
      }
    }

    /** Append a turn to the session's history, then persist it to the store. */
    method RecordTurn(sessionId: string, role: string, content: string)
      requires Valid() && sessionId in sessionData
      modifies this`sessionData, db
      ensures Valid()
      ensures sessionData == old(sessionData)[sessionId := old(sessionData)[sessionId] + [(role, content)]]
      ensures db.fragments == old(db.fragments) + [Tagged(content, role, sessionId)]
    {
      RecordTurnMirrors(sessionData, db.fragments[base..], sessionId, role, content);
      sessionData := sessionData[sessionId := sessionData[sessionId] + [(role, content)]];
      ghost var turns := db.fragments[base..];
      db.SaveMessage(sessionId, role, content);
      assert db.fragments[base..] == turns + [Tagged(content, role, sessionId)];
    }

    /** `POST /chat`, given the parsed body, the id `uuid4` would generate, the
        store's similarity search and the model. */
    method Chat(body: Body, freshId: string, search: SearchFn, invoke: ModelFn) returns (resp: Response)
      requires Valid()
      modifies this, db
      ensures Valid()
      ensures var o := HandleChat(old(sessionData), old(db.fragments), body, freshId, search, invoke);
              resp == o.response && sessionData == o.sessions && db.fragments == o.store
    {
      ghost var sessions0, store0 := sessionData, db.fragments;
      match body
      case Unparseable(detail) =>
        resp := ErrorResponse(ValueError(detail));
      case Json(given, userInput) =>
        var sessionId := ResolveSessionId(given, freshId);
        if MissingInput(userInput) {
          resp := HttpError(400, MissingInputDetail);
          return;
        }
        var input := userInput.value;
        OpenSession(sessionId);
        RecordTurn(sessionId, Human, input);
        ghost var history := HistoryOf(sessions0, sessionId) + [(Human, input)];
        assert sessionData == sessions0[sessionId := history];
        assert db.fragments == store0 + [Tagged(input, Human, sessionId)];
        var context := RetrieveSimilarContext(db.fragments, search, sessionId, input);
        if context.Err? {
          resp := ErrorResponse(context.error);
          return;
        }
        var messages := GenerateMessages(context.value, sessionData[sessionId]);
        assert messages == GenerateMessages(context.value, history);
        var outcome := invoke(messages);
        if outcome.Raised? {
          resp := ErrorResponse(outcome.error);
          return;
        }
        RecordTurn(sessionId, Assistant, outcome.content);
        resp := Answer(sessionId, outcome.content);
        assert sessionData == sessions0[sessionId := history][sessionId := history + [(Assistant, outcome.content)]];
    }

    /** `GET /health`: the store and the model are always set once the module
        has loaded, and the session count is the number of keys in `session_data`. */
    method HealthCheck() returns (h: Health)
      ensures h.status == "ok" && h.databaseConnection == "ok" && h.modelStatus == "ok"
      ensures h.sessionCount == |sessionData.Keys|
    {
      h := Health("ok", "ok", "ok", |sessionData|);
    }
  }
}
