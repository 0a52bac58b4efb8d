/**
 * The request handlers of the LearnMate backend over an in-memory copy of its
 * tables: users (keyed by id, looked up by email), sessions (keyed by token),
 * progress (keyed by user id), chat_history (keyed by id) and quiz_results.
 * The current time is a parameter `now` in seconds; fresh ids come from a
 * counter; the identity provider's and the language model's answers are inputs.
 */
module Server {
  import opened Wrappers
  import opened Ledger
  import Fence

  type Id = nat

  datatype User = User(email: string, name: string, picture: Option<string>, interests: seq<string>)
  datatype Session = Session(userId: Id, expiresAt: int)
  datatype Role = UserRole | AssistantRole
  datatype Message = Message(role: Role, content: string, timestamp: int)
  datatype Chat = Chat(userId: Id, topic: string, messages: seq<Message>)
  /** A saved quiz; `questions` holds the client's question records as opaque values. */
  datatype QuizResult = QuizResult(userId: Id, topic: string, score: int, total: int, questions: seq<string>)

  // ----- what handlers receive from and send to the outside -----------------

  const BadRequest: int := 400
  const Unauthorized: int := 401
  const NotFound: int := 404
  const InternalError: int := 500

  /** A handler's answer: its payload, or the HTTP status it raises. */
  datatype Reply<T> = Ok(value: T) | Fail(status: int)

  /** The identity provider's answer to a session-id exchange. */
  datatype Exchange =
    | Rejected      // a status other than 200
    | Unreachable   // the request or its JSON decoding raised
    | Identity(email: string, name: string, picture: Option<string>, sessionToken: string)

  /** The language model's answer to one completion request. */
  datatype Completion = Completed(text: string) | Raised

  /** The language-model client: absent when no API key was configured. */
  datatype Gateway = Unconfigured | Configured(reply: Completion)

  /** One turn of the conversation sent to the model; `Instruction` is the topic-specific system prompt. */
  datatype Turn = Instruction(topic: string) | Said(role: Role, content: string)

  datatype Login = Login(user: User, userId: Id, token: string, cookieMaxAge: int)
  datatype ChatAnswer = ChatAnswer(chatId: Id, response: string, timestamp: int)
  datatype QuizDraft = QuizDraft(topic: string, payload: string)
  datatype TopicEntry = TopicEntry(id: string, name: string, icon: string)

  /** `timedelta(days=7)` in seconds. */
  const SessionLifetime: int := 7 * 24 * 60 * 60
  /** The `max_age` of the session cookie. */
  const CookieMaxAge: int := 7 * 24 * 60 * 60

  // ----- the session authenticator as functions ------------------------------

  /** Python's truthiness test on the optional cookie: absent and "" both fail it. */
  predicate Present(token: Option<string>) {
    token.Some? && token.value != ""
  }

  /** The user a token authenticates at time `now`, if any. */
  function Resolve(sessions: map<string, Session>, users: map<Id, User>, token: Option<string>, now: int): (r: Option<Id>)
    ensures r.Some? <==> Present(token) && token.value in sessions
                         && sessions[token.value].expiresAt >= now && sessions[token.value].userId in users
    ensures r.Some? ==> r.value == sessions[token.value].userId && r.value in users
  {
    if !Present(token) || token.value !in sessions then None
    else
      var s := sessions[token.value];
      if s.expiresAt < now then None
      else if s.userId in users then Some(s.userId)
      else None
  }

  /** The sessions table after a lookup: an expired session of the token is deleted. */
  function Cleanup(sessions: map<string, Session>, token: Option<string>, now: int): (s: map<string, Session>)
    ensures forall t :: t in s ==> t in sessions && s[t] == sessions[t]
    ensures forall t :: t in sessions && !(Present(token) && t == token.value) ==> t in s
    ensures Present(token) && token.value in sessions ==>
              (token.value in s <==> sessions[token.value].expiresAt >= now)
  {
    if Present(token) && token.value in sessions && sessions[token.value].expiresAt < now
    then sessions - {token.value}
    else sessions
  }

  /** Looking a token up a second time gives the same answer and deletes nothing more. */
  lemma LookupIdempotent(sessions: map<string, Session>, users: map<Id, User>, token: Option<string>, now: int)
    ensures Resolve(Cleanup(sessions, token, now), users, token, now) == Resolve(sessions, users, token, now)
    ensures Cleanup(Cleanup(sessions, token, now), token, now) == Cleanup(sessions, token, now)
  {
  }

  /** A token whose session was deleted (by logout or by cleanup) authenticates nobody. */
  lemma DeletedTokenUnauthenticated(sessions: map<string, Session>, users: map<Id, User>, t: string, now: int)
    ensures Resolve(sessions - {t}, users, Some(t), now) == None
  {
  }

  /** A session issued at `now` authenticates its user up to and including `now + 7 days`, not after. */
  lemma IssuedSessionWindow(sessions: map<string, Session>, users: map<Id, User>, t: string, uid: Id, now: int, later: int)
    requires t != "" && uid in users
    ensures Resolve(sessions[t := Session(uid, now + SessionLifetime)], users, Some(t), later)
            == if later <= now + SessionLifetime then Some(uid) else None
  {
  }

  // ----- pure helpers of the handlers ---------------------------------------

  ghost predicate EmailsUnique(users: map<Id, User>) {
    forall a, b :: a in users && b in users && users[a].email == users[b].email ==> a == b
  }

  /** The select on users by email; `maybeSingle` finds at most one row. */
  function FindByEmail(users: map<Id, User>, email: string): (r: Option<Id>)
    requires EmailsUnique(users)
    ensures r.Some? ==> r.value in users && users[r.value].email == email
    ensures r.None? ==> forall id :: id in users ==> users[id].email != email
  {
    if exists id :: id in users && users[id].email == email then
      var id :| id in users && users[id].email == email;
      Some(id)
    else
      None
  }

  /** The select on chat_history by id and owner used for direct retrieval. */
  function OwnedChat(chats: map<Id, Chat>, id: Id, uid: Id): (r: Option<Chat>)
    ensures r.Some? <==> id in chats && chats[id].userId == uid
    ensures r.Some? ==> r.value == chats[id] && r.value.userId == uid
  {
    if id in chats && chats[id].userId == uid then Some(chats[id]) else None
  }

  /** `turns` is the system prompt for `topic` followed by every message, role and content kept. */
  ghost predicate Replays(turns: seq<Turn>, topic: string, messages: seq<Message>) {
    && |turns| == |messages| + 1
    && turns[0] == Instruction(topic)
    && forall k :: 0 <= k < |messages| ==> turns[k + 1] == Said(messages[k].role, messages[k].content)
  }

  /** The loop that builds the conversation sent to the model for a chat turn. */
  method BuildConversation(topic: string, messages: seq<Message>) returns (turns: seq<Turn>)
    ensures Replays(turns, topic, messages)
  {
    turns := [Instruction(topic)];
    for i := 0 to |messages|
      invariant Replays(turns, topic, messages[..i])
    {
      turns := turns + [Said(messages[i].role, messages[i].content)];
    }
    assert messages[..|messages|] == messages;
  }

  /** The fixed catalogue served without authentication. */
  function Topics(): (r: seq<TopicEntry>)
    ensures |r| == 8
    ensures forall i, j :: 0 <= i < j < |r| ==> r[i].id != r[j].id
  {
    [ TopicEntry("math", "Mathematics", "calculator"),
      TopicEntry("python", "Python Programming", "code"),
      TopicEntry("biology", "Biology", "leaf"),
      TopicEntry("english", "English", "book-open"),
      TopicEntry("history", "History", "landmark"),
      TopicEntry("physics", "Physics", "atom"),
      TopicEntry("chemistry", "Chemistry", "flask"),
      TopicEntry("art", "Art & Design", "palette") ]
  }

  /** The progress table after a ledger update that is skipped when the user has no row. */
  function UpdateIfPresent(progress: map<Id, Progress>, uid: Id, f: Progress -> Progress): (p: map<Id, Progress>)
    ensures p.Keys == progress.Keys
    ensures uid in progress ==> p[uid] == f(progress[uid])
    ensures forall id :: id in progress && id != uid ==> p[id] == progress[id]
  {
    if uid in progress then progress[uid := f(progress[uid])] else progress
  }

  // ----- the store and its handlers -----------------------------------------

  class Backend {
    var users: map<Id, User>
    var sessions: map<string, Session>
    var progress: map<Id, Progress>
    var chats: map<Id, Chat>
    var quizResults: seq<QuizResult>
    var nextId: Id

    /**
     * Emails are unique, ids come from the counter, and progress rows, chats and
     * quiz results belong to existing users. Sessions may name a missing user.
     */
    ghost predicate Valid()
      reads this
    {
      && EmailsUnique(users)
      && (forall id :: id in users ==> id < nextId)
      && (forall id :: id in chats ==> id < nextId)
      && (forall id :: id in progress ==> id in users)
      && (forall id :: id in chats ==> chats[id].userId in users)
      && (forall k :: 0 <= k < |quizResults| ==> quizResults[k].userId in users)
    }

    /** Every table other than sessions is as it was. */
    twostate predicate OnlySessionsChanged()
      reads this
    {
      users == old(users) && progress == old(progress) && chats == old(chats)
      && quizResults == old(quizResults) && nextId == old(nextId)
    }

    constructor ()
      ensures Valid()
      ensures users == map[] && sessions == map[] && progress == map[] && chats == map[]
      ensures quizResults == [] && nextId == 0
    {
      users, sessions, progress, chats := map[], map[], map[], map[];
      quizResults, nextId := [], 0;
    }

    /** `get_user_from_token`: resolve the cookie, deleting the session when it has expired. */
    method Authenticate(token: Option<string>, now: int) returns (uid: Option<Id>)
      requires Valid()
      modifies this`sessions
      ensures Valid()
      ensures uid == Resolve(old(sessions), users, token, now)
      ensures sessions == Cleanup(old(sessions), token, now)
    {
      if !Present(token) {
        return None;
      }
      var t := token.value;
      if t !in sessions {
        return None;
      }
      var s := sessions[t];
      if s.expiresAt < now {
        sessions := sessions - {t};
        return None;
      }
      if s.userId in users {
        return Some(s.userId);
      }
      return None;
    }

    /** `process_session`: find or create the user by email, then always insert a 7-day session. */
    method ProcessSession(exchange: Exchange, now: int) returns (r: Reply<Login>)
      requires Valid()
      modifies this
      ensures Valid()
      ensures exchange.Rejected? ==> r == Fail(BadRequest) && unchanged(this)
      ensures exchange.Unreachable? ==> r == Fail(InternalError) && unchanged(this)
      ensures exchange.Identity? ==>
        var found := FindByEmail(old(users), exchange.email);
        var uid := if found.Some? then found.value else old(nextId);
        && uid in users
        && r == Ok(Login(users[uid], uid, exchange.sessionToken, CookieMaxAge))
        && sessions == old(sessions)[exchange.sessionToken := Session(uid, now + SessionLifetime)]
        && chats == old(chats) && quizResults == old(quizResults)
        && (found.Some? ==> users == old(users) && progress == old(progress) && nextId == old(nextId))
        && (found.None? ==>
              && users == old(users)[uid := User(exchange.email, exchange.name, exchange.picture, [])]
              && progress == old(progress)[uid := Zeroed(now)]
              && nextId == old(nextId) + 1)
      ensures r.Ok? ==> sessions[r.value.token].expiresAt == now + r.value.cookieMaxAge
    {
      match exchange
      case Rejected => return Fail(BadRequest);
      case Unreachable => return Fail(InternalError);
      case Identity(email, name, picture, token) =>
        var found := FindByEmail(users, email);
        var uid: Id;
        if found.Some? {
          uid := found.value;
        } else {
          uid := nextId;
          users := users[uid := User(email, name, picture, [])];
          nextId := nextId + 1;
          progress := progress[uid := Zeroed(now)];
        }
        sessions := sessions[token := Session(uid, now + SessionLifetime)];
        return Ok(Login(users[uid], uid, token, CookieMaxAge));
    }

    /** `get_current_user`. */
    method CurrentUser(token: Option<string>, now: int) returns (r: Reply<User>)
      requires Valid()
      modifies this`sessions
      ensures Valid() && OnlySessionsChanged()
      ensures sessions == Cleanup(old(sessions), token, now)
      ensures var u := Resolve(old(sessions), old(users), token, now);
              r == if u.Some? then Ok(users[u.value]) else Fail(Unauthorized)
    {
      var uid := Authenticate(token, now);
      if uid.None? {
        return Fail(Unauthorized);
      }
      return Ok(users[uid.value]);
    }

    /** `logout`: delete the token's session when there is a token; it always succeeds. */
    method Logout(token: Option<string>) returns (r: Reply<()>)
      requires Valid()
      modifies this`sessions
      ensures Valid() && OnlySessionsChanged()
      ensures r == Ok(())
      ensures sessions == if Present(token) then old(sessions) - {token.value} else old(sessions)
    {
      if Present(token) {
        sessions := sessions - {token.value};
      }
      return Ok(());
    }

    /** `update_interests`: replace the authenticated user's learning interests. */
    method UpdateInterests(token: Option<string>, interests: seq<string>, now: int) returns (r: Reply<()>)
      requires Valid()
      modifies this
      ensures Valid()
      ensures sessions == Cleanup(old(sessions), token, now)
      ensures progress == old(progress) && chats == old(chats)
      ensures quizResults == old(quizResults) && nextId == old(nextId)
      ensures var u := Resolve(old(sessions), old(users), token, now);
              && (u.None? ==> r == Fail(Unauthorized) && users == old(users))
              && (u.Some? ==> r == Ok(()) && users == old(users)[u.value := old(users)[u.value].(interests := interests)])
    {
      var uid := Authenticate(token, now);
      if uid.None? {
        return Fail(Unauthorized);
      }
      var id := uid.value;
      users := users[id := users[id].(interests := interests)];
      return Ok(());
    }

    /**
     * `chat_with_ai`: after authentication, the rest of the turn is `ChatAs`.
     */
    method ChatWithAi(token: Option<string>, message: string, topic: string, chatId: Option<Id>,
                      gateway: Gateway, now: int)
      returns (r: Reply<ChatAnswer>, sent: Option<seq<Turn>>)
      requires Valid()
      modifies this
      ensures Valid()
      ensures sessions == Cleanup(old(sessions), token, now)
      ensures Resolve(old(sessions), old(users), token, now).None? ==>
                r == Fail(Unauthorized) && sent == None && OnlySessionsChanged()
      ensures Resolve(old(sessions), old(users), token, now).Some? ==>
                ChatEffect(Resolve(old(sessions), old(users), token, now).value, message, topic, chatId, gateway, now,
                           old(chats), old(progress), old(nextId), r, sent)
                && users == old(users) && quizResults == old(quizResults)
    {
      var uid := Authenticate(token, now);
      if uid.None? {
        return Fail(Unauthorized), None;
      }
      r, sent := ChatAs(uid.value, message, topic, chatId, gateway, now);
    }

    /**
     * What a chat turn by `uid` does to the chat, progress and id-counter tables
     * (`chats0`, `progress0`, `next0` before it), and what it answers.
     */
    ghost predicate ChatEffect(uid: Id, message: string, topic: string, chatId: Option<Id>, gateway: Gateway, now: int,
                               chats0: map<Id, Chat>, progress0: map<Id, Progress>, next0: Id,
                               r: Reply<ChatAnswer>, sent: Option<seq<Turn>>)
      reads this
    {
      var resumed := chatId.Some? && chatId.value in chats0;
      var cid := if resumed then chatId.value else next0;
      var history := if resumed then chats0[cid].messages else [];
      var base := if resumed then chats0 else chats0[cid := Chat(uid, topic, [])];
      var asked := history + [Message(UserRole, message, now)];
      && nextId == (if resumed then next0 else next0 + 1)
      && (gateway.Unconfigured? ==> r == Fail(InternalError) && sent == None)
      && (gateway.Configured? ==> sent.Some? && Replays(sent.value, topic, asked))
      && (r.Fail? ==> r.status == InternalError && chats == base && progress == progress0)
      && (r.Ok? <==> gateway.Configured? && gateway.reply.Completed?)
      && (r.Ok? ==>
            var answer := gateway.reply.text;
            && r.value == ChatAnswer(cid, answer, now)
            && cid in chats
            && chats == base[cid := base[cid].(messages := asked + [Message(AssistantRole, answer, now)])]
            && chats[cid].messages == history + [Message(UserRole, message, now), Message(AssistantRole, answer, now)]
            && progress == UpdateIfPresent(progress0, uid, p => AfterChat(p, topic, now)))
    }

    /**
     * The chat turn of an authenticated user: resume the chat by id (whoever owns
     * it) or insert a new empty one, add the user's message, ask the model, add its
     * answer, save, and credit the ledger. The new chat row is inserted before the
     * model client is checked, so it stays when the turn then fails.
     */
    method ChatAs(uid: Id, message: string, topic: string, chatId: Option<Id>, gateway: Gateway, now: int)
      returns (r: Reply<ChatAnswer>, sent: Option<seq<Turn>>)
      requires Valid() && uid in users
      modifies this`chats, this`nextId, this`progress
      ensures Valid()
      ensures ChatEffect(uid, message, topic, chatId, gateway, now, old(chats), old(progress), old(nextId), r, sent)
    {
      var cid := OpenChat(uid, topic, chatId);
      var history := chats[cid].messages;
      var messages := history + [Message(UserRole, message, now)];
      if gateway.Unconfigured? {
        return Fail(InternalError), None;
      }
      var conversation := BuildConversation(topic, messages);
      sent := Some(conversation);
      if gateway.reply.Raised? {
        return Fail(InternalError), sent;
      }
      var answer := gateway.reply.text;
      messages := messages + [Message(AssistantRole, answer, now)];
      assert messages == history + [Message(UserRole, message, now), Message(AssistantRole, answer, now)];
      chats := chats[cid := chats[cid].(messages := messages)];
      CreditChat(uid, topic, now);
      r := Ok(ChatAnswer(cid, answer, now));
    }

    /** Find the chat by id without checking its owner, or insert an empty one for `uid`. */
    method OpenChat(uid: Id, topic: string, chatId: Option<Id>) returns (cid: Id)
      requires Valid() && uid in users
      modifies this`chats, this`nextId
      ensures Valid() && cid in chats
      ensures chatId.Some? && chatId.value in old(chats) ==>
                cid == chatId.value && chats == old(chats) && nextId == old(nextId)
      ensures !(chatId.Some? && chatId.value in old(chats)) ==>
                cid == old(nextId) && chats == old(chats)[cid := Chat(uid, topic, [])] && nextId == old(nextId) + 1
    {
      if chatId.Some? && chatId.value in chats {
        cid := chatId.value;
      } else {
        cid := nextId;
        chats := chats[cid := Chat(uid, topic, [])];
        nextId := nextId + 1;
      }
    }

    /** The ledger part of a chat turn: +10 xp and the topic, when the user has a record. */
    method CreditChat(uid: Id, topic: string, now: int)
      requires Valid()
      modifies this`progress
      ensures Valid()
      ensures progress == UpdateIfPresent(old(progress), uid, p => AfterChat(p, topic, now))
    {
      if uid in progress {
        progress := progress[uid := AfterChat(progress[uid], topic, now)];
      }
    }

    /** `get_single_chat`: the chat with this id, only when the caller owns it. */
    method GetChat(token: Option<string>, chatId: Id, now: int) returns (r: Reply<Chat>)
      requires Valid()
      modifies this`sessions
      ensures Valid() && OnlySessionsChanged()
      ensures sessions == Cleanup(old(sessions), token, now)
      ensures var u := Resolve(old(sessions), old(users), token, now);
              && (u.None? ==> r == Fail(Unauthorized))
              && (u.Some? ==> r == if OwnedChat(chats, chatId, u.value).Some?
                                   then Ok(chats[chatId]) else Fail(NotFound))
      ensures r.Ok? ==> r.value.userId == Resolve(old(sessions), old(users), token, now).value
    {
      var uid := Authenticate(token, now);
      if uid.None? {
        return Fail(Unauthorized);
      }
      var found := OwnedChat(chats, chatId, uid.value);
      if found.None? {
        return Fail(NotFound);
      }
      return Ok(found.value);
    }

    /**
     * `generate_quiz`: ask the model and hand the unfenced reply to the JSON parser
     * `parses`; nothing is stored.
     */
    method GenerateQuiz(token: Option<string>, topic: string, gateway: Gateway,
                        parses: string -> bool, now: int) returns (r: Reply<QuizDraft>)
      requires Valid()
      modifies this`sessions
      ensures Valid() && OnlySessionsChanged()
      ensures sessions == Cleanup(old(sessions), token, now)
      ensures Resolve(old(sessions), old(users), token, now).None? ==> r == Fail(Unauthorized)
      ensures Resolve(old(sessions), old(users), token, now).Some? ==>
                if gateway.Configured? && gateway.reply.Completed?
                   && parses(Fence.ExtractPayload(gateway.reply.text))
                then r == Ok(QuizDraft(topic, Fence.ExtractPayload(gateway.reply.text)))
                else r == Fail(InternalError)
    {
      var uid := Authenticate(token, now);
      if uid.None? {
        return Fail(Unauthorized);
      }
      if gateway.Unconfigured? || gateway.reply.Raised? {
        return Fail(InternalError);
      }
      var payload := Fence.ExtractPayload(gateway.reply.text);
      if !parses(payload) {
        return Fail(InternalError);
      }
      return Ok(QuizDraft(topic, payload));
    }

    /** `save_quiz_result`: store the result as given and credit 20 xp per point of the score. */
    method SaveQuizResult(token: Option<string>, topic: string, score: int, total: int,
                          questions: seq<string>, now: int) returns (r: Reply<int>)
      requires Valid()
      modifies this
      ensures Valid()
      ensures sessions == Cleanup(old(sessions), token, now)
      ensures users == old(users) && chats == old(chats) && nextId == old(nextId)
      ensures var u := Resolve(old(sessions), old(users), token, now);
              && (u.None? ==> r == Fail(Unauthorized) && OnlySessionsChanged())
              && (u.Some? ==>
                    && r == Ok(QuizXp(score))
                    && quizResults == old(quizResults) + [QuizResult(u.value, topic, score, total, questions)]
                    && progress == UpdateIfPresent(old(progress), u.value, p => AfterQuiz(p, score, now)))
    {
      var uid := Authenticate(token, now);
      if uid.None? {
        return Fail(Unauthorized);
      }
      var owner := uid.value;
      quizResults := quizResults + [QuizResult(owner, topic, score, total, questions)];
      var earned := QuizXp(score);
      if owner in progress {
        progress := progress[owner := AfterQuiz(progress[owner], score, now)];
      }
      return Ok(earned);
    }

    /** `summarize_content`: return the model's summary and credit 5 xp. */
    method Summarize(token: Option<string>, gateway: Gateway, now: int) returns (r: Reply<string>)
      requires Valid()
      modifies this
      ensures Valid()
      ensures sessions == Cleanup(old(sessions), token, now)
      ensures users == old(users) && chats == old(chats)
      ensures quizResults == old(quizResults) && nextId == old(nextId)
      ensures var u := Resolve(old(sessions), old(users), token, now);
              && (u.None? ==> r == Fail(Unauthorized) && progress == old(progress))
              && (u.Some? && gateway.Configured? && gateway.reply.Completed? ==>
                    && r == Ok(gateway.reply.text)
                    && progress == UpdateIfPresent(old(progress), u.value, p => AfterSummary(p, now)))
              && (u.Some? && !(gateway.Configured? && gateway.reply.Completed?) ==>
                    r == Fail(InternalError) && progress == old(progress))
    {
      var uid := Authenticate(token, now);
      if uid.None? {
        return Fail(Unauthorized);
      }
      if gateway.Unconfigured? || gateway.reply.Raised? {
        return Fail(InternalError);
      }
      var owner := uid.value;
      if owner in progress {
        progress := progress[owner := AfterSummary(progress[owner], now)];
      }
      return Ok(gateway.reply.text);
    }

    /** `get_progress`: the caller's record, created zeroed when it is missing. */
    method GetProgress(token: Option<string>, now: int) returns (r: Reply<Progress>)
      requires Valid()
      modifies this
      ensures Valid()
      ensures sessions == Cleanup(old(sessions), token, now)
      ensures users == old(users) && chats == old(chats)
      ensures quizResults == old(quizResults) && nextId == old(nextId)
      ensures var u := Resolve(old(sessions), old(users), token, now);
              && (u.None? ==> r == Fail(Unauthorized) && progress == old(progress))
              && (u.Some? && u.value in old(progress) ==> r == Ok(old(progress)[u.value]) && progress == old(progress))
              && (u.Some? && u.value !in old(progress) ==>
                    r == Ok(Zeroed(now)) && progress == old(progress)[u.value := Zeroed(now)])
    {
      var uid := Authenticate(token, now);
      if uid.None? {
        return Fail(Unauthorized);
      }
      var owner := uid.value;
      if owner !in progress {
        progress := progress[owner := Zeroed(now)];
      }
      return Ok(progress[owner]);
    }
  }
}
