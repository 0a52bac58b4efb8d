# LearnMate backend — a Dafny model

LearnMate's backend is a FastAPI service (`backend/server.py`). It signs users in through an
external identity provider and keeps their sessions in a document store. It forwards tutoring
requests (chat, quiz generation, summaries) to a language model and credits experience points
in a per-user progress ledger. This project models the service's own bookkeeping:

- `wrappers.dfy`, module `Wrappers`: the `Option` type.
- `fence.dfy`, module `Fence`: the Python string operations the quiz generator applies to the
  model's reply (`str.strip`, `in`, `str.split`), modelled as functions. `ExtractPayload` is
  the text handed to `json.loads`.
- `ledger.dfy`, module `Ledger`: the progress record and the three ledger updates:
  +10 xp and the topic for a chat turn, +20 xp per point of score for a quiz save, +5 xp for a
  summary. The topic union is `list(set(topics + [topic]))`. The module also covers sequences of
  such activities.
- `server.dfy`, module `Server`: the tables as map fields of class `Backend` (`users`,
  `sessions`, `progress`, `chats`, `quizResults`), plus an id counter `nextId`. There is one
  method per endpoint. The session authenticator is split in two. `Resolve` is the pure
  lookup. `Cleanup` gives the sessions table after the lazy deletion of an expired session.
  Every authenticated handler's contract is stated through these two.
- `scenarios.dfy`, module `Scenarios`: client code that calls several handlers in a row:
  logout then lookup, an expired cookie refused twice, and chat topics a, b, a giving a and b, each once.

Time is an integer `now` in seconds. Fresh ids come from the counter. The identity provider's
answer (`Exchange`) and the language model's answer (`Gateway`, `Completion`) are inputs of
the handlers. An HTTP error is `Fail(status)`.

In these places the code's behaviour is easy to misread; the model follows the code:

- "AI service not configured" is raised inside a `try` that catches every `Exception`, so the
  caller gets 500, not 503 (lines 225-226 with 272-274; 307-308 with 348-350; 399-400 with 424-426).
- In a chat turn, a new empty chat row is inserted (line 211) before the client check (line 225).
  After a 500 for a missing client, that row stays.
- A chat turn loads the chat by id without checking its owner (line 199). It therefore appends
  to another user's chat when given that chat's id. Direct retrieval does check the owner
  (line 292).
- `score` is an unchecked integer (line 47), so a negative score lowers xp;
  `Ledger.XpNonDecreasingIffScoresNonNegative` states exactly when xp never drops.
- A ```json fence is cut by `split("```json")[1].split("```")[0]`. That is not always "up to
  the next ```". When a ``` straddles the start of a second ```json, the payload keeps a
  backtick (`Fence.StraddlingFence`).

## Model

| member | source | states |
|---|---|---|
| `Fence.Strip` | backend/server.py:335 | the result is the input with whitespace (Python's `isspace` set) removed at both ends, and its first and last characters are not whitespace |
| `Fence.IndexOf` | backend/server.py:336 | the result is the leftmost occurrence of the pattern, or None exactly when the pattern occurs nowhere (the meaning of `in`) |
| `Fence.Split` | backend/server.py:337 | `str.split`: at least one piece, at least two when the separator occurs, and no piece contains the separator |
| `Fence.JoinSplit` | backend/server.py:337 | joining the pieces of a split with the separator gives back the original text |
| `Fence.SplitSecond` | backend/server.py:339 | the second piece of a split is the text after the first separator up to the next one or the end |
| `Fence.ExtractPayload` | backend/server.py:335-339 | with no ``` in the stripped reply the payload is the stripped reply; the payload never contains ```; it is always a substring of the stripped reply |
| `Fence.Unfence` | backend/server.py:336-339 | the same three facts for the fence cutting of an already stripped text |
| `Fence.BarePayload` | backend/server.py:338-339 | with a bare fence, the payload is exactly the text after the first ``` up to the next ``` or the end |
| `Fence.JsonPayload` | backend/server.py:336-337 | with a ```json fence, the payload starts right after the first ```json, holds no ```, and ends at the end or where a ``` begins; with no second ```json it ends at the next ``` |
| `Fence.JsonSegment` | backend/server.py:337 | the double cut on the text after the fence is a prefix of it that ends at the end or at a ``` |
| `Fence.StraddlingFence` | backend/server.py:337 | for "```jsona````json" the payload is "a`", not "a" |
| `Ledger.Zeroed` | backend/server.py:113-119 | a new progress record has 0 xp, no topics and streak 0 |
| `Ledger.Dedup` | backend/server.py:258 | `list(set(s))`: no duplicates and exactly the elements of `s` |
| `Ledger.DistinctLength` | backend/server.py:258 | a duplicate-free list has as many entries as distinct elements |
| `Ledger.SameElementsSameLength` | backend/server.py:258 | two duplicate-free lists with the same elements have the same length, whatever their order |
| `Ledger.DedupOfDistinct` | backend/server.py:258 | a list without duplicates keeps its elements and its length through `list(set(...))` |
| `Ledger.AddTopic` | backend/server.py:258 | the topic union has no duplicates and holds exactly the old topics and the new one |
| `Ledger.AddTopicIdempotent` | backend/server.py:258 | adding the same topic again leaves the same topics and the same length |
| `Ledger.AddTopicLength` | backend/server.py:258 | on a duplicate-free list the union grows by one entry exactly when the topic is new |
| `Ledger.QuizXp` | backend/server.py:369 | quiz xp is non-negative exactly when the score is, and zero exactly when the score is |
| `Ledger.AfterChat` | backend/server.py:256-264 | a chat turn adds 10 xp and the topic (set semantics), sets last activity, keeps the streak |
| `Ledger.AfterQuiz` | backend/server.py:372-377 | a quiz save adds 20 xp per point of score and leaves the topics and the streak as they were |
| `Ledger.AfterSummary` | backend/server.py:415-420 | a summary adds 5 xp and leaves the topics and the streak as they were |
| `Ledger.Gain` | backend/server.py:369 | each activity changes xp by a fixed amount independent of the record: 10, 20 x score, or 5 |
| `Ledger.XpTraceSteps` | backend/server.py:373 | along a sequence of activities each xp step is exactly that activity's gain |
| `Ledger.XpNonDecreasingIffScoresNonNegative` | backend/server.py:369-377 | xp never drops along a sequence of activities if and only if no quiz score in it is negative |
| `Ledger.ReplayXp` | backend/server.py:373 | the final xp is the initial xp plus the sum of all gains |
| `Ledger.ReplayTopics` | backend/server.py:254-264 | after any activities the topics are exactly the old ones plus the chat topics; quizzes and summaries add none |
| `Ledger.RepeatedTopicCountsOnce` | backend/server.py:258 | chat turns on a, b, a leave exactly the topics a and b, two entries, and 30 xp in a fresh record |
| `Ledger.ChatsABA` | backend/server.py:258 | on a record with no topics, chat turns on a, b, a leave exactly the topics a and b, two entries |
| `Server.Resolve` | backend/server.py:55-77 | a token authenticates exactly when it is non-empty, has a session with `expires_at >= now`, and that session's user exists; the result is that user |
| `Server.Cleanup` | backend/server.py:68-72 | an expired session of the token is deleted; every other session is kept unchanged |
| `Server.LookupIdempotent` | backend/server.py:68-72 | a second lookup gives the same answer and deletes nothing more |
| `Server.DeletedTokenUnauthenticated` | backend/server.py:61-64 | a token whose session was deleted authenticates nobody |
| `Server.IssuedSessionWindow` | backend/server.py:125-134 | a new session authenticates its user up to and including now + 7 days, and not after |
| `Server.FindByEmail` | backend/server.py:99-101 | the lookup returns a user with that email, or None exactly when there is none |
| `Server.OwnedChat` | backend/server.py:292-295 | a chat is found exactly when it exists and belongs to the caller; never another user's chat |
| `Server.BuildConversation` | backend/server.py:230-233 | the conversation sent to the model is the system prompt for the topic, then every message with its role and content, in order |
| `Server.Topics` | backend/server.py:452-465 | the catalogue has 8 entries with distinct ids |
| `Server.UpdateIfPresent` | backend/server.py:254-255 | a ledger update changes only the user's own record, and only when that record exists |
| `Server.Backend.Authenticate` | backend/server.py:55-80 | the result is `Resolve` of the old sessions and the new sessions table is `Cleanup` of it |
| `Server.Backend.ProcessSession` | backend/server.py:84-155 | non-200 gives 400 and exchange failure gives 500, both with no change; otherwise the user found by email is reused unchanged, or a new user with no interests and a zeroed progress record is created; a session for the token with expiry now + 604800 (the cookie max age) is inserted either way |
| `Server.Backend.CurrentUser` | backend/server.py:157-162 | the authenticated user's row, or 401 |
| `Server.Backend.Logout` | backend/server.py:164-176 | always succeeds; with a token it deletes exactly that token's session |
| `Server.Backend.UpdateInterests` | backend/server.py:178-186 | 401, or the caller's interests replaced and nothing else changed |
| `Server.Backend.ChatWithAi` | backend/server.py:189-274 | 401 with only cleanup done, or the effect of `ChatAs` for the authenticated user |
| `Server.Backend.ChatAs` | backend/server.py:195-274 | resumes the chat by id whoever owns it, else inserts an empty chat for the topic first; 500 when the client is missing (the new chat stays) or the model raises; on success the messages are the old ones then the user's and the assistant's, the conversation sent replays the history, and the ledger gets `AfterChat` when a record exists |
| `Server.Backend.OpenChat` | backend/server.py:197-213 | a known chat id is reused regardless of owner; a missing or unknown id inserts a new empty chat with a fresh id |
| `Server.Backend.CreditChat` | backend/server.py:253-264 | the caller's record, if any, becomes `AfterChat` of it |
| `Server.Backend.GetChat` | backend/server.py:286-297 | 401, or the chat when the caller owns it, else 404 |
| `Server.Backend.GenerateQuiz` | backend/server.py:300-350 | 401; 500 when the client is missing, the model raises or the payload does not parse; otherwise the topic and `ExtractPayload` of the reply; nothing stored |
| `Server.Backend.SaveQuizResult` | backend/server.py:352-379 | 401, or one result with the given score and total appended, `xp_earned = 20 x score` returned, and the record, if present, updated by `AfterQuiz` |
| `Server.Backend.Summarize` | backend/server.py:392-426 | 401; 500 when the client is missing or the model raises; otherwise the summary text and +5 xp on an existing record |
| `Server.Backend.GetProgress` | backend/server.py:429-449 | 401, the existing record unchanged, or a zeroed record created and returned |
| `Scenarios.LogoutThenLookup` | backend/server.py:164-167 | after logout the same cookie gets 401 |
| `Scenarios.ExpiredTwice` | backend/server.py:68-72 | an expired cookie gets 401 twice and its session is deleted |
| `Scenarios.ChatTopicsOnce` | backend/server.py:254-264 | after a new user's chat turns on a, c, a, the progress read shows 30 xp and exactly the topics a and c, two entries |

## Left out

- FastAPI routing, CORS, logging and `.env` loading: framework plumbing. Cookie attributes other than `max_age` (http-only, secure, same-site, path) and the cookie deletion on logout are framework mechanics too.
- The Supabase client is replaced by the map fields. Database exceptions are not modelled: `get_user_from_token` would turn them into "no user", other handlers into 500 or an unhandled error.
- `get_chat_history` and `get_quiz_results` are not modelled: they only list rows ordered by `created_at`, which is database sorting.
- `created_at` columns and the `id` of progress and quiz-result rows are not modelled.
- The model's prompts are not modelled. The chat's system prompt is `Instruction(topic)`. The quiz size `num_questions` and the content to summarise only enter prompts, so `GenerateQuiz` and `Summarize` do not take them.
- The identity-provider HTTP call and its 10 s timeout are network I/O. Its outcome is the `Exchange` input. A reply lacking `email`, `name` or `session_token` (a `KeyError`, hence 500) is not represented.
- Server.Backend.GenerateQuiz: `json.loads` is the opaque parameter `parses`; the parsed question list is not returned, only the payload text that was parsed.
- Timestamps are integers, not ISO-8601 strings. One `now` serves a whole request, so the user message, the assistant message and `last_activity` share it.
- Ids are natural numbers from one counter instead of database-generated ids. A request `chat_id` is `Option<Id>`. The source treats an empty `chat_id` and an unknown one as "create a new chat"; here both are an absent or unknown id.
- Server.Backend.ProcessSession: inserting a session whose token is already stored overwrites it; the database's behaviour on a duplicate token is unknown.
- `list(set(...))` has no defined order in Python: string hashes vary between processes, so even a duplicate-free list may come back reordered. `Ledger.Dedup` has to pick one order and keeps first occurrences, but no contract depends on it: every property about topics is stated through membership, absence of duplicates and length.
- `QuizResult.questions` stands for the list of question records the client sends (`List[dict]`), stored as given. The records are opaque strings here; their fields are never read by the handlers.
- The unsynchronised read-modify-write of a chat's messages only matters under concurrent requests, which are not modelled.
- A `None` message content from the model is not modelled.
