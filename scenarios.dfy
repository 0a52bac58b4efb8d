/**
 * Client code driving `Server.Backend` through several requests: what a caller
 * can conclude from the handlers' contracts alone.
 */
module Scenarios {
  import opened Wrappers
  import opened Ledger
  import opened Server

  /** After logout, the same cookie no longer authenticates. */
  method LogoutThenLookup(b: Backend, token: string, now: int) returns (r: Reply<User>)
    requires b.Valid() && token != ""
    modifies b
    ensures b.Valid()
    ensures token !in b.sessions
    ensures r == Fail(Unauthorized)
  {
    var _ := b.Logout(Some(token));
    r := b.CurrentUser(Some(token), now);
  }

  /** An expired cookie is refused twice in a row; the first refusal deletes its session. */
  method ExpiredTwice(b: Backend, token: string, now: int) returns (first: Reply<User>, second: Reply<User>)
    requires b.Valid() && token != "" && token in b.sessions && b.sessions[token].expiresAt < now
    modifies b
    ensures b.Valid()
    ensures first == Fail(Unauthorized) && second == Fail(Unauthorized)
    ensures b.sessions == old(b.sessions) - {token}
  {
    first := b.CurrentUser(Some(token), now);
    second := b.CurrentUser(Some(token), now);
  }

  /**
   * On a fresh store: log a new user in, chat on topics a, b, a, and read the
   * progress record: 30 xp and the topics a and c, each once.
   */
  method ChatTopicsOnce(email: string, name: string, token: string, a: string, c: string, now: int)
    returns (r: Reply<Progress>)
    requires token != "" && a != c
    ensures r.Ok? && r.value.xp == 3 * ChatGain
    ensures (forall x :: x in r.value.topics <==> x == a || x == c) && |r.value.topics| == 2
  {
    var b := new Backend();
    var login := b.ProcessSession(Identity(email, name, None, token), now);
    var uid := login.value.userId;
    IssuedSessionWindow(map[], b.users, token, uid, now, now);
    assert b.progress[uid] == Zeroed(now);
    ChatOn(b, token, uid, a, now);
    ChatOn(b, token, uid, c, now);
    ChatOn(b, token, uid, a, now);
    ChatsABA(Zeroed(now), a, c, now, now, now);
    r := b.GetProgress(Some(token), now);
  }

  /** One answered chat turn by a signed-in user with a progress record. */
  method ChatOn(b: Backend, token: string, uid: Id, topic: string, now: int)
    requires b.Valid() && Resolve(b.sessions, b.users, Some(token), now) == Some(uid) && uid in b.progress
    modifies b
    ensures b.Valid() && Resolve(b.sessions, b.users, Some(token), now) == Some(uid) && uid in b.progress
    ensures b.progress[uid] == AfterChat(old(b.progress[uid]), topic, now)
  {
    var _, _ := b.ChatWithAi(Some(token), "question", topic, None, Configured(Completed("answer")), now);
  }
}
