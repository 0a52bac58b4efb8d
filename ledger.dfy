/**
 * The progress ledger: one record per user holding experience points, the topics
 * learned, a streak counter that nothing increments, and the time of the last
 * activity. Chat turns, quiz saves and summaries each add a fixed gain.
 */
module Ledger {

  datatype Progress = Progress(xp: int, topics: seq<string>, streak: int, lastActivity: int)

  const ChatGain: int := 10
  const QuizGainPerPoint: int := 20
  const SummaryGain: int := 5

  /** The record created for a new user and on the first read of a missing one. */
  function Zeroed(now: int): (p: Progress)
    ensures p.xp == 0 && p.topics == [] && p.streak == 0
  {
    Progress(0, [], 0, now)
  }

  // ----- topics_learned: list(set(topics + [topic])) ------------------------

  ghost predicate NoDuplicates(s: seq<string>) {
    forall i, j :: 0 <= i < j < |s| ==> s[i] != s[j]
  }

  /**
   * `list(set(s))`. Python leaves the order of a set unspecified; the model keeps
   * each element at its first occurrence.
   */
  function Dedup(s: seq<string>): (r: seq<string>)
    ensures NoDuplicates(r)
    ensures forall x :: x in r <==> x in s
  {
    if s == [] then []
    else
      var init := Dedup(s[..|s| - 1]);
      var last := s[|s| - 1];
      assert s == s[..|s| - 1] + [last];
      if last in init then init else init + [last]
  }

  /** The elements of a list, as a set. */
  ghost function Elements(s: seq<string>): set<string> {
    set x | x in s
  }

  /** A duplicate-free list has as many entries as it has distinct elements. */
  lemma {:induction false} DistinctLength(s: seq<string>)
    requires NoDuplicates(s)
    ensures |Elements(s)| == |s|
  {
    if s != [] {
      var init := s[..|s| - 1];
      var last := s[|s| - 1];
      assert NoDuplicates(init);
      DistinctLength(init);
      assert last !in init by {
        forall i | 0 <= i < |init| ensures init[i] != last {
          assert init[i] == s[i];
        }
      }
      assert s == init + [last];
      assert Elements(s) == Elements(init) + {last};
    }
  }

  /**
   * Two duplicate-free lists with the same elements have the same length, in
   * whatever order they hold them. This is what makes a length a property of
   * `list(set(...))` rather than of one particular order.
   */
  lemma SameElementsSameLength(r: seq<string>, s: seq<string>)
    requires NoDuplicates(r) && NoDuplicates(s)
    requires forall x :: x in r <==> x in s
    ensures |r| == |s|
  {
    assert Elements(r) == Elements(s);
    DistinctLength(r);
    DistinctLength(s);
  }

  /** A list without duplicates keeps its elements and its length through `Dedup`. */
  lemma DedupOfDistinct(s: seq<string>)
    requires NoDuplicates(s)
    ensures |Dedup(s)| == |s|
    ensures forall x :: x in Dedup(s) <==> x in s
  {
    SameElementsSameLength(Dedup(s), s);
  }

  /** The topic union of a chat turn: the old topics and the new one, without duplicates. */
  function AddTopic(topics: seq<string>, topic: string): (r: seq<string>)
    ensures NoDuplicates(r)
    ensures forall x :: x in r <==> x in topics || x == topic
  {
    Dedup(topics + [topic])
  }

  /** Learning the same topic twice in a row leaves the same topics as learning it once. */
  lemma AddTopicIdempotent(topics: seq<string>, topic: string)
    ensures forall x :: x in AddTopic(AddTopic(topics, topic), topic) <==> x in AddTopic(topics, topic)
    ensures |AddTopic(AddTopic(topics, topic), topic)| == |AddTopic(topics, topic)|
  {
    SameElementsSameLength(AddTopic(AddTopic(topics, topic), topic), AddTopic(topics, topic));
  }

  /** On a list without duplicates the union grows by one entry exactly when the topic is new. */
  lemma AddTopicLength(topics: seq<string>, topic: string)
    requires NoDuplicates(topics)
    ensures |AddTopic(topics, topic)| == if topic in topics then |topics| else |topics| + 1
  {
    if topic in topics {
      SameElementsSameLength(AddTopic(topics, topic), topics);
    } else {
      var grown := topics + [topic];
      assert NoDuplicates(grown) by {
        forall i, j | 0 <= i < j < |grown| ensures grown[i] != grown[j] {
          if j == |topics| {
            assert grown[i] == topics[i];
          } else {
            assert grown[i] == topics[i] && grown[j] == topics[j];
          }
        }
      }
      SameElementsSameLength(AddTopic(topics, topic), grown);
    }
  }

  // ----- the three ledger updates -------------------------------------------

  /** xp earned by a quiz save: 20 per point of the (unchecked) score. */
  function QuizXp(score: int): (xp: int)
    ensures xp >= 0 <==> score >= 0
    ensures xp == 0 <==> score == 0
  {
    score * QuizGainPerPoint
  }

  /** After a chat turn on `topic` at time `now`. */
  function AfterChat(p: Progress, topic: string, now: int): (q: Progress)
    ensures q.xp == p.xp + ChatGain
    ensures NoDuplicates(q.topics)
    ensures forall x :: x in q.topics <==> x in p.topics || x == topic
    ensures q.streak == p.streak && q.lastActivity == now
  {
    p.(xp := p.xp + ChatGain, topics := AddTopic(p.topics, topic), lastActivity := now)
  }

  /** After a quiz save: the topic is not recorded. */
  function AfterQuiz(p: Progress, score: int, now: int): (q: Progress)
    ensures q.xp == p.xp + QuizXp(score)
    ensures q.topics == p.topics && q.streak == p.streak && q.lastActivity == now
  {
    p.(xp := p.xp + QuizXp(score), lastActivity := now)
  }

  /** After a summary. */
  function AfterSummary(p: Progress, now: int): (q: Progress)
    ensures q.xp == p.xp + SummaryGain
    ensures q.topics == p.topics && q.streak == p.streak && q.lastActivity == now
  {
    p.(xp := p.xp + SummaryGain, lastActivity := now)
  }

  // ----- sequences of learning activities -----------------------------------

  datatype Activity =
    | ChatTurn(topic: string, at: int)
    | QuizSaved(score: int, at: int)
    | Summarized(at: int)

  function Apply(p: Progress, a: Activity): Progress
  {
    match a
    case ChatTurn(topic, at) => AfterChat(p, topic, at)
    case QuizSaved(score, at) => AfterQuiz(p, score, at)
    case Summarized(at) => AfterSummary(p, at)
  }

  /** The xp an activity adds, whatever the record it is applied to. */
  function Gain(a: Activity): (g: int)
    ensures forall p :: Apply(p, a).xp == p.xp + g
  {
    match a
    case ChatTurn(_, _) => ChatGain
    case QuizSaved(score, _) => QuizXp(score)
    case Summarized(_) => SummaryGain
  }

  /** A quiz save with a negative score is the only activity that can lose xp. */
  predicate ScoreNonNegative(a: Activity) {
    a.QuizSaved? ==> a.score >= 0
  }

  function Replay(p: Progress, acts: seq<Activity>): Progress
    decreases |acts|
  {
    if acts == [] then p else Replay(Apply(p, acts[0]), acts[1..])
  }

  /** The xp values before and after each activity in turn. */
  function XpTrace(p: Progress, acts: seq<Activity>): (t: seq<int>)
    decreases |acts|
    ensures |t| == |acts| + 1 && t[0] == p.xp
  {
    if acts == [] then [p.xp] else [p.xp] + XpTrace(Apply(p, acts[0]), acts[1..])
  }

  predicate NonDecreasing(t: seq<int>) {
    forall k :: 0 <= k < |t| - 1 ==> t[k] <= t[k + 1]
  }

  /** Each step of the trace moves by exactly the gain of that activity. */
  lemma {:induction false} XpTraceSteps(p: Progress, acts: seq<Activity>)
    ensures forall k :: 0 <= k < |acts| ==> XpTrace(p, acts)[k + 1] == XpTrace(p, acts)[k] + Gain(acts[k])
    decreases |acts|
  {
    if acts != [] {
      var q := Apply(p, acts[0]);
      XpTraceSteps(q, acts[1..]);
      var t := XpTrace(p, acts);
      assert t == [p.xp] + XpTrace(q, acts[1..]);
      forall k | 0 <= k < |acts|
        ensures t[k + 1] == t[k] + Gain(acts[k])
      {
        if k > 0 {
          assert acts[k] == acts[1..][k - 1];
        }
      }
    }
  }

  /** xp never drops along a sequence of activities exactly when no quiz score is negative. */
  lemma XpNonDecreasingIffScoresNonNegative(p: Progress, acts: seq<Activity>)
    ensures NonDecreasing(XpTrace(p, acts)) <==> forall k :: 0 <= k < |acts| ==> ScoreNonNegative(acts[k])
  {
    XpTraceSteps(p, acts);
    var t := XpTrace(p, acts);
    if NonDecreasing(t) {
      forall k | 0 <= k < |acts| ensures ScoreNonNegative(acts[k]) {
        assert t[k] <= t[k + 1];
      }
    }
  }

  /** The final xp is the initial xp plus every gain along the way. */
  function TotalGain(acts: seq<Activity>): int
    decreases |acts|
  {
    if acts == [] then 0 else Gain(acts[0]) + TotalGain(acts[1..])
  }

  lemma {:induction false} ReplayXp(p: Progress, acts: seq<Activity>)
    ensures Replay(p, acts).xp == p.xp + TotalGain(acts)
    decreases |acts|
  {
    if acts != [] {
      ReplayXp(Apply(p, acts[0]), acts[1..]);
    }
  }

  /** topics_learned only grows, and only by the topics of chat turns. */
  lemma {:induction false} ReplayTopics(p: Progress, acts: seq<Activity>)
    ensures forall x :: x in Replay(p, acts).topics <==>
              x in p.topics || exists k :: 0 <= k < |acts| && acts[k].ChatTurn? && acts[k].topic == x
    decreases |acts|
  {
    if acts != [] {
      var q := Apply(p, acts[0]);
      ReplayTopics(q, acts[1..]);
      forall x ensures x in Replay(p, acts).topics <==>
               x in p.topics || exists k :: 0 <= k < |acts| && acts[k].ChatTurn? && acts[k].topic == x
      {
        if exists k :: 0 <= k < |acts[1..]| && acts[1..][k].ChatTurn? && acts[1..][k].topic == x {
          var k :| 0 <= k < |acts[1..]| && acts[1..][k].ChatTurn? && acts[1..][k].topic == x;
          assert acts[k + 1] == acts[1..][k];
        }
        if exists k :: 0 <= k < |acts| && acts[k].ChatTurn? && acts[k].topic == x {
          var k :| 0 <= k < |acts| && acts[k].ChatTurn? && acts[k].topic == x;
          if k > 0 {
            assert acts[1..][k - 1] == acts[k];
          }
        }
      }
    }
  }

  /** Chat turns on A, B, A leave the topics A and B, each once, in a fresh record. */
  lemma RepeatedTopicCountsOnce(a: string, b: string, t1: int, t2: int, t3: int, now: int)
    requires a != b
    ensures var q := Replay(Zeroed(now), [ChatTurn(a, t1), ChatTurn(b, t2), ChatTurn(a, t3)]);
      (forall x :: x in q.topics <==> x == a || x == b) && |q.topics| == 2 && q.xp == 3 * ChatGain
  {
    var z := Zeroed(now);
    assert Replay(z, [ChatTurn(a, t1), ChatTurn(b, t2), ChatTurn(a, t3)])
        == AfterChat(AfterChat(AfterChat(z, a, t1), b, t2), a, t3) by {
      ReplayThree(z, ChatTurn(a, t1), ChatTurn(b, t2), ChatTurn(a, t3));
    }
    ChatsABA(z, a, b, t1, t2, t3);
  }

  /** The topic part of `RepeatedTopicCountsOnce`, for any record that starts with no topics. */
  lemma ChatsABA(p: Progress, a: string, b: string, t1: int, t2: int, t3: int)
    requires p.topics == [] && a != b
    ensures var q := AfterChat(AfterChat(AfterChat(p, a, t1), b, t2), a, t3);
      (forall x :: x in q.topics <==> x == a || x == b) && |q.topics| == 2
  {
    var q := AfterChat(AfterChat(AfterChat(p, a, t1), b, t2), a, t3);
    assert forall x :: x in q.topics <==> x in [a, b];
    SameElementsSameLength(q.topics, [a, b]);
  }

  lemma ReplayThree(p: Progress, x: Activity, y: Activity, z: Activity)
    ensures Replay(p, [x, y, z]) == Apply(Apply(Apply(p, x), y), z)
  {
    assert [x, y, z][1..] == [y, z];
    assert [y, z][1..] == [z];
    assert [z][1..] == [];
    var q := Apply(Apply(Apply(p, x), y), z);
    assert Replay(q, []) == q;
    assert Replay(Apply(Apply(p, x), y), [z]) == q;
    assert Replay(Apply(p, x), [y, z]) == q;
  }




}
