/** TopicsDelete (kproxy/topics_delete.cpp): deletes every topic whose name
    matches a pattern.  The matching topics are marked in a queue, the user
    is asked to confirm, and then the topics are deleted one at a time, each
    deletion started by the confirmation of the previous one.  Regular
    expression matching is a parameter `matches(pattern, name)`. */
module TopicsDelete {

  import opened RestV3
  import opened Seqs

  datatype Effect =
    | ListTopics
    | DeleteTopic(name: string)
    | EmitConfirm
    | EmitDeleted

  /** The listed topics the pattern matches, in list order. */
  function Matching(topics: seq<Topic>, pattern: string, matches: (string, string) -> bool): (r: seq<Topic>)
    ensures |r| <= |topics|
  {
    if topics == [] then []
    else
      var rest := Matching(topics[..|topics| - 1], pattern, matches);
      var t := topics[|topics| - 1];
      if matches(pattern, t.name) then rest + [t] else rest
  }

  /** Marked topics are exactly the listed topics the pattern matches. */
  lemma {:induction false} MatchingIff(topics: seq<Topic>, pattern: string, matches: (string, string) -> bool, t: Topic)
    ensures t in Matching(topics, pattern, matches) <==> t in topics && matches(pattern, t.name)
    decreases |topics|
  {
    if topics != [] {
      var init := topics[..|topics| - 1];
      MatchingIff(init, pattern, matches, t);
      assert topics == init + [topics[|topics| - 1]];
    }
  }

  /** A single listed topic is marked exactly when the pattern matches it. */
  lemma MatchingOne(t: Topic, pattern: string, matches: (string, string) -> bool)
    ensures Matching([t], pattern, matches) == if matches(pattern, t.name) then [t] else []
  {
    assert [t][..0] == [];
  }

  /** Marking two runs of listed topics marks those of the first, then
      those of the second, each in list order. */
  lemma {:induction false} MatchingAppend(a: seq<Topic>, b: seq<Topic>, pattern: string, matches: (string, string) -> bool)
    ensures Matching(a + b, pattern, matches) == Matching(a, pattern, matches) + Matching(b, pattern, matches)
    decreases |b|
  {
    if b == [] {
      assert a + b == a;
    } else {
      var init, t := b[..|b| - 1], b[|b| - 1];
      MatchingAppend(a, init, pattern, matches);
      LastSplit(b);
      AppendSnoc(a, init, t);
      MatchingLast(a + init, t, pattern, matches);
      MatchingLast(init, t, pattern, matches);
      AppendAssoc(Matching(a, pattern, matches), Matching(init, pattern, matches), Matching([t], pattern, matches));
    }
  }

  lemma MatchingLast(init: seq<Topic>, t: Topic, pattern: string, matches: (string, string) -> bool)
    ensures Matching(init + [t], pattern, matches) == Matching(init, pattern, matches) + Matching([t], pattern, matches)
  {
    TakeOfSnoc(init, t);
    MatchingOne(t, pattern, matches);
  }

  /** One onDeleted step on the marked queue: the front is removed and its
      deletion requested, or, with nothing left, the run is over. */
  function Step(marked: seq<Topic>): (r: (seq<Topic>, Effect))
    ensures marked == [] ==> r == ([], EmitDeleted)
    ensures marked != [] ==> [marked[0]] + r.0 == marked && r.1 == DeleteTopic(marked[0].name)
  {
    if marked == [] then ([], EmitDeleted) else (marked[1..], DeleteTopic(marked[0].name))
  }

  /** The effects of n successive onDeleted steps. */
  function Drain(marked: seq<Topic>, n: nat): seq<Effect>
  {
    if n == 0 then [] else [Step(marked).1] + Drain(Step(marked).0, n - 1)
  }

  function DeleteRequests(topics: seq<Topic>): (r: seq<Effect>)
    ensures |r| == |topics|
    ensures forall i :: 0 <= i < |topics| ==> r[i] == DeleteTopic(topics[i].name)
  {
    if topics == [] then [] else [DeleteTopic(topics[0].name)] + DeleteRequests(topics[1..])
  }

  /** executeDelete followed by one onDeleted per confirmed deletion deletes
      the marked topics in mark order, one request each, and then reports
      completion. */
  lemma {:induction false} DrainDeletesInOrder(marked: seq<Topic>)
    ensures Drain(marked, |marked| + 1) == DeleteRequests(marked) + [EmitDeleted]
    decreases |marked|
  {
    if marked != [] {
      DrainDeletesInOrder(marked[1..]);
    }
  }

  class Deleter {
    var pattern: string
    /** mMarkedForDelete, front first. */
    var marked: seq<Topic>

    constructor ()
      ensures pattern == "" && marked == []
    {
      pattern := "";
      marked := [];
    }

    /** patternDelete: forget earlier marks, remember the pattern and ask
        for the topic list. */
    method PatternDelete(p: string) returns (out: seq<Effect>)
      modifies this
      ensures marked == [] && pattern == p
      ensures out == [ListTopics]
    {
      marked := [];
      pattern := p;
      out := [ListTopics];
    }

    /** onTopicList: mark the matching topics, then either finish at once
        (nothing matched) or ask for confirmation; nothing is deleted yet. */
    method OnTopicList(topics: seq<Topic>, matches: (string, string) -> bool) returns (out: seq<Effect>)
      modifies this
      ensures pattern == old(pattern)
      ensures marked == old(marked) + Matching(topics, pattern, matches)
      ensures marked == [] ==> out == [EmitDeleted]
      ensures marked != [] ==> out == [EmitConfirm]
    {
      var i := 0;
      while i < |topics|
        invariant 0 <= i <= |topics|
        invariant pattern == old(pattern)
        invariant marked == old(marked) + Matching(topics[..i], pattern, matches)
      {
        assert topics[..i + 1][..i] == topics[..i];
        if matches(pattern, topics[i].name) {
          marked := marked + [topics[i]];
        }
        i := i + 1;
      }
      assert topics[..i] == topics;
      if marked == [] {
        out := [EmitDeleted];
      } else {
        out := [EmitConfirm];
      }
    }

    /** onDeleted (and executeDelete, which calls it): one step of the
        drain. */
    method OnDeleted() returns (out: seq<Effect>)
      modifies this
      ensures pattern == old(pattern)
      ensures (marked, out) == (Step(old(marked)).0, [Step(old(marked)).1])
    {
      if marked == [] {
        out := [EmitDeleted];
      } else {
        var target := marked[0];
        marked := marked[1..];
        out := [DeleteTopic(target.name)];
      }
    }

    method ExecuteDelete() returns (out: seq<Effect>)
      modifies this
      ensures pattern == old(pattern)
      ensures (marked, out) == (Step(old(marked)).0, [Step(old(marked)).1])
    {
      out := OnDeleted();
    }
  }
}
