/** Identifier and comment codecs: the strings by which the executor finds its own
    positions and events again after a restart. */
module Codecs {

  import opened Wrappers

  const BAR := '|'

  // ---------------------------------------------------------------------------
  // Decimal printing and leg ids (execution/trade_group.py:590-591)
  // ---------------------------------------------------------------------------

  function Digit(d: nat): char
    requires d < 10
  {
    ['0', '1', '2', '3', '4', '5', '6', '7', '8', '9'][d]
  }

  function Decimal(n: nat): (s: string)
    ensures s != [] && forall i :: 0 <= i < |s| ==> '0' <= s[i] <= '9'
  {
    if n < 10 then [Digit(n)] else Decimal(n / 10) + [Digit(n % 10)]
  }

  function NewLegId(groupId: string, leg: nat): string {
    groupId + "-L" + Decimal(leg)
  }

  /** `reference.rsplit("-L", 1)[0]`: what stands before the last "-L". */
  function GroupOfReference(reference: string): string
    decreases |reference|
  {
    if |reference| < 2 then reference
    else if reference[|reference| - 2..] == "-L" then reference[..|reference| - 2]
    else
      var shorter := GroupOfReference(reference[..|reference| - 1]);
      if shorter == reference[..|reference| - 1] then reference else shorter
  }

  lemma {:induction false} SkipDashFreeTail(head: string, tail: string)
    requires forall i :: 0 <= i < |tail| ==> tail[i] != '-' && tail[i] != 'L'
    ensures GroupOfReference(head + "-L" + tail) == head
  {
    var s := head + "-L" + tail;
    if tail == [] {
      assert s[|s| - 2..] == "-L" && s[..|s| - 2] == head;
    } else {
      assert s[|s| - 1] == tail[|tail| - 1];
      assert s[|s| - 2..][1] == tail[|tail| - 1];
      assert s[..|s| - 1] == head + "-L" + tail[..|tail| - 1];
      SkipDashFreeTail(head, tail[..|tail| - 1]);
    }
  }

  /** A leg reference gives back its group id, whatever the id contains ("-L" included). */
  lemma LegIdRoundTrip(groupId: string, leg: nat)
    ensures GroupOfReference(NewLegId(groupId, leg)) == groupId
  {
    SkipDashFreeTail(groupId, Decimal(leg));
  }

  // ---------------------------------------------------------------------------
  // Broker comments (execution/mt5_common.py:207-223)
  // ---------------------------------------------------------------------------

  /** The part of `s` before the first bar (all of `s` when there is none). */
  function FirstToken(s: string): (t: string)
    ensures t <= s && BAR !in t
    ensures t == s || s[|t|] == BAR
  {
    if s == [] || s[0] == BAR then [] else [s[0]] + FirstToken(s[1..])
  }

  lemma {:induction false} FirstTokenOf(a: string, rest: string)
    requires BAR !in a && (rest == [] || rest[0] == BAR)
    ensures FirstToken(a + rest) == a
  {
    if a == [] {
      assert a + rest == rest;
    } else {
      assert (a + rest)[1..] == a[1..] + rest;
      FirstTokenOf(a[1..], rest);
    }
  }

  /** What follows the group tag: the leg token, when there is one, and the magic number. */
  function CommentTail(groupId: string, leg: Option<nat>, magic: nat): (tail: string)
    ensures tail != [] && tail[0] == BAR
  {
    if leg.Some? then "|L:" + NewLegId(groupId, leg.value) + "|" + Decimal(magic) else "|" + Decimal(magic)
  }

  function BuildComment(groupId: string, leg: Option<nat>, magic: nat, limit: nat): string {
    var comment := "TG:" + groupId + CommentTail(groupId, leg, magic);
    if |comment| > limit then comment[..limit] else comment
  }

  /** Walks the bar-separated tokens and returns the first one tagged "TG:". */
  function ParseComment(comment: string): Option<string>
    decreases |comment|
  {
    var token := FirstToken(comment);
    if |token| >= 3 && token[..3] == "TG:" then Some(token[3..])
    else if token == comment then None
    else ParseComment(comment[|token| + 1..])
  }

  lemma {:induction false} NoTagNoGroup(comment: string)
    requires |comment| < 3
    ensures ParseComment(comment) == None
    decreases |comment|
  {
    var token := FirstToken(comment);
    if token != comment {
      NoTagNoGroup(comment[|token| + 1..]);
    }
  }

  lemma TaggedToken(name: string, rest: string)
    requires BAR !in name && (rest == [] || rest[0] == BAR)
    ensures ParseComment("TG:" + name + rest) == Some(name)
  {
    var tagged := "TG:" + name;
    FirstTokenOf(tagged, rest);
    assert tagged[..3] == "TG:" && tagged[3..] == name;
  }

  /** What is left of a tagged comment once the broker has cut it. */
  lemma CutComment(groupId: string, tail: string, limit: nat)
    requires tail != [] && tail[0] == BAR && limit <= |"TG:" + groupId + tail|
    ensures ParseComment(("TG:" + groupId + tail)[..limit]) == Some(groupId)
       <==> BAR !in groupId && |groupId| + 3 <= limit
  {
    var whole := "TG:" + groupId + tail;
    var comment := whole[..limit];
    if limit < 3 {
      NoTagNoGroup(comment);
    } else if limit < |groupId| + 3 {
      var name := groupId[..limit - 3];
      assert comment == "TG:" + name + [];
      if BAR in name { CommentWithBar(name, []); NotTheWhole(comment, groupId); } else { TaggedToken(name, []); }
    } else {
      var rest := tail[..limit - 3 - |groupId|];
      assert comment == "TG:" + groupId + rest;
      if BAR in groupId { CommentWithBar(groupId, rest); } else { TaggedToken(groupId, rest); }
    }
  }

  lemma NotTheWhole(comment: string, groupId: string)
    requires ParseComment(comment).Some? && BAR in groupId && BAR !in ParseComment(comment).value
    ensures ParseComment(comment) != Some(groupId)
  {
  }

  /** The comment names the group again exactly when the id has no bar and it fits the
      comment limit together with its tag. The rest of the comment may be cut anywhere. */
  lemma CommentRoundTrip(groupId: string, leg: Option<nat>, magic: nat, limit: nat)
    ensures ParseComment(BuildComment(groupId, leg, magic, limit)) == Some(groupId)
       <==> BAR !in groupId && |groupId| + 3 <= limit
  {
    var tail := CommentTail(groupId, leg, magic);
    var whole := "TG:" + groupId + tail;
    assert whole[..|whole|] == whole;
    CutComment(groupId, tail, if |whole| > limit then limit else |whole|);
  }

  lemma CommentWithBar(groupId: string, rest: string)
    requires BAR in groupId
    ensures ParseComment("TG:" + groupId + rest) != Some(groupId)
    ensures ParseComment("TG:" + groupId + rest).Some? && BAR !in ParseComment("TG:" + groupId + rest).value
  {
    var comment := "TG:" + groupId + rest;
    var token := FirstToken(groupId);
    assert token != groupId;
    assert comment == ("TG:" + token) + (groupId[|token|..] + rest);
    FirstTokenOf("TG:" + token, groupId[|token|..] + rest);
    assert FirstToken(comment)[3..] == token;
  }

  // ---------------------------------------------------------------------------
  // Canonical event ids (contracts/execution_contracts.py:107-125)
  // ---------------------------------------------------------------------------

  function CanonicalEventId(source: string, account: string, kind: string, id: string): Option<string> {
    if BAR in source || BAR in account then None
    else if BAR in kind || BAR in id then None
    else Some(source + "|" + account + "|" + kind + "|" + id)
  }

  lemma SplitAtBar(a: string, x: string, b: string, y: string)
    requires BAR !in a && BAR !in b
    requires a + "|" + x == b + "|" + y
    ensures a == b && x == y
  {
    FirstTokenOf(a, "|" + x);
    FirstTokenOf(b, "|" + y);
    assert a + ("|" + x) == a + "|" + x;
    assert b + ("|" + y) == b + "|" + y;
    assert (a + "|" + x)[|a| + 1..] == x;
    assert (b + "|" + y)[|b| + 1..] == y;
  }

  /** Two facts share an id only if all four fields agree; an id exists exactly for bar-free fields. */
  lemma EventIdsAreInjective(s1: string, a1: string, k1: string, i1: string,
                             s2: string, a2: string, k2: string, i2: string)
    ensures CanonicalEventId(s1, a1, k1, i1).Some? <==> BAR !in s1 + a1 + k1 + i1
    ensures var a, b := CanonicalEventId(s1, a1, k1, i1), CanonicalEventId(s2, a2, k2, i2);
      a.Some? && a == b ==> s1 == s2 && a1 == a2 && k1 == k2 && i1 == i2
  {
    if CanonicalEventId(s1, a1, k1, i1).Some? && CanonicalEventId(s1, a1, k1, i1) == CanonicalEventId(s2, a2, k2, i2) {
      var r1, r2 := a1 + "|" + k1 + "|" + i1, a2 + "|" + k2 + "|" + i2;
      var q1, q2 := k1 + "|" + i1, k2 + "|" + i2;
      assert s1 + "|" + r1 == s1 + "|" + a1 + "|" + k1 + "|" + i1;
      assert s2 + "|" + r2 == s2 + "|" + a2 + "|" + k2 + "|" + i2;
      SplitAtBar(s1, r1, s2, r2);
      assert a1 + "|" + q1 == r1;
      assert a2 + "|" + q2 == r2;
      SplitAtBar(a1, q1, a2, q2);
      SplitAtBar(k1, i1, k2, i2);
    }
  }
}
