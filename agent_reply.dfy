/**
 * Extraction of the assistant's answer from a listed thread: keep the
 * `assistant` messages, sort them newest first (a stable sort, as JavaScript's
 * `Array.prototype.sort` is), take the first, and concatenate the values of its
 * `text` fragments in order.
 */
module AgentReply {
  import opened Options

  const AssistantRole := "assistant"
  const TextKind := "text"

  /** One content item of a listed message: its `type` and, for text items, `text.value`. */
  datatype Fragment = Fragment(kind: string, value: string)

  /** A message listed from a remote thread; `createdAt` is its creation timestamp. */
  datatype ThreadMessage = ThreadMessage(role: string, createdAt: int, content: seq<Fragment>)

  // ---------------------------------------------------------------------------
  // Selecting the latest assistant message

  /** `msgs.filter(msg => msg.role === "assistant")`. */
  function AssistantOnly(msgs: seq<ThreadMessage>): (r: seq<ThreadMessage>)
    ensures |r| <= |msgs|
    ensures forall i :: 0 <= i < |r| ==> r[i].role == AssistantRole
  {
    if msgs == [] then []
    else if msgs[0].role == AssistantRole then [msgs[0]] + AssistantOnly(msgs[1..])
    else AssistantOnly(msgs[1..])
  }

  /** The filter keeps exactly the assistant messages. */
  lemma {:induction false} AssistantOnlyKeepsAssistants(msgs: seq<ThreadMessage>, m: ThreadMessage)
    ensures m in AssistantOnly(msgs) <==> m in msgs && m.role == AssistantRole
  {
    if msgs != [] {
      AssistantOnlyKeepsAssistants(msgs[1..], m);
      assert msgs == [msgs[0]] + msgs[1..];
    }
  }

  /** Timestamps never increase from one element to the next. */
  ghost predicate NewestFirst(s: seq<ThreadMessage>) {
    forall i :: 0 < i < |s| ==> s[i - 1].createdAt >= s[i].createdAt
  }

  /** Places `x` before the first element of `s` that is not newer than `x`. */
  function InsertNewestFirst(x: ThreadMessage, s: seq<ThreadMessage>): (r: seq<ThreadMessage>)
    requires NewestFirst(s)
    ensures NewestFirst(r)
    ensures multiset(r) == multiset(s) + multiset{x}
    ensures r[0] == if s == [] || s[0].createdAt <= x.createdAt then x else s[0]
  {
    if s == [] || s[0].createdAt <= x.createdAt then [x] + s
    else
      assert s == [s[0]] + s[1..];
      [s[0]] + InsertNewestFirst(x, s[1..])
  }

  /**
   * The comparator `(a, b) => b.createdAt - a.createdAt` run by a stable sort:
   * newest first, and among equal timestamps the earlier list position first.
   */
  function SortNewestFirst(s: seq<ThreadMessage>): (r: seq<ThreadMessage>)
    ensures NewestFirst(r)
    ensures multiset(r) == multiset(s)
  {
    if s == [] then []
    else
      assert s == [s[0]] + s[1..];
      InsertNewestFirst(s[0], SortNewestFirst(s[1..]))
  }

  /** `assistantMessages[0]` when there is one. */
  function LatestAssistant(msgs: seq<ThreadMessage>): Option<ThreadMessage> {
    var sorted := SortNewestFirst(AssistantOnly(msgs));
    if sorted == [] then None else Some(sorted[0])
  }

  /**
   * Position `i` holds an assistant message no other assistant message is newer
   * than, and every assistant message before it is strictly older.
   */
  ghost predicate IsFirstNewest(msgs: seq<ThreadMessage>, i: int) {
    && 0 <= i < |msgs|
    && msgs[i].role == AssistantRole
    && (forall j :: 0 <= j < |msgs| && msgs[j].role == AssistantRole ==> msgs[j].createdAt <= msgs[i].createdAt)
    && (forall j :: 0 <= j < i && msgs[j].role == AssistantRole ==> msgs[j].createdAt < msgs[i].createdAt)
  }

  /** At most one position is the first newest assistant message. */
  lemma FirstNewestUnique(msgs: seq<ThreadMessage>, i: int, k: int)
    requires IsFirstNewest(msgs, i) && IsFirstNewest(msgs, k)
    ensures i == k
  {
  }

  /** How one more message at the front of the listing changes the selection. */
  lemma LatestAssistantCons(x: ThreadMessage, rest: seq<ThreadMessage>)
    ensures LatestAssistant([x] + rest) ==
      if x.role != AssistantRole then LatestAssistant(rest)
      else if LatestAssistant(rest).None? || LatestAssistant(rest).value.createdAt <= x.createdAt then Some(x)
      else LatestAssistant(rest)
  {
    var msgs := [x] + rest;
    assert msgs[0] == x && msgs[1..] == rest;
    if x.role == AssistantRole {
      var f := AssistantOnly(msgs);
      assert f == [x] + AssistantOnly(rest);
      assert f[0] == x && f[1..] == AssistantOnly(rest);
      assert SortNewestFirst(f) == InsertNewestFirst(x, SortNewestFirst(AssistantOnly(rest)));
    }
  }

  /** Moving the first newest position one place right past an older or non-assistant message. */
  lemma FirstNewestShift(x: ThreadMessage, rest: seq<ThreadMessage>, i: int)
    requires IsFirstNewest(rest, i)
    requires x.role == AssistantRole ==> x.createdAt < rest[i].createdAt
    ensures IsFirstNewest([x] + rest, i + 1)
  {
    var msgs := [x] + rest;
    forall j | 0 <= j < |msgs| && msgs[j].role == AssistantRole
      ensures msgs[j].createdAt <= msgs[i + 1].createdAt
    {
      if j > 0 { assert msgs[j] == rest[j - 1]; }
    }
  }

  /** A front assistant message at least as new as every later assistant message is selected. */
  lemma FirstNewestAtFront(x: ThreadMessage, rest: seq<ThreadMessage>)
    requires x.role == AssistantRole
    requires forall j :: 0 <= j < |rest| && rest[j].role == AssistantRole ==> rest[j].createdAt <= x.createdAt
    ensures IsFirstNewest([x] + rest, 0)
  {
    var msgs := [x] + rest;
    forall j | 0 <= j < |msgs| && msgs[j].role == AssistantRole
      ensures msgs[j].createdAt <= x.createdAt
    {
      if j > 0 { assert msgs[j] == rest[j - 1]; }
    }
  }

  /** No message is selected exactly when no message has the assistant role. */
  lemma {:induction false} LatestAssistantNoneIff(msgs: seq<ThreadMessage>)
    ensures LatestAssistant(msgs).None? <==> forall j :: 0 <= j < |msgs| ==> msgs[j].role != AssistantRole
  {
    if msgs != [] {
      var x, rest := msgs[0], msgs[1..];
      assert msgs == [x] + rest;
      LatestAssistantNoneIff(rest);
      LatestAssistantCons(x, rest);
      if x.role != AssistantRole && LatestAssistant(rest).None? {
        forall j | 0 <= j < |msgs| ensures msgs[j].role != AssistantRole {
          if j > 0 { assert msgs[j] == rest[j - 1]; }
        }
      }
    }
  }

  /**
   * The message the relay answers with is the newest assistant message, the
   * earliest listed one on a tie.
   */
  lemma {:induction false} LatestAssistantIsFirstNewest(msgs: seq<ThreadMessage>)
    requires LatestAssistant(msgs).Some?
    ensures exists i :: IsFirstNewest(msgs, i) && msgs[i] == LatestAssistant(msgs).value
  {
    var x, rest := msgs[0], msgs[1..];
    assert msgs == [x] + rest;
    LatestAssistantCons(x, rest);
    var prev := LatestAssistant(rest);
    if prev.Some? {
      LatestAssistantIsFirstNewest(rest);
      var i :| IsFirstNewest(rest, i) && rest[i] == prev.value;
      if x.role == AssistantRole && prev.value.createdAt <= x.createdAt {
        FirstNewestAtFront(x, rest);
        assert msgs[0] == LatestAssistant(msgs).value;
      } else {
        FirstNewestShift(x, rest, i);
        assert msgs[i + 1] == LatestAssistant(msgs).value;
      }
    } else {
      LatestAssistantNoneIff(rest);
      FirstNewestAtFront(x, rest);
      assert msgs[0] == LatestAssistant(msgs).value;
    }
  }

  // ---------------------------------------------------------------------------
  // Concatenating the text fragments

  /** What one content item adds to the reply: its value if it is a text item. */
  function Piece(f: Fragment): string {
    if f.kind == TextKind then f.value else ""
  }

  /** The reply text of a content list, built up from the left as the source's loop does. */
  function TextOf(content: seq<Fragment>): string {
    if content == [] then ""
    else TextOf(content[..|content| - 1]) + Piece(content[|content| - 1])
  }

  /** The loop over `assistantMessages[0].content` that accumulates `responseText`. */
  method ExtractText(content: seq<Fragment>) returns (text: string)
    ensures text == TextOf(content)
  {
    text := "";
    for i := 0 to |content|
      invariant text == TextOf(content[..i])
    {
      assert content[..i + 1][..i] == content[..i];
      if content[i].kind == TextKind {
        text := text + content[i].value;
      }
    }
    assert content[..|content|] == content;
  }

  /** The values of the text items, in order: an independent reference for `TextOf`. */
  function TextValues(content: seq<Fragment>): seq<string>
  {
    if content == [] then []
    else (if content[0].kind == TextKind then [content[0].value] else []) + TextValues(content[1..])
  }

  /** Concatenation of a list of strings, from the front. */
  function Join(parts: seq<string>): string {
    if parts == [] then "" else parts[0] + Join(parts[1..])
  }

  /** The reply text of two content lists put together is the two texts put together. */
  lemma {:induction false} TextOfAppend(a: seq<Fragment>, b: seq<Fragment>)
    ensures TextOf(a + b) == TextOf(a) + TextOf(b)
  {
    if b == [] {
      assert a + b == a;
    } else {
      var b' := b[..|b| - 1];
      assert (a + b)[..|a + b| - 1] == a + b';
      TextOfAppend(a, b');
    }
  }

  /** The reply is the in-order concatenation of the text items' values and of nothing else. */
  lemma {:induction false} TextOfJoinsTextValues(content: seq<Fragment>)
    ensures TextOf(content) == Join(TextValues(content))
  {
    if content != [] {
      var head, tail := [content[0]], content[1..];
      assert content == head + tail;
      TextOfAppend(head, tail);
      assert head[..0] == [];
      TextOfJoinsTextValues(tail);
      if content[0].kind == TextKind {
        assert TextValues(content) == [content[0].value] + TextValues(tail);
      } else {
        assert TextValues(content) == TextValues(tail);
      }
    }
  }

  /** Items of any other type contribute nothing, wherever they stand. */
  lemma NonTextContributesNothing(a: seq<Fragment>, f: Fragment, b: seq<Fragment>)
    requires f.kind != TextKind
    ensures TextOf(a + [f] + b) == TextOf(a + b)
  {
    TextOfAppend(a + [f], b);
    TextOfAppend(a, b);
    assert (a + [f])[..|a + [f]| - 1] == a;
  }
}
