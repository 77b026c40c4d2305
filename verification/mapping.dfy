/**
 * The streaming fold of the mind-map page (`onFetchChat` in
 * src/pages/mapping/index.tsx): chunks are read from the response body until
 * the reader reports `done`; each chunk yields an ordered list of
 * `{content, segment}` events that are folded into `allContent`, and the page
 * value is set to the current `allContent` after every `start` or `text` event.
 */
module Mapping {
  import opened Wrappers

  /** One `{content, segment}` pair obtained from a decoded chunk. */
  datatype ChatEvent = ChatEvent(content: Option<string>, segment: string)

  /** How a response body ends once its chunks are delivered: `read()` resolves `done`, or it rejects. */
  datatype StreamEnd = Done | Failed

  /** A readable response body: the chunks it delivers, in order, then how it ends. */
  datatype Body = Body(chunks: seq<seq<ChatEvent>>, end: StreamEnd)

  /**
   * What `await reader?.read()` gives: a result with `done` and, when not
   * done, the chunk's events; or a rejection, which nothing in
   * `onFetchChat` catches.
   */
  datatype ReadResult = Resolved(done: bool, value: seq<ChatEvent>) | Rejected

  /** What an event adds to `allContent`: `content ? content : ''`. */
  function Piece(e: ChatEvent): string
  {
    match e.content
    case Some(s) => s
    case None => ""
  }

  predicate IsStop(e: ChatEvent)
  {
    e.segment == "stop"
  }

  /** Events after which `setValue(allContent)` is called. */
  predicate Publishes(e: ChatEvent)
  {
    e.segment == "start" || e.segment == "text"
  }

  /** No event of `events` is a `stop`. */
  predicate NoStop(events: seq<ChatEvent>)
  {
    forall k :: 0 <= k < |events| ==> !IsStop(events[k])
  }

  /** The chunks a reader delivers before it ends; no reader delivers none. */
  function Delivered(reader: Option<Body>): seq<seq<ChatEvent>>
  {
    match reader
    case None => []
    case Some(body) => body.chunks
  }

  /** The reader's `read()` rejects once its chunks are delivered. */
  predicate Fails(reader: Option<Body>)
  {
    reader.Some? && reader.value.end == Failed
  }

  /**
   * The `n`-th call of `reader?.read()`, after `|| {}` and the default
   * `done = true`: the next delivered chunk while there is one; after the
   * last, a rejection for a failing body, and `done` otherwise, in particular
   * when there is no reader.
   */
  function Read(reader: Option<Body>, n: nat): (r: ReadResult)
    ensures r.Rejected? <==> n >= |Delivered(reader)| && Fails(reader)
    ensures r.Resolved? ==> (r.done <==> n >= |Delivered(reader)|)
    ensures r.Resolved? && !r.done ==> r.value == Delivered(reader)[n]
  {
    match reader
    case None => Resolved(true, [])
    case Some(body) =>
      if n < |body.chunks| then Resolved(false, body.chunks[n])
      else if body.end == Failed then Rejected
      else Resolved(true, [])
  }

  /**
   * The events of one chunk that the inner `for` folds: every event up to and
   * including the first `stop`, or the whole chunk when it has no `stop`.
   */
  function Folded(chunk: seq<ChatEvent>): seq<ChatEvent>
  {
    if chunk == [] then []
    else if IsStop(chunk[0]) then [chunk[0]]
    else [chunk[0]] + Folded(chunk[1..])
  }

  /** Every event folded over a session, chunk by chunk in arrival order. */
  function FoldedAll(chunks: seq<seq<ChatEvent>>): seq<ChatEvent>
  {
    if chunks == [] then []
    else FoldedAll(chunks[..|chunks| - 1]) + Folded(chunks[|chunks| - 1])
  }

  /** `allContent` after folding `events` onto the empty string. */
  function Concat(events: seq<ChatEvent>): string
  {
    if events == [] then ""
    else Concat(events[..|events| - 1]) + Piece(events[|events| - 1])
  }

  /** The arguments of the successive `setValue` calls made while folding `events`. */
  function Snapshots(events: seq<ChatEvent>): seq<string>
  {
    if events == [] then []
    else
      Snapshots(events[..|events| - 1])
      + (if Publishes(events[|events| - 1]) then [Concat(events)] else [])
  }

  /** The number of `start` and `text` events, counted from the front. */
  function CountPublishing(events: seq<ChatEvent>): nat
  {
    if events == [] then 0
    else (if Publishes(events[0]) then 1 else 0) + CountPublishing(events[1..])
  }

  /** The last element of `s`, or `default` when `s` is empty. */
  function LastOr(s: seq<string>, default: string): string
  {
    if s == [] then default else s[|s| - 1]
  }

  /** Within one chunk, folding stops right after the first `stop` event, which is itself folded. */
  lemma {:induction false} FoldedUpToFirstStop(chunk: seq<ChatEvent>, i: nat)
    requires i < |chunk| && IsStop(chunk[i])
    requires forall k :: 0 <= k < i ==> !IsStop(chunk[k])
    ensures Folded(chunk) == chunk[..i + 1]
    decreases i
  {
    if i > 0 {
      FoldedUpToFirstStop(chunk[1..], i - 1);
      assert chunk[..i + 1] == [chunk[0]] + chunk[1..][..i];
    }
  }

  /** A chunk without a `stop` event is folded entirely. */
  lemma {:induction false} FoldedWithoutStop(chunk: seq<ChatEvent>)
    requires forall k :: 0 <= k < |chunk| ==> !IsStop(chunk[k])
    ensures Folded(chunk) == chunk
    decreases |chunk|
  {
    if chunk != [] {
      FoldedWithoutStop(chunk[1..]);
      assert chunk == [chunk[0]] + chunk[1..];
    }
  }

  /** Folding one more event appends its piece and, for `start`/`text`, publishes the new text. */
  lemma {:induction false} FoldStep(events: seq<ChatEvent>, e: ChatEvent)
    ensures Concat(events + [e]) == Concat(events) + Piece(e)
    ensures Snapshots(events + [e])
         == Snapshots(events) + (if Publishes(e) then [Concat(events) + Piece(e)] else [])
  {
  }

  /**
   * Folding one event and publishing it when it is a `start` or `text` keeps
   * the accumulated text, the published list and the value in step with the fold.
   */
  lemma {:induction false} FoldEventStep(folded: seq<ChatEvent>, e: ChatEvent, pub0: seq<string>, v0: string,
                      content: string, pub: seq<string>, v: string, pub': seq<string>, v': string)
    requires content == Concat(folded) && pub == pub0 + Snapshots(folded) && v == LastOr(Snapshots(folded), v0)
    requires pub' == (if Publishes(e) then pub + [content + Piece(e)] else pub)
    requires v' == (if Publishes(e) then content + Piece(e) else v)
    ensures content + Piece(e) == Concat(folded + [e])
    ensures pub' == pub0 + Snapshots(folded + [e])
    ensures v' == LastOr(Snapshots(folded + [e]), v0)
  {
  }

  lemma {:induction false} ChunkStopped(events: seq<ChatEvent>, i: nat, folded0: seq<ChatEvent>, folded: seq<ChatEvent>)
    requires i < |events| && IsStop(events[i])
    requires forall k :: 0 <= k < i ==> !IsStop(events[k])
    requires folded == folded0 + events[..i] + [events[i]]
    ensures folded == folded0 + Folded(events)
  {
    FoldedUpToFirstStop(events, i);
    assert events[..i + 1] == events[..i] + [events[i]];
    assert folded == folded0 + (events[..i] + [events[i]]);
  }

  lemma {:induction false} ChunkContinues(events: seq<ChatEvent>, i: nat, folded0: seq<ChatEvent>, folded: seq<ChatEvent>)
    requires i < |events| && !IsStop(events[i])
    requires forall k :: 0 <= k < i ==> !IsStop(events[k])
    requires folded == folded0 + events[..i] + [events[i]]
    ensures forall k :: 0 <= k < i + 1 ==> !IsStop(events[k])
    ensures folded == folded0 + events[..i + 1]
  {
  }

  lemma {:induction false} ChunkExhausted(events: seq<ChatEvent>, folded0: seq<ChatEvent>, folded: seq<ChatEvent>)
    requires forall k :: 0 <= k < |events| ==> !IsStop(events[k])
    requires folded == folded0 + events[..|events|]
    ensures folded == folded0 + Folded(events)
  {
    FoldedWithoutStop(events);
    assert events[..|events|] == events;
  }

  lemma {:induction false} ConcatAppend(a: seq<ChatEvent>, b: seq<ChatEvent>)
    ensures Concat(a + b) == Concat(a) + Concat(b)
    decreases |b|
  {
    if b == [] {
      assert a + b == a;
    } else {
      var b' := b[..|b| - 1];
      assert (a + b)[..|a + b| - 1] == a + b';
      ConcatAppend(a, b');
    }
  }

  /** Folding a session's chunks is folding the first part, then the rest. */
  lemma {:induction false} FoldedAllAppend(xs: seq<seq<ChatEvent>>, ys: seq<seq<ChatEvent>>)
    ensures FoldedAll(xs + ys) == FoldedAll(xs) + FoldedAll(ys)
    decreases |ys|
  {
    if ys == [] {
      assert xs + ys == xs;
    } else {
      var ys' := ys[..|ys| - 1];
      assert (xs + ys)[..|xs + ys| - 1] == xs + ys';
      FoldedAllAppend(xs, ys');
    }
  }

  /** Reading one more chunk folds that chunk's events after the earlier ones. */
  lemma {:induction false} FoldedAllSnoc(chunks: seq<seq<ChatEvent>>, n: nat)
    requires n < |chunks|
    ensures FoldedAll(chunks[..n + 1]) == FoldedAll(chunks[..n]) + Folded(chunks[n])
  {
    assert chunks[..n + 1][..n] == chunks[..n];
  }

  /**
   * A session's fold is the fold of the chunks before `k`, then chunk `k`'s own
   * fold (up to its first `stop`), then the fold of the chunks after it.
   */
  lemma {:induction false} FoldedAllSplitAt(chunks: seq<seq<ChatEvent>>, k: nat)
    requires k < |chunks|
    ensures FoldedAll(chunks) == FoldedAll(chunks[..k]) + Folded(chunks[k]) + FoldedAll(chunks[k + 1..])
  {
    assert chunks == chunks[..k + 1] + chunks[k + 1..];
    FoldedAllAppend(chunks[..k + 1], chunks[k + 1..]);
    FoldedAllSnoc(chunks, k);
  }

  /** The text of a session is the text of the chunks before `k`, of chunk `k`, and of the chunks after it. */
  lemma {:induction false} ContentSplitAt(chunks: seq<seq<ChatEvent>>, k: nat)
    requires k < |chunks|
    ensures Concat(FoldedAll(chunks))
         == Concat(FoldedAll(chunks[..k])) + Concat(Folded(chunks[k])) + Concat(FoldedAll(chunks[k + 1..]))
  {
    var before, here, after := FoldedAll(chunks[..k]), Folded(chunks[k]), FoldedAll(chunks[k + 1..]);
    FoldedAllSplitAt(chunks, k);
    ConcatAppend(before + here, after);
    ConcatAppend(before, here);
  }

  /** `NoStop` of a concatenation is `NoStop` of both parts. */
  lemma {:induction false} NoStopAppend(a: seq<ChatEvent>, b: seq<ChatEvent>)
    ensures NoStop(a + b) <==> NoStop(a) && NoStop(b)
  {
    if NoStop(a + b) {
      forall k | 0 <= k < |a|
        ensures !IsStop(a[k])
      {
        assert (a + b)[k] == a[k];
      }
      forall k | 0 <= k < |b|
        ensures !IsStop(b[k])
      {
        assert (a + b)[|a| + k] == b[k];
      }
    }
  }

  /** A chunk's folded events hold a `stop` exactly when the chunk does: its first `stop` is always folded. */
  lemma {:induction false} NoStopFolded(chunk: seq<ChatEvent>)
    ensures NoStop(Folded(chunk)) <==> NoStop(chunk)
    decreases |chunk|
  {
    if chunk != [] && !IsStop(chunk[0]) {
      NoStopFolded(chunk[1..]);
      NoStopAppend([chunk[0]], Folded(chunk[1..]));
      NoStopAppend([chunk[0]], chunk[1..]);
      assert chunk == [chunk[0]] + chunk[1..];
    }
  }

  /** A session's folded events hold no `stop` exactly when none of its chunks holds one. */
  lemma {:induction false} NoStopFoldedAll(chunks: seq<seq<ChatEvent>>)
    ensures NoStop(FoldedAll(chunks)) <==> forall k :: 0 <= k < |chunks| ==> NoStop(chunks[k])
    decreases |chunks|
  {
    if chunks != [] {
      var init, last := chunks[..|chunks| - 1], chunks[|chunks| - 1];
      NoStopFoldedAll(init);
      NoStopFolded(last);
      NoStopAppend(FoldedAll(init), Folded(last));
      assert forall k :: 0 <= k < |init| ==> init[k] == chunks[k];
    }
  }

  /**
   * A `stop` ends only the chunk it is in: when chunk `j` holds a `stop`, a
   * `stop` has already been folded by the time a later chunk `k` is read, and
   * chunk `k` is folded all the same, in its place.
   */
  lemma {:induction false} StopDoesNotEndSession(chunks: seq<seq<ChatEvent>>, j: nat, k: nat)
    requires j < k < |chunks| && !NoStop(chunks[j])
    ensures !NoStop(FoldedAll(chunks[..k]))
    ensures FoldedAll(chunks) == FoldedAll(chunks[..k]) + Folded(chunks[k]) + FoldedAll(chunks[k + 1..])
  {
    NoStopFoldedAll(chunks[..k]);
    assert chunks[..k][j] == chunks[j];
    FoldedAllSplitAt(chunks, k);
  }

  /** `setValue` is called exactly once per `start` or `text` event. */
  lemma {:induction false} SnapshotCount(events: seq<ChatEvent>)
    ensures |Snapshots(events)| == CountPublishing(events)
    decreases |events|
  {
    if events != [] {
      var init := events[..|events| - 1];
      SnapshotCount(init);
      CountPublishingSnoc(init, events[|events| - 1]);
      assert init + [events[|events| - 1]] == events;
    }
  }

  lemma {:induction false} CountPublishingSnoc(events: seq<ChatEvent>, e: ChatEvent)
    ensures CountPublishing(events + [e]) == CountPublishing(events) + (if Publishes(e) then 1 else 0)
    decreases |events|
  {
    if events != [] {
      assert (events + [e])[1..] == events[1..] + [e];
      CountPublishingSnoc(events[1..], e);
    }
  }

  /**
   * The publish made for the `start` or `text` event at index `i` is the one
   * numbered by the publishing events before it, and it carries `allContent`
   * as it stands right after that event was folded.
   */
  lemma {:induction false} SnapshotAt(events: seq<ChatEvent>, i: nat)
    requires i < |events| && Publishes(events[i])
    ensures CountPublishing(events[..i]) < |Snapshots(events)|
    ensures Snapshots(events)[CountPublishing(events[..i])] == Concat(events[..i + 1])
    decreases |events|
  {
    var init := events[..|events| - 1];
    SnapshotCount(init);
    if i < |events| - 1 {
      assert init[..i] == events[..i] && init[..i + 1] == events[..i + 1];
      SnapshotAt(init, i);
    } else {
      assert events[..i] == init && events[..i + 1] == events;
    }
  }

  /**
   * Every publish is a `start` or `text` event's fold state: there are no
   * phantom snapshots.
   */
  lemma {:induction false} SnapshotsAreFoldStates(events: seq<ChatEvent>, k: nat)
    requires k < |Snapshots(events)|
    ensures exists i :: 0 <= i < |events| && Publishes(events[i]) && Snapshots(events)[k] == Concat(events[..i + 1])
    decreases |events|
  {
    var init := events[..|events| - 1];
    if k < |Snapshots(init)| {
      SnapshotsAreFoldStates(init, k);
      var i :| 0 <= i < |init| && Publishes(init[i]) && Snapshots(init)[k] == Concat(init[..i + 1]);
      assert init[..i + 1] == events[..i + 1];
    } else {
      assert events[..|events|] == events;
    }
  }

  /**
   * Published snapshots only grow: each is a prefix of every later one, and
   * all are prefixes of the final `allContent`.
   */
  lemma {:induction false} SnapshotsPrefixMonotone(events: seq<ChatEvent>)
    ensures forall i, j :: 0 <= i <= j < |Snapshots(events)| ==> Snapshots(events)[i] <= Snapshots(events)[j]
    ensures forall i :: 0 <= i < |Snapshots(events)| ==> Snapshots(events)[i] <= Concat(events)
    decreases |events|
  {
    if events != [] {
      var init := events[..|events| - 1];
      SnapshotsPrefixMonotone(init);
      var s, si := Snapshots(events), Snapshots(init);
      assert Concat(init) <= Concat(events);
      forall i | 0 <= i < |s|
        ensures s[i] <= Concat(events)
      {
        if i < |si| {
          PrefixTransitive(si[i], Concat(init), Concat(events));
        }
      }
      forall i, j | 0 <= i <= j < |s|
        ensures s[i] <= s[j]
      {
        if j >= |si| {
          assert s[j] == Concat(events);
        }
      }
    }
  }

  lemma {:induction false} PrefixTransitive(a: string, b: string, c: string)
    requires a <= b && b <= c
    ensures a <= c
  {
  }

  /** A session of one chunk folds that chunk. */
  lemma {:induction false} SingleChunkSession(chunk: seq<ChatEvent>)
    ensures FoldedAll([chunk]) == Folded(chunk)
  {
    var noChunks: seq<seq<ChatEvent>> := [];
    assert [chunk][..0] == noChunks;
  }

  /** The first two steps of `ThreeEventChunk`: `start("")` then `text("ab")`. */
  lemma {:induction false} StartThenText(e0: ChatEvent, e1: ChatEvent)
    requires e0 == ChatEvent(Some(""), "start") && e1 == ChatEvent(Some("ab"), "text")
    ensures Concat([e0, e1]) == "ab" && Snapshots([e0, e1]) == ["", "ab"]
  {
    var none: seq<ChatEvent> := [];
    assert Concat([e0]) == "" && Snapshots([e0]) == [""] by {
      FoldStep(none, e0);
      assert none + [e0] == [e0];
    }
    FoldStep([e0], e1);
    assert [e0] + [e1] == [e0, e1];
  }

  /** Example: one chunk with `start("")`, `text("ab")`, `text("cd")` publishes three snapshots in order. */
  lemma ThreeEventChunk(e0: ChatEvent, e1: ChatEvent, e2: ChatEvent)
    requires e0 == ChatEvent(Some(""), "start") && e1 == ChatEvent(Some("ab"), "text")
    requires e2 == ChatEvent(Some("cd"), "text")
    ensures Snapshots(FoldedAll([[e0, e1, e2]])) == ["", "ab", "abcd"]
  {
    var chunk := [e0, e1, e2];
    assert FoldedAll([chunk]) == chunk by {
      SingleChunkSession(chunk);
      FoldedWithoutStop(chunk);
    }
    ThreeEventSnapshots(e0, e1, e2);
  }

  /** The publishes of `ThreeEventChunk`'s events, folded one after another. */
  lemma {:induction false} ThreeEventSnapshots(e0: ChatEvent, e1: ChatEvent, e2: ChatEvent)
    requires e0 == ChatEvent(Some(""), "start") && e1 == ChatEvent(Some("ab"), "text")
    requires e2 == ChatEvent(Some("cd"), "text")
    ensures Snapshots([e0, e1, e2]) == ["", "ab", "abcd"]
  {
    StartThenText(e0, e1);
    FoldStep([e0, e1], e2);
    assert [e0, e1] + [e2] == [e0, e1, e2];
    assert Piece(e2) == "cd" && "ab" + "cd" == "abcd";
  }

  /** Example: a `stop`'s content is appended, the rest of its chunk is dropped, later chunks are folded. */
  lemma StopInsideChunk(a: ChatEvent, b: ChatEvent, c: ChatEvent, d: ChatEvent)
    requires a == ChatEvent(Some("a"), "text") && b == ChatEvent(Some("b"), "stop")
    requires c == ChatEvent(Some("c"), "text") && d == ChatEvent(Some("d"), "text")
    ensures Concat(FoldedAll([[a, b, c], [d]])) == "abd"
  {
    StopChunkThenText(a, b, c, d);
    assert Concat([a, b]) == "ab" by {
      var none: seq<ChatEvent> := [];
      FoldStep(none, a);
      assert none + [a] == [a];
      FoldStep([a], b);
      assert [a] + [b] == [a, b];
    }
    FoldStep([a, b], d);
    assert [a, b] + [d] == [a, b, d];
  }

  /** The events folded from `StopInsideChunk`'s chunks: the `stop` ends its own chunk only. */
  lemma {:induction false} StopChunkThenText(a: ChatEvent, b: ChatEvent, c: ChatEvent, d: ChatEvent)
    requires a == ChatEvent(Some("a"), "text") && b == ChatEvent(Some("b"), "stop")
    requires c == ChatEvent(Some("c"), "text") && d == ChatEvent(Some("d"), "text")
    ensures FoldedAll([[a, b, c], [d]]) == [a, b, d]
  {
    var chunks := [[a, b, c], [d]];
    FoldedUpToFirstStop(chunks[0], 1);
    FoldedWithoutStop(chunks[1]);
    SingleChunkSession(chunks[0]);
    FoldedAllSnoc(chunks, 1);
    assert chunks[..1] == [chunks[0]] && chunks[..2] == chunks;
    assert [a, b, c][..2] == [a, b];
  }

  const InitValue: string :=
    "# ChatGptWeb系统\n## 基础功能\n- 支持AI聊天\n- 支持GPT4\n- 支持DLLAE2\n- 支持Midjourney\n"
    + "- 支持mind思维导图生成\n- 更多功能等你探索......\n\n## 更多内容\n-  在上面输入您想要生成的内容\n- 点击生成即可\n"

  /** The state of the mind-map page that the streaming fold touches. */
  class MappingPage {
    /** The page's `value` state: the markdown the mind map is drawn from. */
    var value: string
    /** `inputOptions.loading`. */
    var loading: bool
    /** Every argument `setValue` has been called with, in order. */
    ghost var published: seq<string>

    constructor ()
      ensures value == InitValue && !loading && published == []
    {
      value := InitValue;
      loading := false;
      published := [];
    }

    /** `setValue`: replaces the page value and publishes it to the mind map. */
    method SetValue(v: string)
      modifies this`value, this`published
      ensures value == v && published == old(published) + [v]
    {
      value := v;
      published := published + [v];
    }

    /**
     * The inner `for` of `onFetchChat` over the events of one chunk: each
     * event's content is appended to `allContent`; a `stop` clears `loading`
     * and ends the chunk; a `start` or `text` publishes `allContent`.
     * `folded` is the session's fold so far, before and after this chunk.
     */
    method FoldChunk(events: seq<ChatEvent>, allContent0: string,
                     ghost folded0: seq<ChatEvent>, ghost pub0: seq<string>, ghost v0: string)
      returns (allContent: string, ghost folded: seq<ChatEvent>)
      requires allContent0 == Concat(folded0)
      requires published == pub0 + Snapshots(folded0) && value == LastOr(Snapshots(folded0), v0)
      modifies this
      ensures folded == folded0 + Folded(events)
      ensures allContent == Concat(folded)
      ensures published == pub0 + Snapshots(folded) && value == LastOr(Snapshots(folded), v0)
      ensures loading == (old(loading) && NoStop(events))
    {
      allContent, folded := allContent0, folded0;
      ghost var stopped := false;
      var i := 0;
      assert folded0 + events[..i] == folded0;
      while i < |events|
        invariant 0 <= i <= |events|
        invariant !stopped && loading == old(loading)
        invariant forall k :: 0 <= k < i ==> !IsStop(events[k])
        invariant folded == folded0 + events[..i]
        invariant allContent == Concat(folded)
        invariant published == pub0 + Snapshots(folded) && value == LastOr(Snapshots(folded), v0)
      {
        var e := events[i];
        ghost var content, pub, v := allContent, published, value;
        allContent := allContent + Piece(e);
        if IsStop(e) {
          loading := false;
          stopped := true;
          FoldEventStep(folded, e, pub0, v0, content, pub, v, published, value);
          folded := folded + [e];
          ChunkStopped(events, i, folded0, folded);
          break;
        }
        if e.segment == "start" {
          SetValue(allContent);
        }
        if e.segment == "text" {
          SetValue(allContent);
        }
        FoldEventStep(folded, e, pub0, v0, content, pub, v, published, value);
        folded := folded + [e];
        ChunkContinues(events, i, folded0, folded);
        i := i + 1;
      }
      if !stopped {
        ChunkExhausted(events, folded0, folded);
      }
    }

    /**
     * One session of `onFetchChat`, reading chunks from `reader` (`None` when
     * the response has no readable body). The accumulated text is returned;
     * `rejected` is whether the session ends by a rejected `read()`, which
     * leaves `loading` as the folded events left it.
     */
    method FetchChat(reader: Option<Body>) returns (allContent: string, rejected: bool)
      modifies this
      ensures rejected == Fails(reader)
      ensures loading == (rejected && NoStop(FoldedAll(Delivered(reader))))
      ensures allContent == Concat(FoldedAll(Delivered(reader)))
      ensures published == old(published) + Snapshots(FoldedAll(Delivered(reader)))
      ensures value == LastOr(Snapshots(FoldedAll(Delivered(reader))), old(value))
      ensures reader.None? ==> published == old(published) && value == old(value)
    {
      loading := true;
      allContent := "";
      ghost var chunks := Delivered(reader);
      ghost var folded: seq<ChatEvent> := [];
      var n := 0;
      rejected := false;
      assert chunks[..n] == [];
      while true
        invariant 0 <= n <= |chunks|
        invariant !rejected
        invariant folded == FoldedAll(chunks[..n])
        invariant loading == NoStop(folded)
        invariant allContent == Concat(folded)
        invariant published == old(published) + Snapshots(folded)
        invariant value == LastOr(Snapshots(folded), old(value))
        decreases |chunks| - n
      {
        var r := Read(reader, n);
        if r.Rejected? {
          rejected := true;
          break;
        }
        if r.done {
          loading := false;
          break;
        }
        ghost var before := folded;
        allContent, folded := FoldChunk(r.value, allContent, folded, old(published), old(value));
        NoStopFolded(r.value);
        NoStopAppend(before, Folded(r.value));
        FoldedAllSnoc(chunks, n);
        n := n + 1;
      }
      assert chunks[..n] == chunks;
    }
  }
}
