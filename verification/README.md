# Streaming mind-map fold and admin settings lookup, in Dafny

This project models two pieces of a ChatGPT web front end.

**The streaming fold of the mind-map page** (`onFetchChat`). The page asks the
chat backend to write a mind map as markdown and streams the reply. It reads
chunks from the response body until the reader reports `done`. Each chunk is
turned into an ordered list of `{content, segment}` events. Each event's
content is appended to `allContent`. After a `start` or `text` event, the
page value (the markdown the mind map is drawn from) is set to the current
`allContent`. A `stop` event clears the `loading` flag and ends the current
chunk only: later chunks are still read and folded. End of input also clears
`loading`. A `read()` that rejects ends the session without touching
`loading`, which then stays true unless a `stop` was folded.

The model is the class `Mapping.MappingPage`, with fields `value`, `loading`
and a ghost list `published` of every value handed to `setValue`. Its method
`FetchChat` runs the outer read loop and calls `FoldChunk`, which is the
inner `for` loop over one chunk's events. Both are proved against pure
specification functions:
- `Folded`: the events of one chunk that get folded.
- `FoldedAll`: the same, over a whole session.
- `Concat`: the text those events add up to.
- `Snapshots`: the values published while folding them.

Lemmas then state what the page promises about those functions.

**The settings lookup of the admin configuration page.**
- `GetConfigValue` is the first setting with a given name, or `None`.
- `ConfigPage.RewardFormSet` copies settings into the page's four forms. It
  guards two of them and not the other three.

Two features of the code shape the model:
- A `stop` event's content is appended before the `break`, and that `break`
  leaves only the inner `for`, so chunks read after a `stop` are still
  folded (src/pages/mapping/index.tsx:80-84).
- The code has no frame reassembly across chunks, no decode-failure handling,
  no `error` event, no session states and no cancellation, and neither has
  the model.

## Model

| member | source | states |
|---|---|---|
| `Mapping.MappingPage.constructor` | src/pages/mapping/index.tsx:24-33 | the page starts with the built-in markdown as its value, not loading, nothing published |
| `Mapping.MappingPage.FetchChat` | src/pages/mapping/index.tsx:54-94 | the session ends by a rejected read exactly when the body fails; `loading` is then true exactly when no folded event was a `stop`, and after a session that ends in `done` it is false; the returned `allContent` is the concatenation of every folded event's content, in arrival order; exactly the snapshots of the fold were published, appended to the earlier ones; the value is the last snapshot, or unchanged when nothing was published (in particular when there is no reader) |
| `Mapping.MappingPage.FoldChunk` | src/pages/mapping/index.tsx:78-92 | one chunk folds exactly its events up to and including the first `stop`; the text, the published list and the value advance with that fold; `loading` is cleared exactly when the chunk holds a `stop` |
| `Mapping.MappingPage.SetValue` | src/pages/mapping/index.tsx:86-91 | `setValue` replaces the value and appends it to the published list |
| `Mapping.Read` | src/pages/mapping/index.tsx:66-69 | while chunks remain, a read yields the next one in order; after the last it rejects exactly when the body fails, and otherwise reports `done`, as it does with no reader |
| `Mapping.FoldedUpToFirstStop` | src/pages/mapping/index.tsx:80-84 | in a chunk whose first `stop` is at index i, exactly the events 0..i are folded; the `stop` itself is folded and nothing after it |
| `Mapping.FoldedWithoutStop` | src/pages/mapping/index.tsx:78-92 | a chunk with no `stop` is folded in full |
| `Mapping.ChunkStopped` | src/pages/mapping/index.tsx:81-84 | breaking at the first `stop` leaves the fold extended by exactly that chunk's folded events |
| `Mapping.ChunkExhausted` | src/pages/mapping/index.tsx:78-92 | running off the end of a chunk with no `stop` folds the whole chunk |
| `Mapping.ConcatAppend` | src/pages/mapping/index.tsx:80 | the text of two event runs in a row is the text of the first followed by the text of the second |
| `Mapping.FoldedAllAppend` | src/pages/mapping/index.tsx:68-93 | folding a session's chunks is folding an earlier part and then the rest, in order |
| `Mapping.FoldedAllSplitAt` | src/pages/mapping/index.tsx:68-93 | a session's fold is the fold of the chunks before k, then chunk k's own fold, then the fold of the chunks after it |
| `Mapping.ContentSplitAt` | src/pages/mapping/index.tsx:67-93 | the final text is the text of the chunks before k, then of chunk k, then of the chunks after it |
| `Mapping.NoStopAppend` | src/pages/mapping/index.tsx:80-84 | two event runs in a row hold no `stop` exactly when neither does |
| `Mapping.NoStopFolded` | src/pages/mapping/index.tsx:78-84 | the events folded from a chunk hold a `stop` exactly when the chunk does, since the first `stop` is folded before the `break` |
| `Mapping.NoStopFoldedAll` | src/pages/mapping/index.tsx:67-93 | a session's folded events hold no `stop` exactly when none of its chunks holds one |
| `Mapping.StopDoesNotEndSession` | src/pages/mapping/index.tsx:80-84 | when chunk j holds a `stop`, a `stop` has been folded before any later chunk k is read, and chunk k is folded all the same, in its place |
| `Mapping.SnapshotCount` | src/pages/mapping/index.tsx:86-91 | `setValue` is called exactly once per `start` or `text` event, and for no other event |
| `Mapping.SnapshotAt` | src/pages/mapping/index.tsx:80-91 | the publish for the `start`/`text` event at index i is the one numbered by the publishing events before it, and carries the text right after that event was folded |
| `Mapping.SnapshotsAreFoldStates` | src/pages/mapping/index.tsx:86-91 | every published value is the text right after some `start` or `text` event was folded; no value is published that the fold never reached |
| `Mapping.SnapshotsPrefixMonotone` | src/pages/mapping/index.tsx:67-91 | each published value is a prefix of every later one, and all are prefixes of the final text |
| `Mapping.ThreeEventChunk` | src/pages/mapping/index.tsx:78-91 | a chunk `start("")`, `text("ab")`, `text("cd")` publishes `""`, `"ab"`, `"abcd"`, in that order |
| `Mapping.StopInsideChunk` | src/pages/mapping/index.tsx:78-93 | chunks `[text("a"), stop("b"), text("c")]` then `[text("d")]` give the text `"abd"` |
| `AdminConfig.Matching` | src/pages/admin/config/index.tsx:45 | the filter keeps exactly the settings whose name is the key, and no more than the list holds |
| `AdminConfig.GetConfigValue` | src/pages/admin/config/index.tsx:44-47 | the result is a setting of the list with that name; it is `None` exactly when no setting has that name |
| `AdminConfig.MatchingStartsWithFirst` | src/pages/admin/config/index.tsx:45 | the filtered list begins with the first setting of that name in list order |
| `AdminConfig.GetConfigValueIsFirst` | src/pages/admin/config/index.tsx:44-47 | the lookup returns the first setting of that name: no earlier setting has it |
| `AdminConfig.ConfigPage.constructor` | src/pages/admin/config/index.tsx:18-41 | the four forms start empty |
| `AdminConfig.ConfigPage.RewardFormSet` | src/pages/admin/config/index.tsx:49-72 | needs the register, sign-in and history settings to be present; sets the two reward fields to their values and the history count to `Number` of its value; sets `ai_models` and `draw_use_price` to `JSON.parse` of their values exactly when those settings exist with a non-empty value, otherwise leaves those forms unchanged; no other field changes |

## Left out

- React hooks, JSX and antd components, `message` toasts and the `useEffect` wiring are user interface.
- Rendering the mind map with markmap (src/pages/mapping/index.tsx:36-51) is a foreign library. A publish is modelled as appending to the ghost list `published`.
- `postChatCompletion`, `getAdminConfig`, `putAdminConfig`, `onGetConfig`, `onSave` and the form `onReset` handlers are network I/O or wiring. The prompt sent with the request is part of that I/O.
- The reader of the response body is a parameter. `None` stands for "no readable body", which also covers a rejected request whose error has no body. `Some(body)` stands for the chunks the body delivers, then whether its next `read()` resolves `done` or rejects.
- The `.catch` branch of the request clears `loading` before the loop. This is not modelled separately: with no readable body the first read reports `done`, which clears `loading` as well.
- Mapping.MappingPage.FetchChat: a rejected `read()` propagates out of `onFetchChat` as a rejected promise. Here it is the result `rejected`, and the error value it carries is not modelled.
- `TextDecoder` and `handleChatData` are not part of this model. Each chunk is given directly as its list of events, so byte-level decoding and chunk parsing are not modelled.
- `console.log` is left out.
- Scheduling is treated as sequential. `setValue` and `setInputOptions` take effect at once, with no React batching.
- Mapping.MappingPage.FetchChat: `allContent` is a local variable of `onFetchChat` in the source. Here it is the method's result, so the final text can be stated.
- Mapping.MappingPage.FoldChunk: the inner `for` loop is written as a separate method that `FetchChat` calls once per chunk. It behaves the same, and each loop's proof stays small.
- `JSON.parse` and `Number` are opaque. A field set through them records the text they received (`JsonOf`, `NumberOf`). A `JSON.parse` that throws on malformed text is not modelled.
- AdminConfig.ConfigPage.RewardFormSet: when a register, sign-in or history setting is missing, the source throws a `TypeError` partway through. For example, if only the history setting is missing, the reward form is already written. The model instead requires all three settings to be present.
- `getConfigValue` cannot modify its list because the list is an immutable Dafny sequence, so no separate statement is needed.
