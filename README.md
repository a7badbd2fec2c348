# Source-document cache of the debugger editor, in Dafny

The debugger keeps one editor document per source file, so that returning to
a source reuses its buffer instead of rebuilding it. The module
`src/utils/editor/source-documents.js` holds that cache: a module-level
dictionary `sourceDocs` from a source id (or the reserved key `"loading"`) to
an editor document handle. It also holds the dispatch functions that decide
whether to create a document or reuse a cached one, whether to cache it, and
whether to swap the editor's current document. They also choose which
line-number formatter to install: the identity, or the WebAssembly one.

The project has four modules:

- `EditorWidget` (`editor_widget.dfy`) is an abstract editor. Its state is
  the current document, the number of documents created so far (handle `n`
  is the `n`-th document created), the text of each document, the mode and
  the line-number formatter. The widget calls are pure step functions and
  the methods of the `Editor` class.
- `Dispatch` (`dispatch.dfy`) describes each operation as a function of a
  `Session`, which is the cache plus the editor state. The ensures clauses
  state the outcome of one call: which branch creates a document, what is
  cached, which document becomes current, which text, mode and formatter
  are installed, and that nothing else changes.
- `DispatchProperties` (`dispatch_properties.dfy`) holds lemmas that
  relate several calls:
  - `showLoading` and `showSourceText` are idempotent.
  - A cached source is shown as cached, whatever its current text.
  - `updateDocument` creates a new, uncached document on every call for an
    uncached source.
  - Navigating through any sequence of sources creates exactly one document
    per new source id and evicts nothing. When the documents holding a text
    are exactly those the editor has created (whatever the cache holds), it
    also never rewrites an existing document's text.
  - A new editor with an empty cache is consistent: the cache holds only
    documents of this editor, and no two keys share one. Every sequence of
    calls of the module's operations other than `setDocument` keeps it
    consistent; `setDocument` stores any handle it is given.
- `SourceDocuments` (`source_documents.dfy`) is the module as it runs. The
  `DocumentCache` class holds `sourceDocs` as a field that its methods
  update in place. Each dispatch method issues the editor calls in the
  same order as the JavaScript module does. Each is proved equal, state
  for state, to its `Dispatch` function.

The external collaborators are the fields of an `Env` value: `getMode`,
`isWasm`, `renderWasmText` and the localised loading text. They are
uninterpreted: every property holds for every choice of them. The formatter
that `getWasmLineNumberFormatter(id)` returns is represented by
`WasmFormatter(id)`.

A stored cache value is `Some(handle)`. `None` stands for a falsy value
stored through `setDocument`, which accepts any value. So `hasDocument`
means "stored and truthy", as `!!getDocument(key)` does.

One behaviour of the code is worth knowing: `showLoading` returns at once
when `"loading"` is cached. So once another source has been shown, a later
`showLoading` leaves that source on screen (`ShowLoadingShowsLoadingIff`).

## Model

| member | source | states |
|---|---|---|
| `Dispatch.GetDocument` | src/utils/editor/source-documents.js:16-18 | the stored value, `None` (undefined) for a key never set; `Dispatch.SetDocument`, `Dispatch.RemoveDocument` and `Dispatch.ClearDocuments` state what it reads after each write |
| `Dispatch.HasDocument` | src/utils/editor/source-documents.js:16-22 | true exactly when the key is stored with a truthy handle (what `getDocument` returns for it) |
| `SourceDocuments.DocumentCache.constructor` | src/utils/editor/source-documents.js:14 | the cache starts empty |
| `Dispatch.SetDocument` | src/utils/editor/source-documents.js:24-26 | afterwards `getDocument(key)` is the stored value, `hasDocument(key)` holds iff it is truthy, every other key reads as before |
| `Dispatch.RemoveDocument` | src/utils/editor/source-documents.js:28-30 | afterwards `hasDocument(key)` is false and every other key reads as before |
| `Dispatch.ClearDocuments` | src/utils/editor/source-documents.js:32-34 | the new cache answers `hasDocument` false for every key |
| `SourceDocuments.DocumentCache.SetDocument` | src/utils/editor/source-documents.js:24-26 | the cache becomes `Dispatch.SetDocument` of the old one: the key reads as the stored value, every other key as before |
| `SourceDocuments.DocumentCache.RemoveDocument` | src/utils/editor/source-documents.js:28-30 | the cache becomes `Dispatch.RemoveDocument` of the old one: `hasDocument(key)` is false, every other key reads as before |
| `SourceDocuments.DocumentCache.ClearDocuments` | src/utils/editor/source-documents.js:32-34 | the cache becomes `Dispatch.ClearDocuments()`: empty, `hasDocument` false for every key |
| `Dispatch.ResetLineNumberFormat` | src/utils/editor/source-documents.js:36-41 | the identity formatter is installed; document, texts and mode are unchanged |
| `SourceDocuments.ResetLineNumberFormat` | src/utils/editor/source-documents.js:36-41 | the editor ends in the state `Dispatch.ResetLineNumberFormat` gives |
| `Dispatch.UpdateLineNumberFormat` | src/utils/editor/source-documents.js:43-52 | identity formatter when `isWasm(sourceId)` is false, the wasm formatter for `sourceId` when true; nothing but the formatter changes |
| `SourceDocuments.UpdateLineNumberFormat` | src/utils/editor/source-documents.js:43-52 | the editor ends in the state `Dispatch.UpdateLineNumberFormat` gives |
| `Dispatch.UpdateDocument` | src/utils/editor/source-documents.js:54-64 | the cache is never written; an absent source changes nothing; otherwise the cached document for the id becomes current (no document created, texts kept), or else exactly one new empty document is created and made current; the formatter is the one for the id and the mode is kept |
| `SourceDocuments.DocumentCache.UpdateDocument` | src/utils/editor/source-documents.js:54-64 | modifies only the editor and ends in the session `Dispatch.UpdateDocument` gives |
| `Dispatch.ShowLoading` | src/utils/editor/source-documents.js:66-76 | if `"loading"` is cached nothing changes; otherwise exactly one document is created, cached under `"loading"`, made current, given the loading text and mode `{name: "text"}`, the formatter kept |
| `SourceDocuments.DocumentCache.ShowLoading` | src/utils/editor/source-documents.js:66-76 | cache and editor end in the session `Dispatch.ShowLoading` gives |
| `Dispatch.SetEditorText` | src/utils/editor/source-documents.js:78-88 | the current document's text becomes the rendered wasm lines when `source.isWasm`, the raw `source.text` otherwise; no other document and no other field changes |
| `SourceDocuments.SetEditorText` | src/utils/editor/source-documents.js:78-88 | the editor ends in the state `Dispatch.SetEditorText` gives |
| `Dispatch.ShowSourceText` | src/utils/editor/source-documents.js:94-123 | absent source: nothing changes; present: the source's cached document is current and the mode is `getMode(source, symbols)`; cached: no document created, cache and texts unchanged, and either only the mode changes (already current) or the formatter for the id is installed; uncached: exactly one document created, cached under the id, filled with the rendered text, other texts kept, formatter for the id installed |
| `SourceDocuments.DocumentCache.ShowSourceText` | src/utils/editor/source-documents.js:94-123 | cache and editor end in the session `Dispatch.ShowSourceText` gives; the returned handle is present exactly when a cached document was swapped in, and is that document |
| `EditorWidget.Editor.CreateDocument` | src/utils/editor/source-documents.js:116 | returns the next handle, one more document exists and it is empty |
| `EditorWidget.Editor.ReplaceDocument` | src/utils/editor/source-documents.js:118 | the given document becomes current |
| `EditorWidget.Editor.SetText` | src/utils/editor/source-documents.js:86 | the current document's text is replaced |
| `EditorWidget.Editor.SetMode` | src/utils/editor/source-documents.js:121 | the mode is replaced |
| `EditorWidget.Editor.SetLineNumberFormatter` | src/utils/editor/source-documents.js:49 | the formatter option is replaced |
| `DispatchProperties.ShowLoadingIdempotent` | src/utils/editor/source-documents.js:66-76 | calling `showLoading` twice is the same as calling it once |
| `DispatchProperties.ShowLoadingShowsLoadingIff` | src/utils/editor/source-documents.js:67-73 | afterwards the loading document is current iff it was not cached or was current already |
| `DispatchProperties.ShowSourceTextIdempotent` | src/utils/editor/source-documents.js:99-122 | calling `showSourceText` twice with the same arguments is the same as calling it once |
| `DispatchProperties.ShowSourceTextCachedIgnoresText` | src/utils/editor/source-documents.js:103-113 | for a cached id, two sources with that id and the same mode give the same outcome: their text and wasm flag are not consulted |
| `DispatchProperties.UpdateDocumentUncachedCreatesEachTime` | src/utils/editor/source-documents.js:59-61 | two calls on an uncached source leave the cache unchanged and create two distinct documents |
| `DispatchProperties.InitialConsistent` | src/utils/editor/source-documents.js:14 | an empty cache beside a new editor is consistent |
| `DispatchProperties.StepKeepsConsistent` | src/utils/editor/source-documents.js:28-123 | every operation except `setDocument` keeps the cache consistent: only this editor's documents, no handle under two keys, the current document created |
| `DispatchProperties.FreshDocumentKeepsConsistent` | src/utils/editor/source-documents.js:116-118 | caching a freshly created document under an uncached key keeps the cache consistent |
| `DispatchProperties.RunKeepsConsistent` | src/utils/editor/source-documents.js:28-123 | every sequence of such calls keeps the cache consistent |
| `DispatchProperties.ShowSourceTextCachedKeys` | src/utils/editor/source-documents.js:103-117 | one `showSourceText` adds exactly the source id to the cached keys |
| `DispatchProperties.NavigationCachesVisitedSources` | src/utils/editor/source-documents.js:103-117 | after showing a sequence of sources, the cached keys are the old ones plus every visited id |
| `DispatchProperties.NavigationCreatesOneDocumentPerNewSource` | src/utils/editor/source-documents.js:103-117 | showing a sequence of sources creates exactly as many documents as there are distinct visited ids not cached before |
| `DispatchProperties.ShowSourceTextKeepsTextsCreated` | src/utils/editor/source-documents.js:103-122 | when the documents holding a text are exactly those the editor created, `showSourceText` keeps it so, whatever the cache holds |
| `DispatchProperties.NavigationKeepsDocumentTexts` | src/utils/editor/source-documents.js:103-122 | when the documents holding a text are exactly those the editor created (whatever the cache holds, `setDocument` included), showing a sequence of sources never changes the text of a document that existed before |

## Left out

- `resizeBreakpointGutter` and `resizeToggleButton` are DOM layout effects and are not modelled (no-ops).
- The editor widget's code is not part of this model. A new document is assumed to start empty, as `Plain("")`. The mode is kept per editor, not per document as CodeMirror keeps it.
- `getMode`, `isWasm`, `getWasmLineNumberFormatter`, `renderWasmText` and `L10N.getStr("loadingText")` are not part of this model. They are parameters (the `Env` fields). The wasm formatter is known only by the source id it was requested for.
- The `{split, match}` object `setEditorText` passes to the editor is modelled as the rendered lines themselves (`Lines(...)`).
- `updateDocument` receives an immutable record read with `source.get("id")`; the model uses the same `Source` value as `showSourceText` and reads only its id.
- The symbol declarations are only passed to `getMode`; their contents are a stand-in.
- `DispatchProperties.RunKeepsConsistent` does not cover `setDocument`, because that call stores any handle and can make two keys share a document.
- The `Source` value keeps only the id, the text and the wasm flag. The code hands the whole source object to `getMode`, so the model's `getMode` cannot tell apart two sources that differ only in other fields. No property proved here depends on those fields.

The cache is a `map`, while the code's `sourceDocs` is a plain object literal `{}`, whose lookups also find the properties `Object.prototype` supplies. Keys that name such properties ("constructor", "toString", "hasOwnProperty", "__proto__" and the like) are outside this model:

- Dispatch.GetDocument: for an inherited key such as "toString" the code returns the inherited function (truthy) even on an empty cache; the model returns `None`.
- Dispatch.HasDocument: for an inherited key such as "constructor" the code answers true on an empty cache; the model answers false.
- Dispatch.SetDocument: for the key "__proto__" the code replaces the object's prototype instead of storing a key, so later lookups of unset keys read properties of the stored handle; the model stores the key and leaves every other key unchanged.
- SourceDocuments.DocumentCache.SetDocument: the same "__proto__" behaviour as `Dispatch.SetDocument` is not modelled.
- Dispatch.RemoveDocument: `delete` removes only an own key, so an inherited key stays truthy in the code; the model promises `hasDocument(key)` is false for every key.
- SourceDocuments.DocumentCache.RemoveDocument: the same inherited-key behaviour as `Dispatch.RemoveDocument` is not modelled.
- Dispatch.ClearDocuments: a fresh `{}` still answers inherited keys truthy; the model promises an empty cache for every key.
- SourceDocuments.DocumentCache.ClearDocuments: the same inherited-key behaviour as `Dispatch.ClearDocuments` is not modelled.
- Dispatch.ShowSourceText: a source whose id names an inherited property (for example "constructor") would find that property as its "cached document" and pass it to `replaceDocument`; the model treats the id as uncached.
- Dispatch.UpdateDocument: the same inherited-key case would pass the inherited property to `replaceDocument`; the model creates a new document.
- SourceDocuments.DocumentCache.UpdateDocument: the same inherited-key behaviour as `Dispatch.UpdateDocument` is not modelled.
- SourceDocuments.DocumentCache.ShowSourceText: the same inherited-key behaviour as `Dispatch.ShowSourceText` is not modelled; for an id such as "constructor" the code would swap in and return the inherited property, where the method creates a document and returns `None`.

Document handles are numbered per editor, and a session pairs the cache with one editor. The code's module-level cache can serve several editors, and `setDocument` can store any object, while `editor.codeMirror.doc === doc` compares object identity:

- Dispatch.ShowSourceText: the "already current" test compares handle numbers, which matches the code's identity test only for documents this editor created (what `DispatchProperties.Consistent` states). A handle cached by another editor, or stored through `setDocument` before this editor created a document with the same number, can count as "already current" where the code would swap documents.
- SourceDocuments.DocumentCache.ShowSourceText: the same handle-identity limit as `Dispatch.ShowSourceText`. With two editors sharing one cache, or a handle stored through `setDocument`, the method can return `None` and keep the current document where the code swaps in the cached one and returns it.
