/**
 * What each operation of the source-document module does, as a function of
 * a Session: the document cache (the module-level `sourceDocs` dictionary)
 * together with the state of the editor it drives. The ensures clauses state
 * the outcome of one call; module DispatchProperties relates several calls.
 */
module Dispatch {
  import opened EditorWidget

  datatype Option<T> = None | Some(value: T)

  /** A debugger source: its id, its text and whether it is a WebAssembly
      module. An absent source (`null`) is `None` where the code accepts one. */
  datatype Source = Source(id: string, text: string, isWasm: bool)

  /** Symbol declarations of a source; only handed on to getMode. */
  datatype Symbols = Symbols(declarations: seq<string>)

  /** The collaborators whose code is not part of this model, as parameters:
      getMode, isWasm and renderWasmText, and the localised "loadingText". */
  datatype Env = Env(
    getMode: (Source, Option<Symbols>) -> Mode,
    isWasm: string -> bool,
    renderWasmText: (string, string) -> seq<string>,
    loadingText: string)

  /** The cache. A stored value is `Some(handle)`, or `None` for a falsy
      value stored through setDocument; a key never set reads as undefined. */
  type Cache = map<string, Option<Doc>>

  const LoadingKey: string := "loading"

  datatype Session = Session(docs: Cache, editor: EditorState)

  /** getDocument(key) */
  function GetDocument(docs: Cache, key: string): Option<Doc> {
    if key in docs then docs[key] else None
  }

  /** hasDocument(key): the key holds a truthy handle. */
  predicate HasDocument(docs: Cache, key: string)
    ensures HasDocument(docs, key) <==> key in docs && docs[key].Some?
  {
    GetDocument(docs, key).Some?
  }

  /** setDocument(key, doc) */
  function SetDocument(docs: Cache, key: string, doc: Option<Doc>): (r: Cache)
    ensures GetDocument(r, key) == doc
    ensures HasDocument(r, key) <==> doc.Some?
    ensures forall k :: k != key ==> GetDocument(r, k) == GetDocument(docs, k)
  {
    docs[key := doc]
  }

  /** removeDocument(key) */
  function RemoveDocument(docs: Cache, key: string): (r: Cache)
    ensures !HasDocument(r, key)
    ensures forall k :: k != key ==> GetDocument(r, k) == GetDocument(docs, k)
  {
    docs - {key}
  }

  /** clearDocuments() */
  function ClearDocuments(): (r: Cache)
    ensures forall k :: !HasDocument(r, k)
  {
    map[]
  }

  /** The keys whose stored handle is truthy. */
  function CachedKeys(docs: Cache): set<string> {
    set k | k in docs && docs[k].Some?
  }

  /** The formatter updateLineNumberFormat installs for a source id. */
  function FormatterFor(env: Env, sourceId: string): LineNumberFormatter {
    if env.isWasm(sourceId) then WasmFormatter(sourceId) else Identity
  }

  /** The cached document for `key` is the editor's current document. */
  ghost predicate Showing(s: Session, key: string) {
    HasDocument(s.docs, key) && s.editor.doc == GetDocument(s.docs, key).value
  }

  /** resetLineNumberFormat(editor) */
  function ResetLineNumberFormat(e: EditorState): (r: EditorState)
    ensures r.formatter == Identity
    ensures r.(formatter := e.formatter) == e
  {
    WithFormatter(e, Identity)
  }

  /** updateLineNumberFormat(editor, sourceId) */
  function UpdateLineNumberFormat(e: EditorState, env: Env, sourceId: string): (r: EditorState)
    ensures !env.isWasm(sourceId) ==> r.formatter == Identity
    ensures env.isWasm(sourceId) ==> r.formatter == WasmFormatter(sourceId)
    ensures r.(formatter := e.formatter) == e
  {
    if !env.isWasm(sourceId) then ResetLineNumberFormat(e)
    else WithFormatter(e, WasmFormatter(sourceId))
  }

  /** The document updateDocument switches to, `getDocument(id) ||
      editor.createDocument()`, with the editor state after that expression. */
  function CachedOrNewDocument(docs: Cache, e: EditorState, key: string): (EditorState, Doc) {
    if HasDocument(docs, key) then (e, GetDocument(docs, key).value)
    else (NewDocument(e), e.created)
  }

  /** updateDocument(editor, source) */
  function UpdateDocument(s: Session, env: Env, source: Option<Source>): (t: Session)
    ensures t.docs == s.docs
    ensures source.None? ==> t == s
    ensures source.Some? ==>
      var id := source.value.id;
      && t.editor.mode == s.editor.mode
      && t.editor.formatter == FormatterFor(env, id)
      && (HasDocument(s.docs, id) ==>
            && t.editor.doc == GetDocument(s.docs, id).value
            && t.editor.created == s.editor.created
            && t.editor.texts == s.editor.texts)
      && (!HasDocument(s.docs, id) ==>
            && t.editor.doc == s.editor.created
            && t.editor.created == s.editor.created + 1
            && t.editor.texts == s.editor.texts[s.editor.created := Plain("")])
  {
    match source
    case None => s
    case Some(src) =>
      var (e, doc) := CachedOrNewDocument(s.docs, s.editor, src.id);
      Session(s.docs, UpdateLineNumberFormat(Swapped(e, doc), env, src.id))
  }

  /** showLoading(editor) */
  function ShowLoading(s: Session, env: Env): (t: Session)
    ensures HasDocument(s.docs, LoadingKey) ==> t == s
    ensures !HasDocument(s.docs, LoadingKey) ==>
      var d := s.editor.created;
      && t.docs == s.docs[LoadingKey := Some(d)]
      && t.editor == EditorState(d, d + 1, s.editor.texts[d := Plain(env.loadingText)],
                                 TextMode, s.editor.formatter)
  {
    if HasDocument(s.docs, LoadingKey) then s
    else
      var doc := s.editor.created;
      var e := NewDocument(s.editor);
      var docs := SetDocument(s.docs, LoadingKey, Some(doc));
      var e := Swapped(e, doc);
      var e := WithText(e, Plain(env.loadingText));
      Session(docs, WithMode(e, TextMode))
  }

  /** setEditorText(editor, source) */
  function SetEditorText(e: EditorState, env: Env, src: Source): (r: EditorState)
    ensures e.doc in r.texts
    ensures src.isWasm ==> r.texts[e.doc] == Lines(env.renderWasmText(src.id, src.text))
    ensures !src.isWasm ==> r.texts[e.doc] == Plain(src.text)
    ensures r.texts - {e.doc} == e.texts - {e.doc}
    ensures r.(texts := e.texts) == e
  {
    if src.isWasm then WithText(e, Lines(env.renderWasmText(src.id, src.text)))
    else WithText(e, Plain(src.text))
  }

  /** showSourceText(editor, source, symbols); the value it returns is
      described by SourceDocuments.DocumentCache.ShowSourceText. */
  function ShowSourceText(s: Session, env: Env, source: Option<Source>, symbols: Option<Symbols>): (t: Session)
    ensures source.None? ==> t == s
    ensures source.Some? ==>
      && Showing(t, source.value.id)
      && t.editor.mode == env.getMode(source.value, symbols)
    // A cached source: no document is created and the cache is unchanged.
    ensures source.Some? && HasDocument(s.docs, source.value.id) ==>
      var doc := GetDocument(s.docs, source.value.id).value;
      && t.docs == s.docs
      && t.editor.created == s.editor.created
      && t.editor.texts == s.editor.texts
      && (s.editor.doc == doc ==> t.editor == s.editor.(mode := t.editor.mode))
      && (s.editor.doc != doc ==> t.editor.formatter == FormatterFor(env, source.value.id))
    // An uncached source: exactly one document is created, cached and filled.
    ensures source.Some? && !HasDocument(s.docs, source.value.id) ==>
      var src, d := source.value, s.editor.created;
      && t.docs == s.docs[src.id := Some(d)]
      && t.editor.created == d + 1
      && t.editor.texts - {d} == s.editor.texts - {d}
      && d in t.editor.texts
      && (src.isWasm ==> t.editor.texts[d] == Lines(env.renderWasmText(src.id, src.text)))
      && (!src.isWasm ==> t.editor.texts[d] == Plain(src.text))
      && t.editor.formatter == FormatterFor(env, src.id)
  {
    match source
    case None => s
    case Some(src) =>
      if HasDocument(s.docs, src.id) then
        var doc := GetDocument(s.docs, src.id).value;
        if s.editor.doc == doc then
          Session(s.docs, WithMode(s.editor, env.getMode(src, symbols)))
        else
          var e := Swapped(s.editor, doc);
          var e := UpdateLineNumberFormat(e, env, src.id);
          Session(s.docs, WithMode(e, env.getMode(src, symbols)))
      else
        var doc := s.editor.created;
        var e := NewDocument(s.editor);
        var docs := SetDocument(s.docs, src.id, Some(doc));
        var e := Swapped(e, doc);
        var e := SetEditorText(e, env, src);
        var e := WithMode(e, env.getMode(src, symbols));
        Session(docs, UpdateLineNumberFormat(e, env, src.id))
  }
}
