/**
 * The source-document module as it runs: the module-level `sourceDocs`
 * dictionary is the `docs` field of a DocumentCache, updated in place, and
 * each dispatch function issues the same editor calls in the same order as
 * the JavaScript module does. Every method is proved against the matching
 * function of module Dispatch, whose properties are proved there and in
 * DispatchProperties.
 */
module SourceDocuments {
  import opened EditorWidget
  import D = Dispatch

  /** resetLineNumberFormat(editor); the gutter and toggle-button resizes are
      layout effects and are not modelled. */
  method ResetLineNumberFormat(editor: Editor)
    modifies editor
    ensures editor.State() == D.ResetLineNumberFormat(old(editor.State()))
  {
    editor.SetLineNumberFormatter(Identity);
  }

  /** updateLineNumberFormat(editor, sourceId) */
  method UpdateLineNumberFormat(editor: Editor, env: D.Env, sourceId: string)
    modifies editor
    ensures editor.State() == D.UpdateLineNumberFormat(old(editor.State()), env, sourceId)
  {
    if !env.isWasm(sourceId) {
      ResetLineNumberFormat(editor);
      return;
    }
    editor.SetLineNumberFormatter(WasmFormatter(sourceId));
  }

  /** setEditorText(editor, source) */
  method SetEditorText(editor: Editor, env: D.Env, source: D.Source)
    modifies editor
    ensures editor.State() == D.SetEditorText(old(editor.State()), env, source)
  {
    if source.isWasm {
      var wasmLines := env.renderWasmText(source.id, source.text);
      editor.SetText(Lines(wasmLines));
    } else {
      editor.SetText(Plain(source.text));
    }
  }

  /** The module-level cache of editor documents, keyed by source id (or by
      "loading"). */
  class DocumentCache {
    var docs: D.Cache

    /** The cache starts empty. */
    constructor ()
      ensures docs == map[]
    {
      docs := map[];
    }

    /** The cache together with the editor's state. */
    function Snapshot(editor: Editor): D.Session
      reads this, editor
    {
      D.Session(docs, editor.State())
    }

    /** setDocument(key, doc) */
    method SetDocument(key: string, doc: D.Option<Doc>)
      modifies this
      ensures docs == D.SetDocument(old(docs), key, doc)
      ensures D.GetDocument(docs, key) == doc
      ensures D.HasDocument(docs, key) <==> doc.Some?
      ensures forall k :: k != key ==> D.GetDocument(docs, k) == D.GetDocument(old(docs), k)
    {
      docs := docs[key := doc];
    }

    /** removeDocument(key) */
    method RemoveDocument(key: string)
      modifies this
      ensures docs == D.RemoveDocument(old(docs), key)
      ensures !D.HasDocument(docs, key)
      ensures forall k :: k != key ==> D.GetDocument(docs, k) == D.GetDocument(old(docs), k)
    {
      docs := docs - {key};
    }

    /** clearDocuments() */
    method ClearDocuments()
      modifies this
      ensures docs == D.ClearDocuments()
      ensures forall k :: !D.HasDocument(docs, k)
    {
      docs := map[];
    }

    /** updateDocument(editor, source): the cache is read, never written. */
    method UpdateDocument(editor: Editor, env: D.Env, source: D.Option<D.Source>)
      modifies editor
      ensures Snapshot(editor) == D.UpdateDocument(old(Snapshot(editor)), env, source)
    {
      if source.None? {
        return;
      }
      var sourceId := source.value.id;
      var doc: Doc;
      if D.HasDocument(docs, sourceId) {
        doc := D.GetDocument(docs, sourceId).value;
      } else {
        doc := editor.CreateDocument();
      }
      editor.ReplaceDocument(doc);
      UpdateLineNumberFormat(editor, env, sourceId);
    }

    /** showLoading(editor) */
    method ShowLoading(editor: Editor, env: D.Env)
      modifies this, editor
      ensures Snapshot(editor) == D.ShowLoading(old(Snapshot(editor)), env)
    {
      if D.HasDocument(docs, D.LoadingKey) {
        return;
      }
      var doc := editor.CreateDocument();
      SetDocument(D.LoadingKey, D.Some(doc));
      editor.ReplaceDocument(doc);
      editor.SetText(Plain(env.loadingText));
      editor.SetMode(TextMode);
    }

    /** showSourceText(editor, source, symbols). It returns the cached
        document when it had to swap that document in, and nothing otherwise. */
    method ShowSourceText(editor: Editor, env: D.Env, source: D.Option<D.Source>, symbols: D.Option<D.Symbols>)
      returns (shown: D.Option<Doc>)
      modifies this, editor
      ensures Snapshot(editor) == D.ShowSourceText(old(Snapshot(editor)), env, source, symbols)
      ensures shown.Some? <==>
        source.Some? && D.HasDocument(old(docs), source.value.id)
          && old(editor.doc) != D.GetDocument(old(docs), source.value.id).value
      ensures shown.Some? ==> shown == D.GetDocument(old(docs), source.value.id)
    {
      shown := D.None;
      if source.None? {
        return;
      }
      var src := source.value;
      if D.HasDocument(docs, src.id) {
        var doc := D.GetDocument(docs, src.id).value;
        if editor.doc == doc {
          editor.SetMode(env.getMode(src, symbols));
          return;
        }
        editor.ReplaceDocument(doc);
        UpdateLineNumberFormat(editor, env, src.id);
        editor.SetMode(env.getMode(src, symbols));
        shown := D.Some(doc);
        return;
      }
      var doc := editor.CreateDocument();
      SetDocument(src.id, D.Some(doc));
      editor.ReplaceDocument(doc);
      SetEditorText(editor, env, src);
      editor.SetMode(env.getMode(src, symbols));
      UpdateLineNumberFormat(editor, env, src.id);
    }
  }
}
