/**
 * Properties that relate several calls of the source-document module:
 * idempotence, reuse of cached documents, the number of documents a
 * navigation creates, and an invariant every sequence of calls keeps.
 */
module DispatchProperties {
  import opened EditorWidget
  import opened Dispatch

  // ---------------------------------------------------------------------
  // Single operations called twice

  /** showLoading is idempotent. */
  lemma ShowLoadingIdempotent(s: Session, env: Env)
    ensures ShowLoading(ShowLoading(s, env), env) == ShowLoading(s, env)
  {
  }

  /** showLoading leaves the loading document current exactly when it had
      to create it, or when it was current already: a cached loading document
      is not brought back once another document has replaced it. */
  lemma ShowLoadingShowsLoadingIff(s: Session, env: Env)
    ensures Showing(ShowLoading(s, env), LoadingKey)
        <==> !HasDocument(s.docs, LoadingKey) || Showing(s, LoadingKey)
  {
  }

  /** Calling showSourceText twice with the same arguments is the same as
      calling it once. */
  lemma ShowSourceTextIdempotent(s: Session, env: Env, source: Option<Source>, symbols: Option<Symbols>)
    ensures ShowSourceText(ShowSourceText(s, env, source, symbols), env, source, symbols)
         == ShowSourceText(s, env, source, symbols)
  {
  }

  /** Once a source id is cached, showSourceText ignores the source's text and
      wasm flag: the cached document is shown as it is. */
  lemma ShowSourceTextCachedIgnoresText(s: Session, env: Env, a: Source, b: Source, symbols: Option<Symbols>)
    requires a.id == b.id && HasDocument(s.docs, a.id)
    requires env.getMode(a, symbols) == env.getMode(b, symbols)
    ensures ShowSourceText(s, env, Some(a), symbols) == ShowSourceText(s, env, Some(b), symbols)
  {
  }

  /** updateDocument never caches what it creates: on an uncached source each
      call creates and shows another new document. */
  lemma UpdateDocumentUncachedCreatesEachTime(s: Session, env: Env, src: Source)
    requires !HasDocument(s.docs, src.id)
    ensures var t := UpdateDocument(s, env, Some(src));
            var u := UpdateDocument(t, env, Some(src));
            && u.docs == s.docs
            && t.editor.created == s.editor.created + 1
            && u.editor.created == s.editor.created + 2
            && u.editor.doc != t.editor.doc
  {
  }

  // ---------------------------------------------------------------------
  // An invariant of every sequence of calls

  /** The cache holds only documents of this editor, and no two keys share a
      document. */
  ghost predicate Consistent(s: Session) {
    && WellFormed(s.editor)
    && (forall k :: HasDocument(s.docs, k) ==> GetDocument(s.docs, k).value < s.editor.created)
    && (forall k1, k2 :: HasDocument(s.docs, k1) && HasDocument(s.docs, k2) && k1 != k2 ==>
          GetDocument(s.docs, k1) != GetDocument(s.docs, k2))
  }

  /** A new editor with an empty cache is consistent. */
  lemma InitialConsistent(m: Mode)
    ensures Consistent(Session(ClearDocuments(), EditorState(0, 1, map[0 := Plain("")], m, Identity)))
  {
    assert forall d: Doc :: d in map[0 := Plain("")] <==> d < 1;
  }

  /** A call of one of the module's operations. setDocument is left out: it
      stores whatever handle it is given, so it alone can make two keys share
      a document. */
  datatype Call =
    | ShowSourceTextCall(source: Option<Source>, symbols: Option<Symbols>)
    | ShowLoadingCall
    | UpdateDocumentCall(source: Option<Source>)
    | UpdateLineNumberFormatCall(sourceId: string)
    | ResetLineNumberFormatCall
    | RemoveDocumentCall(key: string)
    | ClearDocumentsCall

  function Step(s: Session, env: Env, c: Call): Session {
    match c
    case ShowSourceTextCall(source, symbols) => ShowSourceText(s, env, source, symbols)
    case ShowLoadingCall => ShowLoading(s, env)
    case UpdateDocumentCall(source) => UpdateDocument(s, env, source)
    case UpdateLineNumberFormatCall(id) => s.(editor := UpdateLineNumberFormat(s.editor, env, id))
    case ResetLineNumberFormatCall => s.(editor := ResetLineNumberFormat(s.editor))
    case RemoveDocumentCall(key) => s.(docs := RemoveDocument(s.docs, key))
    case ClearDocumentsCall => s.(docs := ClearDocuments())
  }

  function Run(s: Session, env: Env, calls: seq<Call>): Session
    decreases |calls|
  {
    if calls == [] then s else Run(Step(s, env, calls[0]), env, calls[1..])
  }

  lemma StepKeepsConsistent(s: Session, env: Env, c: Call)
    requires Consistent(s)
    ensures Consistent(Step(s, env, c))
  {
    var t := Step(s, env, c);
    match c
    case ShowSourceTextCall(source, symbols) =>
      if source.Some? && !HasDocument(s.docs, source.value.id) {
        FreshDocumentKeepsConsistent(s, t, source.value.id);
      }
    case ShowLoadingCall =>
      if !HasDocument(s.docs, LoadingKey) {
        FreshDocumentKeepsConsistent(s, t, LoadingKey);
      }
    case UpdateDocumentCall(source) =>
      if source.Some? && !HasDocument(s.docs, source.value.id) {
        assert forall d: Doc :: d in t.editor.texts <==> d < t.editor.created;
      }
    case UpdateLineNumberFormatCall(id) =>
    case ResetLineNumberFormatCall =>
    case RemoveDocumentCall(key) =>
      assert forall k :: HasDocument(t.docs, k) ==> HasDocument(s.docs, k) && GetDocument(t.docs, k) == GetDocument(s.docs, k);
    case ClearDocumentsCall =>
  }

  /** Caching the editor's next fresh document under `key` keeps the cache
      consistent. */
  lemma FreshDocumentKeepsConsistent(s: Session, t: Session, key: string)
    requires Consistent(s) && !HasDocument(s.docs, key)
    requires t.docs == s.docs[key := Some(s.editor.created)]
    requires t.editor.doc == s.editor.created && t.editor.created == s.editor.created + 1
    requires t.editor.texts.Keys == s.editor.texts.Keys + {s.editor.created}
    ensures Consistent(t)
  {
    forall k | HasDocument(t.docs, k) && k != key
      ensures GetDocument(t.docs, k) == GetDocument(s.docs, k)
      ensures GetDocument(t.docs, k).value < s.editor.created
    {
      assert HasDocument(s.docs, k);
    }
  }

  /** Every sequence of calls keeps the cache consistent. */
  lemma {:induction false} RunKeepsConsistent(s: Session, env: Env, calls: seq<Call>)
    requires Consistent(s)
    ensures Consistent(Run(s, env, calls))
    decreases |calls|
  {
    if calls != [] {
      StepKeepsConsistent(s, env, calls[0]);
      RunKeepsConsistent(Step(s, env, calls[0]), env, calls[1..]);
    }
  }

  // ---------------------------------------------------------------------
  // Navigating through a sequence of sources

  /** One navigation: showSourceText with a present source. */
  datatype Visit = Visit(source: Source, symbols: Option<Symbols>)

  function Navigate(s: Session, env: Env, visits: seq<Visit>): Session
    decreases |visits|
  {
    if visits == [] then s
    else Navigate(ShowSourceText(s, env, Some(visits[0].source), visits[0].symbols), env, visits[1..])
  }

  function VisitedIds(visits: seq<Visit>): set<string>
    decreases |visits|
  {
    if visits == [] then {} else {visits[0].source.id} + VisitedIds(visits[1..])
  }

  /** After a navigation, the cached keys are those cached before plus every
      visited source id: nothing is evicted. */
  lemma {:induction false} NavigationCachesVisitedSources(s: Session, env: Env, visits: seq<Visit>)
    ensures CachedKeys(Navigate(s, env, visits).docs) == CachedKeys(s.docs) + VisitedIds(visits)
    decreases |visits|
  {
    if visits != [] {
      var v := visits[0];
      var s1 := ShowSourceText(s, env, Some(v.source), v.symbols);
      NavigationCachesVisitedSources(s1, env, visits[1..]);
      ShowSourceTextCachedKeys(s, env, v);
    }
  }

  /** One showSourceText adds the source id to the cached keys. */
  lemma ShowSourceTextCachedKeys(s: Session, env: Env, v: Visit)
    ensures CachedKeys(ShowSourceText(s, env, Some(v.source), v.symbols).docs) == CachedKeys(s.docs) + {v.source.id}
  {
    var t := ShowSourceText(s, env, Some(v.source), v.symbols);
    if HasDocument(s.docs, v.source.id) {
      assert v.source.id in CachedKeys(s.docs);
    } else {
      assert forall k :: k in CachedKeys(t.docs) <==> k in CachedKeys(s.docs) || k == v.source.id;
    }
  }

  /** A navigation creates exactly one document per visited source id that
      was not cached before, however often and in whatever order the sources
      are visited. */
  lemma {:induction false} NavigationCreatesOneDocumentPerNewSource(s: Session, env: Env, visits: seq<Visit>)
    ensures Navigate(s, env, visits).editor.created
         == s.editor.created + |VisitedIds(visits) - CachedKeys(s.docs)|
    decreases |visits|
  {
    if visits != [] {
      var v := visits[0];
      var id := v.source.id;
      var s1 := ShowSourceText(s, env, Some(v.source), v.symbols);
      NavigationCreatesOneDocumentPerNewSource(s1, env, visits[1..]);
      ShowSourceTextCachedKeys(s, env, v);
      var rest, cached := VisitedIds(visits[1..]), CachedKeys(s.docs);
      assert VisitedIds(visits) == {id} + rest;
      if HasDocument(s.docs, id) {
        assert id in cached;
        assert VisitedIds(visits) - cached == rest - cached;
      } else {
        assert id !in cached;
        assert VisitedIds(visits) - cached == (rest - (cached + {id})) + {id};
        assert id !in rest - (cached + {id});
      }
    }
  }

  /** showSourceText keeps the documents holding a text exactly those the
      editor has created, whatever the cache holds. */
  lemma ShowSourceTextKeepsTextsCreated(s: Session, env: Env, v: Visit)
    requires TextsCreated(s.editor)
    ensures TextsCreated(ShowSourceText(s, env, Some(v.source), v.symbols).editor)
  {
    var t := ShowSourceText(s, env, Some(v.source), v.symbols);
    assert forall d: Doc :: d in t.editor.texts <==> d < t.editor.created;
  }

  /** A navigation never rewrites the text of a document that existed before
      it: revisiting a source shows the document as it was first filled. Only
      the editor's own bookkeeping is needed, so this holds whatever
      setDocument has stored in the cache. */
  lemma {:induction false} NavigationKeepsDocumentTexts(s: Session, env: Env, visits: seq<Visit>)
    requires TextsCreated(s.editor)
    ensures var t := Navigate(s, env, visits);
            forall d :: d in s.editor.texts ==> d in t.editor.texts && t.editor.texts[d] == s.editor.texts[d]
    decreases |visits|
  {
    if visits != [] {
      var v := visits[0];
      var s1 := ShowSourceText(s, env, Some(v.source), v.symbols);
      ShowSourceTextKeepsTextsCreated(s, env, v);
      assert s.editor.created !in s.editor.texts;
      NavigationKeepsDocumentTexts(s1, env, visits[1..]);
    }
  }
}
