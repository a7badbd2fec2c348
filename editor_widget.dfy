/**
 * An abstract model of the text-editor widget that the source-document cache
 * drives. Only what the cache's dispatch code can observe or change is kept:
 * which document is current, how many documents the editor has created, the
 * text each document holds, the editor's mode and its line-number formatter.
 * Each widget call (createDocument, replaceDocument, setText, setMode and
 * setOption("lineNumberFormatter", ...)) is an abstract state transition.
 */
module EditorWidget {

  /** A document handle. Handles are objects, so they are truthy; the n-th
      document an editor creates is handle n. Two handles are equal when they
      are the same document of the same editor: the model pairs the cache with
      one editor, and handles of different editors are not told apart. */
  type Doc = nat

  /** What setText installs: a plain string, or the pre-split lines of a
      rendered WebAssembly module. */
  datatype Text = Plain(s: string) | Lines(lines: seq<string>)

  /** A CodeMirror mode object: its name and any further properties. */
  datatype Mode = Mode(name: string, options: map<string, string>)

  /** The mode `{name: "text"}`. */
  const TextMode: Mode := Mode("text", map[])

  /** The installed line-number formatter: the identity function, or the one
      the wasm helper returns for a given source id. */
  datatype LineNumberFormatter = Identity | WasmFormatter(sourceId: string)

  datatype EditorState = EditorState(
    doc: Doc,                        // the current document (codeMirror.doc)
    created: nat,                    // number of documents created so far
    texts: map<Doc, Text>,           // the text held by each document
    mode: Mode,
    formatter: LineNumberFormatter)

  /** The documents holding a text are exactly those created so far. */
  ghost predicate TextsCreated(e: EditorState) {
    forall d: Doc :: d in e.texts <==> d < e.created
  }

  /** Every document the state mentions was created by this editor, and each
      created document holds a text. */
  ghost predicate WellFormed(e: EditorState) {
    e.doc < e.created && TextsCreated(e)
  }

  // The widget calls, as functions of the editor state.

  /** createDocument(): a fresh, empty document; it is handle `e.created`. */
  function NewDocument(e: EditorState): EditorState {
    e.(created := e.created + 1, texts := e.texts[e.created := Plain("")])
  }

  /** replaceDocument(d) */
  function Swapped(e: EditorState, d: Doc): EditorState {
    e.(doc := d)
  }

  /** setText(t): the current document's text becomes t. */
  function WithText(e: EditorState, t: Text): EditorState {
    e.(texts := e.texts[e.doc := t])
  }

  /** setMode(m) */
  function WithMode(e: EditorState, m: Mode): EditorState {
    e.(mode := m)
  }

  /** setOption("lineNumberFormatter", f) */
  function WithFormatter(e: EditorState, f: LineNumberFormatter): EditorState {
    e.(formatter := f)
  }

  /** The editor object itself, whose fields the widget calls update in place. */
  class Editor {
    var doc: Doc
    var created: nat
    var texts: map<Doc, Text>
    var mode: Mode
    var formatter: LineNumberFormatter

    function State(): EditorState
      reads this
    {
      EditorState(doc, created, texts, mode, formatter)
    }

    /** A new editor shows the one empty document it starts with. */
    constructor (initialMode: Mode)
      ensures State() == EditorState(0, 1, map[0 := Plain("")], initialMode, Identity)
      ensures WellFormed(State())
    {
      var initial := map[0 := Plain("")];
      assert forall d: Doc :: d in initial <==> d == 0;
      doc, created, texts := 0, 1, initial;
      mode, formatter := initialMode, Identity;
    }

    method CreateDocument() returns (d: Doc)
      modifies this
      ensures d == old(created)
      ensures State() == NewDocument(old(State()))
    {
      d := created;
      texts := texts[d := Plain("")];
      created := created + 1;
    }

    method ReplaceDocument(d: Doc)
      modifies this
      ensures State() == Swapped(old(State()), d)
    {
      doc := d;
    }

    method SetText(t: Text)
      modifies this
      ensures State() == WithText(old(State()), t)
    {
      texts := texts[doc := t];
    }

    method SetMode(m: Mode)
      modifies this
      ensures State() == WithMode(old(State()), m)
    {
      mode := m;
    }

    method SetLineNumberFormatter(f: LineNumberFormatter)
      modifies this
      ensures State() == WithFormatter(old(State()), f)
    {
      formatter := f;
    }
  }
}
