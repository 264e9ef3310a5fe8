/**
 * The editor extension's diagnostic pass: each line of a document is
 * scanned for the first "TODO" and the first "console.log", one diagnostic
 * is made for each, and the document's entry in the diagnostic collection
 * is replaced by the new list.
 */
module Extension {
  import opened Wrappers
  import opened JsStrings

  type Uri = string

  /** A text document as the scan sees it: its URI and its lines, without line breaks. */
  datatype TextDocument = TextDocument(uri: Uri, lines: seq<string>)

  datatype DiagnosticSeverity = Error | Warning | Information | Hint

  /** `new Range(startLine, startCharacter, endLine, endCharacter)`. */
  datatype Range = Range(startLine: int, startCharacter: int, endLine: int, endCharacter: int)

  /** A diagnostic; `code` and `source` are unset until assigned. */
  datatype Diagnostic = Diagnostic(
    range: Range,
    message: string,
    severity: DiagnosticSeverity,
    code: Option<string>,
    source: Option<string>)

  const TodoPattern := "TODO"
  const ConsolePattern := "console.log"
  const TodoMessage := "This is a TODO item that needs to be addressed"
  const ConsoleMessage := "Avoid using console.log in production code"
  const TodoCode := "custom-todo"
  const ConsoleCode := "no-console"
  const DiagnosticSource := "Amp Review"

  // ---------------------------------------------------------------------
  // What the pass produces
  // ---------------------------------------------------------------------

  /** `d` covers, on line `lineIndex`, exactly the first occurrence of `pattern` in `text`. */
  predicate FlagsFirstOccurrence(d: Diagnostic, lineIndex: int, text: string, pattern: string)
  {
    && d.range.startLine == lineIndex
    && d.range.endLine == lineIndex
    && FirstOccurrence(text, pattern, d.range.startCharacter)
    && d.range.endCharacter == d.range.startCharacter + |pattern|
  }

  predicate IsTodoDiagnostic(d: Diagnostic, lineIndex: int, text: string)
  {
    && FlagsFirstOccurrence(d, lineIndex, text, TodoPattern)
    && d.message == TodoMessage
    && d.severity == Information
    && d.code == Some(TodoCode)
    && d.source == Some(DiagnosticSource)
  }

  predicate IsConsoleDiagnostic(d: Diagnostic, lineIndex: int, text: string)
  {
    && FlagsFirstOccurrence(d, lineIndex, text, ConsolePattern)
    && d.message == ConsoleMessage
    && d.severity == Warning
    && d.code == Some(ConsoleCode)
    && d.source == Some(DiagnosticSource)
  }

  function TodoDiagnostic(lineIndex: int, todoIndex: int): Diagnostic
  {
    Diagnostic(Range(lineIndex, todoIndex, lineIndex, todoIndex + 4), TodoMessage, Information,
               Some(TodoCode), Some(DiagnosticSource))
  }

  function ConsoleDiagnostic(lineIndex: int, consoleIndex: int): Diagnostic
  {
    Diagnostic(Range(lineIndex, consoleIndex, lineIndex, consoleIndex + 11), ConsoleMessage, Warning,
               Some(ConsoleCode), Some(DiagnosticSource))
  }

  function Count(b: bool): nat
  {
    if b then 1 else 0
  }

  /**
   * The diagnostics of one line: one for the first "TODO" if there is one,
   * followed by one for the first "console.log" if there is one.
   */
  function LineDiagnostics(lineIndex: int, text: string): (ds: seq<Diagnostic>)
    ensures |ds| == Count(Includes(text, TodoPattern)) + Count(Includes(text, ConsolePattern))
    ensures Includes(text, TodoPattern) ==> IsTodoDiagnostic(ds[0], lineIndex, text)
    ensures Includes(text, ConsolePattern) ==> IsConsoleDiagnostic(ds[|ds| - 1], lineIndex, text)
    ensures forall d :: d in ds ==> IsTodoDiagnostic(d, lineIndex, text) || IsConsoleDiagnostic(d, lineIndex, text)
  {
    (if Includes(text, TodoPattern) then [TodoDiagnostic(lineIndex, IndexOf(text, TodoPattern))] else [])
    + (if Includes(text, ConsolePattern) then [ConsoleDiagnostic(lineIndex, IndexOf(text, ConsolePattern))] else [])
  }

  /** The diagnostics of a whole document, line by line. */
  function DiagnosticsFor(lines: seq<string>): (ds: seq<Diagnostic>)
    ensures |ds| <= 2 * |lines|
  {
    if lines == [] then []
    else DiagnosticsFor(lines[..|lines| - 1]) + LineDiagnostics(|lines| - 1, lines[|lines| - 1])
  }

  // ---------------------------------------------------------------------
  // Properties of the produced list
  // ---------------------------------------------------------------------

  /** A diagnostic belongs to the document's list exactly when it is one of its own line's. */
  lemma {:induction false} DiagnosticMembership(lines: seq<string>, d: Diagnostic)
    ensures d in DiagnosticsFor(lines)
            <==> 0 <= d.range.startLine < |lines| && d in LineDiagnostics(d.range.startLine, lines[d.range.startLine])
  {
    if lines != [] {
      var n := |lines|;
      var init := lines[..n - 1];
      DiagnosticMembership(init, d);
      if 0 <= d.range.startLine < n - 1 {
        assert init[d.range.startLine] == lines[d.range.startLine];
      }
    }
  }

  /** Every range lies on one existing line, inside that line, and spans the pattern. */
  lemma RangesInBounds(lines: seq<string>)
    ensures forall d :: d in DiagnosticsFor(lines) ==>
              var line := d.range.startLine;
              && 0 <= line < |lines|
              && d.range.endLine == line
              && 0 <= d.range.startCharacter <= d.range.endCharacter <= |lines[line]|
              && d.range.endCharacter - d.range.startCharacter == (if d.code == Some(TodoCode) then 4 else 11)
  {
  }

  /** Strictly ascending line, and on one line the TODO diagnostic first. */
  predicate Precedes(a: Diagnostic, b: Diagnostic)
  {
    || a.range.startLine < b.range.startLine
    || (a.range.startLine == b.range.startLine && a.code == Some(TodoCode) && b.code == Some(ConsoleCode))
  }

  lemma {:induction false} DiagnosticsOrdered(lines: seq<string>)
    ensures var ds := DiagnosticsFor(lines);
            forall i, j :: 0 <= i < j < |ds| ==> Precedes(ds[i], ds[j])
  {
    if lines != [] {
      var n := |lines|;
      var init := lines[..n - 1];
      var front := DiagnosticsFor(init);
      var back := LineDiagnostics(n - 1, lines[n - 1]);
      var ds := front + back;
      DiagnosticsOrdered(init);
      forall i | 0 <= i < |front| ensures front[i].range.startLine < n - 1 {
        DiagnosticMembership(init, front[i]);
      }
      forall i, j | 0 <= i < j < |ds| ensures Precedes(ds[i], ds[j]) {
        if j < |front| {
          assert ds[i] == front[i] && ds[j] == front[j];
        } else if i < |front| {
          assert ds[i] == front[i];
          assert ds[j] in back;
        } else {
          assert ds[i] == back[0] && ds[j] == back[1];
        }
      }
    }
  }

  /**
   * Line `k` gets a TODO diagnostic at the first "TODO" exactly when it holds
   * one, and a console.log diagnostic at the first "console.log" exactly
   * when it holds one.
   */
  lemma LineFlaggedExactlyWhenItMatches(lines: seq<string>, k: int)
    requires 0 <= k < |lines|
    ensures Includes(lines[k], TodoPattern) ==>
              TodoDiagnostic(k, IndexOf(lines[k], TodoPattern)) in DiagnosticsFor(lines)
    ensures Includes(lines[k], ConsolePattern) ==>
              ConsoleDiagnostic(k, IndexOf(lines[k], ConsolePattern)) in DiagnosticsFor(lines)
    ensures forall d :: d in DiagnosticsFor(lines) && d.range.startLine == k ==>
              || (d.code == Some(TodoCode) && Includes(lines[k], TodoPattern))
              || (d.code == Some(ConsoleCode) && Includes(lines[k], ConsolePattern))
  {
    var ds := LineDiagnostics(k, lines[k]);
    if Includes(lines[k], TodoPattern) {
      DiagnosticMembership(lines, TodoDiagnostic(k, IndexOf(lines[k], TodoPattern)));
    }
    if Includes(lines[k], ConsolePattern) {
      DiagnosticMembership(lines, ConsoleDiagnostic(k, IndexOf(lines[k], ConsolePattern)));
    }
    forall d | d in DiagnosticsFor(lines) && d.range.startLine == k
      ensures || (d.code == Some(TodoCode) && Includes(lines[k], TodoPattern))
              || (d.code == Some(ConsoleCode) && Includes(lines[k], ConsolePattern))
    {
      DiagnosticMembership(lines, d);
      assert d in ds;
      if d.code == Some(TodoCode) {
        assert OccursAt(lines[k], TodoPattern, d.range.startCharacter);
      } else {
        assert OccursAt(lines[k], ConsolePattern, d.range.startCharacter);
      }
    }
  }

  /** Number of lines that contain `pattern`. */
  function LinesIncluding(lines: seq<string>, pattern: string): nat
  {
    if lines == [] then 0
    else LinesIncluding(lines[..|lines| - 1], pattern) + Count(Includes(lines[|lines| - 1], pattern))
  }

  /** One diagnostic per line holding "TODO", one per line holding "console.log", no more. */
  lemma {:induction false} DiagnosticCount(lines: seq<string>)
    ensures |DiagnosticsFor(lines)| == LinesIncluding(lines, TodoPattern) + LinesIncluding(lines, ConsolePattern)
  {
    if lines != [] {
      DiagnosticCount(lines[..|lines| - 1]);
    }
  }

  /** A document with neither pattern on any line, the empty one included, gets no diagnostics. */
  lemma {:induction false} CleanDocumentHasNoDiagnostics(lines: seq<string>)
    requires forall k :: 0 <= k < |lines| ==> !Includes(lines[k], TodoPattern) && !Includes(lines[k], ConsolePattern)
    ensures DiagnosticsFor(lines) == []
  {
    if lines != [] {
      CleanDocumentHasNoDiagnostics(lines[..|lines| - 1]);
    }
  }

  // ---------------------------------------------------------------------
  // The collection and the pass itself
  // ---------------------------------------------------------------------

  /** The extension's diagnostic collection: a list of diagnostics per document URI. */
  class DiagnosticCollection {
    /** The name given at creation; the extension creates its collection as "amp-review". */
    const name: string
    var entries: map<Uri, seq<Diagnostic>>

    constructor (name: string)
      ensures this.name == name && entries == map[]
    {
      this.name := name;
      entries := map[];
    }

    method Delete(uri: Uri)
      modifies this
      ensures entries == old(entries) - {uri}
    {
      entries := entries - {uri};
    }

    method Set(uri: Uri, diagnostics: seq<Diagnostic>)
      modifies this
      ensures entries == old(entries)[uri := diagnostics]
    {
      entries := entries[uri := diagnostics];
    }
  }

  /**
   * `updateDiagnostics`: the document's entry becomes the list of its
   * diagnostics; every other entry is left as it was.
   */
  method UpdateDiagnostics(collection: DiagnosticCollection, document: TextDocument)
    modifies collection
    ensures collection.entries == old(collection.entries)[document.uri := DiagnosticsFor(document.lines)]
  {
    collection.Delete(document.uri);
    var diagnostics: seq<Diagnostic> := [];
    for lineIndex := 0 to |document.lines|
      invariant diagnostics == DiagnosticsFor(document.lines[..lineIndex])
      invariant collection.entries == old(collection.entries) - {document.uri}
    {
      var text := document.lines[lineIndex];
      assert document.lines[..lineIndex + 1][..lineIndex] == document.lines[..lineIndex];
      ghost var scanned := diagnostics;
      if Includes(text, TodoPattern) {
        var todoIndex := IndexOf(text, TodoPattern);
        var range := Range(lineIndex, todoIndex, lineIndex, todoIndex + 4);
        var diagnostic := Diagnostic(range, TodoMessage, Information, None, None);
        diagnostic := diagnostic.(code := Some(TodoCode), source := Some(DiagnosticSource));
        diagnostics := diagnostics + [diagnostic];
      }
      if Includes(text, ConsolePattern) {
        var consoleIndex := IndexOf(text, ConsolePattern);
        var range := Range(lineIndex, consoleIndex, lineIndex, consoleIndex + 11);
        var diagnostic := Diagnostic(range, ConsoleMessage, Warning, None, None);
        diagnostic := diagnostic.(code := Some(ConsoleCode), source := Some(DiagnosticSource));
        diagnostics := diagnostics + [diagnostic];
      }
      assert diagnostics == scanned + LineDiagnostics(lineIndex, text);
    }
    assert document.lines[..|document.lines|] == document.lines;
    collection.Set(document.uri, diagnostics);
  }
}
