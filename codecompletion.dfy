/**
 * Code completions as the back end reports them, and the completion strings they are built
 * from. A libclang completion string is abstracted as a value: its chunks (kind and text), its
 * annotations, its priority and its availability. The functions here are the decision rules the
 * extracter applies to one result.
 */
module CodeCompletions {
  import opened Wrappers

  newtype uint32 = x: int | 0 <= x < 0x1_0000_0000

  /** The kinds of completion chunk libclang reports (`CXCompletionChunkKind`). */
  datatype ChunkKind =
    | Optional | TypedText | Text | Placeholder | Informative | CurrentParameter
    | LeftParen | RightParen | LeftBracket | RightBracket | LeftBrace | RightBrace
    | LeftAngle | RightAngle | Comma | ResultType | Colon | SemiColon | Equal
    | HorizontalSpace | VerticalSpace

  datatype Chunk = Chunk(kind: ChunkKind, text: string)

  /** libclang's availability of a completion (`CXAvailabilityKind`). */
  datatype CxAvailability = CxAvailable | CxDeprecated | CxNotAvailable | CxNotAccessible

  /** One completion string (`CXCompletionString`) seen through its accessors. */
  datatype CompletionString = CompletionString(
    chunks: seq<Chunk>,
    annotations: seq<string>,
    priority: uint32,
    availability: CxAvailability)

  /**
   * The cursor kinds the extracter distinguishes; every other cursor kind is `OtherCursor`,
   * carrying its libclang code. That code is never the code of a kind listed here: a listed
   * kind is always represented by its own constructor, so each cursor kind has exactly one
   * representation.
   */
  datatype CursorKind =
    | FunctionTemplate | CXXMethod | FunctionDecl
    | VariableRef | VarDecl | FieldDecl | ParmDecl | NonTypeTemplateParameter
    | StructDecl | UnionDecl | ClassDecl | TemplateTypeParameter
    | ClassTemplatePartialSpecialization | ClassTemplate | TemplateTemplateParameter
    | Namespace | NamespaceAlias | EnumDecl | EnumConstantDecl
    | Constructor | Destructor | MacroDefinition | NotImplemented
    | OtherCursor(code: int)

  /** One entry of libclang's result array (`CXCompletionResult`). */
  datatype CompletionResult = CompletionResult(cursorKind: CursorKind, completionString: CompletionString)

  /** The back end's completion kinds (`CodeCompletion::Kind`). */
  datatype CompletionKind =
    | Other
    | FunctionCompletionKind
    | TemplateFunctionCompletionKind
    | VariableCompletionKind
    | ClassCompletionKind
    | TemplateClassCompletionKind
    | NamespaceCompletionKind
    | EnumerationCompletionKind
    | EnumeratorCompletionKind
    | ConstructorCompletionKind
    | DestructorCompletionKind
    | SignalCompletionKind
    | SlotCompletionKind
    | PreProcessorCompletionKind
    | KeywordCompletionKind

  /** The back end's availability (`CodeCompletion::Availability`). */
  datatype Availability = Available | Deprecated | NotAvailable | NotAccessible

  /** The completion handed to the editor. */
  datatype CodeCompletion = CodeCompletion(
    text: string,
    completionKind: CompletionKind,
    priority: uint32,
    availability: Availability,
    hasParameters: bool)

  /**
   * A default-constructed completion: empty text and no parameters. Its kind, priority and
   * availability are overwritten for every result.
   */
  const DefaultCompletion := CodeCompletion("", Other, 0, Available, false)

  /** The index of the first chunk of `kind`, or `|chunks|` when there is none. */
  function FirstOfKind(chunks: seq<Chunk>, kind: ChunkKind): (i: nat)
    ensures i <= |chunks|
  {
    if |chunks| == 0 then 0
    else if chunks[0].kind == kind then 0
    else 1 + FirstOfKind(chunks[1..], kind)
  }

  /** The index found holds a chunk of `kind`, and no chunk before it does. */
  lemma {:induction false} FirstOfKindIsFirst(chunks: seq<Chunk>, kind: ChunkKind)
    ensures var i := FirstOfKind(chunks, kind);
      && (i < |chunks| ==> chunks[i].kind == kind)
      && forall j :: 0 <= j < i ==> chunks[j].kind != kind
  {
    if |chunks| > 0 && chunks[0].kind != kind {
      FirstOfKindIsFirst(chunks[1..], kind);
    }
  }

  /** The text of the first TypedText chunk, if any. */
  function TypedTextOf(cs: CompletionString): Option<string> {
    var i := FirstOfKind(cs.chunks, TypedText);
    if i < |cs.chunks| then Some(cs.chunks[i].text) else None
  }

  /**
   * There is no typed text exactly when no chunk is TypedText; otherwise it is the text of a
   * TypedText chunk with no TypedText chunk before it.
   */
  lemma TypedTextOfIsFirst(cs: CompletionString)
    ensures TypedTextOf(cs).None? <==> forall i :: 0 <= i < |cs.chunks| ==> cs.chunks[i].kind != TypedText
    ensures TypedTextOf(cs).Some? ==>
      exists i :: 0 <= i < |cs.chunks| && cs.chunks[i].kind == TypedText && cs.chunks[i].text == TypedTextOf(cs).value
        && forall j :: 0 <= j < i ==> cs.chunks[j].kind != TypedText
  {
    FirstOfKindIsFirst(cs.chunks, TypedText);
    var i := FirstOfKind(cs.chunks, TypedText);
    if i < |cs.chunks| {
      assert cs.chunks[i].kind == TypedText;
    }
  }

  /** Whether the completion string's first TypedText chunk reads `name` (`hasText`). */
  predicate HasTypedText(name: string, cs: CompletionString) {
    TypedTextOf(cs) == Some(name)
  }

  /**
   * `name` is the typed text exactly when some TypedText chunk reads `name` and no TypedText
   * chunk comes before it.
   */
  lemma HasTypedTextIff(name: string, cs: CompletionString)
    ensures HasTypedText(name, cs) <==>
      exists i :: 0 <= i < |cs.chunks| && cs.chunks[i].kind == TypedText && cs.chunks[i].text == name
        && forall j :: 0 <= j < i ==> cs.chunks[j].kind != TypedText
  {
    TypedTextOfIsFirst(cs);
    if exists i :: 0 <= i < |cs.chunks| && cs.chunks[i].kind == TypedText && cs.chunks[i].text == name
         && forall j :: 0 <= j < i ==> cs.chunks[j].kind != TypedText
    {
      var i :| 0 <= i < |cs.chunks| && cs.chunks[i].kind == TypedText && cs.chunks[i].text == name
                && forall j :: 0 <= j < i ==> cs.chunks[j].kind != TypedText;
      FirstOfKindIsFirst(cs.chunks, TypedText);
      var f := FirstOfKind(cs.chunks, TypedText);
      assert f == i;
    }
  }

  predicate IsQtMarker(annotation: string) {
    annotation == "qt_signal" || annotation == "qt_slot"
  }

  /** The index of the first `qt_signal` or `qt_slot` annotation, or `|annotations|`. */
  function FirstQtMarker(annotations: seq<string>): (i: nat)
    ensures i <= |annotations|
  {
    if |annotations| == 0 then 0
    else if IsQtMarker(annotations[0]) then 0
    else 1 + FirstQtMarker(annotations[1..])
  }

  lemma {:induction false} FirstQtMarkerIsFirst(annotations: seq<string>)
    ensures var i := FirstQtMarker(annotations);
      && (i < |annotations| ==> IsQtMarker(annotations[i]))
      && forall j :: 0 <= j < i ==> !IsQtMarker(annotations[j])
  {
    if |annotations| > 0 && !IsQtMarker(annotations[0]) {
      FirstQtMarkerIsFirst(annotations[1..]);
    }
  }

  /**
   * A method's kind: the first annotation that is `qt_signal` or `qt_slot` decides Signal or
   * Slot; without one it is a function.
   */
  function MethodKind(annotations: seq<string>): (k: CompletionKind)
    ensures k == SignalCompletionKind || k == SlotCompletionKind || k == FunctionCompletionKind
  {
    var i := FirstQtMarker(annotations);
    if i == |annotations| then FunctionCompletionKind
    else if annotations[i] == "qt_signal" then SignalCompletionKind
    else SlotCompletionKind
  }

  /** Signal and Slot each come exactly from a first Qt marker of that name. */
  lemma MethodKindIsFirstMarker(annotations: seq<string>)
    ensures MethodKind(annotations) == SignalCompletionKind <==>
      exists i :: 0 <= i < |annotations| && annotations[i] == "qt_signal"
        && forall j :: 0 <= j < i ==> !IsQtMarker(annotations[j])
    ensures MethodKind(annotations) == SlotCompletionKind <==>
      exists i :: 0 <= i < |annotations| && annotations[i] == "qt_slot"
        && forall j :: 0 <= j < i ==> !IsQtMarker(annotations[j])
  {
    FirstQtMarkerIsFirst(annotations);
    var f := FirstQtMarker(annotations);
    forall i | 0 <= i < |annotations| && IsQtMarker(annotations[i])
        && forall j :: 0 <= j < i ==> !IsQtMarker(annotations[j])
      ensures i == f
    {
    }
  }

  /** A macro is function-like exactly when one of its chunks is a placeholder. */
  function MacroKind(chunks: seq<Chunk>): (k: CompletionKind)
    ensures k == FunctionCompletionKind || k == PreProcessorCompletionKind
  {
    if FirstOfKind(chunks, Placeholder) < |chunks| then FunctionCompletionKind
    else PreProcessorCompletionKind
  }

  lemma MacroKindIff(chunks: seq<Chunk>)
    ensures MacroKind(chunks) == FunctionCompletionKind <==> exists i :: 0 <= i < |chunks| && chunks[i].kind == Placeholder
  {
    FirstOfKindIsFirst(chunks, Placeholder);
    var f := FirstOfKind(chunks, Placeholder);
    if f < |chunks| {
      assert chunks[f].kind == Placeholder;
    }
  }

  /**
   * The parameter flag: absent without a LeftParen chunk; otherwise true unless the chunk right
   * after the first LeftParen is a RightParen. A LeftParen that ends the string counts as not
   * followed by a RightParen.
   */
  function ParameterFlag(chunks: seq<Chunk>): Option<bool> {
    var i := FirstOfKind(chunks, LeftParen);
    if i == |chunks| then None
    else Some(i + 1 == |chunks| || chunks[i + 1].kind != RightParen)
  }

  lemma ParameterFlagIff(chunks: seq<Chunk>)
    ensures ParameterFlag(chunks).Some? <==> exists i :: 0 <= i < |chunks| && chunks[i].kind == LeftParen
    ensures ParameterFlag(chunks) == Some(true) <==>
      exists i :: 0 <= i < |chunks| && chunks[i].kind == LeftParen
        && (forall j :: 0 <= j < i ==> chunks[j].kind != LeftParen)
        && (i + 1 == |chunks| || chunks[i + 1].kind != RightParen)
  {
    FirstOfKindIsFirst(chunks, LeftParen);
    var f := FirstOfKind(chunks, LeftParen);
    if f < |chunks| {
      assert chunks[f].kind == LeftParen;
    }
    forall i | 0 <= i < |chunks| && chunks[i].kind == LeftParen
        && forall j :: 0 <= j < i ==> chunks[j].kind != LeftParen
      ensures i == f
    {
    }
  }

  /**
   * The cursor-kind table. It is total: every cursor kind it does not list gives Other, and
   * only those do.
   */
  function CompletionKindOf(result: CompletionResult): (k: CompletionKind)
    ensures k == Other <==> result.cursorKind.OtherCursor?
    ensures k == KeywordCompletionKind <==> result.cursorKind == NotImplemented
    ensures k == SignalCompletionKind || k == SlotCompletionKind ==> result.cursorKind == CXXMethod
    ensures k == PreProcessorCompletionKind ==> result.cursorKind == MacroDefinition
  {
    match result.cursorKind
    case FunctionTemplate => TemplateFunctionCompletionKind
    case CXXMethod => MethodKind(result.completionString.annotations)
    case FunctionDecl => FunctionCompletionKind
    case VariableRef => VariableCompletionKind
    case VarDecl => VariableCompletionKind
    case FieldDecl => VariableCompletionKind
    case ParmDecl => VariableCompletionKind
    case NonTypeTemplateParameter => VariableCompletionKind
    case StructDecl => ClassCompletionKind
    case UnionDecl => ClassCompletionKind
    case ClassDecl => ClassCompletionKind
    case TemplateTypeParameter => ClassCompletionKind
    case ClassTemplatePartialSpecialization => TemplateClassCompletionKind
    case ClassTemplate => TemplateClassCompletionKind
    case TemplateTemplateParameter => TemplateClassCompletionKind
    case Namespace => NamespaceCompletionKind
    case NamespaceAlias => NamespaceCompletionKind
    case EnumDecl => EnumerationCompletionKind
    case EnumConstantDecl => EnumeratorCompletionKind
    case Constructor => ConstructorCompletionKind
    case Destructor => DestructorCompletionKind
    case MacroDefinition => MacroKind(result.completionString.chunks)
    case NotImplemented => KeywordCompletionKind
    case OtherCursor(_) => Other
  }

  /** The availability table. */
  function AvailabilityOf(cx: CxAvailability): Availability {
    match cx
    case CxAvailable => Available
    case CxDeprecated => Deprecated
    case CxNotAvailable => NotAvailable
    case CxNotAccessible => NotAccessible
  }

  /** The availability table is one-to-one and onto: each libclang value has its own. */
  lemma AvailabilityIsBijective(a: CxAvailability, b: CxAvailability, target: Availability)
    ensures AvailabilityOf(a) == AvailabilityOf(b) ==> a == b
    ensures exists cx :: AvailabilityOf(cx) == target
  {
    match target
    case Available => assert AvailabilityOf(CxAvailable) == target;
    case Deprecated => assert AvailabilityOf(CxDeprecated) == target;
    case NotAvailable => assert AvailabilityOf(CxNotAvailable) == target;
    case NotAccessible => assert AvailabilityOf(CxNotAccessible) == target;
  }

  /**
   * The completion built from one result, starting from a default completion: every field is
   * taken from that result alone, text and parameter flag staying at the default when the
   * result has no TypedText or no LeftParen chunk.
   */
  function Complete(result: CompletionResult): CodeCompletion {
    var cs := result.completionString;
    CodeCompletion(
      TypedTextOf(cs).GetOr(DefaultCompletion.text),
      CompletionKindOf(result),
      cs.priority,
      AvailabilityOf(cs.availability),
      ParameterFlag(cs.chunks).GetOr(DefaultCompletion.hasParameters))
  }

  /** The completions of a sequence of results, one per result and in the same order. */
  function Completions(results: seq<CompletionResult>): (r: seq<CodeCompletion>)
    ensures |r| == |results|
  {
    if |results| == 0 then []
    else Completions(results[..|results| - 1]) + [Complete(results[|results| - 1])]
  }

  /** The completion at each position is the completion of the result at that position. */
  lemma {:induction false} CompletionsAt(results: seq<CompletionResult>, i: int)
    requires 0 <= i < |results|
    ensures Completions(results)[i] == Complete(results[i])
  {
    if i < |results| - 1 {
      CompletionsAt(results[..|results| - 1], i);
    }
  }

  /** Extending a run of results by the next one extends its completions by that one's completion. */
  lemma CompletionsExtend(results: seq<CompletionResult>, start: int, end: int, prefix: seq<CodeCompletion>, next: CodeCompletion)
    requires 0 <= start <= end < |results|
    requires prefix == Completions(results[start..end]) && next == Complete(results[end])
    ensures prefix + [next] == Completions(results[start..end + 1])
  {
    assert results[start..end + 1][..end - start] == results[start..end];
  }
}
