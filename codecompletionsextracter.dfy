/**
 * The completion extracter (`CodeModelBackEnd::CodeCompletionsExtracter`): a cursor over
 * libclang's result array that turns the result under the cursor into a `CodeCompletion`.
 * The index starts before the first result, at -1.
 */
module CompletionsExtracter {
  import opened Wrappers
  import opened CodeCompletions

  function Min(a: int, b: int): int {
    if a <= b then a else b
  }

  function Max(a: int, b: int): int {
    if a <= b then b else a
  }

  class CodeCompletionsExtracter {
    const results: seq<CompletionResult>
    var index: int
    var current: CodeCompletion

    constructor (results: seq<CompletionResult>)
      ensures this.results == results && index == -1 && current == DefaultCompletion
    {
      this.results := results;
      index := -1;
      current := DefaultCompletion;
    }

    /** The completion built by the last successful `Next`. */
    function CurrentCodeCompletion(): CodeCompletion
      reads this
    {
      current
    }

    /**
     * Moves the cursor one result on. When that lands on a result, the current completion is
     * rebuilt from scratch from that result alone; past the end it is left as it was.
     */
    method Next() returns (more: bool)
      requires index >= -1
      modifies this`index, this`current
      ensures index == old(index) + 1
      ensures more <==> index < |results|
      ensures more ==> current == Complete(results[index])
      ensures !more ==> current == old(current)
    {
      index := index + 1;
      if index < |results| {
        current := DefaultCompletion;
        ExtractCompletionKind();
        ExtractText();
        ExtractPriority();
        ExtractAvailability();
        ExtractHasParameters();
        return true;
      }
      return false;
    }

    /**
     * Whether a result after the cursor has `name` as its typed text; the cursor does not
     * move.
     */
    method Peek(name: string) returns (found: bool)
      requires index >= -1
      ensures found <==> exists k :: index < k < |results| && HasTypedText(name, results[k].completionString)
    {
      var k := index + 1;
      while k < |results|
        invariant index + 1 <= k
        invariant forall j :: index < j < k && j < |results| ==> !HasTypedText(name, results[j].completionString)
        decreases |results| - k
      {
        var hit := HasText(name, results[k].completionString);
        if hit {
          return true;
        }
        k := k + 1;
      }
      return false;
    }

    /**
     * The completions of every result after the cursor, in order; the cursor ends past the end
     * and the current completion is the last result's, or as it was when none was left.
     */
    method ExtractAll() returns (codeCompletions: seq<CodeCompletion>)
      requires index >= -1
      modifies this`index, this`current
      ensures codeCompletions == Completions(results[Min(old(index) + 1, |results|)..])
      ensures index == Max(old(index) + 1, |results|)
      ensures old(index) + 1 < |results| ==> current == Complete(results[|results| - 1])
      ensures old(index) + 1 >= |results| ==> current == old(current)
    {
      var start := Min(index + 1, |results|);
      codeCompletions := [];
      var more := true;
      ghost var done := start;
      ghost var before := current;
      while more
        invariant old(index) <= index
        invariant more ==> index < |results| || index == old(index)
        invariant !more ==> index == Max(old(index) + 1, |results|)
        invariant start <= done == Min(index + 1, |results|)
        invariant codeCompletions == Completions(results[start..done])
        invariant current == if codeCompletions == [] then before else codeCompletions[|codeCompletions| - 1]
        decreases more, |results| - index
      {
        more, codeCompletions := AppendNext(start, done, codeCompletions);
        if more {
          done := index + 1;
        }
      }
      assert results[start..|results|] == results[start..];
      LastExtracted(results, start, codeCompletions, current, before);
    }

    /** One turn of `ExtractAll`'s loop: `Next`, and on success append the new completion. */
    method AppendNext(start: int, ghost done: int, codeCompletions: seq<CodeCompletion>) returns (more: bool, extended: seq<CodeCompletion>)
      requires -1 <= index && 0 <= start <= done <= |results|
      requires index + 1 < |results| ==> done == index + 1
      requires codeCompletions == Completions(results[start..done])
      modifies this`index, this`current
      ensures index == old(index) + 1
      ensures more <==> index < |results|
      ensures more ==> extended == Completions(results[start..index + 1])
      ensures !more ==> extended == codeCompletions
      ensures more ==> current == Complete(results[index]) && extended == codeCompletions + [current]
      ensures !more ==> current == old(current)
    {
      more := Next();
      extended := codeCompletions;
      if more {
        CompletionsExtend(results, start, done, codeCompletions, current);
        extended := codeCompletions + [current];
      }
    }

    /** Sets the completion kind from the cursor-kind table. */
    method ExtractCompletionKind()
      requires 0 <= index < |results|
      modifies this`current
      ensures current == old(current).(completionKind := CompletionKindOf(results[index]))
    {
      match results[index].cursorKind {
        case FunctionTemplate =>
          current := current.(completionKind := TemplateFunctionCompletionKind);
        case CXXMethod =>
          ExtractMethodCompletionKind();
        case FunctionDecl =>
          current := current.(completionKind := FunctionCompletionKind);
        case VariableRef =>
          current := current.(completionKind := VariableCompletionKind);
        case VarDecl =>
          current := current.(completionKind := VariableCompletionKind);
        case FieldDecl =>
          current := current.(completionKind := VariableCompletionKind);
        case ParmDecl =>
          current := current.(completionKind := VariableCompletionKind);
        case NonTypeTemplateParameter =>
          current := current.(completionKind := VariableCompletionKind);
        case StructDecl =>
          current := current.(completionKind := ClassCompletionKind);
        case UnionDecl =>
          current := current.(completionKind := ClassCompletionKind);
        case ClassDecl =>
          current := current.(completionKind := ClassCompletionKind);
        case TemplateTypeParameter =>
          current := current.(completionKind := ClassCompletionKind);
        case ClassTemplatePartialSpecialization =>
          current := current.(completionKind := TemplateClassCompletionKind);
        case ClassTemplate =>
          current := current.(completionKind := TemplateClassCompletionKind);
        case TemplateTemplateParameter =>
          current := current.(completionKind := TemplateClassCompletionKind);
        case Namespace =>
          current := current.(completionKind := NamespaceCompletionKind);
        case NamespaceAlias =>
          current := current.(completionKind := NamespaceCompletionKind);
        case EnumDecl =>
          current := current.(completionKind := EnumerationCompletionKind);
        case EnumConstantDecl =>
          current := current.(completionKind := EnumeratorCompletionKind);
        case Constructor =>
          current := current.(completionKind := ConstructorCompletionKind);
        case Destructor =>
          current := current.(completionKind := DestructorCompletionKind);
        case MacroDefinition =>
          ExtractMacroCompletionKind();
        case NotImplemented =>
          current := current.(completionKind := KeywordCompletionKind);
        case OtherCursor(_) =>
          current := current.(completionKind := Other);
      }
    }

    /** Sets the text to the first TypedText chunk's text, if there is one. */
    method ExtractText()
      requires 0 <= index < |results|
      modifies this`current
      ensures current == old(current).(text := TypedTextOf(results[index].completionString).GetOr(old(current).text))
    {
      var chunks := results[index].completionString.chunks;
      FirstOfKindIsFirst(chunks, TypedText);
      for chunkIndex := 0 to |chunks|
        invariant forall j :: 0 <= j < chunkIndex ==> chunks[j].kind != TypedText
        invariant current == old(current)
      {
        if chunks[chunkIndex].kind == TypedText {
          current := current.(text := chunks[chunkIndex].text);
          return;
        }
      }
    }

    /** Scans the annotations for the first `qt_signal` or `qt_slot`. */
    method ExtractMethodCompletionKind()
      requires 0 <= index < |results|
      modifies this`current
      ensures current == old(current).(completionKind := MethodKind(results[index].completionString.annotations))
    {
      var annotations := results[index].completionString.annotations;
      FirstQtMarkerIsFirst(annotations);
      for annotationIndex := 0 to |annotations|
        invariant forall j :: 0 <= j < annotationIndex ==> !IsQtMarker(annotations[j])
        invariant current == old(current)
      {
        var annotation := annotations[annotationIndex];
        if annotation == "qt_signal" {
          current := current.(completionKind := SignalCompletionKind);
          return;
        }
        if annotation == "qt_slot" {
          current := current.(completionKind := SlotCompletionKind);
          return;
        }
      }
      current := current.(completionKind := FunctionCompletionKind);
    }

    /** A macro with a placeholder chunk is function-like; otherwise it is a preprocessor macro. */
    method ExtractMacroCompletionKind()
      requires 0 <= index < |results|
      modifies this`current
      ensures current == old(current).(completionKind := MacroKind(results[index].completionString.chunks))
    {
      var chunks := results[index].completionString.chunks;
      FirstOfKindIsFirst(chunks, Placeholder);
      for chunkIndex := 0 to |chunks|
        invariant forall j :: 0 <= j < chunkIndex ==> chunks[j].kind != Placeholder
        invariant current == old(current)
      {
        if chunks[chunkIndex].kind == Placeholder {
          current := current.(completionKind := FunctionCompletionKind);
          return;
        }
      }
      current := current.(completionKind := PreProcessorCompletionKind);
    }

    method ExtractPriority()
      requires 0 <= index < |results|
      modifies this`current
      ensures current == old(current).(priority := results[index].completionString.priority)
    {
      current := current.(priority := results[index].completionString.priority);
    }

    method ExtractAvailability()
      requires 0 <= index < |results|
      modifies this`current
      ensures current == old(current).(availability := AvailabilityOf(results[index].completionString.availability))
    {
      match results[index].completionString.availability {
        case CxAvailable =>
          current := current.(availability := Available);
        case CxDeprecated =>
          current := current.(availability := Deprecated);
        case CxNotAvailable =>
          current := current.(availability := NotAvailable);
        case CxNotAccessible =>
          current := current.(availability := NotAccessible);
      }
    }

    /**
     * At the first LeftParen chunk, sets the flag to whether the next chunk is not a RightParen;
     * without a LeftParen the flag is left alone.
     */
    method ExtractHasParameters()
      requires 0 <= index < |results|
      modifies this`current
      ensures current == old(current).(hasParameters :=
        ParameterFlag(results[index].completionString.chunks).GetOr(old(current).hasParameters))
    {
      var chunks := results[index].completionString.chunks;
      FirstOfKindIsFirst(chunks, LeftParen);
      for chunkIndex := 0 to |chunks|
        invariant forall j :: 0 <= j < chunkIndex ==> chunks[j].kind != LeftParen
        invariant current == old(current)
      {
        if chunks[chunkIndex].kind == LeftParen {
          var nextIsRightParen := chunkIndex + 1 < |chunks| && chunks[chunkIndex + 1].kind == RightParen;
          current := current.(hasParameters := !nextIsRightParen);
          return;
        }
      }
    }

    /** Whether the first TypedText chunk of `cs` reads `text`; false when there is none. */
    method HasText(text: string, cs: CompletionString) returns (b: bool)
      ensures b <==> HasTypedText(text, cs)
    {
      FirstOfKindIsFirst(cs.chunks, TypedText);
      for chunkIndex := 0 to |cs.chunks|
        invariant forall j :: 0 <= j < chunkIndex ==> cs.chunks[j].kind != TypedText
      {
        if cs.chunks[chunkIndex].kind == TypedText {
          return text == cs.chunks[chunkIndex].text;
        }
      }
      return false;
    }
  }

  /**
   * When the current completion is the last one extracted from the results from `start` on,
   * it is the last result's completion, or what it was before when nothing was extracted.
   */
  lemma LastExtracted(rs: seq<CompletionResult>, start: int, extracted: seq<CodeCompletion>,
                      last: CodeCompletion, before: CodeCompletion)
    requires 0 <= start <= |rs| && extracted == Completions(rs[start..])
    requires last == if extracted == [] then before else extracted[|extracted| - 1]
    ensures start < |rs| ==> last == Complete(rs[|rs| - 1])
    ensures start == |rs| ==> last == before
  {
    if start < |rs| {
      assert rs[start..][|rs| - start - 1] == rs[|rs| - 1];
    }
  }

  /**
   * A fresh extracter over `results` yields one completion per result, in result order, each
   * built from its result alone.
   */
  method ExtractAllFromStart(results: seq<CompletionResult>) returns (codeCompletions: seq<CodeCompletion>)
    ensures |codeCompletions| == |results|
    ensures forall i :: 0 <= i < |results| ==> codeCompletions[i] == Complete(results[i])
  {
    var extracter := new CodeCompletionsExtracter(results);
    codeCompletions := extracter.ExtractAll();
    assert results[0..] == results;
    forall i | 0 <= i < |results|
      ensures codeCompletions[i] == Complete(results[i])
    {
      CompletionsAt(results, i);
    }
  }
}
