/**
 * code_model.py: the Markdown rendering of a generated result, the prompt
 * that asks the model for code, and the parse-or-None handling of its reply.
 */
module CodeModel {
  import opened Common
  import opened Text
  import Json
  import Gemini

  // ---------------------------------------------------------------------
  // Markdown rendering
  // ---------------------------------------------------------------------

  const DocumentationHeader: string := "## Documentation\n\n"
  const RecommendationsHeader: string := "## Optimization Recommendations\n\n"

  /** The line a single recommendation becomes. */
  function Bullet(r: string): string {
    "- " + r + "\n"
  }

  /** The bulleted list: one line per recommendation, in the given order. */
  function Bullets(rs: seq<string>): string {
    if rs == [] then "" else Bullets(rs[..|rs| - 1]) + Bullet(rs[|rs| - 1])
  }

  /**
   * The two-section document: the documentation verbatim under its header,
   * a blank line, then the recommendations as a bulleted list under theirs.
   */
  function Markdown(documentation: string, rs: seq<string>): string {
    DocumentationHeader + documentation + "\n\n" + RecommendationsHeader + Bullets(rs)
  }

  /** `response_to_markdown`: builds the document by appending, line by line. */
  method ResponseToMarkdown(documentation: string, recommendations: seq<string>) returns (markdown: string)
    ensures markdown == Markdown(documentation, recommendations)
  {
    markdown := DocumentationHeader;
    markdown := markdown + documentation + "\n\n";
    markdown := markdown + RecommendationsHeader;
    for i := 0 to |recommendations|
      invariant markdown == Markdown(documentation, recommendations[..i])
    {
      assert recommendations[..i + 1][..i] == recommendations[..i];
      markdown := markdown + "- " + recommendations[i] + "\n";
    }
    assert recommendations[..|recommendations|] == recommendations;
  }

  /** Rendering a list in two parts renders each part, one after the other. */
  lemma {:induction false} BulletsAppend(a: seq<string>, b: seq<string>)
    ensures Bullets(a + b) == Bullets(a) + Bullets(b)
    decreases |b|
  {
    if b != [] {
      var b' := b[..|b| - 1];
      assert (a + b)[..|a + b| - 1] == a + b';
      assert (a + b)[|a + b| - 1] == b[|b| - 1];
      BulletsAppend(a, b');
      calc {
        Bullets(a + b);
        Bullets(a + b') + Bullet(b[|b| - 1]);
        Bullets(a) + Bullets(b') + Bullet(b[|b| - 1]);
        Bullets(a) + Bullets(b);
      }
    } else {
      assert a + b == a;
    }
  }

  /** Recommendation `k` is rendered as its own line, after the lines of those before it. */
  lemma MarkdownLineOf(documentation: string, rs: seq<string>, k: nat)
    requires k < |rs|
    ensures Markdown(documentation, rs) ==
      Markdown(documentation, rs[..k]) + "- " + rs[k] + "\n" + Bullets(rs[k + 1..])
  {
    assert rs == rs[..k] + [rs[k]] + rs[k + 1..];
    BulletsAppend(rs[..k] + [rs[k]], rs[k + 1..]);
    BulletsAppend(rs[..k], [rs[k]]);
    assert ([] + [rs[k]])[..0] == [];
  }

  /** The characters each recommendation adds: its text, the dash, the space and the newline. */
  function RecommendationsLength(rs: seq<string>): nat {
    if rs == [] then 0 else |rs[0]| + 3 + RecommendationsLength(rs[1..])
  }

  /**
   * The document is exactly as long as its two headers and the blank line
   * (53 characters), the documentation, and three characters more than each
   * recommendation.
   */
  lemma {:induction false} MarkdownLength(documentation: string, rs: seq<string>)
    ensures |Markdown(documentation, rs)| == 53 + |documentation| + RecommendationsLength(rs)
    decreases |rs|
  {
    if rs != [] {
      MarkdownLength(documentation, rs[1..]);
      assert rs == [rs[0]] + rs[1..];
      BulletsAppend([rs[0]], rs[1..]);
      assert [rs[0]][..0] == [];
    }
  }

  /**
   * With no recommendation the document is the two headers and the
   * documentation; the example of two recommendations renders line by line.
   */
  lemma MarkdownExamples(documentation: string)
    ensures Markdown(documentation, []) ==
      "## Documentation\n\n" + documentation + "\n\n## Optimization Recommendations\n\n"
    ensures Markdown("Doc body", ["r1", "r2"]) ==
      "## Documentation\n\n" + "Doc body" + "\n\n" + "## Optimization Recommendations\n\n" + "- r1\n" + "- r2\n"
  {
    assert ["r1", "r2"][..1] == ["r1"];
    assert ["r1"][..0] == [];
  }

  // ---------------------------------------------------------------------
  // The code-generation prompt
  // ---------------------------------------------------------------------

  /** The keys the reply is asked to carry, and that main.py reads back. */
  const SourceCodeKey: string := "source_code"
  const DocumentationKey: string := "documentation"
  const RecommendationsKey: string := "optimization_recommendations"

  function Quoted(s: string): string {
    "\"" + s + "\""
  }

  /** The JSON skeleton closing the prompt (written with doubled braces in the f-string). */
  const OutputFormatOpen: string := "Output Format:\n{\n"
  const OutputFormatClose: string := "\n}\n"
  const OutputFormatPieces: seq<string> := [
    OutputFormatOpen + "    ",
    ": \"Complete source code here\",\n    ",
    ": \"Comprehensive documentation\",\n    ",
    ": [\"Recommendation 1\", \"Recommendation 2\"]" + OutputFormatClose
  ]
  const OutputFormat: string :=
    Fill(OutputFormatPieces, [Quoted(SourceCodeKey), Quoted(DocumentationKey), Quoted(RecommendationsKey)])

  /** The fixed text after the code fence opened with the language, up to the JSON skeleton. */
  const CodeStructureProse: string :=
    "\n" +
    "// [Comprehensive Header with Project Details]\n" +
    "// [Hardware Platform Description]\n" +
    "// [Detailed Documentation]\n" +
    "\n" +
    "\n" +
    "Constraint Validation Checklist:\n" +
    "a) Compile-time memory footprint\n" +
    "b) Runtime performance metrics\n" +
    "c) Interrupt latency\n" +
    "d) Power consumption profile\n" +
    "e) Thermal management considerations\n" +
    "Deliverables:\n" +
    "\n" +
    "Complete Source Code\n" +
    "Inline Documentation\n" +
    "Recommended Compilation Flags\n" +
    "Hardware-Specific Optimization Recommendations\n" +
    "\n" +
    "GENERATE CODE STRICTLY ADHERING TO:\n" +
    "Hardware Manufacturer's Recommendations\n" +
    "Real-Time Systems Best Practices\n" +
    "\n"

  /** The fixed text of the template, between its seven placeholders. */
  const CodeModelSegments: seq<string> := [
    // followed by the language
    "\n" +
      "    Act as a Senior Embedded Systems Architect and Code Generation Specialist with expertise in ",
    // followed by the hardware
    " and ",
    // followed by the language
    " development.\n" +
      "\n" +
      "Primary Objective:\n" +
      "Generate production-ready, optimized embedded software code that adheres to industry best practices, considering:\n" +
      "1. Hardware-specific constraints\n" +
      "2. Resource optimization\n" +
      "3. Real-time performance requirements\n" +
      "4. Safety and reliability standards\n" +
      "\n" +
      "DETAILED CODE GENERATION INSTRUCTIONS:\n" +
      "\n" +
      "Input Parameters:\n" +
      "- Programming Language: ",
    // followed by the hardware
    "\n" +
      "- Target Hardware Platform: ",
    // followed by the application description
    "\n" +
      "- Specific Requirements: ",
    // followed by the existing code
    "\n" +
      "- Optional Code Context/Existing Fragments: ",
    // followed by the language
    "\n" +
      "\n" +
      "Code Generation Methodology:\n" +
      "1. Architecture Analysis\n" +
      "- Carefully examine the hardware specifications\n" +
      "- Identify hardware-specific limitations\n" +
      "- Determine optimal memory management strategy\n" +
      "- Assess real-time processing requirements\n" +
      "\n" +
      "2. Code Generation Principles:\n" +
      "- Prioritize memory efficiency\n" +
      "- Minimize computational complexity\n" +
      "- Implement robust error handling\n" +
      "- Ensure deterministic behavior\n" +
      "- Follow target hardware's architectural constraints\n" +
      "\n" +
      "3. Output Specifications:\n" +
      "a) Produce complete, compilable code\n" +
      "b) Include comprehensive comments explaining complex logic\n" +
      "c) Provide modular, reusable component design\n" +
      "d) Implement appropriate abstraction layers\n" +
      "\n" +
      "4. Non-Negotiable Requirements:\n" +
      "- Zero memory leaks\n" +
      "- Minimal heap usage\n" +
      "- Predictable execution time\n" +
      "- Clear separation of concerns\n" +
      "- Platform-specific optimization techniques\n" +
      "\n" +
      "5. Additional Contextual Considerations:\n" +
      "- Interrupt handling mechanisms\n" +
      "- Power consumption optimization\n" +
      "- Communication protocol implementations\n" +
      "- Real-time scheduling requirements\n" +
      "\n" +
      "Code Structure Template:\n" +
      "```",
    CodeStructureProse + OutputFormat
  ]

  /**
   * `create_code_model_prompt`: the language fills the first, third and
   * last placeholders, the hardware the second and fourth, then come the
   * application description and the existing code.
   */
  function CodeModelPrompt(languageType: string, hardwareName: string, appDesc: string, code: string): string {
    Fill(CodeModelSegments, [languageType, hardwareName, languageType, hardwareName, appDesc, code, languageType])
  }

  /**
   * Every input appears verbatim and in order: language and hardware in the
   * opening sentence, the four input parameters in their listed order, and
   * the language again in the code fence; empty inputs included.
   */
  lemma CodeModelPromptInputs(languageType: string, hardwareName: string, appDesc: string, code: string)
    ensures AppearsInOrder([languageType, hardwareName, languageType, hardwareName, appDesc, code, languageType],
                           CodeModelPrompt(languageType, hardwareName, appDesc, code))
    ensures AppearsInOrder([languageType, hardwareName, appDesc, code],
                           CodeModelPrompt(languageType, hardwareName, appDesc, code))
  {
    var args := [languageType, hardwareName, languageType, hardwareName, appDesc, code, languageType];
    var p := CodeModelPrompt(languageType, hardwareName, appDesc, code);
    FillInOrder(CodeModelSegments, args);
    InOrderDrop(args, 2, p);
    InOrderTake(args[2..], 4, p);
    assert args[2..][..4] == [languageType, hardwareName, appDesc, code];
  }

  /**
   * The prompt ends with the JSON skeleton, which opens and closes with a
   * single brace and names the three keys between the braces, quoted, in
   * the order source code, documentation, recommendations.
   */
  lemma CodeModelPromptNamesKeys(languageType: string, hardwareName: string, appDesc: string, code: string)
    ensures EndsWith(CodeModelPrompt(languageType, hardwareName, appDesc, code), OutputFormat)
    ensures StartsWith(OutputFormat, "Output Format:\n{\n") && EndsWith(OutputFormat, "\n}\n")
    ensures AppearsInOrder([Quoted(SourceCodeKey), Quoted(DocumentationKey), Quoted(RecommendationsKey)], OutputFormat)
    ensures AppearsInOrder([Quoted(SourceCodeKey), Quoted(DocumentationKey), Quoted(RecommendationsKey)],
                           CodeModelPrompt(languageType, hardwareName, appDesc, code))
  {
    var args := [languageType, hardwareName, languageType, hardwareName, appDesc, code, languageType];
    var p := CodeModelPrompt(languageType, hardwareName, appDesc, code);
    var keys := [Quoted(SourceCodeKey), Quoted(DocumentationKey), Quoted(RecommendationsKey)];
    FillBounds(CodeModelSegments, args);
    ConcatBounds(CodeStructureProse, OutputFormat);
    EndsWithTrans(p, CodeModelSegments[7], OutputFormat);
    FillBounds(OutputFormatPieces, keys);
    ConcatBounds(OutputFormatOpen, "    ");
    StartsWithTrans(OutputFormat, OutputFormatPieces[0], OutputFormatOpen);
    ConcatBounds(": [\"Recommendation 1\", \"Recommendation 2\"]", OutputFormatClose);
    EndsWithTrans(OutputFormat, OutputFormatPieces[3], OutputFormatClose);
    FillInOrder(OutputFormatPieces, keys);
    InOrderInSuffix(keys, p, OutputFormat);
  }

  // ---------------------------------------------------------------------
  // Calling the model and parsing its reply
  // ---------------------------------------------------------------------

  /** The request `get_code_model` sends: strict JSON asked for, dangerous content blocked only when high. */
  function CodeModelRequest(modelName: string, prompt: string): (r: Gemini.Request)
    ensures r.jsonResponse && r.blockOnlyHighDanger && r.systemInstruction.None?
    ensures r.model == modelName && r.prompt == prompt
  {
    Gemini.Request(modelName, None, true, true, prompt)
  }

  /**
   * `get_code_model` once the model has replied (or the call has raised):
   * a reply without text raises out of the function (only the JSON decode
   * error is caught there); text that is not JSON gives `None`; valid JSON
   * is returned exactly as parsed.
   */
  function GetCodeModel(reply: Outcome<Gemini.Response>, parse: Json.Parser): (r: Outcome<Option<Json.Value>>)
    ensures r.Raised? <==> reply.Raised? || Gemini.Text(reply.value).None?
    ensures r == Returned(None) <==>
      reply.Returned? && Gemini.Text(reply.value).Some? && parse(Gemini.Text(reply.value).value).None?
    ensures forall v :: r == Returned(Some(v)) <==>
      reply.Returned? && Gemini.Text(reply.value).Some? && parse(Gemini.Text(reply.value).value) == Some(v)
  {
    match reply
    case Raised => Raised
    case Returned(response) =>
      match Gemini.Text(response)
      case None => Raised
      case Some(text) => Returned(parse(text))
  }
}
