/**
 * guidence_model.py: the prompt asking for development guidance, and the
 * handling of the model's reply: the text at the fixed path, with every
 * literal backslash-n turned into a newline, or `None` when there is no text.
 */
module GuidenceModel {
  import opened Common
  import opened Text
  import Gemini

  // ---------------------------------------------------------------------
  // The guidance prompt
  // ---------------------------------------------------------------------

  /** The three columns the answer's table must have. */
  const ColumnHeadings: seq<string> := [
    "Improvement Area",
    "Identified Issue or Current State of Code",
    "Suggested Next Steps or Actions"
  ]

  /** The five topics the suggestions must cover, in their numbered order. */
  const Topics: seq<string> := [
    "Performance Optimization",
    "Error Handling Enhancements",
    "Code Maintainability Improvements",
    "Utilization of Hardware-Specific Features",
    "Future Development Recommendations"
  ]

  /** The instructions around the column headings and the topics. */
  const InstructionPieces: seq<string> := [
    "\n" +
      "Act as an embedded systems development expert with extensive experience in embedded hardware and firmware design. Your task is to analyze the provided code and suggest **step-by-step guidance** for further development and improvement.\n" +
      "\n" +
      "Your output should be in the form of a markdown table with the following columns:\n" +
      "    - **Column A:** ",
    "\n" +
      "    - **Column B:** ",
    "\n" +
      "    - **Column C:** ",
    "\n" +
      "\n" +
      "Ensure that your suggestions include:\n" +
      "1. **",
    "** for resource-constrained environments.\n" +
      "2. **",
    "** to improve reliability and fault tolerance.\n" +
      "3. **",
    "** for better readability, modularity, and scalability.\n" +
      "4. **",
    "** for improved functionality.\n" +
      "5. **",
    "** for extending device capabilities.\n" +
      "\n" +
      "Below is the provided code for analysis:\n"
  ]

  /** The fixed instructions that open the prompt, up to the code. */
  const Instructions: string := Fill(InstructionPieces, ColumnHeadings + Topics)

  /** The fixed text of the template, between its four placeholders. */
  const GuidanceSegments: seq<string> := [
    Instructions,
    "\n" +
      "\n" +
      "Below is the provided languge user is using:\n",
    "\n" +
      "\n" +
      "Below is the provided hardware user is using:\n",
    "\n" +
      "\n" +
      "Below is the provided application description:\n",
    "\n" +
      "\n" +
      "YOUR RESPONSE (do not wrap in a code block):\n"
  ]

  /** `create_guidence_prompt`: the code, language, hardware and description, each under its own heading. */
  function GuidancePrompt(code: string, language: string, hardware: string, appDesc: string): string {
    Fill(GuidanceSegments, [code, language, hardware, appDesc])
  }

  /**
   * The code, the language, the hardware and the application description
   * appear verbatim and in that order, empty strings included; the prompt
   * opens with the fixed instructions.
   */
  lemma GuidancePromptInputs(code: string, language: string, hardware: string, appDesc: string)
    ensures AppearsInOrder([code, language, hardware, appDesc], GuidancePrompt(code, language, hardware, appDesc))
    ensures StartsWith(GuidancePrompt(code, language, hardware, appDesc), Instructions)
  {
    FillInOrder(GuidanceSegments, [code, language, hardware, appDesc]);
    FillBounds(GuidanceSegments, [code, language, hardware, appDesc]);
  }

  /**
   * Whatever the inputs, the prompt names the three column headings and
   * then the five numbered topics, in order. The second clause, each heading
   * on its own, is a corollary of the first (by `InOrderContains`).
   */
  lemma GuidancePromptHeadings(code: string, language: string, hardware: string, appDesc: string)
    ensures AppearsInOrder(ColumnHeadings + Topics, GuidancePrompt(code, language, hardware, appDesc))
    ensures forall k :: 0 <= k < |ColumnHeadings + Topics| ==>
      Contains(GuidancePrompt(code, language, hardware, appDesc), (ColumnHeadings + Topics)[k])
  {
    var p := GuidancePrompt(code, language, hardware, appDesc);
    GuidancePromptInputs(code, language, hardware, appDesc);
    FillInOrder(InstructionPieces, ColumnHeadings + Topics);
    InOrderInPrefix(ColumnHeadings + Topics, p, Instructions);
    forall k | 0 <= k < |ColumnHeadings + Topics|
      ensures Contains(p, (ColumnHeadings + Topics)[k])
    {
      InOrderContains(ColumnHeadings + Topics, p, k);
    }
  }

  // ---------------------------------------------------------------------
  // The backslash-n rewrite
  // ---------------------------------------------------------------------

  /** `s[i]` is a backslash and `s[i + 1]` the letter n: the two characters `\n` written out. */
  predicate EscapedNewlineAt(s: string, i: int) {
    0 <= i < |s| - 1 && s[i] == '\\' && s[i + 1] == 'n'
  }

  predicate HasEscapedNewline(s: string) {
    exists i | 0 <= i < |s| :: EscapedNewlineAt(s, i)
  }

  /**
   * `s.replace('\\n', '\n')`: scanning left to right, each backslash
   * followed by `n` becomes one newline character.
   */
  function UnescapeNewlines(s: string): (r: string)
    ensures |s| > 0 ==> |r| > 0 && r[0] == (if EscapedNewlineAt(s, 0) then '\n' else s[0])
    decreases |s|
  {
    if |s| < 2 then s
    else if s[0] == '\\' && s[1] == 'n' then "\n" + UnescapeNewlines(s[2..])
    else [s[0]] + UnescapeNewlines(s[1..])
  }

  /**
   * `s.count('\\n')`: the non-overlapping backslash-n pairs, counted left to
   * right. It is zero exactly when the text holds no pair at all.
   */
  function EscapedNewlineCount(s: string): (c: nat)
    ensures c == 0 <==> !HasEscapedNewline(s)
    decreases |s|
  {
    if |s| < 2 then
      assert !HasEscapedNewline(s) by {
        forall i | 0 <= i < |s| ensures !EscapedNewlineAt(s, i) { }
      }
      0
    else if s[0] == '\\' && s[1] == 'n' then
      assert EscapedNewlineAt(s, 0);
      1 + EscapedNewlineCount(s[2..])
    else
      var c := EscapedNewlineCount(s[1..]);
      assert HasEscapedNewline(s) <==> HasEscapedNewline(s[1..]) by {
        if HasEscapedNewline(s) {
          var i :| 0 <= i < |s| && EscapedNewlineAt(s, i);
          assert i > 0 && EscapedNewlineAt(s[1..], i - 1);
        }
        if HasEscapedNewline(s[1..]) {
          var i :| 0 <= i < |s[1..]| && EscapedNewlineAt(s[1..], i);
          assert EscapedNewlineAt(s, i + 1);
        }
      }
      c
  }

  /** The rewrite shortens the text by exactly one character per pair it replaces. */
  lemma {:induction false} UnescapeLength(s: string)
    ensures |UnescapeNewlines(s)| == |s| - EscapedNewlineCount(s)
    ensures EscapedNewlineCount(s) <= |s| / 2
    decreases |s|
  {
    if |s| >= 2 {
      if s[0] == '\\' && s[1] == 'n' {
        UnescapeLength(s[2..]);
      } else {
        UnescapeLength(s[1..]);
      }
    }
  }

  /** After the rewrite, no backslash is immediately followed by `n`. */
  lemma {:induction false} UnescapeLeavesNone(s: string)
    ensures !HasEscapedNewline(UnescapeNewlines(s))
    decreases |s|
  {
    var r := UnescapeNewlines(s);
    if |s| >= 2 {
      if s[0] == '\\' && s[1] == 'n' {
        var tail := UnescapeNewlines(s[2..]);
        UnescapeLeavesNone(s[2..]);
        assert r == "\n" + tail;
        forall i | 0 <= i < |r| ensures !EscapedNewlineAt(r, i) {
          if i > 0 && EscapedNewlineAt(r, i) {
            assert EscapedNewlineAt(tail, i - 1);
          }
        }
      } else {
        var tail := UnescapeNewlines(s[1..]);
        UnescapeLeavesNone(s[1..]);
        assert r == [s[0]] + tail;
        forall i | 0 <= i < |r| ensures !EscapedNewlineAt(r, i) {
          if i > 0 && EscapedNewlineAt(r, i) {
            assert EscapedNewlineAt(tail, i - 1);
          }
        }
      }
    }
  }

  /** Text with no backslash-n pair, and so any text without a backslash, is left unchanged. */
  lemma {:induction false} UnescapeWithoutPairs(s: string)
    ensures !HasEscapedNewline(s) ==> UnescapeNewlines(s) == s
    ensures '\\' !in s ==> UnescapeNewlines(s) == s
    decreases |s|
  {
    if '\\' !in s {
      assert !HasEscapedNewline(s) by {
        forall i | 0 <= i < |s| ensures !EscapedNewlineAt(s, i) {
          assert s[i] in s;
        }
      }
    }
    if !HasEscapedNewline(s) && |s| >= 2 {
      assert !EscapedNewlineAt(s, 0);
      assert !HasEscapedNewline(s[1..]) by {
        forall i | 0 <= i < |s[1..]| ensures !EscapedNewlineAt(s[1..], i) {
          assert !EscapedNewlineAt(s, i + 1);
        }
      }
      UnescapeWithoutPairs(s[1..]);
    }
  }

  /**
   * Every pair is rewritten, not only the first: a backslash-n written
   * between two texts becomes one newline between their rewrites.
   */
  lemma {:induction false} UnescapeSplitsAtPair(a: string, b: string)
    ensures UnescapeNewlines(a + "\\n" + b) == UnescapeNewlines(a) + "\n" + UnescapeNewlines(b)
    decreases |a|
  {
    var s := a + "\\n" + b;
    if |a| == 0 {
      assert s[2..] == b;
    } else if |a| == 1 {
      assert s[1] == '\\' && s[1..] == "\\n" + b;
      UnescapeSplitsAtPair([], b);
      assert [] + "\\n" + b == "\\n" + b;
    } else if a[0] == '\\' && a[1] == 'n' {
      assert s[2..] == a[2..] + "\\n" + b;
      UnescapeSplitsAtPair(a[2..], b);
    } else {
      assert s[1..] == a[1..] + "\\n" + b;
      UnescapeSplitsAtPair(a[1..], b);
    }
  }

  /** Applying the rewrite twice gives the same text as applying it once. */
  lemma UnescapeIdempotent(s: string)
    ensures UnescapeNewlines(UnescapeNewlines(s)) == UnescapeNewlines(s)
  {
    UnescapeLeavesNone(s);
    UnescapeWithoutPairs(UnescapeNewlines(s));
  }

  // ---------------------------------------------------------------------
  // Calling the model and reading its reply
  // ---------------------------------------------------------------------

  const GuidanceSystemInstruction: string :=
    "You are helpful assistant your taks is to act as an embedded systems development expert with extensive " +
    "experience in embedded hardware and firmware design. Your task is to analyze the provided code and suggest " +
    "step-by-step guidance for further development and improvement in markdown format."

  /** The request `get_guidence` sends: plain text, with the guidance system instruction. */
  function GuidanceRequest(modelName: string, prompt: string): (r: Gemini.Request)
    ensures r.systemInstruction == Some(GuidanceSystemInstruction)
    ensures !r.jsonResponse && !r.blockOnlyHighDanger
    ensures r.model == modelName && r.prompt == prompt
  {
    Gemini.Request(modelName, Some(GuidanceSystemInstruction), false, false, prompt)
  }

  /**
   * `get_guidence` once the model has replied (or the call has raised): a
   * call that raised raises; a reply with no text at the fixed path (no
   * candidate, no part, a missing attribute) gives `None` instead of raising;
   * otherwise the text comes back with its backslash-n pairs rewritten, so
   * that none is left.
   */
  function GetGuidence(reply: Outcome<Gemini.Response>): (r: Outcome<Option<string>>)
    ensures r.Raised? <==> reply.Raised?
    ensures r == Returned(None) <==> reply.Returned? && Gemini.Text(reply.value).None?
    ensures r.Returned? && r.value.Some? ==>
      r.value.value == UnescapeNewlines(Gemini.Text(reply.value).value) && !HasEscapedNewline(r.value.value)
  {
    match reply
    case Raised => Raised
    case Returned(response) =>
      match Gemini.Text(response)
      case None => Returned(None)
      case Some(text) =>
        UnescapeLeavesNone(text);
        Returned(Some(UnescapeNewlines(text)))
  }
}
