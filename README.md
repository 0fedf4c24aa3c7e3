# Hexorcist core, modelled in Dafny

Hexorcist is a Streamlit application that asks LLM providers to generate
embedded-systems code, development guidance and test cases. Its behaviour
that can be stated exactly lives in four files, and this project models
each of them in its own module:

- `code_model.dfy` (`CodeModel`) covers `code_model.py`. It holds the Markdown
  renderer of a generated result, an imperative method over a loop proved
  against a specification function. It holds the code-generation prompt, a
  template filled with the caller's strings. It holds the
  parse-or-`None` handling of the model's reply.
- `guidence_model.dfy` (`GuidenceModel`) covers `guidence_model.py`: the
  guidance prompt, the backslash-n to newline rewrite, and the `None`
  fallback when the reply carries no text.
- `test_cases.dfy` (`TestCases`) covers `test_cases.py`: the test-case prompt,
  the request each of the five providers receives (Gemini twice, Azure
  OpenAI, Mistral, Ollama, Anthropic), and the path at which each
  provider's reply carries its text.
- `main_app.dfy` (`MainApp`) covers `main.py`: the bounded retry loop (one
  generic method for the three identical loops), the `.get` defaulting of
  the generated fields, the session guards, and the three buttons that put
  these together.

Shared pieces:

- `text.dfy` (`Text`) fills a template (`Fill`, what an f-string does) and
  says where text occurs (`AppearsInOrder`: verbatim, left to right, no
  overlap).
- `json.dfy` (`Json`) holds the decoded JSON values, Python truthiness and
  `dict.get`.
- `gemini.dfy` (`Gemini`) holds the Gemini request and the
  `candidates[0].content.parts[0].text` envelope.
- `common.dfy` (`Common`) holds `Option` and `Outcome`. `Outcome` is either
  "raised" or "returned a value".

Every call outside the model becomes a parameter. A provider's reply is an
`Outcome` of its response envelope, one per call index. `json.loads` is a
`Json.Parser`, a function from text to an optional value. Every exception
counts the same, as in the source, which catches `Exception` alike.

What the code does on failure:

- A failed call is never classified: `main.py` catches every exception alike
  and retries it. After the third failure nothing is raised. One error is
  shown and the results are left empty (main.py:264-268, 328-330, 383-385).
- A reply that is not JSON does not raise in `get_code_model`. It gives
  `None` (code_model.py:120-124), the `.get` on that `None` raises in
  main.py:253, and the attempt is retried.
- A reply without text is handled two ways. `get_guidence` turns it into
  `None` (guidence_model.py:50-54), which the retry loop counts as a
  success. `get_test_cases` lets the `IndexError` escape (test_cases.py:47),
  so the attempt is retried.

## Model

| member | source | states |
|---|---|---|
| `CodeModel.Markdown` | code_model.py:10-16 | the specification of the renderer: the documentation header, the documentation, a blank line, the recommendations header and one bullet line per recommendation; its properties are the lemmas below |
| `CodeModel.ResponseToMarkdown` | code_model.py:8-18 | builds, by appending in a loop, exactly the documentation header, the documentation verbatim, a blank line, the recommendations header and one `- r` line per recommendation in order |
| `CodeModel.BulletsAppend` | code_model.py:15-16 | the bullet list of two lists one after the other is the first list's bullets followed by the second's |
| `CodeModel.MarkdownLineOf` | code_model.py:15-16 | recommendation k is rendered as the line `- r\n` right after the document of the k recommendations before it, and the later ones follow it |
| `CodeModel.MarkdownLength` | code_model.py:10-16 | the document is 53 characters of headers and blank line plus the documentation plus, for each recommendation, its length plus 3 |
| `CodeModel.MarkdownExamples` | code_model.py:8-18 | with no recommendation only the two headers and the documentation remain; `("Doc body", ["r1","r2"])` gives the two headers, the body and the lines `- r1`, `- r2` |
| `CodeModel.CodeModelPrompt` | code_model.py:21-104 | the code prompt: the fixed text of lines 22-103 with language, hardware, language, hardware, description, code and language filled in; its properties are the two lemmas below |
| `CodeModel.CodeModelPromptInputs` | code_model.py:22-74 | language, hardware, description and code appear verbatim in the order of the input parameters; the full order is language, hardware, language, hardware, description, code, language; empty inputs included |
| `CodeModel.CodeModelPromptNamesKeys` | code_model.py:97-102 | the prompt ends with the output format, which opens and closes with a single brace and names `"source_code"`, `"documentation"` and `"optimization_recommendations"` in that order between its braces |
| `CodeModel.CodeModelRequest` | code_model.py:109-116 | the code request asks for a JSON response, sets the high-only danger filter, has no system instruction and sends the prompt unchanged |
| `CodeModel.GetCodeModel` | code_model.py:117-126 | a reply without text at the fixed path raises; text that is not JSON gives `None`; valid JSON is returned exactly as parsed |
| `Text.Fill` | code_model.py:22-103 | an f-string: the fixed segments with one value between each two, unchanged; its properties are the three lemmas below |
| `Text.FillInOrder` | code_model.py:22-103 | every value filled into a template appears in the result verbatim, in order, without overlap |
| `Text.FillLength` | test_cases.py:10-33 | for each of the three templates (also code_model.py:22-103 and guidence_model.py:6-34), a filled template is exactly as long as its fixed text plus its values, so nothing is truncated |
| `Text.FillBounds` | guidence_model.py:6-34 | for each of the three templates (also code_model.py:22-103 and test_cases.py:10-33), a filled template starts with its first fixed segment and ends with its last |
| `Gemini.Text` | test_cases.py:47 | the text at `candidates[0].content.parts[0].text` is defined exactly when a first candidate with content, a first part and a text exist |
| `Gemini.TextReadsOnlyFirst` | guidence_model.py:47 | the extractor reads back the text of a one-candidate reply and ignores further candidates and parts |
| `GuidenceModel.GuidancePrompt` | guidence_model.py:5-35 | the guidance prompt: the fixed instructions of lines 6-20, then code, language, hardware and description, each after its label |
| `GuidenceModel.GuidancePromptInputs` | guidence_model.py:21-31 | code, language, hardware and description appear verbatim in that order, empty strings included, after the fixed instructions |
| `GuidenceModel.GuidancePromptHeadings` | guidence_model.py:9-19 | the prompt always contains the three column headings and then the five numbered topics, in order |
| `GuidenceModel.UnescapeNewlines` | guidence_model.py:49 | the rewrite starts with a newline where the text starts with a backslash-n pair, and otherwise with the text's first character |
| `GuidenceModel.EscapedNewlineCount` | guidence_model.py:49 | the number of pairs the rewrite replaces, counted left to right without overlap, is zero exactly when the text holds no pair |
| `GuidenceModel.UnescapeSplitsAtPair` | guidence_model.py:48-49 | every pair becomes a newline, not only the first: a pair between two texts becomes one newline between their rewrites |
| `GuidenceModel.UnescapeLength` | guidence_model.py:49 | the rewrite shortens the text by exactly one character per replaced pair (at most half its length) |
| `GuidenceModel.UnescapeLeavesNone` | guidence_model.py:49 | after the rewrite no backslash is immediately followed by `n` |
| `GuidenceModel.UnescapeWithoutPairs` | guidence_model.py:49 | text without a backslash-n pair, in particular text without a backslash, is left unchanged |
| `GuidenceModel.UnescapeIdempotent` | guidence_model.py:49 | applying the rewrite twice gives the same text as applying it once |
| `GuidenceModel.GuidanceRequest` | guidence_model.py:40-44 | the guidance request carries the guidance system instruction, asks for no JSON and sends the prompt unchanged |
| `GuidenceModel.GetGuidence` | guidence_model.py:45-56 | a call that raises raises; a reply with no candidate, part or text gives `None` instead of raising; otherwise the text is rewritten and holds no backslash-n pair |
| `TestCases.TestCasesPrompt` | test_cases.py:9-34 | the test-case prompt: the fixed text of lines 10-33 with language, hardware, code and description filled in |
| `TestCases.TestCasesPromptInputs` | test_cases.py:16-32 | language, hardware, code and description appear verbatim in that order, and the prompt always ends with the line forbidding introductory text |
| `TestCases.UserPrompt` | test_cases.py:63 | the prompt recovered from a message list is defined exactly when the last message is the user's, and is then that message's content |
| `TestCases.ChatMessages` | test_cases.py:61-64 | exactly two messages, the system text first and the prompt unchanged as the user's, from which the prompt is recovered |
| `TestCases.GoogleDefaultRequest` | test_cases.py:39-44 | `get_test_cases` sends the prompt unchanged with the Markdown system instruction and no JSON setting |
| `TestCases.GoogleRequest` | test_cases.py:74-79 | `get_test_cases_google` sends the prompt unchanged with the Gherkin system instruction and no JSON setting |
| `TestCases.ChatCompletionRequest` | test_cases.py:53-65 | Azure (with the deployment name as model) and Mistral (test_cases.py:90-96, the same request) receive exactly a system message then the prompt unchanged as the user message |
| `TestCases.OllamaChatRequest` | test_cases.py:106-121 | Ollama is posted to the local chat URL with `stream` false and exactly a system message then the prompt |
| `TestCases.AnthropicMessagesRequest` | test_cases.py:132-140 | Anthropic receives the model name unchanged, `max_tokens` 4096, the system text in its own field and exactly one message, the user's prompt, with no system message among the messages |
| `TestCases.ChoiceText` | test_cases.py:68 | `choices[0].message.content` is defined exactly when a first choice exists, and is its content |
| `TestCases.AnthropicText` | test_cases.py:143 | `content[0].text` is defined exactly when the first block exists and is a text block |
| `Json.Index` | test_cases.py:126 | `v[key]` is defined exactly when `v` is an object holding the key, and is then the stored value |
| `TestCases.OllamaContent` | test_cases.py:126 | `["message"]["content"]` is defined exactly when the body is an object with a `message` object holding `content`, and is that value |
| `TestCases.GetTestCasesGemini` | test_cases.py:38-49 | a reply without text at the Gemini path raises (it is not caught), otherwise its text is returned |
| `TestCases.GetTestCasesChat` | test_cases.py:52-70 | a reply without choices raises, otherwise the first choice's content is returned |
| `TestCases.GetTestCasesAnthropic` | test_cases.py:131-145 | a reply whose first block is missing or not text raises, otherwise that block's text is returned |
| `TestCases.GetTestCasesOllama` | test_cases.py:104-128 | a body that is not JSON or lacks the path raises, otherwise the value at `message.content` is returned |
| `TestCases.ExtractorsReadFirst` | test_cases.py:47-143 | every extractor reads back the text of the plainest reply and ignores every later candidate, choice or block |
| `MainApp.Warnings` | main.py:270 | after n non-final failures there are exactly n warnings, the k-th naming attempt k + 2 of 3 |
| `MainApp.RetryLoop` | main.py:244-270 | at most 3 calls; every call before the last raised, so none follows a success; success on call k leaves k - 1 warnings and its value; 3 failures leave 2 warnings, one error and the default |
| `Json.Get` | main.py:253-255 | `dict.get`: the stored value when the key is present, the default when it is missing |
| `MainApp.FieldsOf` | main.py:253-255 | the three reads raise unless the output is a dictionary (so a `None` from a failed decode raises); missing keys give `""`, `""`, `[]`, present keys their value |
| `MainApp.CodeAttempt` | main.py:249-255 | an attempt succeeds exactly when the reply has text that parses to an object, and then holds its defaulted fields |
| `MainApp.MissingKeysDefault` | main.py:253-255 | an output object lacking all three keys, whatever else it holds, yields the empty fields, which render as the bare two-section document |
| `MainApp.Texts` | main.py:273 | a list becomes text exactly when every item is a string, item by item |
| `MainApp.Render` | main.py:273 | renders exactly when the documentation is a string and the recommendations a list of strings, as the renderer's document |
| `Json.Truthy` | main.py:306 | Python truthiness of a decoded value: false exactly for null, false, zero and empty text, list or object |
| `MainApp.Filled` | main.py:236 | `key in st.session_state and st.session_state[key]`: the key is stored and its value is truthy |
| `MainApp.CanFollowUp` | main.py:306 | the guard of the guidance and test-case buttons (also line 361): code, language and hardware are all stored and truthy |
| `MainApp.RecordCode` | main.py:258-260 | a success stores the code, the language and the hardware and leaves every other session key unchanged |
| `MainApp.RecordEnablesFollowUp` | main.py:306 | after storing, the guidance and test-case guard (also line 361) holds exactly when the code is truthy and language and hardware are non-empty |
| `MainApp.GenerateCode` | main.py:236-289 | without a stored description: no call and, on a press, exactly one missing-description error, nothing stored. Otherwise at most 3 calls and no missing-description error; success on call k stores its fields and leaves k - 1 "retrying attempt" warnings; exhaustion keeps the session and the empty fields and leaves 2 warnings and the error; the result renders as `Render` says |
| `MainApp.GenerateGuidance` | main.py:304-344 | without code, language and hardware: no call and, on a press, exactly one missing-input error. Otherwise at most 3 calls and no missing-input error; a `None` guidance is kept as a success after k - 1 warnings; exhaustion gives `""` after 2 warnings and the error |
| `MainApp.GenerateTestCases` | main.py:359-399 | without code, language and hardware: no call and, on a press, exactly one missing-input error. Otherwise at most 3 calls and no missing-input error; a reply without text is retried; success on call k leaves k - 1 warnings; exhaustion gives `""` after 2 warnings and the error |

## Left out

- The Streamlit interface is not modelled: sidebar, tabs, text areas, select boxes, spinners, `st.markdown`/`st.code` display and download buttons. The session is modelled only as the map that the guards read and `RecordCode` writes.
- Loading the environment and the `.env` file is I/O and is not modelled.
- The network and the SDK clients are not modelled: `genai.configure`, `generate_content`, `AzureOpenAI`, `Mistral`, `Anthropic`, `requests.post`. API keys, the Azure endpoint and API version, and client construction are left out too. Replies are parameters, one per call index.
- `json.loads` is the abstract `Json.Parser`.
- Json.Truthy: JSON numbers are integers in the model, so a fractional number cannot be represented. The guards at main.py:306 and 361 judge a numeric stored code by an integer. Python holds `0.5` truthy; a parser that maps it to `Number(0)` makes the model's guard false.
- The `print` diagnostics in `get_code_model` and `get_guidence` are not modelled.
- Backoff and timeouts are not modelled; the source has none. The three retry loops treat every exception alike (main.py:262, 326, 381). The narrower catches of `get_code_model` (`JSONDecodeError`, code_model.py:120) and `get_guidence` (`IndexError`/`AttributeError`, guidence_model.py:50) are modelled by `CodeModel.GetCodeModel` and `GuidenceModel.GetGuidence`: a failure they catch gives `None`, and any other escapes as `Raised`.
- MainApp.Render: Python formats a non-string documentation with `str()` and iterates a non-list recommendations value. The model renders only a string documentation with a list of strings, and gives `None` otherwise.
- MainApp.GenerateCode: the prompt built at main.py:240 is not an output. The replies are parameters, so the prompt cannot influence them. `CodeModel.CodeModelPrompt` states what it contains.
- MainApp.GenerateGuidance, MainApp.GenerateTestCases: the prompt each builds (main.py:313, 367) is not an output, since the replies are parameters. The stored code is any JSON value, and Python formats it into those prompts with `str()`. `GuidenceModel.GuidancePrompt` and `TestCases.TestCasesPrompt` take text only, so a non-string code is not modelled in the prompt.
- MainApp.GenerateTestCases: only the Gemini `get_test_cases` is modelled, because it is the only one main.py calls. The other providers' functions are modelled on their own in `TestCases`.
- TestCases.ChoiceText: a message whose content is null (Python `None`) is not modelled. The content is always text.
- TestCases.AnthropicText: content blocks are either text or tool use. Other block kinds are not distinguished.
- The safety setting is recorded only as present or absent (`blockOnlyHighDanger`). Its category and threshold strings are not modelled.
