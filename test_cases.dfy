/**
 * test_cases.py: the prompt asking for test cases, the request each of the
 * five providers is sent, and where each provider's reply carries the text.
 */
module TestCases {
  import opened Common
  import opened Text
  import Json
  import Gemini

  // ---------------------------------------------------------------------
  // The test-case prompt
  // ---------------------------------------------------------------------

  /** The closing line that forbids an introduction before the test cases. */
  const FinalInstruction: string := "YOUR RESPONSE (do not add introductory text, just provide the test cases):\n"

  /** The fixed text between the application description and the closing line. */
  const TestCasesTail: string :=
    "\n" +
    "\n" +
    "Put the test cases inside triple backticks (```) to format the test cases in Markdown. Add a title for each test case and give language specific test cases.\n" +
    "For example:\n" +
    "\n" +
    "    ```Test Case\n" +
    "    Given a scenario where the system is under heavy load\n" +
    "    When the system is running multiple processes\n" +
    "    Then the system should not crash and should maintain stable performance\n" +
    "\n" +
    "    ```\n" +
    "\n"

  /** The fixed text of the template, between its four placeholders. */
  const TestCasesSegments: seq<string> := [
    // followed by the language
    "\n" +
      "Act as an expert in embedded systems development and testing with more than 20 years of experience. \n" +
      "Your task is to generate test cases for running embedded application code in order to identify potential issues such as \n" +
      "memory allocation errors, CPU utilization problems, system crashes, or other runtime errors. The test cases should \n" +
      "focus on verifying the stability and efficiency of the embedded system. Give the test cases in language specific test framework.\n" +
      "\n" +
      "### Application Details:\n" +
      "- **Programming Language:** ",
    // followed by the hardware
    "\n" +
      "- **Hardware/Platform:** ",
    // followed by the code
    "\n" +
      "- **Application Code:** ",
    // followed by the application description
    "\n" +
      "- **Application Description:** ",
    TestCasesTail + FinalInstruction
  ]

  /** `create_test_cases_prompt`: the application details, then the formatting instructions. */
  function TestCasesPrompt(code: string, language: string, hardware: string, appDesc: string): string {
    Fill(TestCasesSegments, [language, hardware, code, appDesc])
  }

  /**
   * The language, the hardware, the code and the application description
   * appear verbatim and in that order (the order of the application details,
   * not of the parameters), empty strings included; the prompt always ends
   * with the line that forbids introductory text.
   */
  lemma TestCasesPromptInputs(code: string, language: string, hardware: string, appDesc: string)
    ensures AppearsInOrder([language, hardware, code, appDesc], TestCasesPrompt(code, language, hardware, appDesc))
    ensures EndsWith(TestCasesPrompt(code, language, hardware, appDesc), FinalInstruction)
  {
    var args := [language, hardware, code, appDesc];
    FillInOrder(TestCasesSegments, args);
    FillBounds(TestCasesSegments, args);
    ConcatBounds(TestCasesTail, FinalInstruction);
    EndsWithTrans(TestCasesPrompt(code, language, hardware, appDesc), TestCasesSegments[4], FinalInstruction);
  }

  // ---------------------------------------------------------------------
  // Requests
  // ---------------------------------------------------------------------

  const MarkdownSystemPrompt: string :=
    "You are a helpful assistant that provides test cases in Markdown format."
  const GherkinSystemPrompt: string :=
    "You are a helpful assistant that provides Gherkin test cases in Markdown format."

  datatype Role = System | User
  datatype Message = Message(role: Role, content: string)

  /** A chat-completion call (Azure OpenAI, Mistral): the model or deployment and the messages. */
  datatype ChatRequest = ChatRequest(model: string, messages: seq<Message>)

  /** The JSON body posted to the local Ollama daemon. */
  datatype OllamaRequest = OllamaRequest(url: string, model: string, stream: bool, messages: seq<Message>)

  /** An Anthropic messages call: the system text travels beside the messages, not among them. */
  datatype AnthropicRequest = AnthropicRequest(model: string, maxTokens: nat, system: string, messages: seq<Message>)

  const OllamaUrl: string := "http://localhost:11434/api/chat"
  const AnthropicMaxTokens: nat := 4096

  /**
   * The prompt the provider is asked to answer: the content of the last
   * message, when that message is the user's.
   */
  function UserPrompt(messages: seq<Message>): (p: Option<string>)
    ensures p.Some? <==> |messages| > 0 && messages[|messages| - 1].role == User
    ensures p.Some? ==> p.value == messages[|messages| - 1].content
  {
    if |messages| > 0 && messages[|messages| - 1].role == User
    then Some(messages[|messages| - 1].content)
    else None
  }

  /** Exactly two messages: the system text first, then the prompt as the user's. */
  predicate SystemThenUser(messages: seq<Message>, system: string, prompt: string) {
    |messages| == 2 && messages[0] == Message(System, system) && messages[1] == Message(User, prompt)
  }

  /** The messages of the chat-style providers: a system message, then the prompt. */
  function ChatMessages(system: string, prompt: string): (m: seq<Message>)
    ensures SystemThenUser(m, system, prompt)
    ensures UserPrompt(m) == Some(prompt)
  {
    [Message(System, system), Message(User, prompt)]
  }

  /** `get_test_cases` (plain text from Gemini with the Markdown system instruction). */
  function GoogleDefaultRequest(modelName: string, prompt: string): (r: Gemini.Request)
    ensures r.systemInstruction == Some(MarkdownSystemPrompt) && !r.jsonResponse && !r.blockOnlyHighDanger
    ensures r.model == modelName && r.prompt == prompt
  {
    Gemini.Request(modelName, Some(MarkdownSystemPrompt), false, false, prompt)
  }

  /** `get_test_cases_google` (plain text from Gemini with the Gherkin system instruction). */
  function GoogleRequest(modelName: string, prompt: string): (r: Gemini.Request)
    ensures r.systemInstruction == Some(GherkinSystemPrompt) && !r.jsonResponse && !r.blockOnlyHighDanger
    ensures r.model == modelName && r.prompt == prompt
  {
    Gemini.Request(modelName, Some(GherkinSystemPrompt), false, false, prompt)
  }

  /**
   * `get_test_cases_azure` and `get_test_cases_mistral` send the same chat
   * request: the model (Azure's deployment name) and a system message, then
   * the prompt.
   */
  function ChatCompletionRequest(modelName: string, prompt: string): (r: ChatRequest)
    ensures r.model == modelName && SystemThenUser(r.messages, GherkinSystemPrompt, prompt)
    ensures UserPrompt(r.messages) == Some(prompt)
  {
    ChatRequest(modelName, ChatMessages(GherkinSystemPrompt, prompt))
  }

  /** `get_test_cases_ollama`: posted to the local daemon, never streamed, system message then prompt. */
  function OllamaChatRequest(modelName: string, prompt: string): (r: OllamaRequest)
    ensures r.url == "http://localhost:11434/api/chat" && !r.stream
    ensures r.model == modelName && SystemThenUser(r.messages, GherkinSystemPrompt, prompt)
    ensures UserPrompt(r.messages) == Some(prompt)
  {
    OllamaRequest(OllamaUrl, modelName, false, ChatMessages(GherkinSystemPrompt, prompt))
  }

  /**
   * `get_test_cases_anthropic`: at most 4096 tokens, the system text in its
   * own field, and the prompt as the one and only message, the user's.
   */
  function AnthropicMessagesRequest(modelName: string, prompt: string): (r: AnthropicRequest)
    ensures r.model == modelName && r.maxTokens == 4096 && r.system == GherkinSystemPrompt
    ensures r.messages == [Message(User, prompt)] && UserPrompt(r.messages) == Some(prompt)
    ensures forall m :: m in r.messages ==> m.role != System
  {
    AnthropicRequest(modelName, AnthropicMaxTokens, GherkinSystemPrompt, [Message(User, prompt)])
  }

  // ---------------------------------------------------------------------
  // Replies
  // ---------------------------------------------------------------------

  /** A chat completion (Azure OpenAI, Mistral): `choices[i].message.content`. */
  datatype Choice = Choice(content: string)
  datatype ChatCompletion = ChatCompletion(choices: seq<Choice>)

  /** An Anthropic reply: content blocks, of which only text blocks have a `text`. */
  datatype ContentBlock = TextBlock(text: string) | ToolUseBlock(name: string)
  datatype AnthropicResponse = AnthropicResponse(content: seq<ContentBlock>)

  /** `response.choices[0].message.content`: `None` where Python raises `IndexError`. */
  function ChoiceText(r: ChatCompletion): (t: Option<string>)
    ensures t.Some? <==> |r.choices| > 0
    ensures t.Some? ==> t.value == r.choices[0].content
  {
    if |r.choices| > 0 then Some(r.choices[0].content) else None
  }

  /**
   * `response.content[0].text`: `None` where Python raises `IndexError` (no
   * block) or `AttributeError` (the first block is not a text block).
   */
  function AnthropicText(r: AnthropicResponse): (t: Option<string>)
    ensures t.Some? <==> |r.content| > 0 && r.content[0].TextBlock?
    ensures t.Some? ==> t.value == r.content[0].text
  {
    if |r.content| > 0 && r.content[0].TextBlock? then Some(r.content[0].text) else None
  }

  /**
   * `outer_json["message"]["content"]`: `None` where Python raises (the body
   * is not an object, has no `message`, or its `message` has no `content`).
   * The content is returned as whatever JSON value it is.
   */
  function OllamaContent(body: Json.Value): (c: Option<Json.Value>)
    ensures c.Some? <==>
      body.Object? && "message" in body.fields &&
      body.fields["message"].Object? && "content" in body.fields["message"].fields
    ensures c.Some? ==> c.value == body.fields["message"].fields["content"]
  {
    match Json.Index(body, "message")
    case None => None
    case Some(message) => Json.Index(message, "content")
  }

  /** Turns a missing text into the exception the caller sees. */
  function Raise<T>(t: Option<T>): (r: Outcome<T>)
    ensures r.Raised? <==> t.None?
    ensures r.Returned? ==> t == Some(r.value)
  {
    match t
    case None => Raised
    case Some(v) => Returned(v)
  }

  /**
   * `get_test_cases` and `get_test_cases_google`: the text at the fixed
   * Gemini path; unlike the guidance call, a missing text is not caught and
   * raises out of the function.
   */
  function GetTestCasesGemini(reply: Outcome<Gemini.Response>): (r: Outcome<string>)
    ensures r.Raised? <==> reply.Raised? || Gemini.Text(reply.value).None?
    ensures r.Returned? ==> Gemini.Text(reply.value) == Some(r.value)
  {
    match reply
    case Raised => Raised
    case Returned(response) => Raise(Gemini.Text(response))
  }

  /** `get_test_cases_azure` and `get_test_cases_mistral`: the first choice's message content. */
  function GetTestCasesChat(reply: Outcome<ChatCompletion>): (r: Outcome<string>)
    ensures r.Raised? <==> reply.Raised? || |reply.value.choices| == 0
    ensures r.Returned? ==> r.value == reply.value.choices[0].content
  {
    match reply
    case Raised => Raised
    case Returned(response) => Raise(ChoiceText(response))
  }

  /** `get_test_cases_anthropic`: the text of the first content block. */
  function GetTestCasesAnthropic(reply: Outcome<AnthropicResponse>): (r: Outcome<string>)
    ensures r.Raised? <==> reply.Raised? || |reply.value.content| == 0 || !reply.value.content[0].TextBlock?
    ensures r.Returned? ==> r.value == reply.value.content[0].text
  {
    match reply
    case Raised => Raised
    case Returned(response) => Raise(AnthropicText(response))
  }

  /**
   * `get_test_cases_ollama` once the daemon has answered with a body: a body
   * that is not JSON (`response.json()` raises) or lacks the path raises;
   * otherwise the content at `message.content` is returned.
   */
  function GetTestCasesOllama(reply: Outcome<string>, parse: Json.Parser): (r: Outcome<Json.Value>)
    ensures r.Raised? <==> reply.Raised? || parse(reply.value).None? || OllamaContent(parse(reply.value).value).None?
    ensures r.Returned? ==> OllamaContent(parse(reply.value).value) == Some(r.value)
  {
    match reply
    case Raised => Raised
    case Returned(body) =>
      match parse(body)
      case None => Raised
      case Some(outer) => Raise(OllamaContent(outer))
  }

  /**
   * Each extractor gives back the text of the plainest reply built around
   * it, and ignores every candidate, choice or block after the first.
   */
  lemma ExtractorsReadFirst(text: string, choices: seq<Choice>, blocks: seq<ContentBlock>)
    ensures GetTestCasesGemini(Returned(Gemini.Reply(text))) == Returned(text)
    ensures GetTestCasesChat(Returned(ChatCompletion([Choice(text)] + choices))) == Returned(text)
    ensures GetTestCasesAnthropic(Returned(AnthropicResponse([TextBlock(text)] + blocks))) == Returned(text)
    ensures OllamaContent(Json.Object(map["message" := Json.Object(map["content" := Json.Str(text)])]))
            == Some(Json.Str(text))
  {
    Gemini.TextReadsOnlyFirst(text, [], []);
  }
}
