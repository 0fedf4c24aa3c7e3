/**
 * The Google generative-AI client as its four callers use it: the request a
 * `GenerativeModel` is built with, and the response envelope whose text sits
 * at `candidates[0].content.parts[0].text`.
 */
module Gemini {
  import opened Common

  /** A `GenerativeModel(...).generate_content(prompt)` call. */
  datatype Request = Request(
    model: string,
    systemInstruction: Option<string>,
    /** `generation_config={"response_mime_type": "application/json"}` was given */
    jsonResponse: bool,
    /** `safety_settings={'DANGEROUS': 'block_only_high'}` was given */
    blockOnlyHighDanger: bool,
    prompt: string)

  /** One content part; `text` is `None` when the part carries no text attribute. */
  datatype Part = Part(text: Option<string>)
  datatype Content = Content(parts: seq<Part>)
  /** One candidate; `content` is `None` when the candidate carries no content. */
  datatype Candidate = Candidate(content: Option<Content>)
  datatype Response = Response(candidates: seq<Candidate>)

  /**
   * `response.candidates[0].content.parts[0].text`: `None` where Python raises
   * `IndexError` (no candidate, no part) or `AttributeError` (no content, no
   * text).
   */
  function Text(r: Response): (t: Option<string>)
    ensures t.Some? <==>
      |r.candidates| > 0 && r.candidates[0].content.Some? &&
      |r.candidates[0].content.value.parts| > 0 &&
      r.candidates[0].content.value.parts[0].text.Some?
    ensures t.Some? ==> Some(t.value) == r.candidates[0].content.value.parts[0].text
  {
    if |r.candidates| == 0 then None
    else match r.candidates[0].content
      case None => None
      case Some(c) => if |c.parts| == 0 then None else c.parts[0].text
  }

  /** The plainest response carrying `text`: one candidate with one part. */
  function Reply(text: string): Response {
    Response([Candidate(Some(Content([Part(Some(text))])))])
  }

  /**
   * The extractor reads only the first candidate and its first part: whatever
   * follows them does not change the text, and the text of the plainest
   * reply is read back unchanged.
   */
  lemma TextReadsOnlyFirst(text: string, c: seq<Candidate>, p: seq<Part>)
    ensures Text(Reply(text)) == Some(text)
    ensures Text(Response([Candidate(Some(Content([Part(Some(text))] + p)))] + c)) == Some(text)
  {
  }
}
