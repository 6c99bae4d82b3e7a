/**
 * The language-model service is outside the model: a call either throws or
 * answers with the first choice's message content, which may be null.
 */
module OpenAi {
  import opened Common

  datatype ChatMessage = ChatMessage(role: string, content: string)

  /** The default system prompt of the career assistant. */
  const CAREER_ASSISTANT_PROMPT := "You are a helpful career assistant that provides advice on resumes, job applications, interviews, and career development."

  /** What the user is shown in place of an answer when a request fails. */
  const APOLOGY := "I apologize, but I encountered an error processing your request. Please try again later."

  /** `Err(message)`: the call threw; `Ok(None)`: the content was null. */
  type Completion = Result<Option<string>>

  /** `response.choices[0].message.content || ""` */
  function ContentOrEmpty(content: Option<string>): (text: string)
    ensures content.Some? ==> text == content.value
    ensures content.None? ==> text == ""
  {
    if content.Some? then content.value else ""
  }
}
