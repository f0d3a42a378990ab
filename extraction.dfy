/** The pure part of `process_with_llm`: what HTML is sent and which answer is kept. */
module Extraction {
  import opened Outcomes
  import opened Schema
  import opened Foreign

  /** The largest number of characters sent to the LLM when truncation is asked for. */
  const MaxHtmlChars: nat := 150000

  function Min(a: nat, b: nat): (m: nat) { if a <= b then a else b }

  /**
   * The HTML sent as the user message: with `truncate` the first MaxHtmlChars characters
   * (Python's `html[:150000]`, which keeps a shorter string whole), otherwise all of it.
   */
  function Payload(html: string, truncate: bool): (sent: string)
    ensures sent <= html
    ensures |sent| == if truncate then Min(|html|, MaxHtmlChars) else |html|
  {
    if truncate && |html| > MaxHtmlChars then html[..MaxHtmlChars] else html
  }

  /** The completion has a `choices` list with at least one entry. */
  predicate HasChoice(c: Completion) {
    c.choices.Some? && |c.choices.value| > 0
  }

  /**
   * The value `process_with_llm` returns for a completion: the parsed message of the first
   * choice when there is one, and the empty course list otherwise.
   */
  function Select(c: Completion): (r: Option<CourseList>)
    ensures HasChoice(c) ==> r == c.choices.value[0].parsed
    ensures !HasChoice(c) ==> r == Some(NoCourses)
  {
    match c.choices
    case Some(choices) => if |choices| > 0 then choices[0].parsed else Some(NoCourses)
    case None => Some(NoCourses)
  }
}
