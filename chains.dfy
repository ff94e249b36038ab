/** The two calls to the language model: extracting job postings from page text, and
    composing the evaluation and cover letter for one posting. The model itself is a foreign,
    sampling service; here it is an oracle that answers the k-th call, and every call it
    receives is recorded in `calls`. Prompt wording is not modelled: a prompt records only
    what is filled into the template. */
module Chains {
  import opened Outcomes
  import opened JsonValues
  import Chroma

  /** What is filled into each prompt template. */
  datatype Prompt =
    | ExtractPrompt(pageData: string)
    | MailPrompt(jobDescription: Json, linkList: seq<seq<Chroma.Metadata>>)

  /** The content of the model's answer, or a failure of the call itself. */
  datatype Reply = Content(text: string) | TransportError(message: string)

  /** The model: `sample(k, p)` is its reply when the k-th call (from 0) carries prompt `p`. */
  datatype Llm = Llm(sample: (nat, Prompt) -> Reply, calls: seq<Prompt>)

  /** `JsonOutputParser.parse`: the JSON value in a reply, or `None` when it has none. */
  type Parser = string -> Option<Json>

  const ParseFailureMessage := "Context too big. Unable to parse jobs."

  /** `chain.invoke(...)`: one call to the model. */
  function Invoke(llm: Llm, prompt: Prompt): (r: (Reply, Llm))
    ensures r.1.sample == llm.sample && r.1.calls == llm.calls + [prompt]
  {
    (llm.sample(|llm.calls|, prompt), llm.(calls := llm.calls + [prompt]))
  }

  /** `res if isinstance(res, list) else [res]` */
  function AsJobList(parsed: Json): (jobs: seq<Json>)
    ensures parsed.JArray? ==> jobs == parsed.items
    ensures !parsed.JArray? ==> jobs == [parsed]
  {
    if parsed.JArray? then parsed.items else [parsed]
  }

  /** A list passes through unchanged, whatever its items; any other value becomes the one
      element of a new list. So the result is empty only for an empty list. */
  lemma AsJobListShape(parsed: Json)
    ensures parsed.JArray? ==> AsJobList(parsed) == parsed.items
    ensures !parsed.JArray? ==> AsJobList(parsed) == [parsed]
    ensures AsJobList(parsed) == [] <==> parsed == JArray([])
  {
  }

  /** `Chain.extract_jobs(cleaned_text)` */
  function ExtractJobs(llm: Llm, parse: Parser, cleanedText: string): (r: (Result<seq<Json>>, Llm))
    ensures r.1.sample == llm.sample && r.1.calls == llm.calls + [ExtractPrompt(cleanedText)]
    ensures var reply := llm.sample(|llm.calls|, ExtractPrompt(cleanedText));
            && (reply.TransportError? ==> r.0 == Raised(ModelFailure(reply.message)))
            && (reply.Content? && parse(reply.text).None? ==>
                  r.0 == Raised(OutputParserException(ParseFailureMessage)))
            && (reply.Content? && parse(reply.text).Some? ==>
                  r.0 == Ok(AsJobList(parse(reply.text).value)))
  {
    var (reply, llm') := Invoke(llm, ExtractPrompt(cleanedText));
    match reply
    case TransportError(message) => (Raised(ModelFailure(message)), llm')
    case Content(text) =>
      match parse(text)
      case None => (Raised(OutputParserException(ParseFailureMessage)), llm')
      case Some(v) => (Ok(AsJobList(v)), llm')
  }

  /** Fail-closed: jobs come back exactly when the reply parses, and then they are all the
      parsed jobs; a reply that does not parse yields the one fixed exception and no jobs. */
  lemma ExtractJobsFailClosed(llm: Llm, parse: Parser, cleanedText: string)
    ensures var reply := llm.sample(|llm.calls|, ExtractPrompt(cleanedText));
            var r := ExtractJobs(llm, parse, cleanedText).0;
            && (r.Ok? <==> reply.Content? && parse(reply.text).Some?)
            && (r.Ok? ==> forall j :: j in r.value <==>
                  (if parse(reply.text).value.JArray? then j in parse(reply.text).value.items
                   else j == parse(reply.text).value))
            && (r.Raised? && reply.Content? ==> r.error == OutputParserException(ParseFailureMessage))
  {
  }

  /** The items are not checked against the job schema: a list of values that are not even
      objects comes back as it is. */
  lemma ExtractJobsKeepsUncheckedItems(llm: Llm, parse: Parser, cleanedText: string, items: seq<Json>)
    requires llm.sample(|llm.calls|, ExtractPrompt(cleanedText)).Content?
    requires parse(llm.sample(|llm.calls|, ExtractPrompt(cleanedText)).text) == Some(JArray(items))
    ensures ExtractJobs(llm, parse, cleanedText).0 == Ok(items)
  {
  }

  /** `Chain.write_mail(job, links)`: the reply's content, with no check of its sections. */
  function WriteMail(llm: Llm, job: Json, links: seq<seq<Chroma.Metadata>>): (r: (Result<string>, Llm))
    ensures r.1.sample == llm.sample && r.1.calls == llm.calls + [MailPrompt(job, links)]
    ensures var reply := llm.sample(|llm.calls|, MailPrompt(job, links));
            && (reply.Content? ==> r.0 == Ok(reply.text))
            && (reply.TransportError? ==> r.0 == Raised(ModelFailure(reply.message)))
  {
    var (reply, llm') := Invoke(llm, MailPrompt(job, links));
    match reply
    case TransportError(message) => (Raised(ModelFailure(message)), llm')
    case Content(text) => (Ok(text), llm')
  }
}
