/**
 * The values every source adapter produces: a project id as the marketplace gives it,
 * the budget triple, the payload that is published, and the bus record around it.
 */
module Posting {
  import opened Wrappers
  import opened Text

  /** A project id as a listing carries it: a JSON number, a string, or missing (`None`). */
  datatype Id = NoId | IntId(n: int) | StrId(s: string)

  /** Python truthiness of an id, the test behind `if not project_id: continue`. */
  predicate IdPresent(id: Id) {
    match id
    case NoId => false
    case IntId(n) => n != 0
    case StrId(s) => s != ""
  }

  /** The id as an f-string prints it. */
  function IdText(id: Id): string {
    match id
    case NoId => "None"
    case IntId(n) => IntToString(n)
    case StrId(s) => s
  }

  /** `{"minimum": ..., "maximum": ..., "currency": ...}`; `None` is JSON `null`. Amounts are exact. */
  datatype Budget = Budget(minimum: Option<real>, maximum: Option<real>, currency: Option<string>)

  /** The event payload `{id, title, description, url, budget}` every adapter publishes. */
  datatype Payload = Payload(id: Id, title: Option<string>, description: Option<string>, url: string, budget: Budget)

  /** One message on the bus: the channel it was published to and what was published. */
  datatype Record = Record(channel: string, payload: Payload)

  const FlChannel := "fl_projects"
  const KworkChannel := "kwork_projects"
  const FreelancerChannel := "freelancer_projects"

  /** The rouble sign `₽`. */
  const Rouble := "\U{20bd}"

  /** The deduplication key `"{source}:{id}"`. */
  function DedupKey(source: string, id: Id): string {
    source + ":" + IdText(id)
  }
}
