/**
 * The values of the Replicate API client library that the command-line client
 * reads: prediction statuses, predictions and server-sent stream events.
 */
module Replicate {
  import opened Json

  /** A prediction status is a string; these are the five the API defines. */
  const Starting: string := "starting"
  const Processing: string := "processing"
  const Succeeded: string := "succeeded"
  const Failed: string := "failed"
  const Canceled: string := "canceled"

  /** `Status.Terminated`: the statuses after which a prediction no longer changes. */
  predicate Terminated(status: string)
  {
    status == Succeeded || status == Failed || status == Canceled
  }

  /**
   * The fields of a prediction the client reads. `output` is the decoded JSON output,
   * `Null` when there is none; `urls` holds the links the server returned.
   */
  datatype Prediction = Prediction(id: string, status: string, output: Json, urls: map<string, string>)

  /** `prediction.URLs["stream"] != ""`: the server offered a stream for the prediction. */
  predicate HasStream(p: Prediction)
  {
    "stream" in p.urls && p.urls["stream"] != ""
  }

  /** The type of a server-sent event. */
  datatype EventType = OutputEvent | LogsEvent | DoneEvent | OtherEvent(name: string)

  datatype Event = Event(typ: EventType, data: string)
}
