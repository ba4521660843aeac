/**
 * `send` of src/pings.rs: POST a two-field JSON object to a webhook and
 * return the response text. The HTTP client is a parameter.
 */
module Pings {
  import opened Wrappers

  /** One POST: the endpoint and the JSON object it carries. */
  datatype Post = Post(endpoint: string, json: map<string, string>)

  /** The HTTP client: the response text of one POST, or the failure. */
  type Transport = Post -> Result<string, string>

  /** The JSON object: the monitored page under "url", the free text under "message". */
  function Payload(message: string, url: string): (json: map<string, string>)
    ensures json.Keys == {"url", "message"} && |json| == 2
    ensures json["url"] == url && json["message"] == message
  {
    map["url" := url, "message" := message]
  }

  /** Distinct (message, page) pairs give distinct payloads: the receiver can read both back. */
  lemma PayloadInjective(m1: string, u1: string, m2: string, u2: string)
    ensures Payload(m1, u1) == Payload(m2, u2) <==> m1 == m2 && u1 == u2
  {
    if Payload(m1, u1) == Payload(m2, u2) {
      assert Payload(m1, u1)["url"] == Payload(m2, u2)["url"];
      assert Payload(m1, u1)["message"] == Payload(m2, u2)["message"];
    }
  }

  /** The request `send` makes: to the webhook, about the page. */
  function Request(pingUrl: string, message: string, url: string): (p: Post)
    ensures p.endpoint == pingUrl
    ensures p.json.Keys == {"url", "message"}
    ensures p.json["url"] == url && p.json["message"] == message
  {
    Post(pingUrl, Payload(message, url))
  }

  /** `send`: one POST; its response text or its failure is the result. */
  function Send(transport: Transport, pingUrl: string, message: string, url: string): (r: Result<string, string>)
    ensures r == transport(Post(pingUrl, map["url" := url, "message" := message]))
  {
    transport(Request(pingUrl, message, url))
  }
}
