/** The API route of pages/api/emotion.ts. The writes to `res` are its only
    output, so the handler is a function from the request to what it writes. */
module EmotionRoute {
  import opened Common

  /** The request: its method, `verb` (as the framework passes it) and its body. */
  datatype Request = Request(verb: string, body: string)

  /** What the handler writes: a JSON object `{ message }` via `res.json`, or a
      plain text via `res.end`. */
  datatype RouteBody = JsonMessage(message: string) | Text(text: string)

  /** Status, the headers the handler sets itself, and the body. */
  datatype Response = Response(status: nat, headers: map<string, seq<string>>, body: RouteBody)

  const WorkingMessage: string := "Emotion route is working!"

  /** `handler(req, res)`: POST is answered with 200, anything else with 405. */
  function Handler(req: Request): (res: Response)
    ensures res.status == 200 <==> req.verb == "POST"
    ensures res.status == 405 <==> req.verb != "POST"
    ensures req.verb == "POST" ==> res.headers == map[] && res.body == JsonMessage(WorkingMessage)
    ensures req.verb != "POST" ==>
      res.headers == map["Allow" := ["POST"]] && res.body.Text? &&
      Between(res.body.text, "Method ", " Not Allowed") == Some(req.verb)
  {
    if req.verb == "POST" then
      Response(200, map[], JsonMessage(WorkingMessage))
    else
      BetweenRoundTrip("Method ", req.verb, " Not Allowed");
      Response(405, map["Allow" := ["POST"]], Text("Method " + req.verb + " Not Allowed"))
  }

  /** The request body is never read. */
  lemma BodyIgnored(verb: string, b1: string, b2: string)
    ensures Handler(Request(verb, b1)) == Handler(Request(verb, b2))
  {
  }

  /** Two different refused methods get different answers. */
  lemma RefusalsDistinguishMethods(m1: string, m2: string)
    requires m1 != "POST" && m2 != "POST" && m1 != m2
    ensures Handler(Request(m1, "")) != Handler(Request(m2, ""))
  {
  }
}
