/**
 * The analyze-image proxy (supabase/functions/analyze-image/index.ts): it
 * checks the request, forwards the image as a data URL to the AI gateway,
 * maps the gateway's outcome to an HTTP status and body, and pulls the
 * JSON object out of the model's text answer.
 *
 * The network call and `JSON.parse` are parameters: `gateway` answers the
 * one outbound call, and `parse` is the JSON parser, a partial function that
 * yields a value of an arbitrary type `J` which the proxy never inspects.
 */
module AnalyzeImage {
  import opened Wrappers
  import opened Strings

  /** The JSON body of an incoming request; an absent field is `None`. */
  datatype RequestBody = RequestBody(image: Option<string>, mimeType: Option<string>)

  /** An incoming request; `body` fails with the parser's message when it is not JSON. */
  datatype Request = Request(httpMethod: string, body: Result<RequestBody, string>)

  /** The call made to the AI gateway: the bearer key and the image as a data URL. */
  datatype GatewayCall = GatewayCall(apiKey: string, imageUrl: string)

  /** What the gateway's answer body holds: the first choice's message content, if any. */
  datatype Completion = Completion(content: Option<string>)

  /**
   * The outcome of the gateway call: the request never completed, or it
   * completed with a status and a body that is (or is not) JSON. A body that
   * cannot be read as a completion, such as the JSON value `null`, is a
   * `Failure` carrying the error's message.
   */
  datatype GatewayReply =
    | Unreachable(message: string)
    | Replied(status: nat, body: Result<Completion, string>)

  /** Every response carries the CORS headers; all but the preflight answer also declare JSON. */
  datatype Headers = Cors | CorsJson

  datatype Body<J> = NoBody | ErrorBody(error: string) | JsonBody(value: J)

  datatype Response<J> = Response(status: nat, body: Body<J>, headers: Headers)

  const NoImageMessage := "No image provided"
  const MissingKeyMessage := "LOVABLE_API_KEY is not configured"
  const BusyMessage := "AI service is busy. Please try again in a moment."
  const LimitMessage := "AI usage limit reached. Please try again later."
  const NoContentMessage := "No content in AI response"
  const ParseFailedMessage := "Failed to parse diagnosis result"
  const DefaultMimeType := "image/jpeg"

  /** JavaScript truthiness of an optional string: present and non-empty. */
  predicate Truthy(s: Option<string>)
  {
    s.Some? && s.value != ""
  }

  /** `response.ok`: a 2xx status. */
  predicate IsOk(status: nat)
  {
    200 <= status <= 299
  }

  /** The outer `catch`: status 500 with the error's message. */
  function ServerError<J>(message: string): Response<J>
  {
    Response(500, ErrorBody(message), CorsJson)
  }

  /**
   * The data URL sent to the gateway: "data:", the MIME type (or
   * "image/jpeg" when none is given), ";base64,", then the payload.
   */
  function DataUrl(mimeType: Option<string>, image: string): (r: string)
    ensures StartsWith(r, "data:")
    ensures Truthy(mimeType) ==> r == "data:" + mimeType.value + ";base64," + image
    ensures !Truthy(mimeType) ==> r == "data:image/jpeg;base64," + image
    ensures r[|r| - |image|..] == image
  {
    var mime := if Truthy(mimeType) then mimeType.value else DefaultMimeType;
    var r := "data:" + mime + ";base64," + image;
    assert r[..5] == "data:";
    r
  }

  /** Index of the first `c` in `s`, if any. */
  function FirstIndex(s: string, c: char): (r: Option<nat>)
    ensures r.None? <==> c !in s
    ensures r.Some? ==> r.value < |s| && s[r.value] == c && c !in s[..r.value]
  {
    if |s| == 0 then None
    else if s[0] == c then Some(0)
    else
      var k := FirstIndex(s[1..], c);
      if k.None? then None
      else
        assert s[..k.value + 1] == [s[0]] + s[1..][..k.value];
        Some(k.value + 1)
  }

  /** Index of the last `c` in `s`, if any. */
  function LastIndex(s: string, c: char): (r: Option<nat>)
    ensures r.None? <==> c !in s
    ensures r.Some? ==> r.value < |s| && s[r.value] == c && c !in s[r.value + 1..]
  {
    if |s| == 0 then None
    else if s[|s| - 1] == c then Some(|s| - 1)
    else
      var k := LastIndex(s[..|s| - 1], c);
      if k.None? then None
      else
        assert s[k.value + 1..] == s[..|s| - 1][k.value + 1..] + [s[|s| - 1]];
        Some(k.value)
  }

  /** Some `{` comes before some `}` in `s`. */
  predicate HasBracePair(s: string)
  {
    exists i, j | 0 <= i < j < |s| :: s[i] == '{' && s[j] == '}'
  }

  /**
   * `content.match(/\{[\s\S]*\}/)`: the leftmost, longest match runs from the
   * first `{` to the last `}` after it. There is a match exactly when some
   * `{` precedes some `}`; the match starts with `{`, ends with `}`, has no
   * `{` before it and no `}` after it.
   */
  function BraceMatch(content: string): (r: Option<string>)
    ensures r.Some? <==> HasBracePair(content)
    ensures r.Some? ==> exists i, j | 0 <= i < j < |content| ::
      && r.value == content[i..j + 1]
      && content[i] == '{' && content[j] == '}'
      && '{' !in content[..i] && '}' !in content[j + 1..]
  {
    var first := FirstIndex(content, '{');
    var last := LastIndex(content, '}');
    if first.Some? && last.Some? && first.value < last.value then
      Some(content[first.value..last.value + 1])
    else
      None
  }

  /** The text handed to `JSON.parse`: the brace match when there is one, else the whole content. */
  function JsonCandidate(content: string): (r: string)
    ensures !HasBracePair(content) ==> r == content
    ensures HasBracePair(content) ==> |r| >= 2 && r[0] == '{' && r[|r| - 1] == '}' && Contains(content, r)
    ensures HasBracePair(content) ==> BraceMatch(content) == Some(r)
  {
    match BraceMatch(content)
    case Some(m) =>
      var i, j :| 0 <= i < j < |content| && m == content[i..j + 1]
        && content[i] == '{' && content[j] == '}';
      assert OccursAt(content, m, i);
      m
    case None => content
  }

  /**
   * A JSON object wrapped in prose or a code fence, where the text before it
   * has no `{` and the text after it has no `}`, is recovered exactly.
   */
  lemma {:induction false} CandidateUnwrapsObject(prefix: string, obj: string, suffix: string)
    requires |obj| >= 2 && obj[0] == '{' && obj[|obj| - 1] == '}'
    requires '{' !in prefix && '}' !in suffix
    ensures JsonCandidate(prefix + obj + suffix) == obj
  {
    var content := prefix + obj + suffix;
    var i, j := |prefix|, |prefix| + |obj| - 1;
    assert content[i] == '{' && content[j] == '}';
    assert HasBracePair(content);
    var m := BraceMatch(content).value;
    var i', j' :| 0 <= i' < j' < |content| && m == content[i'..j' + 1]
      && content[i'] == '{' && content[j'] == '}'
      && '{' !in content[..i'] && '}' !in content[j' + 1..];
    assert content[i..j + 1] == obj;
  }

  /**
   * The handler: the preflight answer, the request checks, the gateway
   * call, the status mapping and the answer extraction, in the source's order
   * and with its early returns. `call` is the gateway call made, if any.
   */
  method Serve<J>(req: Request, apiKey: Option<string>,
                  gateway: GatewayCall -> GatewayReply, parse: string -> Option<J>)
    returns (resp: Response<J>, call: Option<GatewayCall>)
    // Preflight: empty body, CORS headers, status 200, no gateway call.
    ensures req.httpMethod == "OPTIONS" ==> resp == Response(200, NoBody, Cors) && call.None?
    // A body that is not JSON: 500 with the parser's message.
    ensures req.httpMethod != "OPTIONS" && req.body.Failure? ==>
      resp == ServerError(req.body.error) && call.None?
    // No image: 400, before the key is checked or the gateway is called.
    ensures req.httpMethod != "OPTIONS" && req.body.Success? && !Truthy(req.body.value.image) ==>
      resp == Response(400, ErrorBody(NoImageMessage), CorsJson) && call.None?
    // No API key: 500 with the configuration message, no gateway call.
    ensures req.httpMethod != "OPTIONS" && req.body.Success? && Truthy(req.body.value.image) && !Truthy(apiKey) ==>
      resp == ServerError(MissingKeyMessage) && call.None?
    // Otherwise exactly one call, carrying the key and the image's data URL.
    ensures call.Some? <==>
      req.httpMethod != "OPTIONS" && req.body.Success? && Truthy(req.body.value.image) && Truthy(apiKey)
    ensures call.Some? ==>
      call.value == GatewayCall(apiKey.value, DataUrl(req.body.value.mimeType, req.body.value.image.value))
    // The gateway's status taxonomy: 429 and 402 pass through with fixed messages, any other non-2xx is a 500.
    ensures call.Some? && gateway(call.value).Replied? && gateway(call.value).status == 429 ==>
      resp == Response(429, ErrorBody(BusyMessage), CorsJson)
    ensures call.Some? && gateway(call.value).Replied? && gateway(call.value).status == 402 ==>
      resp == Response(402, ErrorBody(LimitMessage), CorsJson)
    ensures call.Some? && gateway(call.value).Replied? && !IsOk(gateway(call.value).status)
            && gateway(call.value).status !in {402, 429} ==>
      resp == ServerError("AI gateway returned " + DecimalString(gateway(call.value).status))
    ensures call.Some? && gateway(call.value).Unreachable? ==> resp == ServerError(gateway(call.value).message)
    // A 2xx answer whose body is not JSON: 500 with the parser's message.
    ensures call.Some? && gateway(call.value).Replied? && IsOk(gateway(call.value).status)
            && gateway(call.value).body.Failure? ==>
      resp == ServerError(gateway(call.value).body.error)
    // A 2xx answer: no content is a 500, a candidate that does not parse is a 500, never a 200.
    ensures call.Some? && gateway(call.value).Replied? && IsOk(gateway(call.value).status)
            && gateway(call.value).body.Success? ==>
      var content := gateway(call.value).body.value.content;
      && (!Truthy(content) ==> resp == ServerError(NoContentMessage))
      && (Truthy(content) && parse(JsonCandidate(content.value)).None? ==> resp == ServerError(ParseFailedMessage))
      && (Truthy(content) && parse(JsonCandidate(content.value)).Some? ==>
            resp == Response(200, JsonBody(parse(JsonCandidate(content.value)).value), CorsJson))
    // Success is only ever the parsed value, unchanged, with status 200.
    ensures resp.status == 200 && resp.body != NoBody ==>
      && call.Some? && gateway(call.value).Replied? && IsOk(gateway(call.value).status)
      && gateway(call.value).body.Success?
      && Truthy(gateway(call.value).body.value.content)
      && resp.body == JsonBody(parse(JsonCandidate(gateway(call.value).body.value.content.value)).value)
    ensures resp.status in {200, 400, 402, 429, 500}
  {
    call := None;
    if req.httpMethod == "OPTIONS" {
      resp := Response(200, NoBody, Cors);
      return;
    }
    if req.body.Failure? {
      resp := ServerError(req.body.error);
      return;
    }
    var image, mimeType := req.body.value.image, req.body.value.mimeType;
    if !Truthy(image) {
      resp := Response(400, ErrorBody(NoImageMessage), CorsJson);
      return;
    }
    if !Truthy(apiKey) {
      resp := ServerError(MissingKeyMessage);
      return;
    }
    var outbound := GatewayCall(apiKey.value, DataUrl(mimeType, image.value));
    call := Some(outbound);
    var reply := gateway(outbound);
    if reply.Unreachable? {
      resp := ServerError(reply.message);
      return;
    }
    if !IsOk(reply.status) {
      if reply.status == 429 {
        resp := Response(429, ErrorBody(BusyMessage), CorsJson);
        return;
      }
      if reply.status == 402 {
        resp := Response(402, ErrorBody(LimitMessage), CorsJson);
        return;
      }
      resp := ServerError("AI gateway returned " + DecimalString(reply.status));
      return;
    }
    if reply.body.Failure? {
      resp := ServerError(reply.body.error);
      return;
    }
    var content := reply.body.value.content;
    if !Truthy(content) {
      resp := ServerError(NoContentMessage);
      return;
    }
    var parsed := parse(JsonCandidate(content.value));
    if parsed.None? {
      resp := ServerError(ParseFailedMessage);
      return;
    }
    resp := Response(200, JsonBody(parsed.value), CorsJson);
  }
}
