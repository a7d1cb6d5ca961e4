/** The product-analysis route in its two versions
    (src/app/api/ai/analyze-product/route.ts, the original, and
    src/app/api/ai/analyze-product/route.js, the revision): the key check,
    the required-field check by JavaScript truthiness, the counters shown to
    the model, and the JSON span cut out of the model's reply. The model's
    reply and `JSON.parse` are inputs. */
module AnalyzeProduct {
  import opened Seqs
  import opened Js

  const MissingKeyError := "Server configuration error: Missing API Key."
  const MissingFieldsError := "Product name, description, and price are required."
  const OriginalFailure := "Failed to generate AI analysis."
  const RevisedFailurePrefix := "Failed to generate AI analysis: "
  const UnknownError := "An unknown error occurred."

  datatype Version = Original | Revised

  /** The message of the error thrown when no JSON span is found. */
  function InvalidFormatMessage(v: Version): string {
    match v
    case Original => "AI returned an invalid format. Please try again."
    case Revised => "AI returned an invalid format."
  }

  /** The request body's fields; an absent one is `Undefined`. */
  datatype Body = Body(name: JsValue, description: JsValue, price: JsValue, views: JsValue, sales: JsValue)

  /** A thrown value: an `Error` with its message, or anything else. */
  datatype Thrown = ErrorObject(message: string) | OtherValue

  /** The model call: the reply text, or what it threw. */
  datatype ModelReply = ReplyText(text: string) | ModelThrew(thrown: Thrown)

  /** `JSON.parse`: the value, or the `SyntaxError` message. */
  datatype Parsed = ParsedValue(value: JsValue) | SyntaxError(message: string)

  /** The route's answer: the parsed analysis, or an error with a status. */
  datatype Answer = Analysis(value: JsValue) | ErrorAnswer(status: int, error: string)

  /** The name, description and price are all truthy. */
  predicate HasRequiredFields(b: Body) {
    Truthy(b.name) && Truthy(b.description) && Truthy(b.price)
  }

  /** `sales || 0` and `views || 0` as put into the prompt. */
  function Counters(b: Body): (r: (JsValue, JsValue))
    ensures Truthy(b.sales) ==> r.0 == b.sales
    ensures !Truthy(b.sales) ==> r.0 == Num(0)
    ensures Truthy(b.views) ==> r.1 == b.views
    ensures !Truthy(b.views) ==> r.1 == Num(0)
  {
    (Or(b.sales, Num(0)), Or(b.views, Num(0)))
  }

  /** The first position of `c`. */
  function FirstIndex(s: string, c: char): (r: Option<nat>)
    ensures r.Some? ==> r.value < |s| && s[r.value] == c && forall k :: 0 <= k < r.value ==> s[k] != c
    ensures r.None? ==> forall k :: 0 <= k < |s| ==> s[k] != c
  {
    if s == [] then None
    else if s[0] == c then Some(0)
    else
      var rest := FirstIndex(s[1..], c);
      assert forall k :: 0 < k < |s| ==> s[1..][k - 1] == s[k];
      if rest.None? then None else Some(rest.value + 1)
  }

  /** The last position of `c`. */
  function LastIndex(s: string, c: char): (r: Option<nat>)
    ensures r.Some? ==> r.value < |s| && s[r.value] == c && forall k :: r.value < k < |s| ==> s[k] != c
    ensures r.None? ==> forall k :: 0 <= k < |s| ==> s[k] != c
  {
    if s == [] then None
    else if s[|s| - 1] == c then Some(|s| - 1)
    else LastIndex(s[..|s| - 1], c)
  }

  /** Where `text.match(/\{[\s\S]*\}/)` matches: the leftmost match
      starts at the first '{' (a later '{' has no more '}' after it), and the
      greedy body runs to the last '}'. There is a match exactly when some
      '{' is followed by a '}'; line breaks count like any character. */
  function SpanBounds(text: string): (r: Option<(nat, nat)>)
    ensures r.Some? <==> exists i, j :: 0 <= i < j < |text| && text[i] == '{' && text[j] == '}'
    ensures r.Some? ==> r.value.0 < r.value.1 < |text| && text[r.value.0] == '{' && text[r.value.1] == '}'
    ensures r.Some? ==> forall k :: 0 <= k < r.value.0 ==> text[k] != '{'
    ensures r.Some? ==> forall k :: r.value.1 < k < |text| ==> text[k] != '}'
  {
    var open, close := FirstIndex(text, '{'), LastIndex(text, '}');
    if open.Some? && close.Some? && open.value < close.value then
      Some((open.value, close.value))
    else
      assert forall i, j :: 0 <= i < j < |text| && text[i] == '{' ==> text[j] != '}' by {
        forall i, j | 0 <= i < j < |text| && text[i] == '{' ensures text[j] != '}' {
          assert open.Some? && open.value <= i;
        }
      }
      None
  }

  /** `jsonMatch[0]`: the matched text, from its '{' to its '}'. */
  function JsonSpan(text: string): (r: Option<string>)
    ensures r.Some? <==> SpanBounds(text).Some?
    ensures r.Some? ==> |r.value| >= 2 && r.value[0] == '{' && r.value[|r.value| - 1] == '}'
    ensures r.Some? ==> r.value == text[SpanBounds(text).value.0..SpanBounds(text).value.1 + 1]
  {
    var b := SpanBounds(text);
    if b.Some? then Some(text[b.value.0..b.value.1 + 1]) else None
  }

  /** Cutting the span out of a span gives it back unchanged. */
  lemma JsonSpanIdempotent(text: string)
    requires JsonSpan(text).Some?
    ensures JsonSpan(JsonSpan(text).value) == JsonSpan(text)
  {
    var s := JsonSpan(text).value;
    assert FirstIndex(s, '{') == Some(0);
    assert LastIndex(s, '}') == Some(|s| - 1);
    assert s[0..|s| - 1 + 1] == s;
  }

  /** `POST /api/ai/analyze-product` in either version. `keySet` says
      whether the API key is configured; `reply` is the model's answer and
      `parse` is `JSON.parse`. */
  function Analyze(v: Version, keySet: bool, body: Body, reply: ModelReply, parse: string -> Parsed): (a: Answer)
    ensures !keySet ==> a == ErrorAnswer(500, MissingKeyError)
    ensures keySet && !HasRequiredFields(body) ==> a == ErrorAnswer(400, MissingFieldsError)
    ensures a.ErrorAnswer? ==> a.status == 400 || a.status == 500
    ensures a.Analysis? <==>
      (keySet && HasRequiredFields(body) && reply.ReplyText? && JsonSpan(reply.text).Some?
       && parse(JsonSpan(reply.text).value).ParsedValue?)
    ensures a.Analysis? ==> a.value == parse(JsonSpan(reply.text).value).value
    ensures v == Original && a.ErrorAnswer? && keySet && HasRequiredFields(body) ==>
      a == ErrorAnswer(500, OriginalFailure)
    ensures v == Revised && keySet && HasRequiredFields(body) && reply.ReplyText? && JsonSpan(reply.text).None? ==>
      a == ErrorAnswer(500, RevisedFailurePrefix + InvalidFormatMessage(Revised))
    ensures keySet && HasRequiredFields(body) && reply.ModelThrew? ==>
      a == ErrorAnswer(500, FailureMessage(v, reply.thrown))
    ensures (keySet && HasRequiredFields(body) && reply.ReplyText? && JsonSpan(reply.text).Some?
             && parse(JsonSpan(reply.text).value).SyntaxError?) ==>
      a == ErrorAnswer(500, FailureMessage(v, ErrorObject(parse(JsonSpan(reply.text).value).message)))
  {
    if !keySet then ErrorAnswer(500, MissingKeyError)
    else if !HasRequiredFields(body) then ErrorAnswer(400, MissingFieldsError)
    else
      var outcome: Result := match reply
        case ModelThrew(t) => Threw(t)
        case ReplyText(text) =>
          var span := JsonSpan(text);
          if span.None? then Threw(ErrorObject(InvalidFormatMessage(v)))
          else match parse(span.value)
            case SyntaxError(m) => Threw(ErrorObject(m))
            case ParsedValue(value) => Done(value);
      match outcome
      case Done(value) => Analysis(value)
      case Threw(t) => ErrorAnswer(500, FailureMessage(v, t))
  }

  /** How the `try` block ended. */
  datatype Result = Done(value: JsValue) | Threw(thrown: Thrown)

  /** The `catch` block's message: fixed in the original; in the revision,
      the error's own message when it is an `Error`. */
  function FailureMessage(v: Version, t: Thrown): (m: string)
    ensures v == Original ==> m == OriginalFailure
    ensures v == Revised && t.ErrorObject? ==> m == RevisedFailurePrefix + t.message
    ensures v == Revised && t.OtherValue? ==> m == RevisedFailurePrefix + UnknownError
  {
    match v
    case Original => OriginalFailure
    case Revised => RevisedFailurePrefix + (if t.ErrorObject? then t.message else UnknownError)
  }

  /** A price of 0 is falsy, so it is turned away as missing. */
  lemma ZeroPriceRejected(v: Version, body: Body, reply: ModelReply, parse: string -> Parsed)
    requires body.price == Num(0)
    ensures Analyze(v, true, body, reply, parse) == ErrorAnswer(400, MissingFieldsError)
  {
  }

  /** The two versions agree on every request they answer with an analysis
      or a validation error; they differ only in the 500 message. */
  lemma VersionsAgree(keySet: bool, body: Body, reply: ModelReply, parse: string -> Parsed)
    ensures Analyze(Original, keySet, body, reply, parse).Analysis? <==> Analyze(Revised, keySet, body, reply, parse).Analysis?
    ensures Analyze(Original, keySet, body, reply, parse).Analysis? ==>
      Analyze(Original, keySet, body, reply, parse) == Analyze(Revised, keySet, body, reply, parse)
    ensures Analyze(Original, keySet, body, reply, parse).ErrorAnswer? ==>
      Analyze(Original, keySet, body, reply, parse).status == Analyze(Revised, keySet, body, reply, parse).status
  {
  }
}
