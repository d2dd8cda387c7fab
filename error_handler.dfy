/**
 * The server's `onPreResponse` extension: a response that is not a Boom
 * error passes through; a Boom error is annotated in place and rendered as
 * the not-found view (404) or the internal-error view (everything else), as
 * HTML in UTF-8 with the chosen status code.
 */
module ErrorHandler {

  import opened JsValue

  /** The named feature flags of a request, as the views receive them. */
  type Features = map<string, bool>

  const NotFoundView := "errors/not-found"
  const InternalView := "errors/internal"
  const HtmlType := "text/html"
  const Utf8 := "utf-8"
  const DefaultStatus := 500

  /** `request.response`: the fields the extension reads and the three it sets. */
  class ServerResponse {
    const isBoom: bool
    /** `response.statusCode`; `None` when the property is undefined. */
    const statusCode: Option<int>
    /** `response.output.statusCode` of a Boom error. */
    const outputStatusCode: Option<int>
    var correlationID: Option<string>
    var features: Option<Features>
    var npmoFullStack: Option<string>

    constructor (isBoom: bool, statusCode: Option<int>, outputStatusCode: Option<int>)
      ensures this.isBoom == isBoom && this.statusCode == statusCode && this.outputStatusCode == outputStatusCode
      ensures correlationID == None && features == None && npmoFullStack == None
    {
      this.isBoom := isBoom;
      this.statusCode := statusCode;
      this.outputStatusCode := outputStatusCode;
      correlationID := None;
      features := None;
      npmoFullStack := None;
    }
  }

  /** What the extension hands back to the server. */
  datatype Reply =
    | Continue
    | Rendered(template: string, context: ServerResponse, code: int, contentType: string, charset: string)

  /** A status code is truthy when it is present and not 0. */
  predicate Given(code: Option<int>) {
    code.Some? && code.value != 0
  }

  /** `response.statusCode || response.output.statusCode || 500` */
  function ChooseStatus(own: Option<int>, output: Option<int>): (s: int)
    ensures s != 0
    ensures Given(own) ==> s == own.value
    ensures !Given(own) && Given(output) ==> s == output.value
    ensures !Given(own) && !Given(output) ==> s == DefaultStatus
  {
    if Given(own) then own.value else if Given(output) then output.value else DefaultStatus
  }

  /** The view for a status: not-found for 404 alone. */
  function ViewFor(status: int): (v: string)
    ensures v == NotFoundView <==> status == 404
    ensures v == InternalView <==> status != 404
  {
    if status == 404 then NotFoundView else InternalView
  }

  /**
   * The extension body. `npmo` is the feature flag's value and `fullStack`
   * the stack rendering of this response, both supplied by collaborators.
   */
  method OnPreResponse(requestId: string, requestFeatures: Features, response: ServerResponse, npmo: bool, fullStack: string)
    returns (reply: Reply)
    modifies response
    ensures !response.isBoom ==> reply == Continue && unchanged(response)
    ensures response.isBoom ==>
      var status := ChooseStatus(response.statusCode, response.outputStatusCode);
      && reply == Rendered(ViewFor(status), response, status, HtmlType, Utf8)
      && response.correlationID == Some(requestId)
      && response.features == Some(requestFeatures)
      && response.npmoFullStack == (if status != 404 && npmo then Some(fullStack) else old(response.npmoFullStack))
  {
    if !response.isBoom {
      return Continue;
    }
    var statusCode := ChooseStatus(response.statusCode, response.outputStatusCode);
    response.correlationID := Some(requestId);
    response.features := Some(requestFeatures);
    var view: string;
    if statusCode == 404 {
      view := NotFoundView;
    } else {
      if npmo {
        response.npmoFullStack := Some(fullStack);
      }
      view := InternalView;
    }
    reply := Rendered(view, response, statusCode, HtmlType, Utf8);
  }

  /** A Boom error whose own status is unset takes the output's, and a 404 there still renders not-found. */
  lemma OutputStatusDecidesView(output: int)
    requires output != 0
    ensures ChooseStatus(None, Some(output)) == output
    ensures ChooseStatus(Some(0), Some(output)) == output
    ensures ViewFor(ChooseStatus(None, Some(output))) == NotFoundView <==> output == 404
  {
  }
}
