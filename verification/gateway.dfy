/**
 * Service A, the gateway: check the method, decode and validate the body,
 * then forward `{"cep": ...}` to the resolver and relay whatever comes back.
 * The resolver is an oracle from forwarded request to exchange outcome, with
 * a body of any type `B`: once a response arrives, it is passed on untouched.
 */
module Gateway {
  import opened Wrappers
  import opened Http
  import opened Cep

  /** The one outbound request the gateway may make. */
  datatype ForwardRequest = ForwardRequest(url: string, body: string)

  datatype Outcome<B> = Outcome(reply: Reply<B>, forwarded: seq<ForwardRequest>)

  const DefaultServiceB := "http://service-b:8081"
  const CepPath := "/cep"

  const InvalidZipcode := "invalid zipcode"
  const ForwardError := "forward error"
  const ServiceBUnavailable := "service b unavailable"

  /** `SERVICE_B_URL` when set and non-empty, else the default, followed by `/cep`. */
  function TargetUrl(serviceBUrl: string): (u: string)
    ensures |u| >= |CepPath| && u[|u| - |CepPath|..] == CepPath
    ensures serviceBUrl != "" ==> |u| == |serviceBUrl| + |CepPath| && u[..|serviceBUrl|] == serviceBUrl
    ensures serviceBUrl == "" ==> u == DefaultServiceB + CepPath
  {
    var base := if serviceBUrl == "" then DefaultServiceB else serviceBUrl;
    base + CepPath
  }

  /**
   * `handleCEP`. `buildsRequest(url)` says whether constructing the outbound
   * request for `url` succeeds (it fails on a URL that does not parse).
   */
  function HandleCep<B>(verb: string, decoded: Option<CepRequest>, serviceBUrl: string,
                        buildsRequest: string -> bool, serviceB: ForwardRequest -> Exchange<B>): (o: Outcome<B>)
    ensures |o.forwarded| <= 1
    ensures o.forwarded != [] ==> o.forwarded[0].url == TargetUrl(serviceBUrl)
    ensures forall f :: f in o.forwarded ==>
              var p := ParseCepRequest(f.body);
              p.Some? && ValidCep(p.value.cep) && decoded == p
    ensures verb != MethodPost ==> o == Outcome(MethodNotAllowed(), [])
    ensures o.forwarded == [] ==> !o.reply.body.Payload?
    ensures o.forwarded != [] ==>
              match serviceB(o.forwarded[0])
              case TransportError => o.reply == Message(StatusBadGateway, ServiceBUnavailable)
              case Answered(s, b) => o.reply == Reply(s, Payload(b))
  {
    if verb != MethodPost then Outcome(MethodNotAllowed(), [])
    else if decoded.None? then Outcome(Message(StatusUnprocessableEntity, InvalidZipcode), [])
    else if !MatchString(decoded.value.cep) then Outcome(Message(StatusUnprocessableEntity, InvalidZipcode), [])
    else
      var target := TargetUrl(serviceBUrl);
      if !buildsRequest(target) then Outcome(Message(StatusInternalServerError, ForwardError), [])
      else
        MatchStringIsValidCep(decoded.value.cep);
        ParseEncodeRoundTrip(decoded.value);
        var fwd := ForwardRequest(target, EncodeCepRequest(decoded.value));
        match serviceB(fwd)
        case TransportError => Outcome(Message(StatusBadGateway, ServiceBUnavailable), [fwd])
        case Answered(status, body) => Outcome(Reply(status, Payload(body)), [fwd])
  }

  /** An undecodable body or a malformed postal code gets 422 and nothing is forwarded. */
  lemma InvalidRequestNotForwarded<B>(decoded: Option<CepRequest>, serviceBUrl: string,
                                      buildsRequest: string -> bool, serviceB: ForwardRequest -> Exchange<B>)
    requires decoded.None? || !ValidCep(decoded.value.cep)
    ensures HandleCep(MethodPost, decoded, serviceBUrl, buildsRequest, serviceB)
         == Outcome(Message(StatusUnprocessableEntity, InvalidZipcode), [])
  {
    if decoded.Some? {
      MatchStringIsValidCep(decoded.value.cep);
    }
  }

  /** When the request cannot be built, the reply is 500 and nothing is sent. */
  lemma UnbuildableRequestNotForwarded<B>(cep: string, serviceBUrl: string,
                                          buildsRequest: string -> bool, serviceB: ForwardRequest -> Exchange<B>)
    requires ValidCep(cep)
    requires !buildsRequest(TargetUrl(serviceBUrl))
    ensures HandleCep(MethodPost, Some(CepRequest(cep)), serviceBUrl, buildsRequest, serviceB)
         == Outcome(Message(StatusInternalServerError, ForwardError), [])
  {
    MatchStringIsValidCep(cep);
  }

  /** A request rejected before forwarding does not depend on the resolver in any way. */
  lemma RejectionIgnoresServiceB<B>(verb: string, decoded: Option<CepRequest>, serviceBUrl: string,
                                    buildsRequest: string -> bool,
                                    serviceB1: ForwardRequest -> Exchange<B>, serviceB2: ForwardRequest -> Exchange<B>)
    requires verb != MethodPost || decoded.None? || !ValidCep(decoded.value.cep)
             || !buildsRequest(TargetUrl(serviceBUrl))
    ensures HandleCep(verb, decoded, serviceBUrl, buildsRequest, serviceB1).forwarded == []
    ensures HandleCep(verb, decoded, serviceBUrl, buildsRequest, serviceB1)
         == HandleCep(verb, decoded, serviceBUrl, buildsRequest, serviceB2)
  {
    if decoded.Some? {
      MatchStringIsValidCep(decoded.value.cep);
    }
  }

  /**
   * A valid request is forwarded once, to the target URL, carrying the
   * canonical encoding of the same cep; the resolver's status and body
   * reach the caller as they are (any status, 2xx or not), and a transport
   * failure becomes 502.
   */
  lemma ValidRequestRelayed<B>(cep: string, serviceBUrl: string,
                               buildsRequest: string -> bool, serviceB: ForwardRequest -> Exchange<B>)
    requires ValidCep(cep)
    requires buildsRequest(TargetUrl(serviceBUrl))
    ensures var fwd := ForwardRequest(TargetUrl(serviceBUrl), EncodeCepRequest(CepRequest(cep)));
            var o := HandleCep(MethodPost, Some(CepRequest(cep)), serviceBUrl, buildsRequest, serviceB);
            && o.forwarded == [fwd]
            && (serviceB(fwd).TransportError? ==> o.reply == Message(StatusBadGateway, ServiceBUnavailable))
            && (serviceB(fwd).Answered? ==>
                  o.reply == Reply(serviceB(fwd).status, Payload(serviceB(fwd).body)))
  {
    MatchStringIsValidCep(cep);
  }
}
