/**
 * The two services wired together: the gateway's outbound call is answered
 * by the resolver's handler, reached over a transport that delivers the
 * request and carries the reply back.
 */
module Deployment {
  import opened Wrappers
  import opened Http
  import opened Cep
  import opened Temperature
  import Resolver
  import Gateway

  /** The resolver's body decoder reads the gateway's canonical encoding correctly. */
  ghost predicate DecodesCanonical(decode: string -> Option<CepRequest>) {
    forall c :: ValidCep(c) ==> decode(EncodeCepRequest(CepRequest(c))) == Some(CepRequest(c))
  }

  /** The canonical-form decoder is such a decoder. */
  lemma ParseDecodesCanonical()
    ensures DecodesCanonical(ParseCepRequest)
  {
    forall c | ValidCep(c)
      ensures ParseCepRequest(EncodeCepRequest(CepRequest(c))) == Some(CepRequest(c))
    {
      ParseEncodeRoundTrip(CepRequest(c));
    }
  }

  /** Service B as the gateway sees it: every forwarded request is answered by the resolver's handler. */
  function ServiceB(decode: string -> Option<CepRequest>, apiKey: string,
                    geocode: Resolver.GeocodeApi, weather: Resolver.WeatherApi)
    : Gateway.ForwardRequest -> Exchange<Body<Resolver.WeatherResp>>
  {
    (f: Gateway.ForwardRequest) =>
      var o := Resolver.HandleCep(MethodPost, decode(f.body), apiKey, geocode, weather);
      Answered(o.reply.status, o.reply.body)
  }

  /** A caller's request through the gateway and on to the resolver. */
  function EndToEnd(verb: string, decoded: Option<CepRequest>, serviceBUrl: string, buildsRequest: string -> bool,
                    decode: string -> Option<CepRequest>, apiKey: string,
                    geocode: Resolver.GeocodeApi, weather: Resolver.WeatherApi)
    : Gateway.Outcome<Body<Resolver.WeatherResp>>
  {
    Gateway.HandleCep(verb, decoded, serviceBUrl, buildsRequest, ServiceB(decode, apiKey, geocode, weather))
  }

  /** Whatever the caller receives from the resolver is a weather payload exactly when its status is 200. */
  lemma RelayedPayloadIffOK(verb: string, decoded: Option<CepRequest>, serviceBUrl: string, buildsRequest: string -> bool,
                            decode: string -> Option<CepRequest>, apiKey: string,
                            geocode: Resolver.GeocodeApi, weather: Resolver.WeatherApi)
    ensures var o := EndToEnd(verb, decoded, serviceBUrl, buildsRequest, decode, apiKey, geocode, weather);
            o.reply.body.Payload? ==> (o.reply.body.payload.Payload? <==> o.reply.status == StatusOK)
  {
    var serviceB := ServiceB(decode, apiKey, geocode, weather);
    var o := Gateway.HandleCep(verb, decoded, serviceBUrl, buildsRequest, serviceB);
    if o.forwarded != [] {
      var r := Resolver.HandleCep(MethodPost, decode(o.forwarded[0].body), apiKey, geocode, weather);
      assert serviceB(o.forwarded[0]) == Answered(r.reply.status, r.reply.body);
    }
  }

  /**
   * Every postal code the gateway forwards passes the resolver's own
   * validation, so the caller receives exactly the resolver's reply and
   * never the resolver's 405 or 422.
   */
  lemma ForwardedRequestsPassResolverValidation(cep: string, serviceBUrl: string, buildsRequest: string -> bool,
                                                decode: string -> Option<CepRequest>, apiKey: string,
                                                geocode: Resolver.GeocodeApi, weather: Resolver.WeatherApi)
    requires DecodesCanonical(decode)
    requires ValidCep(cep)
    requires buildsRequest(Gateway.TargetUrl(serviceBUrl))
    ensures var r := Resolver.HandleCep(MethodPost, Some(CepRequest(cep)), apiKey, geocode, weather);
            var o := EndToEnd(MethodPost, Some(CepRequest(cep)), serviceBUrl, buildsRequest, decode, apiKey, geocode, weather);
            && o.reply == Reply(r.reply.status, Payload(r.reply.body))
            && r.reply.status != StatusMethodNotAllowed
            && r.reply.status != StatusUnprocessableEntity
  {
    Gateway.ValidRequestRelayed(cep, serviceBUrl, buildsRequest, ServiceB(decode, apiKey, geocode, weather));
    Resolver.HandlerFollowsPipeline(Some(CepRequest(cep)), apiKey, geocode, weather);
  }

  /** 01001000 geocoded to São Paulo at 25.0 degrees: 200 with 25.0 / 77.0 / 298.0. */
  lemma SaoPauloExample()
    ensures EndToEnd(MethodPost, Some(CepRequest("01001000")), "", (u: string) => true, ParseCepRequest, "secret",
                     (u: string) => Answered(200, Some(Resolver.ViaCepResp("São Paulo", "SP", false))),
                     (q: Resolver.Query) => Answered(200, Some(25.0))).reply
         == Reply(StatusOK, Payload(Payload(Resolver.WeatherResp("São Paulo", 25.0, 77.0, 298.0))))
  {
    var geocode := (u: string) => Answered(200, Some(Resolver.ViaCepResp("São Paulo", "SP", false)));
    var weather := (q: Resolver.Query) => Answered(200, Some(25.0));
    ParseDecodesCanonical();
    MatchStringExamples();
    ConvertExamples();
    ForwardedRequestsPassResolverValidation("01001000", "", (u: string) => true, ParseCepRequest, "secret", geocode, weather);
    Resolver.SuccessReply("01001000", "secret", geocode, weather, Resolver.ViaCepResp("São Paulo", "SP", false), 25.0);
  }

  /** 00000000, which the geocoder does not know: 404 "can not find zipcode". */
  lemma UnknownCepExample(weather: Resolver.WeatherApi)
    ensures EndToEnd(MethodPost, Some(CepRequest("00000000")), "", (u: string) => true, ParseCepRequest, "secret",
                     (u: string) => Answered(200, Some(Resolver.ViaCepResp("", "", true))), weather).reply
         == Reply(StatusNotFound, Payload(JsonMessage(Resolver.CannotFindZipcode)))
  {
    var geocode := (u: string) => Answered(200, Some(Resolver.ViaCepResp("", "", true)));
    ParseDecodesCanonical();
    MatchStringExamples();
    ForwardedRequestsPassResolverValidation("00000000", "", (u: string) => true, ParseCepRequest, "secret", geocode, weather);
    Resolver.GeocodeFailureStopsPipeline("00000000", "secret", geocode, weather);
  }

  /** "abc": 422 from the gateway itself, and nothing leaves it. */
  lemma MalformedCepExample(decode: string -> Option<CepRequest>, apiKey: string,
                            geocode: Resolver.GeocodeApi, weather: Resolver.WeatherApi)
    ensures var o := EndToEnd(MethodPost, Some(CepRequest("abc")), "", (u: string) => true, decode, apiKey, geocode, weather);
            && o.reply == Message(StatusUnprocessableEntity, Gateway.InvalidZipcode)
            && o.forwarded == []
  {
  }
}
