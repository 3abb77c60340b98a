/**
 * Service B, the resolver: validate the postal code, geocode it to a city,
 * look up that city's current temperature, and answer with the readings.
 * The two outbound lookups are oracles from request to outcome, so that
 * every call the handler makes is visible in its result.
 */
module Resolver {
  import opened Wrappers
  import opened Http
  import opened Cep
  import opened Temperature

  /** The geocoder's JSON answer (`localidade`, `uf`, `erro`). */
  datatype ViaCepResp = ViaCepResp(localidade: string, uf: string, erro: bool)

  /** A geocoded place: both fields or nothing. */
  datatype Location = Location(city: string, uf: string)

  /**
   * Why a request failed, classified where the failure happens.
   * `UpstreamStatus` and `UpstreamMalformed` together are the protocol errors.
   */
  datatype PipelineError =
    | InvalidInput
    | NotFound
    | UpstreamUnavailable
    | UpstreamStatus(code: int)
    | UpstreamMalformed
    | MissingCredential

  /** URL query parameters, key to value (percent-encoding is not modelled). */
  type Query = map<string, string>

  /** An outbound request the resolver issued. */
  datatype Call = GeocodeCall(url: string) | WeatherCall(query: Query)

  /** A lookup's result together with the outbound calls it issued, in order. */
  datatype Traced<T> = Traced(value: T, calls: seq<Call>)

  /** The success body: `city`, `temp_C`, `temp_F`, `temp_K`. */
  datatype WeatherResp = WeatherResp(city: string, tempC: real, tempF: real, tempK: real)

  datatype Outcome = Outcome(reply: Reply<WeatherResp>, calls: seq<Call>)

  type GeocodeApi = string -> Exchange<Option<ViaCepResp>>

  /** Takes the query; answers with the decoded `current.temp_c`, if the body decoded. */
  type WeatherApi = Query -> Exchange<Option<real>>

  const InvalidZipcode := "invalid zipcode"
  const CannotFindZipcode := "can not find zipcode"
  const ZipcodeLookupFailed := "zipcode lookup failed"
  const WeatherLookupFailed := "weather lookup failed"

  function GeocodeUrl(cep: string): string {
    "https://viacep.com.br/ws/" + cep + "/json/"
  }

  /**
   * Classification of the geocoder's answer: 400 and 404 mean "no such
   * code", as does a 200 whose body flags `erro` or has no city; any other
   * status, a transport error or an undecodable body is an upstream failure.
   */
  function ClassifyGeocode(ex: Exchange<Option<ViaCepResp>>): (r: Result<Location, PipelineError>)
    ensures r == Failure(NotFound) <==>
      ex.Answered? && (ex.status == 400 || ex.status == 404
        || (ex.status == 200 && ex.body.Some? && (ex.body.value.erro || ex.body.value.localidade == "")))
    ensures r.Success? <==>
      ex.Answered? && ex.status == 200 && ex.body.Some? && !ex.body.value.erro && ex.body.value.localidade != ""
    ensures r.Success? ==> r.value == Location(ex.body.value.localidade, ex.body.value.uf)
    ensures r.Success? ==> r.value.city != ""
    ensures ex.TransportError? ==> r == Failure(UpstreamUnavailable)
    ensures r.Failure? ==> r.error != InvalidInput && r.error != MissingCredential
  {
    match ex
    case TransportError => Failure(UpstreamUnavailable)
    case Answered(status, body) =>
      if status != StatusOK then
        if status == 400 || status == StatusNotFound then Failure(NotFound)
        else Failure(UpstreamStatus(status))
      else if body.None? then Failure(UpstreamMalformed)
      else if body.value.erro || body.value.localidade == "" then Failure(NotFound)
      else Success(Location(body.value.localidade, body.value.uf))
  }

  /** `lookupCity`: exactly one outbound call, then classification of its outcome. */
  function LookupCity(cep: string, geocode: GeocodeApi): (t: Traced<Result<Location, PipelineError>>)
    ensures t.calls == [GeocodeCall(GeocodeUrl(cep))]
    ensures t.value.Success? ==> t.value.value.city != ""
  {
    Traced(ClassifyGeocode(geocode(GeocodeUrl(cep))), [GeocodeCall(GeocodeUrl(cep))])
  }

  /** The weather request's query: credential, "city,uf,BR", air quality off. */
  function WeatherQuery(key: string, loc: Location): (q: Query)
    ensures q.Keys == {"key", "q", "aqi"}
    ensures q["key"] == key && q["aqi"] == "no"
    ensures q["q"] == loc.city + "," + loc.uf + ",BR"
  {
    map["key" := key, "q" := loc.city + "," + loc.uf + ",BR", "aqi" := "no"]
  }

  /** Only a 200 whose body decoded yields a temperature. */
  function ClassifyWeather(ex: Exchange<Option<real>>): (r: Result<real, PipelineError>)
    ensures r.Success? <==> ex.Answered? && ex.status == 200 && ex.body.Some?
    ensures r.Success? ==> r.value == ex.body.value
    ensures r.Failure? ==> r.error != NotFound && r.error != InvalidInput
  {
    match ex
    case TransportError => Failure(UpstreamUnavailable)
    case Answered(status, body) =>
      if status != StatusOK then Failure(UpstreamStatus(status))
      else if body.None? then Failure(UpstreamMalformed)
      else Success(body.value)
  }

  /**
   * `lookupTempC`: without a credential it fails before any request;
   * otherwise exactly one request carrying the three-parameter query.
   */
  function LookupTempC(key: string, loc: Location, weather: WeatherApi): (t: Traced<Result<real, PipelineError>>)
    ensures t.calls == [] <==> key == ""
    ensures key == "" ==> t.value == Failure(MissingCredential)
    ensures key != "" ==> t.calls == [WeatherCall(WeatherQuery(key, loc))]
    ensures t.value.Failure? ==> t.value.error != NotFound && t.value.error != InvalidInput
  {
    if key == "" then Traced(Failure(MissingCredential), [])
    else
      var q := WeatherQuery(key, loc);
      Traced(ClassifyWeather(weather(q)), [WeatherCall(q)])
  }

  /** The success body for a city and a raw Celsius reading. */
  function Report(city: string, celsius: real): (w: WeatherResp)
    ensures w.city == city
    ensures -0.05 <= celsius - w.tempC <= 0.05
    ensures -0.05 <= Fahrenheit(celsius) - w.tempF <= 0.05
    ensures -0.05 <= Kelvin(celsius) - w.tempK <= 0.05
    ensures w.tempC == Round1(celsius)
    ensures w.tempF == Round1(Fahrenheit(celsius))
    ensures w.tempK == Round1(Kelvin(celsius))
  {
    var t := Convert(celsius);
    WeatherResp(city, t.celsius, t.fahrenheit, t.kelvin)
  }

  /**
   * `handleCEP`: method check, validation, geocode, weather, reply; the first
   * failure decides the reply and nothing after it runs.
   */
  function HandleCep(verb: string, decoded: Option<CepRequest>, apiKey: string,
                     geocode: GeocodeApi, weather: WeatherApi): (o: Outcome)
    ensures |o.calls| <= 2
    ensures forall i :: 0 <= i < |o.calls| ==> (o.calls[i].GeocodeCall? <==> i == 0)
    ensures o.reply.status in {200, 404, 405, 422, 502}
    ensures o.reply.status == 405 <==> verb != MethodPost
    ensures o.reply.status == 405 || o.reply.status == 422 <==> o.calls == []
    ensures o.reply.status == 404 ==> |o.calls| == 1
    ensures o.reply.status == 200 ==> |o.calls| == 2 && o.reply.body.Payload?
    ensures o.reply.status != 200 ==> !o.reply.body.Payload?
  {
    if verb != MethodPost then Outcome(MethodNotAllowed(), [])
    else if decoded.None? || !MatchString(decoded.value.cep) then
      Outcome(Message(StatusUnprocessableEntity, InvalidZipcode), [])
    else
      var geo := LookupCity(decoded.value.cep, geocode);
      if geo.value.Failure? then
        if geo.value.error == NotFound then Outcome(Message(StatusNotFound, CannotFindZipcode), geo.calls)
        else Outcome(Message(StatusBadGateway, ZipcodeLookupFailed), geo.calls)
      else
        var loc := geo.value.value;
        var wx := LookupTempC(apiKey, loc, weather);
        if wx.value.Failure? then Outcome(Message(StatusBadGateway, WeatherLookupFailed), geo.calls + wx.calls)
        else Outcome(Reply(StatusOK, Payload(Report(loc.city, wx.value.value))), geo.calls + wx.calls)
  }

  // ---------------------------------------------------------------------
  // Reference pipeline over the error taxonomy, and the status table
  // ---------------------------------------------------------------------

  function ValidatedCep(decoded: Option<CepRequest>): Result<string, PipelineError> {
    if decoded.Some? && ValidCep(decoded.value.cep) then Success(decoded.value.cep) else Failure(InvalidInput)
  }

  /** The pipeline as a chain of fallible steps: each step's error is passed up unchanged. */
  function Resolve(decoded: Option<CepRequest>, apiKey: string, geocode: GeocodeApi, weather: WeatherApi)
    : Result<WeatherResp, PipelineError>
  {
    var cep :- ValidatedCep(decoded);
    var loc :- LookupCity(cep, geocode).value;
    var celsius :- LookupTempC(apiKey, loc, weather).value;
    Success(Report(loc.city, celsius))
  }

  /** Rendering a classified failure: invalid input 422, not found 404, every upstream trouble 502. */
  function StatusFor(e: PipelineError): (s: int)
    ensures s == 422 <==> e == InvalidInput
    ensures s == 404 <==> e == NotFound
    ensures s in {404, 422, 502}
  {
    match e
    case InvalidInput => StatusUnprocessableEntity
    case NotFound => StatusNotFound
    case _ => StatusBadGateway
  }

  /** For a POST, the handler renders exactly what the reference pipeline decides. */
  lemma HandlerFollowsPipeline(decoded: Option<CepRequest>, apiKey: string, geocode: GeocodeApi, weather: WeatherApi)
    ensures var o := HandleCep(MethodPost, decoded, apiKey, geocode, weather);
            match Resolve(decoded, apiKey, geocode, weather)
            case Success(w) => o.reply == Reply(StatusOK, Payload(w))
            case Failure(e) => o.reply.status == StatusFor(e)
  {
    if decoded.Some? {
      MatchStringIsValidCep(decoded.value.cep);
    }
  }

  // ---------------------------------------------------------------------
  // Short-circuiting: which calls happen on each path
  // ---------------------------------------------------------------------

  /** A non-POST request is refused before anything else; no lookup happens. */
  lemma NonPostRejected(verb: string, decoded: Option<CepRequest>, apiKey: string,
                        geocode: GeocodeApi, weather: WeatherApi)
    requires verb != MethodPost
    ensures HandleCep(verb, decoded, apiKey, geocode, weather) == Outcome(MethodNotAllowed(), [])
  {
  }

  /** An undecodable body or a malformed postal code gets 422, and no lookup happens. */
  lemma InvalidCepRejected(decoded: Option<CepRequest>, apiKey: string, geocode: GeocodeApi, weather: WeatherApi)
    requires decoded.None? || !ValidCep(decoded.value.cep)
    ensures HandleCep(MethodPost, decoded, apiKey, geocode, weather)
         == Outcome(Message(StatusUnprocessableEntity, InvalidZipcode), [])
  {
    if decoded.Some? {
      MatchStringIsValidCep(decoded.value.cep);
    }
  }

  /**
   * Geocoding failure: "not found" renders 404, anything else 502, and the
   * only call made is the geocode request.
   */
  lemma GeocodeFailureStopsPipeline(cep: string, apiKey: string, geocode: GeocodeApi, weather: WeatherApi)
    requires ValidCep(cep)
    requires ClassifyGeocode(geocode(GeocodeUrl(cep))).Failure?
    ensures var o := HandleCep(MethodPost, Some(CepRequest(cep)), apiKey, geocode, weather);
            && o.calls == [GeocodeCall(GeocodeUrl(cep))]
            && (ClassifyGeocode(geocode(GeocodeUrl(cep))).error == NotFound ==>
                  o.reply == Message(StatusNotFound, CannotFindZipcode))
            && (ClassifyGeocode(geocode(GeocodeUrl(cep))).error != NotFound ==>
                  o.reply == Message(StatusBadGateway, ZipcodeLookupFailed))
  {
    MatchStringIsValidCep(cep);
  }

  /**
   * After a geocoding failure the weather service has no influence at all:
   * any two weather services give the same reply and the same calls.
   */
  lemma WeatherUnreachedAfterGeocodeFailure(cep: string, apiKey: string, geocode: GeocodeApi,
                                            weather1: WeatherApi, weather2: WeatherApi)
    requires ClassifyGeocode(geocode(GeocodeUrl(cep))).Failure?
    ensures HandleCep(MethodPost, Some(CepRequest(cep)), apiKey, geocode, weather1)
         == HandleCep(MethodPost, Some(CepRequest(cep)), apiKey, geocode, weather2)
  {
  }

  /** Without a credential the weather step fails with 502 and makes no request of its own. */
  lemma MissingKeyMakesNoWeatherCall(cep: string, geocode: GeocodeApi, weather: WeatherApi)
    requires ValidCep(cep)
    requires ClassifyGeocode(geocode(GeocodeUrl(cep))).Success?
    ensures HandleCep(MethodPost, Some(CepRequest(cep)), "", geocode, weather)
         == Outcome(Message(StatusBadGateway, WeatherLookupFailed), [GeocodeCall(GeocodeUrl(cep))])
  {
    MatchStringIsValidCep(cep);
  }

  /** A failing weather lookup (status, transport or body) renders 502 after both calls. */
  lemma WeatherFailureRenders502(cep: string, apiKey: string, geocode: GeocodeApi, weather: WeatherApi)
    requires ValidCep(cep) && apiKey != ""
    requires ClassifyGeocode(geocode(GeocodeUrl(cep))).Success?
    requires ClassifyWeather(weather(WeatherQuery(apiKey, ClassifyGeocode(geocode(GeocodeUrl(cep))).value))).Failure?
    ensures var loc := ClassifyGeocode(geocode(GeocodeUrl(cep))).value;
            (HandleCep(MethodPost, Some(CepRequest(cep)), apiKey, geocode, weather)
             == Outcome(Message(StatusBadGateway, WeatherLookupFailed),
                        [GeocodeCall(GeocodeUrl(cep)), WeatherCall(WeatherQuery(apiKey, loc))]))
  {
    MatchStringIsValidCep(cep);
  }

  /**
   * Full success: 200 with the geocoded city and the three rounded readings,
   * after exactly the geocode call and then the weather call.
   */
  lemma SuccessReply(cep: string, apiKey: string, geocode: GeocodeApi, weather: WeatherApi,
                     v: ViaCepResp, celsius: real)
    requires ValidCep(cep) && apiKey != ""
    requires geocode(GeocodeUrl(cep)) == Answered(200, Some(v))
    requires !v.erro && v.localidade != ""
    requires weather(WeatherQuery(apiKey, Location(v.localidade, v.uf))) == Answered(200, Some(celsius))
    ensures HandleCep(MethodPost, Some(CepRequest(cep)), apiKey, geocode, weather)
         == Outcome(Reply(StatusOK, Payload(WeatherResp(v.localidade, Round1(celsius),
                                                         Round1(celsius * 1.8 + 32.0), Round1(celsius + 273.0)))),
                    [GeocodeCall(GeocodeUrl(cep)), WeatherCall(WeatherQuery(apiKey, Location(v.localidade, v.uf)))])
  {
    MatchStringIsValidCep(cep);
  }
}
