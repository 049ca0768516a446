/**
 * The request-construction rules of the HTTP client: the method gate and the body and
 * header rules of `BuildRequest`, the region default of `SignRequest`, and the two result
 * shapes of `SendRequest`. Network dispatch, clocks and the SigV4 signer are not modelled:
 * their outcomes are parameters.
 */
module Rest {
  import opened Wrappers
  import opened Strings

  newtype byte = x: int | 0 <= x < 256

  /** `http.Header`: each name maps to its list of values. */
  type Header = map<string, seq<string>>

  /** The methods the client accepts. */
  const SupportedMethods: map<string, bool> := map[
    "GET" := true,
    "HEAD" := true,
    "POST" := true,
    "PATCH" := true,
    "PUT" := true,
    "DELETE" := true
  ]

  /** The method as the client looks it up: trimmed of white space, then upper-cased. */
  function CanonicalMethod(m: string): (r: string)
    ensures |r| <= |m|
    ensures forall i :: 0 <= i < |r| ==> !IsLowerAscii(r[i])
    ensures r == [] || (!IsSpace(r[0]) && !IsSpace(r[|r| - 1]))
  {
    ToUpperPointwise(TrimSpace(m));
    ToUpper(TrimSpace(m))
  }

  /** Canonicalising a canonical method changes nothing. */
  lemma CanonicalMethodIdempotent(m: string)
    ensures CanonicalMethod(CanonicalMethod(m)) == CanonicalMethod(m)
  {
    TrimUpperIdempotent(m);
  }

  /** The gate: exactly the six methods of the table, by exact (case-sensitive) name. */
  predicate IsSupported(m: string): (b: bool)
    ensures b <==> m in {"GET", "HEAD", "POST", "PATCH", "PUT", "DELETE"}
  {
    m in SupportedMethods && SupportedMethods[m]
  }

  /** The gate accepts the mixed-case methods of the client's tests. */
  lemma GateAcceptsMixedCase()
    ensures CanonicalMethod("post") == "POST" && IsSupported(CanonicalMethod("post"))
    ensures CanonicalMethod("Put") == "PUT" && IsSupported(CanonicalMethod("Put"))
    ensures CanonicalMethod("Patch") == "PATCH" && IsSupported(CanonicalMethod("Patch"))
  {
    TrimSpaceFixed("post");
    assert ToUpper("post") == "POST";
    TrimSpaceFixed("Put");
    assert ToUpper("Put") == "PUT";
    TrimSpaceFixed("Patch");
    assert ToUpper("Patch") == "PATCH";
  }

  /** The gate refuses the empty method and an unknown one, as the client's tests expect. */
  lemma GateRefusesEmptyAndUnknown()
    ensures !IsSupported(CanonicalMethod(""))
    ensures !IsSupported(CanonicalMethod("WHAT"))
  {
    TrimSpaceFixed("WHAT");
    ToUpperFixed("WHAT");
  }

  /** The three methods a validated request can carry are canonical and pass the gate. */
  lemma ValidatorMethodsPassGate(m: string)
    requires m in {"GET", "POST", "DELETE"}
    ensures CanonicalMethod(m) == m && IsSupported(m)
  {
    if m == "GET" {
      TrimSpaceFixed("GET");
      ToUpperFixed("GET");
    } else if m == "POST" {
      TrimSpaceFixed("POST");
      ToUpperFixed("POST");
    } else {
      TrimSpaceFixed("DELETE");
      ToUpperFixed("DELETE");
    }
  }

  /** A request as built: method, URL, optional body and headers. */
  datatype Request = Request(httpMethod: string, url: string, body: Option<seq<byte>>, header: Header)

  datatype BuildError =
    | UnsupportedMethod(httpMethod: string)
    | ConstructionFailed(reason: string)

  /**
   * Builds a request. The canonical method must be supported; `parseURL` stands for the URL
   * parsing inside `http.NewRequest`, whose error is returned as is. A body is attached
   * exactly when bytes are given, and a given header map replaces the request's (empty)
   * headers wholesale. Exactly one of the request and the error is returned.
   */
  method BuildRequest(httpMethod: string, url: string, json: Option<seq<byte>>, header: Option<Header>,
                      parseURL: string -> Outcome<string>)
    returns (req: Option<Request>, err: Option<BuildError>)
    ensures req.Some? <==> err.None?
    ensures req.Some? <==> IsSupported(CanonicalMethod(httpMethod)) && parseURL(url).Pass?
    ensures !IsSupported(CanonicalMethod(httpMethod)) ==> err == Some(UnsupportedMethod(CanonicalMethod(httpMethod)))
    ensures IsSupported(CanonicalMethod(httpMethod)) && parseURL(url).Fail? ==>
              err == Some(ConstructionFailed(parseURL(url).error))
    ensures req.Some? ==> req.value.httpMethod == CanonicalMethod(httpMethod) && req.value.url == url
    ensures req.Some? ==> req.value.body == json
    ensures req.Some? ==> req.value.header == header.GetOr(map[])
  {
    var m := ToUpper(TrimSpace(httpMethod));
    if !(m in SupportedMethods && SupportedMethods[m]) {
      return None, Some(UnsupportedMethod(m));
    }

    var body: Option<seq<byte>> := None;
    if json.Some? {
      body := json;
    }

    var parsed := parseURL(url);
    if parsed.Fail? {
      return None, Some(ConstructionFailed(parsed.error));
    }
    var built := Request(m, url, body, map[]);

    if header.Some? {
      built := built.(header := header.value);
    }
    return Some(built), None;
  }

  const DefaultRegion := "eu-west-1"
  const ServiceName := "execute-api"

  /** The region the signer is given: the caller's, or the default when the caller gives none. */
  function SigningRegion(region: string): (r: string)
    ensures r != ""
    ensures region != "" ==> r == region
    ensures region == "" ==> r == DefaultRegion
  {
    if region == "" then DefaultRegion else region
  }

  datatype SignOutcome = Signed(request: Request) | SignFailed(reason: string)

  /**
   * The SigV4 signer with credentials from the environment: request, body, service name and
   * region to the signed request or an error.
   */
  type Signer = (Request, seq<byte>, string, string) -> SignOutcome

  /** Signs the request for the execute-api service, in the defaulted region. */
  method SignRequest(req: Request, body: seq<byte>, region: string, signer: Signer) returns (r: SignOutcome)
    ensures r == signer(req, body, ServiceName, SigningRegion(region))
  {
    var reg := region;
    if reg == "" {
      reg := DefaultRegion;
    }
    r := signer(req, body, ServiceName, reg);
  }

  datatype Response = Response(status: int, header: Header, body: seq<byte>)

  /** What one dispatch through the transport yields: a response, whatever its status, or a transport error. */
  datatype TransportOutcome = Delivered(response: Response) | TransportFailed(reason: string)

  /** The outcome of one dispatch: the response or the error, and the elapsed time. */
  datatype Result = Result(response: Option<Response>, elapsed: nat, err: Option<string>)

  /**
   * Wraps one dispatch. A transport error gives a result with the error and no response;
   * a delivered response, whatever its status, gives a result with the response and no
   * error. The result never carries both, and always carries the elapsed time.
   */
  method SendRequest(req: Request, outcome: TransportOutcome, elapsed: nat) returns (r: Result)
    ensures r.elapsed == elapsed
    ensures r.response.Some? != r.err.Some?
    ensures r.err.Some? <==> outcome.TransportFailed?
    ensures outcome.TransportFailed? ==> r.err == Some(outcome.reason)
    ensures outcome.Delivered? ==> r.response == Some(outcome.response)
  {
    if outcome.TransportFailed? {
      return Result(None, elapsed, Some(outcome.reason));
    }
    var res := outcome.response;
    var err: Option<string> := None;
    return Result(Some(res), elapsed, err);
  }
}
