# httpreq request files and HTTP client: a verified model

`httpreq` runs HTTP requests described in request files. A request file is a `Spec`: a map
of default headers and an ordered list of `RequestTarget`s (ID, method, URL, headers, JSON
body and a loosely typed `aws` signing directive). Before anything runs, `Spec.Validate`
checks every target in order against one shared set of IDs, normalising each in place.
`Spec.SetHeaders` then merges the default headers into every target. The HTTP client
(`rest.Client`) builds requests behind a method gate, signs them for the `execute-api`
service and wraps each dispatch in a `Result`.

The model has four modules:

- `Wrappers` (`wrappers.dfy`): `Option` and `Outcome`, the latter standing for Go's `error` results.
- `Strings` (`strings.dfy`): the parts of Go's `strings` and `unicode` packages the core calls, `ToUpper` and `TrimSpace` with `unicode.IsSpace`.
- `Runner` (`runner_spec.dfy`): `internal/runner/spec.go`, which updates its objects in place.
  - `RequestTarget`, `Spec` and the ID set (a Go map passed by reference) are classes.
  - Each method that changes state is proved against a pure function on values: `ValidateTarget`, `ValidateRequests`, `ValidateFrom`, `SetIfAbsent` and `WithDefaults`.
  - The lemmas state what those functions promise.
- `Rest` (`rest_client.dfy`): `rest/client.go`.
  - The method gate and the region default are functions.
  - `BuildRequest`, `SignRequest` and `SendRequest` are methods returning values.
  - The URL parser, the signer and the transport outcome are parameters.

## Model

| member | source | states |
|---|---|---|
| Strings.IsSpace | rest/client.go:80 | the white space `strings.TrimSpace` drops, as `unicode.IsSpace` defines it; space, tab, newline and carriage return are white space, letters and digits are not |
| Strings.ToUpper | internal/runner/spec.go:72 | `strings.ToUpper`: the result has the length of the input |
| Strings.ToUpperPointwise | internal/runner/spec.go:72 | each character of `ToUpper(s)` is the upper-case form of the character at the same position; no lower-case letter is left; white space is preserved |
| Strings.ToUpperIdempotent | rest/client.go:80 | upper-casing twice is upper-casing once |
| Strings.ToUpperFixed | internal/runner/spec.go:72 | a string without lower-case letters is its own upper-case form |
| Strings.TrimLeftRemovesSpacePrefix | rest/client.go:80 | left trimming drops a maximal white-space prefix and nothing else |
| Strings.TrimRightRemovesSpaceSuffix | rest/client.go:80 | right trimming drops a maximal white-space suffix and nothing else |
| Strings.TrimSpace | rest/client.go:80 | `strings.TrimSpace`: the result is no longer than the input and neither starts nor ends with white space |
| Strings.TrimSpaceIsInfix | rest/client.go:80 | `TrimSpace(s)` is a slice of `s` that neither starts nor ends with white space, and everything outside it is white space |
| Strings.TrimSpaceFixed | rest/client.go:80 | a string without white space at either end is left unchanged by trimming |
| Strings.TrimUpperIdempotent | rest/client.go:80 | trimming then upper-casing is stable under repetition |
| Rest.CanonicalMethod | rest/client.go:80 | the method as the client looks it up: no longer than the given one, without lower-case letters, without white space at either end |
| Rest.CanonicalMethodIdempotent | rest/client.go:80 | the client's canonical method is its own canonical form |
| Rest.IsSupported | rest/client.go:20-27 | a method passes the table lookup of lines 81-82 exactly when it is GET, HEAD, POST, PATCH, PUT or DELETE, by exact name |
| Rest.GateAcceptsMixedCase | rest/client_test.go:29-33 | "post", "Put" and "Patch" canonicalise to POST, PUT and PATCH and pass the gate |
| Rest.GateRefusesEmptyAndUnknown | rest/client_test.go:35-36 | the empty method and "WHAT" are refused |
| Rest.ValidatorMethodsPassGate | rest/client.go:20-27 | GET, POST and DELETE are canonical and pass the gate |
| Rest.BuildRequest | rest/client.go:79-107 | exactly one of request and error; a request iff the canonical method is supported and the URL parses; the unsupported-method error carries the canonical method; a URL error is passed through; the request carries the canonical method and the URL; a body iff bytes are given; headers are the given map wholesale, else empty |
| Rest.SigningRegion | rest/client.go:110-112 | the caller's region when non-empty, "eu-west-1" otherwise; never empty |
| Rest.SignRequest | rest/client.go:109-120 | the signer is called for service "execute-api" in the defaulted region, and its outcome is returned |
| Rest.SendRequest | rest/client.go:122-161 | a transport error gives the error and no response; a delivered response gives the response and no error; never both; the elapsed time is always kept |
| Runner.NormalizeMethod | internal/runner/spec.go:72-75 | the empty method becomes GET; any other method keeps its length and is upper-cased character by character; the result is never empty |
| Runner.NormalizeMethodIdempotent | internal/runner/spec.go:72-75 | a normalised method normalises to itself |
| Runner.NormalizeMethodCaseInsensitive | internal/runner/spec.go:72-75 | methods of equal length whose characters agree up to letter case normalise alike |
| Runner.NormalizeMethodExamples | internal/runner/spec.go:72-75 | "get", "Get", "GET" and the empty method all normalise to GET |
| Runner.NormalizeAWS | internal/runner/spec.go:91-109 | absent stays absent; bool or string gives profile "" and region "eu-west-1"; a map fills a missing profile with "default" and a missing region with "eu-west-1"; any other shape is untouched |
| Runner.NormalizeAWSIdempotent | internal/runner/spec.go:91-109 | resolving a resolved directive changes nothing |
| Runner.ShorthandIsMapWithEmptyProfile | internal/runner/spec.go:94-108 | the shorthand equals the map form with profile "" and differs from the empty map form, whose profile is "default" |
| Runner.ValidateTarget | internal/runner/spec.go:55-113 | validation keeps ID, URL, headers and body; the signing directive changes only on success; the method is either unchanged or normalised and allowed |
| Runner.ValidateTargetSucceedsIff | internal/runner/spec.go:55-113 | validation succeeds iff the ID is non-empty, space-free and unused, the normalised method is allowed, the URL parses and a POST has a body; then the target is well formed, and it is the given target with its method normalised and its directive resolved |
| Runner.ChecksShortCircuitInOrder | internal/runner/spec.go:58-88 | each check reports its own error and an earlier failing check hides the later ones; an ID failure or a refused method leaves the target unchanged; a URL or body failure leaves it with only its method normalised |
| Runner.PostWithoutBodyFails | internal/runner/spec.go:86-88 | a POST without a body never validates |
| Runner.OnlySpaceRefusedInID | internal/runner/spec.go:62-64 | an ID with a tab passes; an ID with a space is refused |
| Runner.NormalFormValidatesToItself | internal/runner/spec.go:55-113 | a well-formed target with a new ID, already normalised, validates to itself |
| Runner.RevalidationIsIdentity | internal/runner/spec.go:55-113 | validating a validated target again succeeds and changes nothing |
| Runner.ValidateAll | internal/runner/spec.go:145-150 | the pass over the targets against a growing ID set yields one result target per target, with the same IDs |
| Runner.ValidateRequests | internal/runner/spec.go:133-153 | a missing list and an empty list are their own errors; otherwise one result target per request |
| Runner.ValidatedTargetsWellFormedAndUnique | internal/runner/spec.go:133-153 | after a successful pass every target is well formed, no ID was in the initial set, and IDs are pairwise distinct |
| Runner.DuplicateIDsFail | internal/runner/spec.go:66-68 | two requests with the same ID make the whole spec fail |
| Runner.ValidateAllPassesIff | internal/runner/spec.go:145-152 | the pass succeeds iff every target validates against the IDs of the targets before it |
| Runner.ValidateAllPointwise | internal/runner/spec.go:145-150 | when every earlier target validates, result target `k` is target `k`'s own validation result against the IDs before it |
| Runner.ValidatedTargetKeepsFields | internal/runner/spec.go:145-150 | after a successful pass each target keeps its ID, URL, headers and body, with its own method normalised and its own directive resolved |
| Runner.ValidateAllReportsFirstFailure | internal/runner/spec.go:145-150 | a failing pass reports the first failing target's error; the targets before it validate and those after it are untouched |
| Runner.ValidateFrom | internal/runner/spec.go:143-152 | the pass run in place from position `i` keeps one target per position and leaves the targets before `i` as they were |
| Runner.ValidateFromAgrees | internal/runner/spec.go:143-152 | the in-place pass from position `i` keeps the targets before `i` and agrees with the recursive pass on the rest |
| Runner.SetIfAbsent | internal/runner/spec.go:41-49 | the headers gain `key`; existing values and keys are kept; `key` gets `value` only if it was absent |
| Runner.WithDefaults | internal/runner/spec.go:156-161 | the merged headers have the request's keys plus every default key; request values win; missing keys take the default; no defaults leaves the headers as they were |
| Runner.SetIfAbsentExtendsDefaults | internal/runner/spec.go:157-159 | setting one more default on merged headers merges the enlarged defaults |
| Runner.DefaultsAfterSetIfAbsent | internal/runner/spec.go:157-159 | merging defaults after one of them was already set gives the same merge |
| Runner.SetIfAbsentThenDefaults | internal/runner/spec.go:157-159 | setting one default first and merging the rest after merges all of them |
| Runner.AnyOrderYieldsDefaults | internal/runner/spec.go:156-161 | applying the defaults one at a time in any enumeration order yields the same merge |
| Runner.ValidatedMethodsAreBuildable | internal/runner/spec.go:77-80 | every method the validator stores is canonical for the client and passes its gate |
| Runner.ClientAcceptsMoreMethods | internal/runner/spec.go:77-79 | the client accepts "put", "patch" and "head", which the validator refuses |
| Runner.OnlyClientTrimsMethod | internal/runner/spec.go:72-79 | the client accepts " get ", which the validator refuses because it does not trim |
| Runner.IdSet.constructor | internal/runner/spec.go:143 | the ID set of one validation pass starts empty |
| Runner.RequestTarget.constructor | internal/runner/spec.go:25-35 | a new request object holds the given target |
| Runner.RequestTarget.TrySetHeader | internal/runner/spec.go:41-49 | the headers become `SetIfAbsent` of the old headers |
| Runner.RequestTarget.Validate | internal/runner/spec.go:55-113 | outcome and new state are `ValidateTarget` of the old state and old IDs; the ID set gains the ID only on success |
| Runner.RequestTarget.GetAWSSign | internal/runner/spec.go:115-121 | none iff the directive is absent, otherwise the resolved configuration |
| Runner.ValidateAt | internal/runner/spec.go:146 | validates request `i` in place and changes no other request |
| Runner.ValidateEach | internal/runner/spec.go:143-152 | outcome and final states are those of the in-place pass `ValidateFrom` from the initial states and an empty ID set |
| Runner.Spec.Validate | internal/runner/spec.go:133-153 | the outcome is `ValidateRequests` of the initial states; each request's new state is the matching validated target |
| Runner.SetHeaderEach | internal/runner/spec.go:158-160 | every request's headers become `SetIfAbsent` of its old headers; nothing else changes |
| Runner.MergeDefaults | internal/runner/spec.go:157-161 | every request's headers become `WithDefaults` of its old headers and the defaults; nothing else changes |
| Runner.Spec.SetHeaders | internal/runner/spec.go:156-161 | every request's headers become `WithDefaults` of its old headers and the spec's defaults |

## Left out

- `Strings.ToUpper` maps only the ASCII letters. Go's `strings.ToUpper` maps every Unicode letter, for example U+017F to 'S'.
- `rest.ParseURL` is not part of this model. It is a parameter of type `string -> Outcome<string>`, and its call signature also differs between the validator and the client's tests.
- `http.NewRequest`'s own failure is modelled by the same kind of URL-parser parameter.
- The SigV4 signature and credential lookup are a `Signer` parameter; only the region default and the service name are modelled.
- `SendRequest`'s dispatch, wall-clock timing and trace context are left out. The transport outcome and the elapsed time are inputs.
- Logging, including the header-printing loops in `SendRequest`, is left out.
- `Tracer` and `Report` are left out.
- `Client.Timeout` and `Client.Cert` are left out: they configure the library transport and load TLS key files.
- `NewClient` is left out.
- `Result`'s accessors are not part of this model.
- `main.go` only wires the command line and is not part of this model.
- Runtime panics become preconditions.
  - A non-string `profile` or `region` in the map form cannot be expressed: the map entries are `Option<string>`.
  - `RequestTarget.GetAWSSign` requires an absent or resolved directive, where Go's type assertion panics.
- `Runner.Spec.Validate`: requires that no request object is listed twice. Aliased pointers in `Requests` are not modelled; the source would validate such an object twice and report its second occurrence as a duplicate ID.
- `Runner.ValidateEach`: requires pairwise distinct request objects, for the same reason.
- `Runner.ValidateAt`: requires pairwise distinct request objects, for the same reason.
- `Runner.Spec.SetHeaders`: requires that no request object is listed twice. The source gives the same result on an aliased list, because setting a header only when absent is idempotent; the requirement only keeps the proof per object.
- `Runner.MergeDefaults`: requires pairwise distinct request objects, for the same reason as `Spec.SetHeaders`.
- `Runner.SetHeaderEach`: requires pairwise distinct request objects, for the same reason as `Spec.SetHeaders`.
- The JSON body is a datatype of which the validator only asks whether it is present. Decoding is not modelled.
- `AWSSign`/`NewAWSSign` is the datatype `Runner.AWSSign` and its constructor. It has no behaviour of its own to prove.
- The error message at internal/runner/spec.go:63 speaks of white space, but the check at line 62 refuses only the space character. The model follows the code; `Runner.OnlySpaceRefusedInID` states it.
