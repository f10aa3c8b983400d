# serene-front core, modelled in Dafny

serene-front is a small client library for RESTful services. Its core is
`fulfill`: it takes an *authority* (an object that can authenticate
requests and refresh its own credentials), a *request* (which prepares a
transport request and parses the response), a `fetch` function and a
*logger*. If the authority is not valid, `fulfill` refreshes it once. It
then makes at most `retryLimit + 1` attempts. Each attempt prepares a
request, has the authority authenticate it, and transmits what the
authority yields. A 401 answer makes it refresh the authority and try
again. Any other answer is parsed and returned. When every attempt gets a
401, `fulfill` throws the error 401 "Unauthorized" "Retry limit exceeded".
The logger is told about every step.

The model also covers three small value modules of the library. The array
utilities `append`, `remove` and `unique` copy their input. `Color` and
`LocationCoordinates` can be revived from JSON, written out as text and
turned back into JSON.

Files:

- `platform.dfy`: faults, results, transport requests and responses, and
  the REST error `fulfill` throws.
- `authority.dfy`: the `SereneAuthority` contract as a class. Its `refresh`
  and `authenticate` methods change its state in place. Also the reference
  implementation `NoAuthority`.
- `logger.dfy`: the four log events and a logger that records what it
  receives.
- `fulfill.dfy`: `Fulfill`, the imperative protocol over the collaborating
  objects, is proved equal to the function `Fulfillment`. `Fulfill` keeps
  the source's counted loop and its early `return`. Where the source
  `continue`s after a 401, one pass of the model's loop yields no result
  and the loop body ends.
- `fulfill_properties.dfy`: what the protocol promises, stated and proved
  about `Fulfillment`.
- `arrays.dfy`: `append`, `remove` (in-place splicing of a private copy,
  proved equal to a recursive reference definition) and `unique`.
- `json.dfy`: the JSON-like values that `revive` receives, the errors it
  throws, and template-literal text.
- `color.dfy`, `location.dfy`: `Color` and `LocationCoordinates`.

Each collaborator of `fulfill` is a class whose behaviour is a parameter.
The parameter says what the authority's n-th `refresh` and n-th
`authenticate` do, what the transport answers to the n-th request, whether
the logger's n-th delivery throws, and what `parse` makes of a response.
For the request, the transport and the logger every behaviour of a real
collaborator is one such choice. The authority is narrower than the
`SereneAuthority` interface: in the model `isValid` changes only when
`refresh` runs, and `authenticate` changes no state and yields the given
request with the current credential, no value, or a fault. The lemmas about
call counts and call order do not depend on this, because `isValid` and
`retryLimit` are read before the first `authenticate`. Each call is counted on the collaborator
itself, so the number of `prepare`, `refresh` and `fetch` calls is read off
the objects after the call.

Numbers in `Color` and `LocationCoordinates` are reals. A text that
interpolates numbers is a sequence of literal pieces and number pieces.
`Render` writes such a text out with any number-to-string conversion the
caller supplies, so the lemmas about text hold for every conversion.

Where the documentation and the code differ, the model follows the code:

- The comment on `retryLimit` (lib/authority.ts:48-52) says it is the
  number of refreshes allowed after a failed request. The code makes
  `retryLimit + 1` attempts. If all of them get a 401, it refreshes
  `retryLimit + 1` times, plus the entry refresh. `FulfillmentEffects`
  states the code's counts.
- `authenticate` is declared to return `Promise<void>` (lib/authority.ts:78).
  Yet `fulfill` transmits whatever it yields (lib/fulfill.ts:73-75). The
  model lets an authority yield an authenticated request or no value.
  `NoAuthority` yields no value, so with it the transport receives no
  request at all (`NoAuthorityTransmitsNoRequest`). Whatever a real `fetch`
  does with `undefined` is not part of this model.
- `retryLimit` is read once, after the entry refresh (lib/fulfill.ts:70),
  so a refresh inside the loop cannot change the number of attempts.
  `LimitRead` names that value.

## Model

| member | source | states |
|---|---|---|
| Fulfill.Fulfill | lib/fulfill.ts:60-85 | The imperative call (entry refresh, counted loop in which an attempt answered by 401 yields no result so the next pass begins, early return of `parse`'s result, exhaustion error) returns the outcome and leaves every collaborator in the state that `Fulfillment` prescribes, with the same order of calls |
| Fulfill.RefreshIfInvalid | lib/fulfill.ts:66-69 | An authority that is not valid is announced by `willRefreshAuthority` without a retry index and refreshed once. A valid one is left alone. A throwing logger or refresh ends the call |
| Fulfill.Try | lib/fulfill.ts:71-82 | One pass of the loop does prepare, `willAuthenticate`, authenticate, `willFetch`, fetch, and then either `willRefreshAuthority` with the retry index and refresh (on 401), or `willParse` and parse. Any fault ends the call |
| Fulfill.StaleAuthorization | lib/fulfill.ts:76 | The retry test "not ok and status 401" holds exactly when the status is 401 |
| Fulfill.SereneRequest.Prepare | lib/fulfill.ts:71 | `prepare` makes a fresh unauthenticated request on every call and counts the call |
| Fulfill.SereneRequest.constructor | lib/fulfill.ts:62 | A request with a given `parse` that has prepared nothing yet |
| Fulfill.Transport.Fetch | lib/fulfill.ts:75 | The transport records what it is given and answers the n-th request with the n-th reply, a response or a fault |
| Fulfill.Transport.constructor | lib/fulfill.ts:63 | A transport with given replies that has been given nothing yet |
| Logger.SereneLogger.Log | lib/logger.ts:36 | Delivering an event appends it to what the logger has received. The n-th delivery throws the n-th scripted fault, if any |
| Logger.SereneLogger.constructor | lib/logger.ts:36 | A logger with given faults that has received nothing |
| Logger.SereneLogger.NoLogger | lib/logger.ts:41 | `noLogger` never throws |
| Authority.SereneAuthority.constructor | lib/authority.ts:47-58 | An authority with given validity, retry limit and behaviour, not yet refreshed or used |
| Authority.SereneAuthority.NoAuthority | lib/authority.ts:84-94 | `NoAuthority` is valid and allows no retry |
| Authority.SereneAuthority.Refresh | lib/authority.ts:60-68 | `refresh` renews validity, retry limit and credentials, or throws, as the authority's behaviour says |
| Authority.SereneAuthority.Authenticate | lib/authority.ts:70-78 | `authenticate` yields the request with the current credential, no value, or throws, and changes nothing else |
| Authority.RefreshDecidesValidity | lib/authority.ts:54-68 | Of the model's authority: after a successful refresh, validity is what the renewal says. A failed refresh changes nothing but the call count and passes its fault on |
| Authority.AuthenticateKeepsState | lib/authority.ts:70-78 | Of the model's authority, whose `authenticate` is narrower than the interface: it never changes validity, retry limit or credentials. A request it yields is the given one with a credential. It fails exactly when its behaviour throws |
| Authority.NoAuthorityIsInert | lib/authority.ts:96-102 | `NoAuthority`'s `refresh` and `authenticate` never throw and keep it valid with retry limit 0. `authenticate` yields no value |
| FulfillProperties.AttemptEffects | lib/fulfill.ts:71-82 | Every attempt prepares exactly one request. It transmits at most one, refreshes at most once and only after transmitting. A parsed result names the attempt and follows no refresh |
| FulfillProperties.UnauthorizedRetries | lib/fulfill.ts:71-79 | An attempt leads to another exactly when nothing throws and the answer is 401. Its steps are then exactly the seven steps of a retry, in order, with the retry index in the event |
| FulfillProperties.OtherResponsesAreParsed | lib/fulfill.ts:76-82 | Any answer other than 401, a not-ok one included, is announced by `willParse` and parsed on the same attempt without a refresh. The call returns `parse`'s result or fault |
| FulfillProperties.LoopCounts | lib/fulfill.ts:70-83 | From attempt `retry` to `limit`: at most one attempt per index, one `prepare` per attempt, at most one transmission each, and at most one refresh per transmission |
| FulfillProperties.LoopEffects | lib/fulfill.ts:70-84 | Exhaustion follows exactly `limit + 1 - retry` transmissions and refreshes. A parsed result on attempt k follows exactly one refresh per earlier attempt |
| FulfillProperties.EntryRefresh | lib/fulfill.ts:66-69 | A valid authority is not refreshed before the first `prepare`. One that is not valid gets the event without a retry index, then one refresh. If the logger or the refresh throws, nothing is prepared or transmitted |
| FulfillProperties.FulfillmentEffects | lib/fulfill.ts:66-84 | At most `LimitRead + 1` attempts. Exhaustion carries 401 "Unauthorized" "Retry limit exceeded" after exactly `LimitRead + 1` transmissions and as many refreshes after 401s, plus the entry refresh. A result from attempt k follows k + 1 transmissions |
| FulfillProperties.LoopAllUnauthorized | lib/fulfill.ts:70-84 | When nothing throws and every answer is 401, the loop ends in exhaustion |
| FulfillProperties.AllUnauthorizedExhausts | lib/fulfill.ts:70-84 | When nothing throws and every answer is 401, the call throws the exhaustion error after `LimitRead + 1` transmissions, whatever later refreshes do to the retry limit |
| FulfillProperties.FirstAnswerParsed | lib/fulfill.ts:70-82 | For a valid authority, a first answer other than 401 is parsed on attempt 0 after one transmission and no refresh |
| FulfillProperties.UnauthorizedThenOk | lib/fulfill.ts:70-82 | With retry limit 1, a 401 followed by a 200 gives `parse`'s value on attempt 1, after two transmissions and one refresh |
| FulfillProperties.AttemptPropagates | lib/fulfill.ts:71-82 | An attempt that ends the call ends it with the fault its failing collaborator threw, and that call is the attempt's last step |
| FulfillProperties.LoopPropagates | lib/fulfill.ts:70-84 | A failed loop ends with the very fault the failing collaborator threw, and that call is the loop's last step |
| FulfillProperties.FailurePropagates | lib/fulfill.ts:66-84 | A fault from the logger, `refresh`, `authenticate`, the transport or `parse` ends the call with that fault, at that step, and nothing is attempted after it |
| FulfillProperties.LoopKeepsValid | lib/fulfill.ts:70-82 | When every refresh validates, a valid authority stays valid through the loop |
| FulfillProperties.BecomesValid | lib/fulfill.ts:66-69 | An authority that is not valid and is validated by refreshing is valid when the call returns, once the entry refresh is reached |
| FulfillProperties.NoAuthorityOneAttempt | lib/fulfill.ts:66-70 | With `NoAuthority` there is no entry refresh, exactly one `prepare` and at most one transmission, and a result can only come from attempt 0 |
| FulfillProperties.NoAuthorityTransmitsNoRequest | lib/authority.ts:100-102 | With `NoAuthority` the transport is given nothing, or "no value" once, never a prepared request |
| Arrays.Append | lib/collections/arrays.ts:27-32 | The result is the array followed by the elements |
| Arrays.IndexOf | lib/collections/arrays.ts:45 | `indexOf` gives -1 exactly when the element is absent. Otherwise it gives an index holding the element with no earlier occurrence |
| Arrays.SpliceRemovesFirst | lib/collections/arrays.ts:45-50 | Splicing out the index `indexOf` finds deletes the element's first occurrence |
| Arrays.RemoveFirstAbsent | lib/collections/arrays.ts:46-49 | An element not found leaves the copy unchanged |
| Arrays.Remove | lib/collections/arrays.ts:42-53 | The splicing loop over a private copy computes `RemoveEach`: for each element in turn, its first remaining occurrence is deleted |
| Arrays.RemoveFirstMultiset | lib/collections/arrays.ts:45-50 | One step of `remove` takes one occurrence of the element away, if there is one, and nothing else |
| Arrays.RemoveEachMultiset | lib/collections/arrays.ts:34-53 | `remove` is multiset difference: the result holds the array's elements minus those named, counted with multiplicity. Its length is the size of that difference |
| Arrays.RemoveEachAbsent | lib/collections/arrays.ts:38-40 | Elements not found in the array are ignored. If none is found, the result is the array |
| Arrays.RemoveEachSubsequence | lib/collections/arrays.ts:42-53 | The result keeps the array's order: it is the array with some positions deleted |
| Arrays.RemoveUndoesAppend | lib/collections/arrays.ts:27-53 | Removing the elements just appended gives back the array's elements as a multiset (the order can change: appending 1 to 1, 2 and removing 1 gives 2, 1) |
| Arrays.RemoveExample | test/collections/arrays.test.ts:45-56 | Removing 2, 4 (and 6) from 1, 2, 3, 4 leaves 1, 3 |
| Arrays.Unique | lib/collections/arrays.ts:61-63 | The result has no duplicates and holds exactly the array's elements |
| Arrays.UniqueKeepsFirstOccurrenceOrder | lib/collections/arrays.ts:61-63 | The elements come in the order of their first occurrence in the array |
| Arrays.UniqueOfDistinct | lib/collections/arrays.ts:61-63 | An array without duplicates is its own result |
| Arrays.UniqueIdempotent | lib/collections/arrays.ts:61-63 | Applying `unique` twice is the same as applying it once |
| Json.Get | lib/data/color.ts:123 | Reading a property that is absent gives `undefined` |
| Colors.ComponentOf | lib/data/color.ts:122-134 | A component is accepted exactly when it is absent or a number in [0, 1]. An absent one gives the default, a present one comes through unchanged. A non-number gives "not a number", a number outside [0, 1] a range error |
| Colors.Revive | lib/data/color.ts:39-49 | Anything but a non-null object is rejected. An object is accepted exactly when all four components are acceptable. The result is a valid colour with red, green and blue defaulting to 0 and alpha to 1 |
| Colors.ReviveDefaults | test/data/color.test.ts:26-32 | Reviving the empty object gives opaque black |
| Colors.ReviveReportsFirstRejected | lib/data/color.ts:43-48 | A rejected object names the first key, in the order red, green, blue, alpha, whose value is not acceptable, with the error that fits that value |
| Colors.Round | lib/data/color.ts:76 | `Math.round` gives the integer within one half of its argument, halves rounded up |
| Colors.Scale | lib/data/color.ts:76 | A component in [0, 1] scales to a value from 0 to 255 |
| Colors.Rgb | lib/data/color.ts:69-79 | Each of the three scaled components is within one half of 255 times its component, and lies in 0..255 for a valid colour |
| Colors.RgbComponents | lib/data/color.ts:69-79 | The loop that scales a three-slot buffer in place computes the scaled red, green and blue |
| Colors.CssColor | lib/data/color.ts:84-92 | The CSS text starts `rgb(` exactly when alpha is 1. It interpolates the scaled components, followed by alpha only when alpha is not 1 |
| Colors.CssColorRendering | lib/data/color.ts:84-92 | Written out, the CSS text is `rgb(r, g, b)` when alpha is 1 and `rgba(r, g, b, alpha)` otherwise |
| Colors.CssColorExamples | test/data/color.test.ts:64-68 | White is `rgb(255, 255, 255)` and half-transparent black is `rgba(0, 0, 0, 0.5)` |
| Colors.ToString | lib/data/color.ts:97-99 | The string form is the CSS form: written out with any number-to-string conversion it is `rgb(r, g, b)` with the scaled components when alpha is 1, and `rgba(r, g, b, alpha)` otherwise |
| Colors.ToJson | lib/data/color.ts:104-111 | The JSON form has exactly the keys red, green, blue and alpha, holding the components |
| Colors.ReviveToJson | lib/data/color.ts:104-111 | Reviving the JSON form of a valid colour gives the colour back |
| Colors.ReviveIsStable | lib/data/color.ts:39-49 | A revived colour survives a trip through its JSON form unchanged |
| Colors.ReviveToJsonRejectsInvalid | lib/data/color.ts:130-132 | The JSON form of a colour with a component outside [0, 1] is rejected |
| Locations.CoordinateOf | lib/data/location.ts:143-149 | A coordinate is accepted exactly when it is a number, and then comes through unchanged. Anything else, absent included, gives "not a number" for that key |
| Locations.Revive | lib/data/location.ts:51-59 | Anything but a non-null object is rejected. An object is accepted exactly when latitude and longitude are both numbers, and the result holds them unchanged |
| Locations.ReviveReportsLatitudeFirst | lib/data/location.ts:55-58 | A rejected object names latitude whenever latitude is not a number, even if longitude is not one either, and longitude otherwise |
| Locations.UrlPair | lib/data/location.ts:75-77 | The URL pair interpolates the latitude and then the longitude |
| Locations.UrlPairRendering | lib/data/location.ts:75-77 | Written out, the URL pair is the latitude text, a comma, then the longitude text |
| Locations.ToJson | lib/data/location.ts:128-133 | The JSON form has exactly the keys latitude and longitude, holding the coordinates |
| Locations.ReviveToJson | lib/data/location.ts:128-133 | Reviving the JSON form gives the coordinates back |
| Locations.ToJsonOfRevived | lib/data/location.ts:51-58 | The JSON form of revived coordinates agrees with the input on latitude and longitude |

## Left out

- Concurrency: `fulfill` awaits each collaborator in turn. The model runs them in sequence, which is the order the awaits impose.
- What `refresh`, `prepare`, `parse` and the transport do inside is not modelled. Each is a parameter, as above. The network transport `defaultFetch` and the files defining `SereneRequest` and `RESTError` are not part of this model.
- `prepare` is assumed not to throw. `parse`'s result is modelled as an integer.
- The `authority` carried by the events is always the call's one authority, so it is left out of the event datatype.
- `refresh` receives the transport so that it can do network work of its own. The model's transport and its count of sent requests cover only `fulfill`'s own transmissions, so a `refresh` that fetches is not modelled.
- Authority.SereneAuthority.Authenticate: the interface lets `authenticate` change the authority's state or return any request. The model's `authenticate` changes only its call count and yields the given request with the current credential, no value, or a fault.
- Authority.SereneAuthority.Refresh: in the model `isValid` changes only when `refresh` runs. A real `isValid` getter may lapse on its own, for instance when a token expires.
- FulfillProperties.BecomesValid: holds only for the model's authority, whose `isValid` cannot lapse and which `authenticate` cannot change.
- FulfillProperties.LoopKeepsValid: holds only for the model's authority, as for BecomesValid.
- Authority.AuthorityState: `retryLimit` is a natural number. In the source it is a JavaScript number compared by `retry <= retryLimit` (lib/fulfill.ts:70). A negative or NaN limit makes no attempt and throws the exhaustion error without transmitting. A fractional limit gives its floor plus one attempts. An infinite limit retries 401s forever. None of these is modelled.
- FulfillProperties.FulfillmentEffects: the counts of attempts and transmissions hold for a `retryLimit` that is a natural number only. With a limit of -1 the source throws the exhaustion error after no transmission at all.
- `verboseConsoleLogger` (lib/logger.ts:48-63) writes to the console and is not modelled.
- The URL, header and search-parameter helpers in lib/urls are thin wrappers over the platform's `URL` and `Headers` objects and are not modelled.
- `LocationCoordinates.truncate`, `distanceTo` and `parseCoordinate`, and the models in lib/models/location.ts, depend on floating-point functions (`floor`, `pow`, trigonometry, `parseFloat`) and are not modelled. `LocationCoordinates.toString` is debugging text and is not modelled.
- Colors.Round: Math.round on doubles is modelled on reals, so NaN, infinities, negative zero and binary rounding of `c * 255` are not captured.
- Colors.CssColorRendering: how JavaScript writes a number as text is a parameter, so the exact digits are not modelled.
- Colors.ToString: how JavaScript writes a number as text is a parameter, so the exact digits are not modelled.
- Locations.UrlPairRendering: how JavaScript writes a number as text is a parameter, so the exact digits are not modelled.
- Colors.ToJson: the key order that `JSON.stringify` would use is not captured, because a JSON object is modelled as a map.
- Locations.ToJson: the key order (latitude, then longitude) that `JSON.stringify` would use is not captured, because a JSON object is modelled as a map.
- Colors.Revive: NaN passes the source's range check, because both comparisons with NaN are false. Numbers are reals here, so this case is not modelled. Arrays and other objects pass the "is an object" test just as plain objects do. Only plain objects with properties are modelled.
- Locations.Revive: NaN and infinities count as numbers in the source and are not modelled.
- Arrays.Remove: `indexOf` compares with `===`, which is identity for objects and never matches NaN. Here equality is value equality.
- Arrays.Unique: a JavaScript `Set` compares with SameValueZero. Here equality is value equality.
- The array utilities take sequences, so "the input array is not modified" holds by construction and is not stated separately.
