# AVPlayer custom User-Agent: resource-loader proxy, User-Agent builder, clock formatting

This project models, in Dafny, the three pieces of logic in the AVPlayerCustomUserAgent demo app:

- **The resource-loader delegate** (`CustomLoaderDelegate`). The player hands it loading requests.
  It keeps a body cache keyed by the URL the player asked for. On a hit it answers the request
  straight from the cached body. On a miss it fetches the URL again, with the scheme rewritten to
  `https` or `http`, and it answers the request when the fetch delivers. The asynchronous
  completion of the data task is a separate event, so the model is a sequential state machine
  (`ResourceLoader.Handle`, `ResourceLoader.Complete`, `ResourceLoader.Run`).
- **`finishRequestWithData`** (`RangeResponder`). It fills the content information, responds with
  either the whole body or the requested slice, and finishes the request once.
- **The completion guard of `fetch`** (`Fetch.Classify`). A body reaches `onData` only when there
  is no error, the body is present, and the response is HTTP with status 200.
- **`UserAgent.default`** (`UserAgent.Default`). The app name, versions, device model, system
  version and locale become a string of fixed shape. The Info.plist dictionary and the device
  facts are parameters, and `fatalError` becomes `None`.
- **`CMTime.humanDescription`** (`TimeFormat.HumanDescription`). It starts from the whole number
  of seconds. The fields come from Swift's truncating `/` and `%`, which are written out
  explicitly (`Quot`, `Rem`), and are printed as `H:MM:SS` or `MM:SS`.

Each operation has a partner it is proved against:
- scheme normalisation is checked against a reference substring predicate, and it is idempotent;
- range responses are checked against element-wise slicing, and adjacent ranges concatenate;
- the state machine keeps an invariant across every run of events, and scenario lemmas cover hit, miss, failure and delivery;
- the User-Agent string and the clock string each have a parser, with proved round trips.

The model follows the code as written. In particular, the code:
- starts one fetch per miss, so concurrent misses for one URL each start their own fetch (`MissesAreNotCoalesced`);
- does not report a failed fetch: nothing is cached, no outstanding fetch waits for the request any more, and so it is never answered unless the player hands it in again (`FailureAbandonsRequest`, `NeverAnswered`); a later request for the URL fetches again (`FailedFetchIsRetried`);
- answers a to-end request with the whole body, whatever its offset (`WholeRangeIsToEnd`);
- does not clamp a ranged request and never reports a range error; the slice traps when it is out of bounds, so the bound is a precondition here;
- always reports the content type `audio/mpeg`;
- keys the cache by the URL as requested, not by its normalised form;
- does not handle cancellation.

Files: `prelude.dfy` (Option, byte), `strings.dfy`, `urls.dfy`, `fetch.dfy`, `range_responder.dfy`,
`resource_loader.dfy`, `user_agent.dfy`, `time_format.dfy`.

## Model

| member | source | states |
|---|---|---|
| Strings.ContainsIsSubstring | AVPlayerCustomUserAgent/AvPlayerOverrideUserAgent.swift:45 | the substring search used on the scheme holds exactly when the text occurs at some index |
| Urls.FetchScheme | AVPlayerCustomUserAgent/AvPlayerOverrideUserAgent.swift:45 | the fetch scheme is "http" or "https", and it is "https" exactly when the original scheme (absent read as empty) contains "https" |
| Urls.Normalise | AVPlayerCustomUserAgent/AvPlayerOverrideUserAgent.swift:44-46 | the fetched URL has scheme http/https as above, and every other component equals the original's |
| Urls.NormaliseIdempotent | AVPlayerCustomUserAgent/AvPlayerOverrideUserAgent.swift:44-45 | normalising an already normalised URL changes nothing |
| Urls.NormaliseCollapsesSchemes | AVPlayerCustomUserAgent/AvPlayerOverrideUserAgent.swift:44-45 | two URLs are fetched from the same place iff they agree outside the scheme and both or neither scheme mentions "https" |
| Fetch.Classify | AVPlayerCustomUserAgent/AvPlayerOverrideUserAgent.swift:65-82 | `onData` gets the body iff there is no error, the body is present, and the response is HTTP 200; an error wins over everything; a non-200 status is reported as such |
| RangeResponder.ResponseBody | AVPlayerCustomUserAgent/AvPlayerOverrideUserAgent.swift:30-36 | a to-end request gets the whole buffer; a ranged request gets exactly `requestedLength` bytes, byte k being `data[offset + k]`; the slice must lie in the buffer |
| RangeResponder.FinishRequestWithData | AVPlayerCustomUserAgent/AvPlayerOverrideUserAgent.swift:24-39 | content info (no byte-range access, "audio/mpeg", length = buffer size) comes first when asked for; then exactly one response and exactly one finish, the finish last, all addressed to the request |
| RangeResponder.AdjacentRangesConcatenate | AVPlayerCustomUserAgent/AvPlayerOverrideUserAgent.swift:34-36 | the responses for two adjacent ranges, concatenated, are the response for their union |
| RangeResponder.WholeRangeIsToEnd | AVPlayerCustomUserAgent/AvPlayerOverrideUserAgent.swift:30-36 | a ranged request over the whole buffer gets the same bytes as a to-end request with any offset |
| RangeResponder.EmptyRangeAtEnd | AVPlayerCustomUserAgent/AvPlayerOverrideUserAgent.swift:34-36 | a zero-length range at the end of the buffer is in bounds and gets no bytes |
| ResourceLoader.Handle | AVPlayerCustomUserAgent/AvPlayerOverrideUserAgent.swift:22-54 | every request is claimed and the cache is unchanged; a request lacking URL or data request changes nothing; a hit starts no fetch and is answered from the cached body; a miss starts one fetch to the normalised URL under an identity no outstanding fetch holds, records the closure for the request, and answers nothing yet; every outstanding fetch is kept unchanged |
| ResourceLoader.Complete | AVPlayerCustomUserAgent/AvPlayerOverrideUserAgent.swift:46-82 | the fetch stops being outstanding; an undelivered outcome changes no cache entry and answers nothing; a delivered body is stored under the original URL (no other entry changes) and the waiting request is answered from the stored body |
| ResourceLoader.Step | AVPlayerCustomUserAgent/AvPlayerOverrideUserAgent.swift:22-54 | a request or a completion keeps every outstanding fetch's identity below the next one to be handed out |
| ResourceLoader.ValidStateAdmitsRequests | AVPlayerCustomUserAgent/AvPlayerOverrideUserAgent.swift:22-41 | in such a state a loading request can be handled exactly when the source would not trap on it |
| ResourceLoader.RunPreservesValid | AVPlayerCustomUserAgent/AvPlayerOverrideUserAgent.swift:22-54 | that invariant holds after any run of requests and completions, so a new fetch never replaces one still running |
| ResourceLoader.RunNeverEvicts | AVPlayerCustomUserAgent/AvPlayerOverrideUserAgent.swift:16-47 | no run of events removes a cache entry |
| ResourceLoader.RunFromInitialIsValid | AVPlayerCustomUserAgent/AvPlayerOverrideUserAgent.swift:16-20 | the delegate as created (empty cache, no data task) is valid, and so is every state a run from it reaches |
| ResourceLoader.RunFetchIdsAreFresh | AVPlayerCustomUserAgent/AvPlayerOverrideUserAgent.swift:42-50 | the fetches a run starts have strictly increasing identities at or above the starting counter; from a valid state none of them is an identity outstanding there |
| ResourceLoader.HitsNeverFetch | AVPlayerCustomUserAgent/AvPlayerOverrideUserAgent.swift:40-41 | any run of requests the cache can answer starts no fetch and leaves the delegate unchanged |
| ResourceLoader.MissesAreNotCoalesced | AVPlayerCustomUserAgent/AvPlayerOverrideUserAgent.swift:40-50 | two misses for one URL before any delivery start two fetches with distinct identities, both to the normalised URL, and leave the cache unchanged |
| ResourceLoader.FailedFetchIsRetried | AVPlayerCustomUserAgent/AvPlayerOverrideUserAgent.swift:40-82 | after a fetch that does not deliver, nothing is answered or cached, and a later, different request for the same URL starts a fresh fetch under the next identity |
| ResourceLoader.FailureAbandonsRequest | AVPlayerCustomUserAgent/AvPlayerOverrideUserAgent.swift:46-82 | after the fetch of a miss fails, nothing is answered or cached, the outstanding fetches are as before the miss, and none of them waits for that request |
| ResourceLoader.NeverAnswered | AVPlayerCustomUserAgent/AvPlayerOverrideUserAgent.swift:40-50 | a request no outstanding fetch waits for, and that no later event hands in, gets no reply in any run: only a hit or the completion of its own fetch answers a request |
| ResourceLoader.DeliveryThenHit | AVPlayerCustomUserAgent/AvPlayerOverrideUserAgent.swift:40-48 | a delivered body is cached under the original URL and answers the waiting request; a later request for that URL is answered from it with no further fetch |
| ResourceLoader.BackToBackRangedRequests | AVPlayerCustomUserAgent/AvPlayerOverrideUserAgent.swift:22-50 | two ranged requests splitting a resource, made before it is cached, start two fetches, numbered in order and both to the normalised URL; when both deliver, the body is cached under the original URL and each request gets its own slice |
| UserAgent.AppName | AVPlayerCustomUserAgent/UserAgent.swift:14-16 | the name is the display name when that key is present (failing if it is not a string), otherwise the bundle identifier when present and a string |
| UserAgent.FullVersion | AVPlayerCustomUserAgent/UserAgent.swift:22-25 | the marketing version, followed by "." and the build only when the build entry exists and is a string |
| UserAgent.Default | AVPlayerCustomUserAgent/UserAgent.swift:12-31 | succeeds iff the dictionary exists, a name is found and the marketing version is a string; the result has the fixed shape, starts with the name and "/", and ends with ")" |
| UserAgent.Format | AVPlayerCustomUserAgent/UserAgent.swift:30 | the string is the name, "/", and the other four parts with twelve fixed characters, the "iOS" tag among them, ending in ")" |
| UserAgent.ParseFormat | AVPlayerCustomUserAgent/UserAgent.swift:30 | a User-Agent string parses back into the parts it was built from, when no part contains the separator that ends it |
| UserAgent.DefaultStartsWithName | AVPlayerCustomUserAgent/UserAgent.swift:30 | the text before the first "/" of the result is the application name, when the name has no "/" |
| TimeFormat.Quot | AVPlayerCustomUserAgent/CMTime+Util.swift:21-22 | Swift's `/` by a positive divisor: the remainder left is in [0, d) for a non-negative dividend and in (-d, 0] for a negative one |
| TimeFormat.Rem | AVPlayerCustomUserAgent/CMTime+Util.swift:22-23 | Swift's `%` completes the quotient to the dividend and carries the dividend's sign |
| TimeFormat.Fields | AVPlayerCustomUserAgent/CMTime+Util.swift:20-23 | hours*3600 + minutes*60 + seconds equals the total; for a non-negative total, minutes and seconds are in [0, 60) and hours are positive iff the total is at least 3600 |
| TimeFormat.Decimal | AVPlayerCustomUserAgent/CMTime+Util.swift:26 | the decimal digits of a natural number: a non-empty run of digits, a single digit exactly below 10, with no leading zero; `FormatInt` prints them for the 32-bit value `%i` reads |
| TimeFormat.CInt | AVPlayerCustomUserAgent/CMTime+Util.swift:26 | the C `int` that `%i` reads from a Swift `Int`: in the 32-bit signed range, congruent to the argument modulo 2^32, and equal to it when it fits |
| TimeFormat.FormatInt | AVPlayerCustomUserAgent/CMTime+Util.swift:26 | `%i` prints a number in the 32-bit range as its digits, with "-" for a negative one, and a number in [2^31, 2^32) as the negative number it wraps to |
| TimeFormat.FormatIntPeriodic | AVPlayerCustomUserAgent/CMTime+Util.swift:26 | `%i` prints a number and that number plus 2^32 identically |
| TimeFormat.FormatInt2 | AVPlayerCustomUserAgent/CMTime+Util.swift:26-28 | `%02i` gives exactly two digits for 0..99, and a leading minus for a negative number |
| TimeFormat.HumanDescription | AVPlayerCustomUserAgent/CMTime+Util.swift:19-30 | from one hour up to 2^31 hours: the hour digits, ":", two digits, ":", two digits; below one hour: exactly five characters, two digits, ":", two digits |
| TimeFormat.HourFieldWraps | AVPlayerCustomUserAgent/CMTime+Util.swift:21-26 | from one hour on, adding 2^32 hours to a time does not change its clock string |
| TimeFormat.WrappedHoursCollide | AVPlayerCustomUserAgent/CMTime+Util.swift:19-30 | one hour and 2^32 + 1 hours are shown as the same string |
| TimeFormat.ParseDecimalOfDecimal | AVPlayerCustomUserAgent/CMTime+Util.swift:26 | reading the printed digits of a number gives the number back |
| TimeFormat.ParseFormatInt2 | AVPlayerCustomUserAgent/CMTime+Util.swift:26-28 | a printed two-digit field below 60 reads back as its value |
| TimeFormat.ParseHumanDescription | AVPlayerCustomUserAgent/CMTime+Util.swift:19-30 | reading the clock string of a non-negative time below 2^31 hours gives the time back |
| TimeFormat.HumanDescriptionInjective | AVPlayerCustomUserAgent/CMTime+Util.swift:19-30 | different non-negative times below 2^31 hours are shown as different strings |

## Left out

- The view controller (UIKit outlets, buttons, player and audio-session control, time observers, seeking): user-interface code with no logic of its own.
- `CMTime.timeWithOffset` and the conversion `Int(CMTimeGetSeconds(...))`: these are floating-point time arithmetic, so `humanDescription` starts from the whole number of seconds.
- Building and starting the network request (the User-Agent header, `task.resume()`) and the `print` diagnostics. A fetch is a `FetchOrder` effect, and its result is the abstract `FetchOutcome`.
- The Info.plist, device model, system version and locale lookups are parameters. The global delegate singleton is not modelled.
- Threading: the completion handler runs on a background queue and writes the unsynchronised cache. Each completion is modelled as one atomic event.
- Out-of-bounds ranged slices trap in the app. They are preconditions of `FinishRequestWithData`, `Handle` (on a hit) and `Complete` (on delivery), and `Run` yields `None` at such an event.
- A completion for a fetch that is not outstanding cannot happen, because each data task completes once. It is a precondition of `Complete`.
- `URLComponents` parsing and the force-unwrapped `components.url!` are assumed to succeed. URLs are compared component-wise.
- `String.contains` is modelled on plain characters, without Unicode canonical equivalence.
- Integer widths: `Int64(data.count)` cannot overflow, and within the bounds precondition `offset + length` cannot overflow either, so those use unbounded integers. The `%i` conversion reads a 32-bit C `int` and is modelled with that wrap-around (`CInt`).
- TimeFormat.HumanDescription: the output shape is stated only below 2^31 hours; from there the hour field wraps to a negative or smaller number (`HourFieldWraps`, `WrappedHoursCollide`).
- TimeFormat.ParseHumanDescription: the round trip is stated only for times below 2^31 hours, because larger hour counts wrap when printed.
- TimeFormat.HumanDescriptionInjective: distinct times are shown distinctly only below 2^31 hours; `WrappedHoursCollide` shows two larger times that collide.
- ResourceLoader.Handle: fetch identities are a counter, where the app uses a fresh closure per data task; `Handle` therefore requires that the next identity is not held by an outstanding fetch (`NextIdFree`); the delegate as created is valid, and every state a run reaches from a valid one has that property (`RunFromInitialIsValid`, `RunPreservesValid`, `ValidStateAdmitsRequests`).
- TimeFormat.HumanDescription: for negative times the fields and the `%02i` sign handling are modelled, but the output shape and the round trip are stated only for non-negative times.
