# Verification of the go-spiffe core

This project models four cores of the Go library for SPIFFE and proves properties of the models with
Dafny 4.11. `dafny verify dfyconfig.toml` checks everything.

| modules | what they model |
|---|---|
| `WatcherProtocol`, `WatcherInvariant`, `WatcherSafety`, `WatcherRuns`, `WatcherClose` | the goroutines of `newWatcher` and `NewWITSource`, their channels, and `Close`, as a state machine in which one event is one atomic step of one goroutine |
| `WatchLoop` | the reconnect loops with their backoff, as loops over what the server and the clock do |
| `SvidSelection` | the parse loops that select SVIDs by hint, and the X.509 source that serves the default one |
| `IdErrors`, `PathSyntax`, `SpiffeId` | the SPIFFE ID grammar: scanner, joiner, parsers, appending and replacing, for both builds of the character sets |
| `PublicKeys`, `Certificates`, `CertSlices` | key maps as shared tables, certificate lists, and Go slices of certificates (backing array, length, capacity) |
| `X509Bundle`, `JwtBundle`, `BundleSet` | the X.509 and JWT bundles over that memory, and the sorted set of bundles |
| `SpiffeBundle`, `RefreshHint` | SPIFFE bundles, their equality, and their documents, with int64 arithmetic for refresh hints |
| `BundleSource` | the merged bundle cache |
| `BundleProgram` | any program over slices, maps, bundles and sources, which behaves as if they were values |
| `FederationWatch` | the bundle endpoint watch |

The imperative parts are methods and classes proved against specification functions; the lemmas
prove what those functions promise. A char of a Dafny string stands for one byte of a Go string.

## Main results

- **Watcher, every schedule.** Success means that each enabled stream has stored an update; failure
  leaves no goroutine, no open context and no client of its own, and has one of three reasons; a stream
  gives up only after one of the codes that are not retried or a cancellation; sends on the error channel never
  block; no triggered update goes unannounced; `Close` is final and terminates on every schedule. The
  channel holds a token iff some update was triggered after it was last taken; hence a fresh watcher
  holds none while no stream has begun a second update, and a concrete schedule shows that this
  hypothesis is needed.
- **Reconnect loop.** The trace is fixed completely by the inputs: one callback for each response and
  each ended stream, in order, and a delay of min(k, 30) seconds after the k-th failure in a row.
- **SPIFFE IDs.** The one-pass path scanner equals splitting at slashes and checking each segment, down
  to the error; every ID a program can build parses back to itself; appending in two steps equals
  appending at once on exactly the inputs named.
- **Bundles.** Any program over slices, key maps, bundles of three kinds and bundle sources behaves as if
  they were values, although removal and append work in place and references are handed around; a
  document round trip is described in every case, and lossless on exactly the bundles named; the hints
  that survive are named exactly as well.
- **Cache and federation watch.** The merge-then-delete loops amount to a replacement; the watch
  delivers the fetch history without stuttering.

## Where code and documentation differ

- `SetRefreshHint` (bundle/spiffebundle/bundle.go:368-369) is documented to truncate the hint to
  seconds. The code stores it unchanged, and `Marshal` rounds it up; the model follows the code. The stored
  hint is the truncated one iff it is whole seconds (`SpiffeBundle.Bundle.SetRefreshHint`); the document
  holds the truncated one on exactly the hints of `RefreshHint.RoundTripTruncatesIff`.
- `WatchBundle` (federation/watch.go:36-37) is documented to return when the context is canceled. It
  does, after at most one more fetch; an expired deadline is tested for in the select only, where the
  timer may be preferred (`FederationWatch.DeadlineNeedNotStop`).
- `AppendPath` twice equals `AppendPath` of the concatenation, for a valid first path, iff that path is empty
  or the second one is empty or rooted; for an invalid one iff its error survives the concatenation, which
  only a last segment that is empty or a dot can fail to do (`SpiffeId.AppendPathLawIff`).
- A bundle takes keys of any type, but `Marshal` fails on one that has no JSON form
  (`SpiffeBundle.DocumentRoundTrip`).
- `Equal` is not reflexive on a bundle with a key of an unsupported type
  (`SpiffeBundle.EqualIsAnEquivalence` has the exact condition).
- Refresh hints outside 0 to 9223372035 whole seconds do not survive marshalling unchanged, and above
  9223372035 seconds and a fraction the rounding overflows (`RefreshHint.UnchangedIff`, `RefreshHint.RoundsUpIff`).
- Bundle documents without any authority cannot be parsed back, because section 4.1.3 of the SPIFFE Trust
  Domain and Bundle standard, as coded, rejects a missing key list that `Marshal` writes as null.

## Assumptions

- A gRPC stream whose context is cancelled delivers finitely many buffered responses and then ends, with
  any status; connecting with a cancelled context fails with Canceled. Nothing is assumed before that.
- A mutex-protected method is one atomic step, except `closeBase`, whose steps are modelled one by one.
- Certificates are their raw bytes, and public keys are values; which keys have a JSON form and which key a
  certificate has are parameters, and a key with a JSON form is decoded to itself.

## Model

| member | source | states |
|---|---|---|
| WatcherSafety.SuccessMeansUpdated | workloadapi/watcher.go:101-174 | in every schedule the constructor succeeds only after each enabled stream has applied an update and closed its "set" channel once |
| WatcherSafety.FailureCleansUp | workloadapi/watcher.go:111-165 | a failed constructor has cancelled the watch context if it was made, left no goroutine running, closed a client it created exactly once, and returns that closing error |
| WatcherSafety.NothingClosedTwice | workloadapi/watcher.go:176-206 | a supplied client is never closed, an owned one at most once, a "set" channel at most once over any number of updates |
| WatcherSafety.SendNeverBlocks | workloadapi/watcher.go:128-161 | errCh never holds more than two errors and a goroutine about to send always can |
| WatcherSafety.TriggeredIsAnnounced | workloadapi/watcher.go:30-51 | after a trigger step the token stays, until some receive or drain takes it at a moment when the triggered update has been applied |
| WatcherSafety.ReaderIsNotBehind | workloadapi/watcher.go:187-206 | without a token, whoever took it last saw every triggered update of both streams |
| WatcherSafety.TokenIff | workloadapi/watcher.go:30-51 | in every run the channel holds a token iff some update was triggered after the last receive or drain |
| WatcherSafety.QuietAfterConstruction | workloadapi/watcher.go:151-171 | while no stream has begun a second update, the update channel is empty once the constructor has succeeded |
| WatcherSafety.SecondUpdateCanWake | workloadapi/watcher.go:167-171 | a schedule in which a second update, stored before the drain and triggered after it, leaves a token for a reader that has missed nothing |
| WatcherSafety.CloseIsFinal | workloadapi/watcher.go:57-71 | after Close has completed no stream steps again in any continuation, the client is not closed again, and every Close returns the first error |
| WatcherSafety.StepKeepsApplied | workloadapi/watcher.go:30-42 | no step loses an applied or triggered update, and only a receive or the drain removes the token |
| WatcherClose.CloseTerminates | workloadapi/watcher.go:59-71 | after cancellation the steps of the streams and of Close are bounded by a measure whichever select arms are taken, and when none is left Close has returned and no goroutine lives |
| WatcherClose.CloseNeverStuck | workloadapi/watcher.go:59-71 | while Close is under way, some step it waits for is enabled |
| WatcherClose.WorkShrinks | workloadapi/client.go:524-572 | after cancellation every step of a stream or of Close decreases the measure and no other step changes it |
| WatcherClose.StreamShrinks | workloadapi/client.go:547-572 | each step of a cancelled stream decreases its measure, for responses, parse errors, retries and both arms of the backoff select |
| WatcherInvariant.StepKeepsInv | workloadapi/witsource.go:39-115 | every step of either constructor, of a stream, of Close and of a consumer keeps the invariant |
| WatcherInvariant.CtorKeepsSide | workloadapi/witsource.go:79-115 | each constructor step keeps what is known of a stream: not running before its start, announced once its wait is over, for both spawning orders |
| WatcherInvariant.CtorKeepsCloser | workloadapi/watcher.go:111-143 | each constructor step keeps the facts about context, client ownership and Close |
| WatcherInvariant.CloserKeepsInv | workloadapi/watcher.go:59-71 | each step of closeBase keeps: cancel before Wait before closing the client, one close of an owned client, one error for all callers |
| WatcherInvariant.StreamKeepsInv | workloadapi/watcher.go:187-206 | a stream has at most one update under way, triggers it before it closes the "set" channel, and closes that channel once |
| WatcherInvariant.ReachableInv | workloadapi/watcher.go:101-174 | the invariant holds in every reachable state of every configuration |
| WatcherRuns.StreamEndsFor | workloadapi/client.go:158-168 | in every run a stream gives up only after Canceled, InvalidArgument or, in a WIT source, Unimplemented, or after seeing the watch context cancelled; any other end makes it wait |
| WatcherRuns.NextAction | workloadapi/client.go:524-572 | the order of a stream's steps in every run: an update is stored, triggered, announced; an end is reported before it is decided on; a timer that fires leads to a new connection |
| WatcherRuns.CountersCount | workloadapi/watcher.go:187-211 | over every run the counters are the numbers of updates begun, stored and triggered and of errors reported |
| WatcherRuns.FailureHasReason | workloadapi/watcher.go:111-165 | a constructor fails only because the client could not be made, a stream has given up, or its context is done |
| WatcherRuns.ContextDoneIff | workloadapi/watcher.go:151-165 | the constructor's context is done iff that event has happened |
| WatcherRuns.SpawnOrder | workloadapi/witsource.go:79-115 | newWatcher starts the second stream after the first is set, NewWITSource starts both before it waits |
| WatcherRuns.ServerIsFree | workloadapi/client.go:547-572 | before cancellation any connection may fail or hold and any message or end may arrive |
| WatcherRuns.CallerIsFree | workloadapi/watcher.go:44-71 | after success a caller may close at any time and take any token, and then sees all that is stored |
| WatcherRuns.ConstructorIsFree | workloadapi/watcher.go:130-149 | the waiting constructor can take exactly the arms of its select that are ready |
| WatcherRuns.CloseErrorIsClients | workloadapi/watcher.go:59-71 | the error that Close returns is the one that closing the client gave |
| WatcherRuns.ClosedIsCancelled | workloadapi/watcher.go:59-71 | a closed watcher has cancelled its context and joined every stream |
| WatchLoop.Watch | workloadapi/client.go:158-168 | for every sequence of responses, stream ends and wake-ups the actions are exactly the specified trace and the result is the specified exit |
| WatchLoop.TryOnce | workloadapi/client.go:287-300 | one trip around the loop reports each response and the end of the stream, retries or exits as specified, with Unimplemented final for the WIT loops only |
| WatchLoop.WatchStream | workloadapi/client.go:557-571 | one callback per response in order, and any received message resets the backoff |
| WatchLoop.HandleWatchError | workloadapi/client.go:524-545 | Canceled and InvalidArgument end the watch with that error and without a delay; otherwise one delay is requested and the context may end it |
| WatchLoop.KthDelay | workloadapi/backoff.go:46-55 | the k-th failure in a row asks for min(k, 30) seconds as the last action of its attempt, and a received message begins a new row |
| WatchLoop.OneCallbackPerEvent | workloadapi/client.go:547-572 | the callbacks of a trace are the responses and stream ends of its attempts, each once and in order |
| WatchLoop.DelayAfterSilence | workloadapi/backoff.go:46-55 | the k-th failed attempt since the last received message, or since the start, counts as k for the delay |
| WatchLoop.EndsIff | workloadapi/client.go:524-545 | the watch ends with the first attempt that failed with Canceled, InvalidArgument or, for WIT, Unimplemented, with that code and no delay, or that found its context done, with its error and after the delay |
| WatchLoop.OutcomeHasCause | workloadapi/client.go:287-300 | the watch goes on iff no attempt has such a code or a done context, and no other code is ever returned |
| WatchLoop.AttemptIsTold | workloadapi/client.go:547-572 | the actions of an attempt one by one: each response by its own callback with its own contents, then the end of the stream with its code |
| WatchLoop.TraceIsCausal | workloadapi/client.go:158-168 | what happens later never changes the actions taken before |
| SvidSelection.ParseSVIDs | workloadapi/client.go:693-723 | the result is that of parsing, in order, the entries without hint or first with their hint, and only such entries are parsed |
| SvidSelection.CountingIsKept | workloadapi/client.go:702-720 | each entry that counts is kept, right after those before it that count |
| SvidSelection.KeptCounts | workloadapi/client.go:789-806 | nothing else is kept, and the order is that of the response |
| SvidSelection.KeptHintsDiffer | workloadapi/client.go:706-712 | no two kept entries share a hint |
| SvidSelection.EveryHintKept | workloadapi/client.go:433-438 | each hint is served by the first entry that uses it, each unhinted entry by itself |
| SvidSelection.SelectedIff | workloadapi/client.go:420-460 | parsing succeeds iff the response is not empty and every entry that counts parses, and a success is never empty |
| SvidSelection.SelectedAt | workloadapi/client.go:702-720 | each SVID of the result is the parse of its own entry, with its own hint |
| SvidSelection.FirstFaultIsReported | workloadapi/client.go:693-723 | a failure is NoSvids for an empty response, otherwise the fault of the first bad entry that counts |
| SvidSelection.FirstOnlyIsFirst | workloadapi/client.go:690-700 | the first-only call gives the first entry parsed, or its fault, whatever the others are |
| SvidSelection.FirstOnlyIsHead | workloadapi/client.go:690-700 | the first-only call returns the head of the full result whenever the full call succeeds |
| SvidSelection.DuplicatesNeverMatter | workloadapi/client.go:706-710 | the result does not depend on whether skipped duplicates would parse |
| SvidSelection.ServedAfter | workloadapi/x509source.go:63-114 | a source run over any list of responses: closed iff closed; without a picker the missing branch is reached iff no response parsed, otherwise the first entry of the last one that parsed is served |
| PathSyntax.ValidatePath | spiffeid/path.go:38-72 | the single pass returns exactly the error of splitting at slashes and checking each segment, or none |
| PathSyntax.ValidatePathSegment | spiffeid/path.go:77-90 | empty, dot and bad-character segments are told apart, in that order |
| PathSyntax.JoinPathSegments | spiffeid/path.go:23-33 | the joined path, or the error of the first bad segment |
| PathSyntax.LeadingSegment | spiffeid/path.go:46-63 | at the end of a clean segment the compared piece decides as the segment check does, with trailing slash for an empty last segment only |
| PathSyntax.BadSegment | spiffeid/path.go:60-62 | a bad character decides the result of the split specification, whatever follows |
| PathSyntax.ValidPathIffJoined | spiffeid/path.go:23-72 | a path is accepted iff it is the join of valid segments, and that list is unique |
| PathSyntax.NextSegmentDecides | spiffeid/path.go:46-72 | after a valid path the next segment decides by trailing slash, empty segment, dot segment or bad character, and otherwise what follows it does |
| PathSyntax.LeadingSlash | spiffeid/path.go:38-45 | exactly the nonempty strings without a leading slash are refused for that, and the empty path is valid |
| PathSyntax.PathSegmentChars | spiffeid/path.go:92-107 | the allowed characters of paths and trust domains in both builds, one by one |
| PathSyntax.JoinFailsAt | spiffeid/path.go:23-33 | joining stops at the first segment with a fault and names it |
| PathSyntax.JoinedIsValid | spiffeid/path.go:19-33 | joining valid segments succeeds, gives a valid path, and splitting gives the segments back |
| PathSyntax.ValidPathsConcatenate | spiffeid/path.go:35-72 | after a valid path, validation of a rooted continuation gives the continuation's own result |
| PathSyntax.JoinResultAppends | spiffeid/path.go:23-33 | joining a concatenation is joining both halves, with the same first error |
| SpiffeId.FromString | spiffeid/id.go:51-82 | scheme, trust domain up to the first slash, valid path: the ID with its split index, or the first error in that order |
| SpiffeId.ParsedIdMeaning | spiffeid/id.go:50-82 | every string split in the terms of the grammar, and which of its parts is at fault first |
| SpiffeId.TrustDomainFromString | spiffeid/trustdomain.go:18-39 | a bare name or the domain of an ID string, with the errors of each |
| SpiffeId.DomainAcceptedIff | spiffeid/trustdomain.go:18-39 | a trust domain is accepted from its valid name and from every valid ID in it, and from nothing else |
| SpiffeId.EveryIdRoundTrips | spiffeid/id.go:19-82 | every ID built by any sequence of operations is zero or parses back to itself, split index included, and text unmarshalling restores it |
| SpiffeId.EveryIdIsWellFormed | spiffeid/id.go:104-257 | every such ID is scheme, valid domain name and valid path put together |
| SpiffeId.RoundTripsIffWellFormed | spiffeid/id.go:50-82 | an ID round-trips iff both parts obey the grammar |
| SpiffeId.EqualStringsEqualIds | spiffeid/id.go:94-125 | two such IDs are equal structs iff their strings are equal |
| SpiffeId.DomainFromAnyForm | spiffeid/trustdomain.go:18-69 | a trust domain is recovered from its name, its own ID string and the string of any member |
| SpiffeId.AppendSegmentsIsAction | spiffeid/id.go:180-190 | appending two lists one after the other is appending their concatenation, errors included |
| SpiffeId.AppendSegmentsMeaning | spiffeid/id.go:180-190 | on every ID and every valid list, appending succeeds, keeps the domain and adds exactly those segments to the path |
| SpiffeId.BadSegmentIsRefused | spiffeid/id.go:180-224 | an invalid list is refused with the error of its first bad segment by all three operations on segments |
| SpiffeId.ZeroIdIsRefused | spiffeid/id.go:149-224 | nothing can be appended to the zero ID or replaced in it |
| SpiffeId.AppendPathIsAction | spiffeid/id.go:149-158 | appending a valid path and then a rooted one is appending the concatenation, with the error of the second |
| SpiffeId.AppendPathLawIff | spiffeid/id.go:149-158 | on every ID and every two strings, exactly when two appends give what one append of the concatenation gives |
| PathSyntax.ErrorSurvivesIff | spiffeid/path.go:38-72 | the error of an invalid path survives an append exactly when its first bad segment is not a last empty or dot segment, or the continuation leaves it reported |
| PathSyntax.SegmentsAppend | spiffeid/path.go:46-63 | appending lengthens the last segment up to the next slash and adds the segments of the rest |
| SpiffeId.AppendPathNeedsRootedPieces | spiffeid/id.go:149-158 | a valid first path whose continuation is not rooted, on which the law fails |
| SpiffeId.AppendPathNeedsValidStart | spiffeid/id.go:149-158 | an invalid first path that its continuation mends, on which the law fails |
| SpiffeId.AppendAndReplace | spiffeid/id.go:192-224 | appending keeps the domain and extends the path; replacing keeps the domain and forgets every append |
| SpiffeId.ReplaceSegmentsMeaning | spiffeid/id.go:219-224 | replacing the segments keeps the domain, and the path consists of exactly the new ones |
| SpiffeId.SegmentsArePaths | spiffeid/id.go:42-48 | FromSegments is FromPath of the joined path, and succeeds iff the segments are valid and the domain is not zero |
| SpiffeId.FromPathMeaning | spiffeid/id.go:19-26 | the fault of the path is reported before that of the domain, and without one the ID has the given domain and path |
| SpiffeId.UnmarshalMeaning | spiffeid/trustdomain.go:98-112 | both unmarshallers: no text gives zero, a text that parses gives its value, any other leaves the receiver and gives the error |
| SpiffeId.MadeIsWellFormed | spiffeid/id.go:250-257 | the ID made of a domain and a valid path has those two parts |
| PublicKeys.JWTAuthoritiesEqual | internal/jwtutil/util.go:18-34 | the one-directional loop with the size test decides full equality of maps of supported keys, in any order of iteration |
| PublicKeys.PublicKeyEqualIff | internal/cryptoutil/keys.go:12-34 | keys of supported types are equal when all their parts are, other keys never |
| PublicKeys.CopyJWTAuthorities | internal/jwtutil/util.go:9-16 | a new table with the same keys |
| CertSlices.CertsEqual | internal/x509util/util.go:24-37 | equality of the lists, whatever arrays they are in |
| Certificates.RemoveMeaning | bundle/x509bundle/bundle.go:123-135 | removal takes one occurrence: the certificate remains iff it was there twice, others are untouched |
| Certificates.RemoveKeepsDistinct | bundle/x509bundle/bundle.go:123-148 | from a list without duplicates, removal leaves none and the certificate is gone |
| Certificates.RemoveKeepsOrder | bundle/x509bundle/bundle.go:128-134 | the remaining certificates keep their order |
| Certificates.DeduplicatedMeaning | bundle/spiffebundle/bundle.go:182-195 | adding one by one keeps exactly the first occurrences, in order |
| RefreshHint.RoundsUpIff | bundle/spiffebundle/bundle.go:422-425 | Marshal then Parse rounds up to the next whole second on exactly these int64 hints |
| RefreshHint.RoundTripValue | bundle/spiffebundle/bundle.go:422-425 | the value after Marshal and Parse for every int64 hint, also when the rounding wraps around |
| RefreshHint.WrapIsModular | bundle/spiffebundle/bundle.go:422-425 | the arithmetic is modulo 2^64 |
| RefreshHint.AlwaysWholeSeconds | bundle/spiffebundle/bundle.go:90-92 | the parsed hint is always whole seconds, even after an overflow |
| RefreshHint.UnchangedIff | bundle/spiffebundle/bundle.go:422-425 | exactly the hints of 0 to 9223372035 whole seconds survive unchanged |
| RefreshHint.SecondRoundTripIff | bundle/spiffebundle/bundle.go:422-425 | a second round trip is the identity on exactly these hints |
| RefreshHint.RoundTripTruncatesIff | bundle/spiffebundle/bundle.go:368-375 | a document holds the documented truncation of the hint on exactly these hints |
| RefreshHint.HintIsNotTruncated | bundle/spiffebundle/bundle.go:368-375 | a hint of one and a half seconds is neither stored nor marshalled truncated |
| SpiffeBundle.Bundle.SetRefreshHint | bundle/spiffebundle/bundle.go:368-375 | the hint is stored unchanged, so it is the documented truncation iff it is whole seconds |
| SpiffeBundle.Bundle.FromX509Bundle | bundle/spiffebundle/bundle.go:124-130 | a new bundle of the same authorities, in memory of its own although it does not copy |
| SpiffeBundle.Bundle.Clone | bundle/spiffebundle/bundle.go:454-467 | a new bundle with the same value, in memory of its own |
| SpiffeBundle.Bundle.Equal | bundle/spiffebundle/bundle.go:552-580 | equality of values, except that an unsupported key equals nothing; nil equals nil only |
| SpiffeBundle.Bundle.Marshal | bundle/spiffebundle/bundle.go:417-452 | a document that lists the three kinds of authority, the maps in some order, null-keyed iff there is none; or an error naming a key of the bundle that has no JSON form |
| SpiffeBundle.Bundle.MarshalMap | bundle/spiffebundle/bundle.go:435-449 | each key of a map is written once, in the order of iteration |
| SpiffeBundle.Parse | bundle/spiffebundle/bundle.go:83-122 | a new bundle with the value the entries describe, or the first error |
| SpiffeBundle.ParseReads | bundle/spiffebundle/bundle.go:83-122 | a document without fault gives its header, its X.509 certificates without later duplicates, and the last key of each use and ID; other uses are ignored |
| SpiffeBundle.ParseFailsAt | bundle/spiffebundle/bundle.go:97-119 | otherwise the first entry at fault is named, and a missing list is an error |
| SpiffeBundle.LastKeyMeaning | bundle/spiffebundle/bundle.go:109-116 | which entry the key of a use and an ID comes from |
| SpiffeBundle.EqualIsAnEquivalence | bundle/spiffebundle/bundle.go:553-564 | Equal is symmetric and transitive, and reflexive on exactly the bundles with supported keys |
| SpiffeBundle.EqualIff | bundle/spiffebundle/bundle.go:552-580 | bundles are Equal when all six fields are and no key is of an unsupported type |
| SpiffeBundle.ListHoldsKeys | bundle/spiffebundle/bundle.go:428-449 | the keys handed to the encoder are exactly those of the bundle and of its certificates |
| SpiffeBundle.DocumentRoundTrip | bundle/spiffebundle/bundle.go:83-122 | Marshal succeeds iff every key can be encoded; parsing its document: no authorities is an error, an empty key ID is an error, otherwise every field is restored with the hint rounded and later duplicates dropped |
| SpiffeBundle.LosslessIff | bundle/spiffebundle/bundle.go:417-452 | the bundles that have a document and that it restores exactly |
| SpiffeBundle.MarshalThenParse | bundle/spiffebundle/bundle.go:417-452 | both calls on a bundle in memory: a new bundle iff every key can be encoded, there is an authority and no key ID is empty |
| SpiffeBundle.ReadThreeParts | bundle/spiffebundle/bundle.go:102-119 | reading the entries of the three kinds, for any order of the maps |
| CertSlices.CopyX509Authorities | internal/x509util/util.go:16-22 | a new array with the same contents |
| CertSlices.RemoveAt | bundle/x509bundle/bundle.go:131-131 | the in-place append moves the tail one place down in the same array |
| CertSlices.AddTo | bundle/x509bundle/bundle.go:108-121 | the certificate is appended unless present, in place while there is capacity, in a new array otherwise |
| CertSlices.RemoveFrom | bundle/spiffebundle/bundle.go:197-208 | the first occurrence goes, in the same array |
| X509Bundle.Bundle.X509Authorities | bundle/x509bundle/bundle.go:101-106 | the caller gets a new array |
| X509Bundle.Bundle.FromX509Authorities | bundle/x509bundle/bundle.go:31-36 | a new bundle over a new array with the given contents |
| X509Bundle.Bundle.Clone | bundle/x509bundle/bundle.go:183-189 | a new bundle over a new array with the same contents |
| BundleProgram.Program.Do | bundle/spiffebundle/bundle.go:126-329 | any constructor, getter, setter or edit of X.509, JWT and SPIFFE bundles and sources keeps the memory of all things held separate and has exactly its effect on values |
| BundleProgram.Program.DoAll | bundle/x509bundle/bundle.go:24-189 | any sequence of such calls has exactly the effect of the value semantics |
| BundleProgram.PartsAgree | bundle/spiffebundle/bundle.go:124-180 | parts, getters and constructors of a bundle give back the same certificates and keys and nothing else |
| BundleProgram.CertsAfterEdit | bundle/spiffebundle/bundle.go:182-229 | what an edit does to the certificates, and that no other edit changes them |
| BundleProgram.KeysAfterEdit | bundle/spiffebundle/bundle.go:259-415 | what an edit does to the keys, hint and sequence number, the rest of the bundle staying as it was |
| BundleProgram.AnswersAgree | workloadapi/bundlesource.go:65-117 | the three answers of an open source for a domain are what its cache holds of it; a closed one gives none |
| BundleProgram.JwtSetMeaning | bundle/jwtbundle/set.go:18-30 | a set of JWT bundles holds the last bundle of each domain |
| BundleProgram.CacheUnchanged | workloadapi/bundlesource.go:65-117 | over any run, nothing but its own updates changes the cache of a source, whatever callers do with what it returned or was given |
| BundleProgram.OthersUnchanged | bundle/spiffebundle/bundle.go:454-485 | over any run, a bundle, slice, map or source that is not edited keeps its value, however its clones, sources and parts are changed |
| BundleProgram.NoDuplicatesEver | bundle/x509bundle/bundle.go:110-135 | bundles made empty or copied and edited by Add and Remove never hold a duplicate, nor do the caches filled from them |
| BundleSet.CompareIsTotalOrder | spiffeid/trustdomain.go:82-87 | Compare is a strict total order and zero means equal |
| BundleSet.CompareIsBytewise | spiffeid/trustdomain.go:82-87 | a proper prefix is less, and at the first difference the smaller byte decides |
| BundleSet.LastOfEachDomainMeaning | bundle/x509bundle/set.go:18-30 | a new set maps each domain to its last bundle, nil skipped, and each key is its bundle's domain |
| BundleSet.Set.Add | bundle/x509bundle/set.go:34-41 | a bundle replaces the one of its domain, nil changes nothing |
| BundleSet.Set.Remove | bundle/x509bundle/set.go:44-49 | the domain goes |
| BundleSet.Set.Bundles | bundle/x509bundle/set.go:72-84 | a strictly ascending listing of the stored bundles, each once |
| BundleSet.ListingIsUnique | bundle/x509bundle/set.go:72-84 | there is one such listing only, so iteration order and sorting algorithm do not show |
| BundleSource.BundleSource.SetX509Context | workloadapi/bundlesource.go:130-153 | merging and then deleting replaces the X.509 half by exactly the set's contents, in new arrays, and leaves the JWT half alone |
| BundleSource.BundleSource.MergeX509 | workloadapi/bundlesource.go:136-143 | after the first loop every domain of the update is present with its new authorities |
| BundleSource.BundleSource.SetJWTBundles | workloadapi/bundlesource.go:155-178 | the same for the JWT half, in new tables and in any order of iteration |
| BundleSource.DeleteUnmentioned | workloadapi/bundlesource.go:147-152 | exactly the mentioned domains remain |
| BundleSource.BundleSource.GetBundleForTrustDomain | workloadapi/bundlesource.go:65-85 | succeeds iff the source is open and either half has the domain, with a new bundle in memory of its own: the domain's certificates and JWT keys as far as cached, no WIT keys, hint or sequence number |
| BundleSource.GetAll | workloadapi/bundlesource.go:65-117 | the combined bundle succeeds iff one of the narrower getters does, and its two parts are what they return |
| BundleSource.BundleSource.GetX509BundleForTrustDomain | workloadapi/bundlesource.go:89-101 | succeeds iff open and the X.509 half has the domain, with a new bundle over a new array |
| BundleSource.BundleSource.GetJWTBundleForTrustDomain | workloadapi/bundlesource.go:105-117 | the same for the JWT half, with a new table |
| BundleSource.CacheIsLastOfEach | workloadapi/bundlesource.go:130-178 | after any interleaving of updates each half is the last update of its own stream |
| FederationWatch.WatchBundle | federation/watch.go:38-80 | the actions and the returned error are exactly those specified for the fetches, the context and the timer |
| FederationWatch.FetchOnce | federation/watch.go:46-78 | one round reports, delivers and asks for the next refresh as specified against the previous fetch |
| FederationWatch.WatchDelivers | federation/watch.go:47-58 | the deliveries are the fetch history with stuttering removed |
| FederationWatch.ConsecutiveDiffer | federation/watch.go:55-57 | consecutive deliveries are never Equal |
| FederationWatch.FirstIsDelivered | federation/watch.go:43-57 | the first fetched bundle is reported by OnUpdate, as the first delivery of the trace, iff it is not the zero bundle, hence always for a non-zero trust domain |
| FederationWatch.RefreshFollowsDelivery | federation/watch.go:60-65 | NextRefresh gets the hint field of the last delivered bundle, or 0 when nothing was delivered or it has none |
| FederationWatch.RoundShape | federation/watch.go:46-78 | each round is a fetch, at most one report on it, and the next refresh; a failed fetch is always reported; a cancelled one ends there |
| FederationWatch.ErrorsAreReported | federation/watch.go:52-54 | the reported errors are those of the failed fetches, once each and in order, and there is one fetch for each round |
| FederationWatch.EndsIff | federation/watch.go:48-78 | the watch ends with the first round that finds a cancellation after its fetch or whose select takes the context, with that error |
| FederationWatch.CancellationStops | federation/watch.go:48-52 | after a cancellation at most one more fetch is started and the watch ends with that error |
| FederationWatch.DeadlineNeedNotStop | federation/watch.go:74-78 | after an expired deadline any number of further fetches is possible |
| FederationWatch.OneMoreFetchIffCanceled | federation/watch.go:46-78 | of the ways a context can end, exactly the cancellation bounds the fetches that follow by one in every run |

## Left out

- gRPC, HTTP, TLS, addresses and options: streams, fetches and timers are inputs or nondeterministic events.
- Certificate, key, JWT, PEM, DER and JSON codecs: documents are modelled after decoding, and extracting or parsing keys is a parameter.
- The watcher is a state machine and not a class, because its goroutines interleave inside its methods; what the callbacks store is counted and not represented there (BundleSource and X509Source have the contents).
- The WIT source's lookups, witbundle, and the sets of JWT, WIT and SPIFFE bundles: the same code as the parts modelled.
- Lock-level behaviour, such as the nested read locks of the spiffebundle getters.
- Real time: delays are whole seconds and the timer is a choice of the environment; the counter of the backoff does not overflow and a custom backoff strategy is not modelled.
- Contexts other than the constructor's and the watch context, and a consumer's own context in WaitUntilUpdated.
- Slices that share an array because the program itself sliced one twice, and two references to one bundle, such as a bundle's own GetBundleForTrustDomain returns: BundleProgram holds each thing once.
- FromWITBundle and WITBundle: the same code as their JWT siblings.
- FederationWatch takes bundles as values: a callback that changes a delivered bundle is not modelled.
- PublicKeyEqual's second result, an error that every caller ignores, and nil public keys.
- UnmarshalText: on values, as the receiver's new value and the error returned (SpiffeId.Unmarshaled).
- FromURI, URL, the formatting variants and the Require functions: nothing beyond the functions they wrap.
