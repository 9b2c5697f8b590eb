# Captcha service core in Dafny

A model of the verification logic of a three-stage anti-bot protocol written in Go:

1. the seed endpoint issues a proof-of-work seed `uuid:unixSeconds` with its hex HMAC-SHA256 signature;
2. the captcha endpoint runs a seven-step pipeline. It checks the signature, the seed's format and freshness, that the seed is unused, and the leading-zero work on `SHA-256(seed + nonce)`. Then it marks the seed used (`pow:<seed>`), renders a captcha and stores its answer record `{value, triesLeft, solved}` under `captcha:<id>`;
3. the verify endpoint reads that record, applies the retry/solve transition to it in place, and writes it back or deletes it.

Modules, one per component. `SeedIssuer` and `ChallengeVerifier` each cover a process package together with its task package; `GoText` and `Digest` stand for the standard-library behaviour the tasks rely on:

- `Errors` (`errors.dfy`): the `*AppError` type, the sentinel table, `Error()`, `Unwrap()` and the status/slug classification used when an error reaches the client.
- `GoText` (`gotext.dfy`): the library behaviour the tasks depend on, written out. This covers `strings.Split`, `strings.Repeat`, `strings.HasPrefix`, `fmt`'s `%d`, `strconv.ParseInt(s, 10, 64)`, and int64 wrap-around and saturation.
- `Digest` (`digest.dfy`): HMAC-SHA256 and SHA-256 as function values supplied by the caller, with 64-character output. Also the text form of a UUID.
- `KeyValue` (`keyvalue.dfy`): the Redis store as a class holding a `map<string, Entry>`, with `Set`, `Get`, `Exists` and `Del`. Each call takes a `fault` flag that makes it fail.
- `SeedIssuer` (`seedissuer.dfy`): stage one.
- `ChallengeTasks` (`challengetasks.dfy`) and `ChallengePipeline` (`challengepipeline.dfy`): stage two.
- `ChallengeVerifier` (`challengeverifier.dfy`): stage three.

Tasks that only compute are functions. Tasks that touch the store are methods over a `KeyValue.Store`. Each such method's `ensures` ties its result and the new store contents to a pure function of the old contents (`MarkSeedUsed`, `SaveCaptchaStep`, `ReadCaptchaOf`, `ValidateStep`, `Pipeline`, `VerifyAsWritten`). The lemmas are proved about those functions. The verifier's record is a `CaptchaRecord` object that `ValidateCaptcha` mutates in place, as the Go code mutates the `*Captcha`.

Parameters stand in for what the code gets from outside:

- the wall clock: `time.Now()` as Unix seconds for the issuer, Unix nanoseconds for the freshness check;
- the fresh UUID;
- the HMAC secret, TTLs, difficulty and retry budget (`Env`);
- the hash primitives (`Hashing`) and the JSON codec (`Codec`), both as function values;
- the renderer's output (`Rendered` or an error);
- which store calls fail (`Faults`).

The codec is assumed to round-trip (`Faithful`) only by the lemmas that need it.

## Model

| member | source | states |
|---|---|---|
| Errors.Unwrap | internal/logic/errors/errors.go:22-24 | Unwrap returns exactly the wrapped error of an `*AppError`, and nil for an error without Unwrap |
| Errors.Message | internal/logic/errors/errors.go:15-20 | `Error()` of an `*AppError` is the wrapped error's text when it wraps one and its slug otherwise; any other error reports its own text |
| Errors.MessageFollowsChain | internal/logic/errors/errors.go:15-20 | `Error()` gives the text of the innermost error of the wrap chain; an `*AppError` wrapping nothing gives its slug |
| Errors.WrappedError | internal/logic/errors/errors.go:15-24 | an AppError wrapping an error reports the inner text, unwraps to it, and still classifies to its own status and slug |
| Errors.Classify | internal/logic/errors/errors.go:39-43 | an `*AppError` classifies to its own status and slug; any other error to 500 `error_captcha_server` |
| Errors.SentinelsReportTheirSlug | internal/logic/errors/errors.go:26-37 | every sentinel's text is its slug, it wraps nothing, and it classifies to itself |
| Errors.SentinelTable | internal/logic/errors/errors.go:26-37 | the ten sentinels are distinct; only InvalidInput (400) and MethodNotAllowed (405) share a slug; PowExpired and NoTriesLeft are both 410 with different slugs |
| Errors.ClassifyExamples | internal/handler/verify/handler_test.go:56-75 | an InvalidCaptchaValue reaches the client as 400 `error_captcha_invalid`, an unknown error as 500 `error_captcha_server` |
| Errors.SignatureErrorClassified | internal/handler/captcha/handler_test.go:56-65 | an InvalidSignature reaches the client as 403 `error_pow_signature` |
| GoText.Split | internal/process/captcha/task/check_seed_timestamp.go:22 | splitting yields one more piece than there are separators, none holding the separator |
| GoText.JoinSplit | internal/process/captcha/task/check_seed_timestamp.go:22 | joining the pieces of a split with the separator gives back the string |
| GoText.SplitPair | internal/process/pow/task/create_signed_seed.go:26 | `a:b` with no `:` in either part splits into exactly `[a, b]` |
| GoText.ParseInt | internal/process/captcha/task/check_seed_timestamp.go:27 | parses exactly when the text is an optional `+` or `-` followed by at least one decimal digit and nothing else, with the signed value in the int64 range; the result is that signed value |
| GoText.ParseIntExamples | internal/process/captcha/task/check_seed_timestamp.go:27 | `+5`, `007` and `-0` parse to 5, 7 and 0; the empty text, a lone `+` and `1_0` do not parse |
| GoText.FormatInt | internal/process/pow/task/create_signed_seed.go:26 | `%d` is a `-` for a negative number, then the digits of its magnitude, which read back as the magnitude and have no leading zero |
| GoText.FormatIntHasOnlySignAndDigits | internal/process/pow/task/create_signed_seed.go:26 | `%d` output holds no character other than `-` and digits, in particular no `:` |
| GoText.Repeat | internal/process/captcha/task/verify_pow.go:26 | `strings.Repeat("0", d)` is d characters, each `0` |
| GoText.HasPrefix | internal/process/captcha/task/verify_pow.go:27 | `strings.HasPrefix(s, p)` holds exactly when p is no longer than s and agrees with it position by position |
| GoText.FormatParseRoundTrip | internal/process/pow/task/create_signed_seed.go:26 | `%d` of an int64 parses back with ParseInt to the same number |
| GoText.Wrap64 | internal/process/captcha/task/check_seed_timestamp.go:33 | the int64 product wraps: equal to the exact value when in range, congruent modulo 2^64 always |
| GoText.Clamp64 | internal/process/captcha/task/check_seed_timestamp.go:33 | `time.Since` saturates the elapsed time at the int64 bounds |
| Digest.UuidHasNoColon | internal/process/pow/task/create_signed_seed.go:25 | a UUID's text form holds no `:` |
| KeyValue.Store.Set | internal/service/redis/client.go:33-35 | a successful set maps the key to the value and TTL; a failing one changes nothing |
| KeyValue.Store.Get | internal/service/redis/client.go:37-39 | get returns the stored value; an absent key and a store failure are errors |
| KeyValue.Store.Exists | internal/service/redis/client.go:45-51 | exists reports whether the key is present, or a store error |
| KeyValue.Store.Del | internal/service/redis/client.go:41-43 | a successful delete removes the key; a failing one changes nothing |
| SeedIssuer.CreateSignedSeed | internal/process/pow/task/create_signed_seed.go:23-34 | never fails; the signature is the HMAC of the seed; the seed splits on `:` into exactly the id and the decimal timestamp |
| SeedIssuer.IssuedTimestampParses | internal/process/pow/task/create_signed_seed.go:24-26 | the timestamp half of an issued seed parses back to the issuing second |
| SeedIssuer.IssueSeed | internal/process/pow/process.go:26-36 | on task success the response carries the task's seed and signature; on task error, no response and the same error |
| SeedIssuer.IssueSeedNeverFails | internal/process/pow/process.go:27-30 | with the real issuer the endpoint always answers, with seed `id:decimal(ts)` and its HMAC |
| ChallengeTasks.UsedSeedKey | internal/process/captcha/task/validate_used_seed.go:25 | the marker key is `pow:` followed by the seed |
| ChallengeTasks.CaptchaKey | internal/process/captcha/task/save_captcha.go:48 | the record key is `captcha:` followed by the captcha id |
| ChallengeTasks.KeysAreInjective | internal/process/captcha/task/save_used_seed.go:28 | distinct seeds get distinct markers and distinct captcha ids distinct record keys |
| ChallengeTasks.MarkerAndRecordKeysDiffer | internal/process/captcha/task/save_captcha.go:48 | a `pow:` marker key never equals a `captcha:` record key |
| ChallengeTasks.ValidateSignature | internal/process/captcha/task/validate_signature.go:21-31 | passes exactly when the signature equals the HMAC of the seed; any other signature is exactly InvalidSignature |
| ChallengeTasks.SeedTimestamp | internal/process/captcha/task/check_seed_timestamp.go:22-30 | a timestamp is found exactly when the seed has one `:` and its second part is a sign-optional in-range decimal, and it is that part's parsed value |
| ChallengeTasks.Elapsed | internal/process/captcha/task/check_seed_timestamp.go:32-33 | `time.Since(time.Unix(ts, 0))` is the exact nanosecond difference when it fits in an int64, and saturates at the bounds otherwise |
| ChallengeTasks.Window | internal/process/captcha/task/check_seed_timestamp.go:33 | `Duration(ttl) * Minute` is exact for TTLs up to MaxWindowMinutes in magnitude, always congruent to the exact product modulo 2^64, and wrong (wrapped) above it |
| ChallengeTasks.CheckSeedTimestamp | internal/process/captcha/task/check_seed_timestamp.go:21-38 | InvalidInput exactly when the seed is not `x:int64`; PowExpired exactly when the elapsed time strictly exceeds the TTL window; no other error |
| ChallengeTasks.SeedWithoutOneColonIsInvalid | internal/process/captcha/task/check_seed_timestamp.go:22-25 | a seed without exactly one `:` is InvalidInput |
| ChallengeTasks.BadTimestampIsInvalid | internal/process/captcha/task/check_seed_timestamp.go:27-30 | a second part that is not a decimal int64 is InvalidInput |
| ChallengeTasks.ExpiredIffOlderThanTtl | internal/process/captcha/task/check_seed_timestamp.go:32-35 | without wrap or saturation, a well-formed seed is PowExpired iff now minus issue time strictly exceeds the TTL, else it passes |
| ChallengeTasks.ExpiryInSeconds | internal/process/captcha/task/check_seed_timestamp.go:32-35 | younger than the TTL passes, older is expired, exactly the TTL old passes only at the exact second |
| ChallengeTasks.FutureSeedAccepted | internal/process/captcha/task/check_seed_timestamp.go:32-33 | a seed stamped now or in the future passes under every TTL from 0 to MaxWindowMinutes (about 292 years) |
| ChallengeTasks.OversizedTtlRejectsFreshSeed | internal/process/captcha/task/check_seed_timestamp.go:33 | at MaxWindowMinutes + 1 the window wraps negative, and even a seed issued this instant is PowExpired |
| ChallengeTasks.UsedSeedVerdict | internal/process/captcha/task/validate_used_seed.go:27-35 | a store error is InternalServerError; without one, SeedAlreadyUsed exactly when `pow:<seed>` is present and a pass exactly when it is absent |
| ChallengeTasks.ValidateUsedSeed | internal/process/captcha/task/validate_used_seed.go:24-36 | queries `pow:<seed>`: store error gives InternalServerError, present gives SeedAlreadyUsed, absent passes; the store is not modified |
| ChallengeTasks.ZeroPrefix | internal/process/captcha/task/verify_pow.go:26-27 | `HasPrefix(h, Repeat("0", d))` holds exactly when the first d characters of h are `0` |
| ChallengeTasks.VerifyPow | internal/process/captcha/task/verify_pow.go:21-32 | passes exactly when SHA-256 hex of seed+nonce starts with `difficulty` zeros; failure is exactly InsufficientWork |
| ChallengeTasks.ZeroDifficultyPasses | internal/process/captcha/task/verify_pow.go:26-27 | difficulty 0 always passes |
| ChallengeTasks.PowMonotone | internal/process/captcha/task/verify_pow.go:26-27 | passing at difficulty d implies passing at every lower difficulty |
| ChallengeTasks.TooHardNeverPasses | internal/process/captcha/task/verify_pow.go:24-27 | a difficulty above 64 never passes |
| ChallengeTasks.MarkSeedUsed | internal/process/captcha/task/save_used_seed.go:27-36 | success writes `pow:<seed>` ↦ "1" with the TTL; a store failure is InternalServerError with the store unchanged; no other key changes |
| ChallengeTasks.SaveUsedSeed | internal/process/captcha/task/save_used_seed.go:27-36 | the task's result and new store are those of MarkSeedUsed |
| ChallengeTasks.MarkedSeedIsRejected | internal/process/captcha/task/validate_used_seed.go:25-33 | after the seed is marked, the replay check on it gives SeedAlreadyUsed |
| ChallengeTasks.SaveCaptchaStep | internal/process/captcha/task/save_captcha.go:36-55 | stores the marshalled `{answer, maxTries, false}` under `captcha:<id>` with the TTL; a store failure always fails, and any failure (marshal or store) is InternalServerError with the store unchanged; no other key changes |
| ChallengeTasks.SaveCaptcha | internal/process/captcha/task/save_captcha.go:36-55 | the task's result and new store are those of SaveCaptchaStep |
| ChallengePipeline.Pipeline | internal/process/captcha/process.go:76-110 | a success runs all seven steps; a run stopped within the four checks fails and leaves the store unchanged |
| ChallengePipeline.Process | internal/process/captcha/process.go:76-110 | the process's result and new store are those of Pipeline |
| ChallengePipeline.FirstFailureIsReturned | internal/process/captcha/process.go:77-91 | the first failing check decides the error, in the order signature, timestamp, replay, work, with the store unchanged |
| ChallengePipeline.LateFailureIsReturned | internal/process/captcha/process.go:93-104 | a failed marker write is InternalServerError with the store unchanged; a render error is returned as the renderer's error; a failed save is InternalServerError; at steps 6 and 7 the store is the old one plus the marker |
| ChallengePipeline.LaterStepsDoNotRun | internal/process/captcha/process.go:77-104 | after a failing step the run does not depend on the renderer or on later store calls |
| ChallengePipeline.SuccessfulRun | internal/process/captcha/process.go:93-109 | success returns the renderer's id and image; the store holds the seed marker and the record `{answer, maxTries, false}`; nothing else changed |
| ChallengePipeline.NoRollback | internal/process/captcha/process.go:93-104 | if rendering or saving fails, the marker written at step 5 remains |
| ChallengePipeline.ReplayRejected | internal/process/captcha/process.go:77-87 | after a success, a run with the same seed that passes signature and freshness fails at step 3 with SeedAlreadyUsed |
| ChallengePipeline.IssuedSeedYieldsCaptcha | internal/process/captcha/process.go:76-110 | a freshly issued seed, with its signature, at difficulty 0, unused, yields the rendered captcha |
| ChallengeVerifier.ValidatorKey | internal/process/verify/task/validate_capcha.go:31 | the validator's key is `capcha:` followed by the captcha id |
| ChallengeVerifier.ValidatorKeyMissesRecords | internal/process/verify/task/validate_capcha.go:31 | the `capcha:` key never equals any `captcha:` record key or `pow:` marker key |
| ChallengeVerifier.ReadCaptchaOf | internal/process/verify/task/read_captcha.go:26-40 | any Get error, absence included, is CaptchaNotFound; undecodable data is InternalServerError; otherwise the decoded record |
| ChallengeVerifier.ReadCaptcha | internal/process/verify/task/read_captcha.go:26-40 | the task's result is ReadCaptchaOf of the store, which it does not modify |
| ChallengeVerifier.SavedRecordReadsBack | internal/process/verify/task/read_captcha.go:27-39 | after a successful save, reading the id returns the saved record |
| ChallengeVerifier.CaptchaRecord.constructor | internal/process/captcha/task/save_captcha.go:12-16 | the mutable record holds exactly the value, tries left and solved flag it is built from |
| ChallengeVerifier.Decrement | internal/process/verify/task/validate_capcha.go:34 | `TriesLeft--` subtracts one, wrapping at the int64 minimum |
| ChallengeVerifier.ValidateStep | internal/process/verify/task/validate_capcha.go:30-56 | wrong value: one try less, then delete and NoTriesLeft (a failed Del is ignored and leaves the store as it was) or set with full TTL and InvalidCaptchaValue, writing the empty text when marshalling fails (InternalServerError if Set fails); right value: solved, tries kept, set with full TTL, Set's raw error; no other key changes |
| ChallengeVerifier.ValidateCaptcha | internal/process/verify/task/validate_capcha.go:30-56 | the result, the in-place mutated record and the new store are those of ValidateStep under the `capcha:` key |
| ChallengeVerifier.Verify | internal/process/verify/process.go:38-51 | a read error is returned unchanged with the store untouched; otherwise the validator gets exactly the record read, its error is returned unchanged, its store is the result store, and its success echoes the request's id; only the validator's key may change |
| ChallengeVerifier.VerifyAsWritten | internal/process/verify/task/validate_capcha.go:31 | as written, the verification changes only `capcha:<id>`, and a read error is returned with the store untouched |
| ChallengeVerifier.VerifyProcess | internal/process/verify/process.go:38-51 | the process's result and new store are those of the verification as written |
| ChallengeVerifier.AsWrittenLeavesRecordsAlone | internal/process/verify/task/validate_capcha.go:31-55 | as written, no verification changes what any captcha record reads as, or any seed marker |
| ChallengeVerifier.RepeatSolveSucceeds | internal/process/verify/process.go:38-51 | a right answer succeeds, and succeeds again afterwards: nothing rejects a solved record |
| ChallengeVerifier.AsWrittenWrongAnswersNeverExhaust | internal/process/verify/task/validate_capcha.go:31-46 | as written, with two or more tries saved, any number of wrong answers all give InvalidCaptchaValue and the record stays as saved |
| ChallengeVerifier.AsWrittenThirdWrongAnswer | internal/process/verify/task/validate_capcha.go:31-46 | as written, with maxTries 3 the third wrong answer is still InvalidCaptchaValue |
| ChallengeVerifier.VerifyIntended | internal/process/verify/task/validate_capcha.go:31-55 | intended: only `captcha:<id>` changes, and without faults the next read returns the record solved, or one try down, or CaptchaNotFound once the tries run out |
| ChallengeVerifier.IntendedWrongAnswersExhaust | internal/process/verify/task/validate_capcha.go:33-46 | with writes under `captcha:<id>`, a record with n tries gives n-1 InvalidCaptchaValue, then NoTriesLeft, then CaptchaNotFound |
| ChallengeVerifier.IntendedThreeWrongAnswers | internal/process/verify/task/validate_capcha.go:33-46 | intended: three wrong answers at maxTries 3 give Invalid, Invalid, NoTriesLeft, then CaptchaNotFound |

## Findings

| source | as written | input that shows it | evidently intended | confidence | as-written member | corrected member |
|---|---|---|---|---|---|---|
| internal/process/verify/task/validate_capcha.go:31 | the validator writes and deletes `"capcha:" + id`, but the record is saved and read under `"captcha:" + id` (save_captcha.go:48, read_captcha.go:27) | a captcha saved with maxTries 3, then three wrong answers: the third gives InvalidCaptchaValue, not NoTriesLeft. Unlimited guesses are allowed, and a solved record is never marked | write back and delete under `captcha:<id>` | high (not executed) | ChallengeVerifier.AsWrittenThirdWrongAnswer | ChallengeVerifier.IntendedThreeWrongAnswers |

`ChallengeVerifier.VerifyProcess` models the code as written. `ChallengeVerifier.VerifyIntended` is the same verification with the corrected key. `ChallengeVerifier.Attempts` runs repeated answers through either one.

## Left out

- HTTP handlers, request decoding and the writer side of `WriteJSON` (headers and JSON body) are transport. Only the status/slug classification is modelled.
- The go-redis client is replaced by the in-memory `KeyValue.Store`. Expiry of entries by TTL is not simulated; the TTL passed to `Set` is recorded in minutes, without the `time.Duration` conversion.
- SHA-256, HMAC, hex encoding and JSON are not computed. They are caller-supplied functions. Lemmas assume only a 64-character digest and, where stated, a round-tripping codec (`Faithful`).
- The captcha renderer (`generate_captcha.go`) is a parameter: its `(id, image, answer)` or its error.
- Configuration loading and the startup connect-retry loop (`app.go`, `config.go`) are left out. Their values are fields of `Env`. The wiring passes the captcha TTL as the used-seed TTL; `Env.usedSeedTtlMinutes` is a separate field so either value can be supplied.
- The text of a raw store error is abstract (`KeyValue.StoreFailure`). A failing store call is modelled as leaving the store unchanged.
- Concurrency: the replay race and the lost-update race on tries are out of scope. Every operation is one sequential call.
- `Errors.Classify` handles the two error kinds that reach it in this code: `*AppError` and plain errors. Errors that wrap an `*AppError` inside another wrapper type (`fmt.Errorf` with `%w`) do not occur here and are not modelled.
- ChallengeTasks.VerifyPow: the difficulty is a natural number. A negative difficulty makes `strings.Repeat` panic, and that is not modelled.
- ChallengeTasks.CheckSeedTimestamp: `time.Unix` adds an internal epoch offset that can wrap for timestamps within about 62 billion seconds of the int64 bounds. The model treats the issue time as exact and only saturates the difference.
- ChallengeVerifier.ReadCaptcha returns the decoded record as a value. `VerifyProcess` allocates the `CaptchaRecord` object that the validator then mutates, where the Go code allocates it inside the read task.
