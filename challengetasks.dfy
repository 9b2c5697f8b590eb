/** Stage two's tasks (internal/process/captcha/task): the checks a solved proof of
    work must pass, marking its seed used, and persisting the captcha's answer record. */
module ChallengeTasks {
  import opened Wrappers
  import opened Errors
  import opened GoText
  import opened Digest
  import opened KeyValue

  /** The store key of a used-seed marker. */
  function UsedSeedKey(seed: string): (k: string)
    ensures |k| == |seed| + 4 && k[..4] == "pow:" && k[4..] == seed
  {
    "pow:" + seed
  }

  /** The store key under which the answer record of a captcha is saved and read. */
  function CaptchaKey(id: string): (k: string)
    ensures |k| == |id| + 8 && k[..8] == "captcha:" && k[8..] == id
  {
    "captcha:" + id
  }

  /** Distinct seeds have distinct markers and distinct captchas distinct records. */
  lemma KeysAreInjective(seed: string, seed': string, id: string, id': string)
    ensures UsedSeedKey(seed) == UsedSeedKey(seed') ==> seed == seed'
    ensures CaptchaKey(id) == CaptchaKey(id') ==> id == id'
  {
  }

  /** No used-seed marker shares its key with a captcha record. */
  lemma MarkerAndRecordKeysDiffer(seed: string, id: string)
    ensures UsedSeedKey(seed) != CaptchaKey(id)
  {
    assert UsedSeedKey(seed)[0] != CaptchaKey(id)[0];
  }

  /** The answer record of one captcha. */
  datatype Captcha = Captcha(value: string, triesLeft: Int64, solved: bool)

  /** `json.Marshal` and `json.Unmarshal` of a Captcha record; `None` is their error. */
  datatype Codec = Codec(marshal: Captcha -> Option<string>, unmarshal: string -> Option<Captcha>)

  /** Marshalling a record succeeds and unmarshalling its text gives it back. */
  ghost predicate Faithful(codec: Codec)
  {
    forall c :: codec.marshal(c).Some? && codec.unmarshal(codec.marshal(c).value) == Some(c)
  }

  /** What a store-writing task returns, together with the store it leaves. */
  datatype Step = Step(outcome: Outcome, store: map<string, Entry>)

  /** Two stores agree on every key other than `key`. */
  ghost predicate AgreeExcept(m: map<string, Entry>, m': map<string, Entry>, key: string)
  {
    forall k :: k != key ==> (k in m <==> k in m') && (k in m ==> m[k] == m'[k])
  }

  // ---- ValidateSignatureTask ----

  /** The signature must equal the hex HMAC-SHA256 of the seed under the secret,
      character for character; any other signature is InvalidSignature. */
  function ValidateSignature(hashing: Hashing, secret: string, seed: string, signature: string)
    : (r: Outcome)
    ensures r.Pass? <==> signature == hashing.hexHmac(secret, seed)
    ensures r.Fail? ==> r.error == ErrInvalidSignature
  {
    if hashing.hexHmac(secret, seed) != signature then Fail(ErrInvalidSignature) else Pass
  }

  // ---- CheckSeedTimestampTask ----

  const NanosPerSecond := 1_000_000_000
  const NanosPerMinute := 60 * NanosPerSecond
  /** The largest TTL, in minutes, whose nanosecond Duration does not wrap around. */
  const MaxWindowMinutes := MaxInt64 / NanosPerMinute

  /** `time.Since(time.Unix(ts, 0))` read at wall-clock time `nowNanos` (nanoseconds
      since the Unix epoch): the difference saturates at the int64 bounds. */
  function Elapsed(nowNanos: int, ts: int): (d: Int64)
    ensures MinInt64 <= nowNanos - ts * NanosPerSecond <= MaxInt64 ==> d == nowNanos - ts * NanosPerSecond
    ensures nowNanos - ts * NanosPerSecond > MaxInt64 ==> d == MaxInt64
    ensures nowNanos - ts * NanosPerSecond < MinInt64 ==> d == MinInt64
  {
    Clamp64(nowNanos - ts * NanosPerSecond)
  }

  /** `time.Duration(ttlMinutes) * time.Minute`, an int64 product that wraps around. */
  function Window(ttlMinutes: Int64): (w: Int64)
    ensures -MaxWindowMinutes <= ttlMinutes <= MaxWindowMinutes ==> w == ttlMinutes * NanosPerMinute
    ensures (w - ttlMinutes * NanosPerMinute) % 0x1_0000_0000_0000_0000 == 0
    ensures ttlMinutes > MaxWindowMinutes ==> w != ttlMinutes * NanosPerMinute
  {
    Wrap64(ttlMinutes * NanosPerMinute)
  }

  /** Whether a seed is `<anything without ':'>:<int64>`, and its timestamp if so. */
  function SeedTimestamp(seed: string): (r: Option<Int64>)
    ensures r.Some? <==> Count(seed, ':') == 1 && IsDecimalInt64(Split(seed, ':')[1])
    ensures r.Some? ==> r == ParseInt(Split(seed, ':')[1])
  {
    var parts := Split(seed, ':');
    if |parts| != 2 then None else ParseInt(parts[1])
  }

  /** The seed must split on `:` into exactly two parts, the second an int64 in
      decimal (InvalidInput otherwise); it is PowExpired exactly when the time elapsed
      since that second strictly exceeds the TTL window. */
  function CheckSeedTimestamp(ttlMinutes: Int64, nowNanos: int, seed: string): (r: Outcome)
    ensures r == Fail(ErrInvalidInput) <==> SeedTimestamp(seed).None?
    ensures r == Fail(ErrPowExpired) <==>
      SeedTimestamp(seed).Some? && Elapsed(nowNanos, SeedTimestamp(seed).value) > Window(ttlMinutes)
    ensures r.Pass? || r == Fail(ErrInvalidInput) || r == Fail(ErrPowExpired)
  {
    var parts := Split(seed, ':');
    if |parts| != 2 then Fail(ErrInvalidInput)
    else
      match ParseInt(parts[1])
      case None => Fail(ErrInvalidInput)
      case Some(ts) =>
        if Elapsed(nowNanos, ts) > Window(ttlMinutes) then Fail(ErrPowExpired) else Pass
  }

  /** A seed with no `:`, or with more than one, is InvalidInput. */
  lemma SeedWithoutOneColonIsInvalid(ttlMinutes: Int64, nowNanos: int, seed: string)
    requires Count(seed, ':') != 1
    ensures CheckSeedTimestamp(ttlMinutes, nowNanos, seed) == Fail(ErrInvalidInput)
  {
  }

  /** A seed built as `<id>:<decimal ts>` carries the timestamp `ts`. */
  lemma IssuedSeedTimestamp(id: string, ts: Int64)
    requires ':' !in id
    ensures SeedTimestamp(id + ":" + FormatInt(ts)) == Some(ts)
  {
    FormatIntHasOnlySignAndDigits(ts, ':');
    SplitPair(id, FormatInt(ts), ':');
    FormatParseRoundTrip(ts);
  }

  /** A second part that is not a decimal int64 is InvalidInput. */
  lemma BadTimestampIsInvalid(ttlMinutes: Int64, nowNanos: int, id: string, stamp: string)
    requires ':' !in id && ':' !in stamp && ParseInt(stamp).None?
    ensures CheckSeedTimestamp(ttlMinutes, nowNanos, id + ":" + stamp) == Fail(ErrInvalidInput)
  {
    SplitPair(id, stamp, ':');
  }

  /** Within the ranges where neither the TTL product wraps nor the elapsed time
      saturates, a well-formed seed is expired exactly when the nanoseconds elapsed
      strictly exceed the TTL, and accepted otherwise. */
  lemma ExpiredIffOlderThanTtl(ttlMinutes: Int64, nowNanos: int, id: string, ts: Int64)
    requires ':' !in id
    requires 0 <= ttlMinutes <= MaxWindowMinutes
    requires MinInt64 <= nowNanos - ts * NanosPerSecond <= MaxInt64
    ensures var r := CheckSeedTimestamp(ttlMinutes, nowNanos, id + ":" + FormatInt(ts));
      (r == Fail(ErrPowExpired) <==> nowNanos - ts * NanosPerSecond > ttlMinutes * NanosPerMinute) &&
      (r != Fail(ErrPowExpired) ==> r == Pass)
  {
    IssuedSeedTimestamp(id, ts);
  }

  /** In whole seconds, with `nanos` the sub-second part of the clock: a seed younger
      than the TTL is accepted, one older is expired, and one exactly the TTL old is
      accepted only at the exact second (the comparison is strict, but the clock has
      sub-second precision while the seed does not). */
  lemma ExpiryInSeconds(ttlMinutes: Int64, nowSeconds: int, nanos: int, id: string, ts: Int64)
    requires ':' !in id
    requires 0 <= ttlMinutes <= MaxWindowMinutes
    requires 0 <= nanos < NanosPerSecond
    requires MinInt64 <= (nowSeconds - ts) * NanosPerSecond + nanos <= MaxInt64
    ensures var r := CheckSeedTimestamp(ttlMinutes, nowSeconds * NanosPerSecond + nanos, id + ":" + FormatInt(ts));
      (nowSeconds - ts < ttlMinutes * 60 ==> r == Pass) &&
      (nowSeconds - ts > ttlMinutes * 60 ==> r == Fail(ErrPowExpired)) &&
      (nowSeconds - ts == ttlMinutes * 60 ==> (r == Pass <==> nanos == 0))
  {
    ExpiredIffOlderThanTtl(ttlMinutes, nowSeconds * NanosPerSecond + nanos, id, ts);
  }

  /** A seed stamped in the future (negative elapsed time), or at this very instant,
      passes under every TTL from 0 to MaxWindowMinutes (about 292 years), whatever the
      magnitudes involved. */
  lemma FutureSeedAccepted(ttlMinutes: Int64, nowNanos: int, id: string, ts: Int64)
    requires ':' !in id
    requires 0 <= ttlMinutes <= MaxWindowMinutes
    requires nowNanos <= ts * NanosPerSecond
    ensures CheckSeedTimestamp(ttlMinutes, nowNanos, id + ":" + FormatInt(ts)) == Pass
  {
    IssuedSeedTimestamp(id, ts);
  }

  /** One minute past MaxWindowMinutes, the Duration product wraps negative, so even a
      seed issued this very instant is PowExpired. */
  lemma OversizedTtlRejectsFreshSeed(id: string, ts: Int64)
    requires ':' !in id
    ensures Window(MaxWindowMinutes + 1) < 0
    ensures CheckSeedTimestamp(MaxWindowMinutes + 1, ts * NanosPerSecond, id + ":" + FormatInt(ts))
      == Fail(ErrPowExpired)
  {
    IssuedSeedTimestamp(id, ts);
  }

  // ---- ValidateUsedSeed ----

  /** The replay check: a store error is InternalServerError, a present `pow:` marker
      is SeedAlreadyUsed, an absent one passes. */
  function UsedSeedVerdict(m: map<string, Entry>, seed: string, fault: bool): (r: Outcome)
    ensures fault ==> r == Fail(ErrInternalServerError)
    ensures !fault ==> (r == Fail(ErrSeedAlreadyUsed) <==> UsedSeedKey(seed) in m)
    ensures !fault ==> (r == Pass <==> UsedSeedKey(seed) !in m)
  {
    if fault then Fail(ErrInternalServerError)
    else if UsedSeedKey(seed) in m then Fail(ErrSeedAlreadyUsed)
    else Pass
  }

  /** `ValidateUsedSeed.Execute`: asks the store whether `pow:<seed>` exists; it
      changes nothing. */
  method ValidateUsedSeed(store: Store, seed: string, fault: bool) returns (r: Outcome)
    ensures r == UsedSeedVerdict(store.data, seed, fault)
  {
    var present := store.Exists(UsedSeedKey(seed), fault);
    if present.Err? {
      return Fail(ErrInternalServerError);
    }
    if present.value {
      return Fail(ErrSeedAlreadyUsed);
    }
    return Pass;
  }

  // ---- VerifyPowTask ----

  /** The hash starts with `difficulty` zero hex digits. */
  predicate HasLeadingZeros(hash: string, difficulty: nat)
  {
    difficulty <= |hash| && forall i :: 0 <= i < difficulty ==> hash[i] == '0'
  }

  lemma ZeroPrefix(hash: string, difficulty: nat)
    ensures HasPrefix(hash, Repeat('0', difficulty)) <==> HasLeadingZeros(hash, difficulty)
  {
  }

  /** The work check: `HexSha256(seed + nonce)` must begin with `difficulty` copies of
      `0`, else InsufficientWork. A negative difficulty makes `strings.Repeat` panic,
      so the difficulty is a natural number. */
  function VerifyPow(hashing: Hashing, difficulty: nat, seed: string, nonce: string): (r: Outcome)
    ensures r.Pass? <==> HasLeadingZeros(hashing.hexSha256(seed + nonce), difficulty)
    ensures r.Fail? ==> r.error == ErrInsufficientWork
  {
    var hash := hashing.hexSha256(seed + nonce);
    ZeroPrefix(hash, difficulty);
    if !HasPrefix(hash, Repeat('0', difficulty)) then Fail(ErrInsufficientWork) else Pass
  }

  /** With difficulty 0 every nonce passes. */
  lemma ZeroDifficultyPasses(hashing: Hashing, seed: string, nonce: string)
    ensures VerifyPow(hashing, 0, seed, nonce) == Pass
  {
  }

  /** The test is a prefix test: work that passes a difficulty passes every lower one. */
  lemma PowMonotone(hashing: Hashing, d: nat, d': nat, seed: string, nonce: string)
    requires d' <= d
    requires VerifyPow(hashing, d, seed, nonce) == Pass
    ensures VerifyPow(hashing, d', seed, nonce) == Pass
  {
  }

  /** A difficulty above the 64 hex digits of a SHA-256 hash can never be met. */
  lemma TooHardNeverPasses(hashing: Hashing, d: nat, seed: string, nonce: string)
    requires d > 64
    ensures VerifyPow(hashing, d, seed, nonce) == Fail(ErrInsufficientWork)
  {
  }

  // ---- SaveUsedSeedTask ----

  /** Marking a seed used writes `pow:<seed>` ↦ "1" with the TTL; a store failure is
      InternalServerError and leaves the store as it was. */
  function MarkSeedUsed(m: map<string, Entry>, seed: string, ttlMinutes: Int64, fault: bool): (s: Step)
    ensures s.outcome.Pass? <==> !fault
    ensures s.outcome.Fail? ==> s == Step(Fail(ErrInternalServerError), m)
    ensures s.outcome.Pass? ==> UsedSeedKey(seed) in s.store && s.store[UsedSeedKey(seed)] == Entry("1", ttlMinutes)
    ensures AgreeExcept(m, s.store, UsedSeedKey(seed))
  {
    if fault then Step(Fail(ErrInternalServerError), m)
    else Step(Pass, m[UsedSeedKey(seed) := Entry("1", ttlMinutes)])
  }

  /** After a seed has been marked, the replay check on the same seed reports it used. */
  lemma MarkedSeedIsRejected(m: map<string, Entry>, seed: string, ttlMinutes: Int64)
    ensures UsedSeedVerdict(MarkSeedUsed(m, seed, ttlMinutes, false).store, seed, false)
      == Fail(ErrSeedAlreadyUsed)
  {
  }

  /** `SaveUsedSeedTask.Execute`. */
  method SaveUsedSeed(store: Store, seed: string, ttlMinutes: Int64, fault: bool) returns (r: Outcome)
    modifies store
    ensures Step(r, store.data) == MarkSeedUsed(old(store.data), seed, ttlMinutes, fault)
  {
    var ok := store.Set(UsedSeedKey(seed), "1", ttlMinutes, fault);
    if !ok {
      return Fail(ErrInternalServerError);
    }
    return Pass;
  }

  // ---- SaveCaptchaTask ----

  /** A fresh record holds the answer, the full retry budget and is unsolved. It is
      marshalled and written under `captcha:<id>` with the captcha TTL; a marshal or
      store failure is InternalServerError and leaves the store as it was. */
  function SaveCaptchaStep(codec: Codec, m: map<string, Entry>, ttlMinutes: Int64, maxTries: Int64,
                           id: string, answer: string, fault: bool): (s: Step)
    ensures s.outcome.Fail? ==> s == Step(Fail(ErrInternalServerError), m)
    ensures s.outcome.Pass? ==>
      var key := CaptchaKey(id);
      key in s.store && s.store[key].ttlMinutes == ttlMinutes &&
      codec.marshal(Captcha(answer, maxTries, false)) == Some(s.store[key].value)
    ensures fault ==> s.outcome.Fail?
    ensures Faithful(codec) ==> (s.outcome.Pass? <==> !fault)
    ensures AgreeExcept(m, s.store, CaptchaKey(id))
  {
    match codec.marshal(Captcha(answer, maxTries, false))
    case None => Step(Fail(ErrInternalServerError), m)
    case Some(data) =>
      if fault then Step(Fail(ErrInternalServerError), m)
      else Step(Pass, m[CaptchaKey(id) := Entry(data, ttlMinutes)])
  }

  /** `SaveCaptchaTask.Execute`. */
  method SaveCaptcha(store: Store, codec: Codec, ttlMinutes: Int64, maxTries: Int64,
                     id: string, answer: string, fault: bool) returns (r: Outcome)
    modifies store
    ensures Step(r, store.data) == SaveCaptchaStep(codec, old(store.data), ttlMinutes, maxTries, id, answer, fault)
  {
    var data := codec.marshal(Captcha(answer, maxTries, false));
    if data.None? {
      return Fail(ErrInternalServerError);
    }
    var ok := store.Set(CaptchaKey(id), data.value, ttlMinutes, fault);
    if !ok {
      return Fail(ErrInternalServerError);
    }
    return Pass;
  }
}
