/** Stage one: issuing a signed proof-of-work seed (internal/process/pow). */
module SeedIssuer {
  import opened Wrappers
  import opened Errors
  import opened GoText
  import opened Digest

  datatype SignedSeed = SignedSeed(seed: string, signature: string)

  /** The JSON response of the seed endpoint. */
  datatype SeedResponse = SeedResponse(seed: string, signature: string)

  /** `CreateSignedSeedTask.Execute`. The clock reading `time.Now().Unix()` and the
      fresh `uuid.New().String()` are parameters. The seed is `id:unixSeconds` and the
      signature is the hex HMAC-SHA256 of the seed under the secret. The task never
      fails; splitting its seed on `:` recovers the id and the decimal timestamp. */
  function CreateSignedSeed(hashing: Hashing, secret: string, id: UuidText, unixSeconds: Int64)
    : (r: Result<SignedSeed, GoError>)
    ensures r.Ok?
    ensures r.value.signature == hashing.hexHmac(secret, r.value.seed)
    ensures Split(r.value.seed, ':') == [id, FormatInt(unixSeconds)]
  {
    var stamp := FormatInt(unixSeconds);
    var seed := id + ":" + stamp;
    UuidHasNoColon(id);
    FormatIntHasOnlySignAndDigits(unixSeconds, ':');
    SplitPair(id, stamp, ':');
    Ok(SignedSeed(seed, hashing.hexHmac(secret, seed)))
  }

  /** `Process.Process` of the seed endpoint: the task's seed and signature are passed
      through unchanged; a task error is returned as it is, with no response. */
  function IssueSeed(task: Result<SignedSeed, GoError>): (r: Result<SeedResponse, GoError>)
    ensures task.Ok? ==> r.Ok? && r.value.seed == task.value.seed && r.value.signature == task.value.signature
    ensures task.Err? ==> r == Err(task.error)
  {
    match task
    case Ok(s) => Ok(SeedResponse(s.seed, s.signature))
    case Err(e) => Err(e)
  }

  /** With the real issuer the seed endpoint always answers with a seed of the form
      `id:unixSeconds` and its HMAC. */
  lemma IssueSeedNeverFails(hashing: Hashing, secret: string, id: UuidText, unixSeconds: Int64)
    ensures var r := IssueSeed(CreateSignedSeed(hashing, secret, id, unixSeconds));
      r.Ok? && r.value.seed == id + ":" + FormatInt(unixSeconds) &&
      r.value.signature == hashing.hexHmac(secret, r.value.seed)
  {
  }

  /** The timestamp half of an issued seed parses back to the issuing second. */
  lemma IssuedTimestampParses(hashing: Hashing, secret: string, id: UuidText, unixSeconds: Int64)
    ensures var parts := Split(CreateSignedSeed(hashing, secret, id, unixSeconds).value.seed, ':');
      |parts| == 2 && ParseInt(parts[1]) == Some(unixSeconds)
  {
    FormatParseRoundTrip(unixSeconds);
  }
}
