/** Stage two's process (internal/process/captcha/process.go): seven tasks in a fixed
    order; the first failure is returned unchanged and nothing after it runs, and what
    earlier steps wrote to the store stays there. */
module ChallengePipeline {
  import opened Wrappers
  import opened Errors
  import opened GoText
  import opened Digest
  import opened KeyValue
  import opened ChallengeTasks
  import SeedIssuer

  /** The configuration the tasks are built with, and the library primitives. The
      used-seed TTL is its own field: the wiring passes the captcha TTL there. */
  datatype Env = Env(
    hashing: Hashing,
    codec: Codec,
    secret: string,
    powTtlMinutes: Int64,
    difficulty: nat,
    usedSeedTtlMinutes: Int64,
    captchaTtlMinutes: Int64,
    maxTries: Int64)

  datatype Request = Request(seed: string, signature: string, nonce: string)

  /** The response carries the captcha's id and image, never its answer. */
  datatype Response = Response(captchaId: string, captchaImg: string)

  /** What the captcha renderer hands back: id, base64 image and expected answer. */
  datatype Rendered = Rendered(id: string, image: string, answer: string)

  /** Which of the three store calls of a run fail. */
  datatype Faults = Faults(existsFails: bool, markFails: bool, saveFails: bool)

  /** The result of a run, the store it leaves, and how many of the seven steps ran. */
  datatype Run = Run(result: Result<Response, GoError>, store: map<string, Entry>, stepsRun: nat)

  /** The pipeline over the store's contents `m`: signature, timestamp, replay check,
      work check, mark the seed used, render, save the record. */
  function Pipeline(env: Env, nowNanos: int, req: Request, render: Result<Rendered, GoError>,
                    faults: Faults, m: map<string, Entry>): (run: Run)
    ensures 1 <= run.stepsRun <= 7
    ensures run.result.Ok? ==> run.stepsRun == 7
    ensures run.stepsRun <= 4 ==> run.store == m && run.result.Err?
  {
    var sig := ValidateSignature(env.hashing, env.secret, req.seed, req.signature);
    if sig.Fail? then Run(Err(sig.error), m, 1) else
    var timely := CheckSeedTimestamp(env.powTtlMinutes, nowNanos, req.seed);
    if timely.Fail? then Run(Err(timely.error), m, 2) else
    var unused := UsedSeedVerdict(m, req.seed, faults.existsFails);
    if unused.Fail? then Run(Err(unused.error), m, 3) else
    var work := VerifyPow(env.hashing, env.difficulty, req.seed, req.nonce);
    if work.Fail? then Run(Err(work.error), m, 4) else
    var mark := MarkSeedUsed(m, req.seed, env.usedSeedTtlMinutes, faults.markFails);
    if mark.outcome.Fail? then Run(Err(mark.outcome.error), mark.store, 5) else
    match render
    case Err(e) => Run(Err(e), mark.store, 6)
    case Ok(c) =>
      var save := SaveCaptchaStep(env.codec, mark.store, env.captchaTtlMinutes, env.maxTries,
                                  c.id, c.answer, faults.saveFails);
      if save.outcome.Fail? then Run(Err(save.outcome.error), save.store, 7)
      else Run(Ok(Response(c.id, c.image)), save.store, 7)
  }

  /** `Process.Process`: the store calls are made on `store`; the renderer's output is
      a parameter. */
  method Process(store: Store, env: Env, nowNanos: int, req: Request,
                 render: Result<Rendered, GoError>, faults: Faults) returns (r: Result<Response, GoError>)
    modifies store
    ensures var run := Pipeline(env, nowNanos, req, render, faults, old(store.data));
      r == run.result && store.data == run.store
  {
    var err := ValidateSignature(env.hashing, env.secret, req.seed, req.signature);
    if err.Fail? {
      return Err(err.error);
    }
    err := CheckSeedTimestamp(env.powTtlMinutes, nowNanos, req.seed);
    if err.Fail? {
      return Err(err.error);
    }
    err := ValidateUsedSeed(store, req.seed, faults.existsFails);
    if err.Fail? {
      return Err(err.error);
    }
    err := VerifyPow(env.hashing, env.difficulty, req.seed, req.nonce);
    if err.Fail? {
      return Err(err.error);
    }
    err := SaveUsedSeed(store, req.seed, env.usedSeedTtlMinutes, faults.markFails);
    if err.Fail? {
      return Err(err.error);
    }
    if render.Err? {
      return Err(render.error);
    }
    var c := render.value;
    err := SaveCaptcha(store, env.codec, env.captchaTtlMinutes, env.maxTries, c.id, c.answer, faults.saveFails);
    if err.Fail? {
      return Err(err.error);
    }
    return Ok(Response(c.id, c.image));
  }

  /** The steps run in order and the first failure is the result, unchanged: the error
      of the first failing check, with the store untouched by any check. */
  lemma FirstFailureIsReturned(env: Env, nowNanos: int, req: Request, render: Result<Rendered, GoError>,
                               faults: Faults, m: map<string, Entry>)
    ensures var run := Pipeline(env, nowNanos, req, render, faults, m);
      var sig := ValidateSignature(env.hashing, env.secret, req.seed, req.signature);
      var timely := CheckSeedTimestamp(env.powTtlMinutes, nowNanos, req.seed);
      var unused := UsedSeedVerdict(m, req.seed, faults.existsFails);
      var work := VerifyPow(env.hashing, env.difficulty, req.seed, req.nonce);
      (sig.Fail? ==> run == Run(Err(ErrInvalidSignature), m, 1)) &&
      (sig.Pass? && timely.Fail? ==> run == Run(Err(timely.error), m, 2)) &&
      (sig.Pass? && timely.Pass? && unused.Fail? ==> run == Run(Err(unused.error), m, 3)) &&
      (sig.Pass? && timely.Pass? && unused.Pass? && work.Fail? ==> run == Run(Err(ErrInsufficientWork), m, 4))
  {
  }

  /** The first failure after the checks is returned too: a failed marker write is
      InternalServerError with the store as it was; a render error is the renderer's own
      error; a failed record save is InternalServerError. At steps 6 and 7 the store is the
      old one plus the marker, which is not rolled back. */
  lemma LateFailureIsReturned(env: Env, nowNanos: int, req: Request, render: Result<Rendered, GoError>,
                              faults: Faults, m: map<string, Entry>)
    ensures var run := Pipeline(env, nowNanos, req, render, faults, m);
      var marked := m[UsedSeedKey(req.seed) := Entry("1", env.usedSeedTtlMinutes)];
      (run.stepsRun == 5 ==> faults.markFails && run == Run(Err(ErrInternalServerError), m, 5)) &&
      (run.stepsRun == 6 ==> render.Err? && run == Run(Err(render.error), marked, 6)) &&
      (run.stepsRun == 7 && run.result.Err? ==>
        render.Ok? && run.result == Err(ErrInternalServerError) && run.store == marked) &&
      (run.stepsRun >= 5 ==> !faults.existsFails && UsedSeedKey(req.seed) !in m)
  {
  }

  /** Once a step has failed, no later step is consulted: the run is the same whatever
      the renderer or the later store calls would have done. */
  lemma LaterStepsDoNotRun(env: Env, nowNanos: int, req: Request, render: Result<Rendered, GoError>,
                           render': Result<Rendered, GoError>, faults: Faults, faults': Faults,
                           m: map<string, Entry>)
    ensures var run := Pipeline(env, nowNanos, req, render, faults, m);
      (run.stepsRun <= 2 ==> Pipeline(env, nowNanos, req, render', faults', m) == run) &&
      (run.stepsRun <= 4 && faults'.existsFails == faults.existsFails ==>
        Pipeline(env, nowNanos, req, render', faults', m) == run) &&
      (run.stepsRun == 5 && faults'.existsFails == faults.existsFails && faults'.markFails == faults.markFails ==>
        Pipeline(env, nowNanos, req, render', faults', m) == run) &&
      (run.stepsRun == 6 && faults'.existsFails == faults.existsFails && faults'.markFails == faults.markFails ==>
        Pipeline(env, nowNanos, req, render, faults', m) == run)
  {
  }

  /** On success the caller gets the renderer's id and image, the seed is marked used,
      and the answer record `{answer, maxTries, unsolved}` is stored under the id;
      nothing else in the store changes. */
  lemma SuccessfulRun(env: Env, nowNanos: int, req: Request, render: Result<Rendered, GoError>,
                      faults: Faults, m: map<string, Entry>)
    requires Faithful(env.codec)
    requires Pipeline(env, nowNanos, req, render, faults, m).result.Ok?
    ensures var run := Pipeline(env, nowNanos, req, render, faults, m);
      var c := render.value;
      render.Ok? &&
      run.result.value == Response(c.id, c.image) &&
      UsedSeedKey(req.seed) in run.store &&
      run.store[UsedSeedKey(req.seed)] == Entry("1", env.usedSeedTtlMinutes) &&
      CaptchaKey(c.id) in run.store &&
      run.store[CaptchaKey(c.id)].ttlMinutes == env.captchaTtlMinutes &&
      env.codec.unmarshal(run.store[CaptchaKey(c.id)].value) == Some(Captcha(c.answer, env.maxTries, false)) &&
      (forall k :: k != UsedSeedKey(req.seed) && k != CaptchaKey(c.id) ==>
        (k in run.store <==> k in m) && (k in m ==> run.store[k] == m[k]))
  {
    var c := render.value;
    MarkerAndRecordKeysDiffer(req.seed, c.id);
  }

  /** There is no rollback: when rendering or saving fails, the used-seed marker
      written at step five stays. */
  lemma NoRollback(env: Env, nowNanos: int, req: Request, render: Result<Rendered, GoError>,
                   faults: Faults, m: map<string, Entry>)
    requires Pipeline(env, nowNanos, req, render, faults, m).stepsRun >= 6
    ensures var run := Pipeline(env, nowNanos, req, render, faults, m);
      UsedSeedKey(req.seed) in run.store &&
      run.store[UsedSeedKey(req.seed)] == Entry("1", env.usedSeedTtlMinutes)
  {
    if render.Ok? {
      MarkerAndRecordKeysDiffer(req.seed, render.value.id);
    }
  }

  /** Replay prevention: after a successful run, a run with the same seed whose
      signature and freshness checks still pass stops at the replay check with
      SeedAlreadyUsed, leaving the store as it was. */
  lemma ReplayRejected(env: Env, now1: int, now2: int, req: Request, req': Request,
                       render: Result<Rendered, GoError>, render': Result<Rendered, GoError>,
                       faults: Faults, faults': Faults, m: map<string, Entry>)
    requires Pipeline(env, now1, req, render, faults, m).result.Ok?
    requires req'.seed == req.seed
    requires ValidateSignature(env.hashing, env.secret, req'.seed, req'.signature).Pass?
    requires CheckSeedTimestamp(env.powTtlMinutes, now2, req'.seed).Pass?
    requires !faults'.existsFails
    ensures var first := Pipeline(env, now1, req, render, faults, m);
      Pipeline(env, now2, req', render', faults', first.store) == Run(Err(ErrSeedAlreadyUsed), first.store, 3)
  {
  }

  /** Across stages: a seed just issued by the seed endpoint, presented at the second
      it was issued with its own signature, at difficulty 0, while unused and with a
      working store and renderer, yields a captcha. */
  lemma IssuedSeedYieldsCaptcha(env: Env, id: UuidText, unixSeconds: Int64, nonce: string,
                                rendered: Rendered, m: map<string, Entry>)
    requires Faithful(env.codec)
    requires 0 <= env.powTtlMinutes <= MaxWindowMinutes && env.difficulty == 0
    requires var issued := SeedIssuer.CreateSignedSeed(env.hashing, env.secret, id, unixSeconds).value;
      UsedSeedKey(issued.seed) !in m
    ensures var issued := SeedIssuer.CreateSignedSeed(env.hashing, env.secret, id, unixSeconds).value;
      Pipeline(env, unixSeconds * NanosPerSecond, Request(issued.seed, issued.signature, nonce),
               Ok(rendered), Faults(false, false, false), m).result
        == Ok(Response(rendered.id, rendered.image))
  {
    UuidHasNoColon(id);
    FutureSeedAccepted(env.powTtlMinutes, unixSeconds * NanosPerSecond, id, unixSeconds);
  }
}
