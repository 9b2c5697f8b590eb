/** Stage three (internal/process/verify): read the answer record of a captcha, apply
    the retry/solve transition to it in place, and write it back or delete it. */
module ChallengeVerifier {
  import opened Wrappers
  import opened Errors
  import opened GoText
  import opened KeyValue
  import opened ChallengeTasks

  /** The key ValidateCaptchaTask writes and deletes: spelt `capcha:`, unlike the
      `captcha:` key the record is saved and read under. */
  function ValidatorKey(id: string): (k: string)
    ensures |k| == |id| + 7 && k[..7] == "capcha:" && k[7..] == id
  {
    "capcha:" + id
  }

  /** The validator's key is never the key of any saved record nor of any used-seed
      marker, so its writes and deletes never reach them. */
  lemma ValidatorKeyMissesRecords(id: string, id': string, seed: string)
    ensures ValidatorKey(id) != CaptchaKey(id')
    ensures ValidatorKey(id) != UsedSeedKey(seed)
  {
    assert ValidatorKey(id)[3] != CaptchaKey(id')[3];
    assert ValidatorKey(id)[0] != UsedSeedKey(seed)[0];
  }

  // ---- ReadCaptchaTask ----

  /** Reading `captcha:<id>`: any Get error, absence included, is CaptchaNotFound;
      text that does not unmarshal is InternalServerError; otherwise the record. */
  function ReadCaptchaOf(m: map<string, Entry>, codec: Codec, id: string, fault: bool)
    : (r: Result<Captcha, GoError>)
    ensures r == Err(ErrCaptchaNotFound) <==> fault || CaptchaKey(id) !in m
    ensures r == Err(ErrInternalServerError) <==>
      !fault && CaptchaKey(id) in m && codec.unmarshal(m[CaptchaKey(id)].value).None?
    ensures r.Ok? ==> !fault && CaptchaKey(id) in m && codec.unmarshal(m[CaptchaKey(id)].value) == Some(r.value)
  {
    var key := CaptchaKey(id);
    if fault || key !in m then Err(ErrCaptchaNotFound)
    else
      match codec.unmarshal(m[key].value)
      case None => Err(ErrInternalServerError)
      case Some(c) => Ok(c)
  }

  /** `ReadCaptchaTask.Execute`; it changes nothing in the store. */
  method ReadCaptcha(store: Store, codec: Codec, id: string, fault: bool) returns (r: Result<Captcha, GoError>)
    ensures r == ReadCaptchaOf(store.data, codec, id, fault)
  {
    var data := store.Get(CaptchaKey(id), fault);
    if data.Err? {
      return Err(ErrCaptchaNotFound);
    }
    var c := codec.unmarshal(data.value);
    if c.None? {
      return Err(ErrInternalServerError);
    }
    return Ok(c.value);
  }

  /** What SaveCaptcha stores, ReadCaptcha returns. */
  lemma SavedRecordReadsBack(codec: Codec, m: map<string, Entry>, ttlMinutes: Int64, maxTries: Int64,
                             id: string, answer: string)
    requires Faithful(codec)
    ensures var saved := SaveCaptchaStep(codec, m, ttlMinutes, maxTries, id, answer, false);
      saved.outcome == Pass &&
      ReadCaptchaOf(saved.store, codec, id, false) == Ok(Captcha(answer, maxTries, false))
  {
  }

  // ---- ValidateCaptchaTask ----

  /** The `*Captcha` the verifier mutates through its pointer. */
  class CaptchaRecord {
    var value: string
    var triesLeft: Int64
    var solved: bool

    function Snapshot(): Captcha
      reads this
    {
      Captcha(value, triesLeft, solved)
    }

    constructor (c: Captcha)
      ensures Snapshot() == c
    {
      value, triesLeft, solved := c.value, c.triesLeft, c.solved;
    }
  }

  /** `TriesLeft--` on a 64-bit int. */
  function Decrement(t: Int64): (r: Int64)
    ensures t > MinInt64 ==> r == t - 1
    ensures t == MinInt64 ==> r == MaxInt64
  {
    Wrap64(t - 1)
  }

  /** Which of the validator's store calls fail; a failed Del is ignored. */
  datatype ValidateFaults = ValidateFaults(delFails: bool, setFails: bool)

  /** The validator's result, the record as it leaves it, and the store. */
  datatype Validation = Validation(outcome: Outcome, record: Captcha, store: map<string, Entry>)

  /** The retry/solve transition, writing under `key`.
      A wrong value costs one try. If none is left the key is deleted, a delete error
      is ignored, and the result is NoTriesLeft. Otherwise the record is marshalled (a
      marshal error is dropped and an empty text written) and set with the full TTL:
      InvalidCaptchaValue, or InternalServerError if the set fails.
      A right value marks the record solved whatever it was before, keeps its tries,
      and sets it with the full TTL; the set's own error is returned raw. */
  function ValidateStep(codec: Codec, ttlMinutes: Int64, key: string, value: string, c: Captcha,
                        m: map<string, Entry>, faults: ValidateFaults): (v: Validation)
    ensures c.value != value ==> v.record == c.(triesLeft := Decrement(c.triesLeft))
    ensures c.value == value ==> v.record == c.(solved := true)
    ensures AgreeExcept(m, v.store, key)
    ensures c.value != value && Decrement(c.triesLeft) <= 0 ==>
      v.outcome == Fail(ErrNoTriesLeft) && (key !in v.store <==> (key !in m || !faults.delFails)) &&
      (faults.delFails ==> v.store == m)
    ensures c.value != value && Decrement(c.triesLeft) > 0 ==>
      (!faults.setFails ==> (v.outcome == Fail(ErrInvalidCaptchaValue) &&
        key in v.store && v.store[key].ttlMinutes == ttlMinutes &&
        (codec.marshal(v.record).Some? ==> v.store[key].value == codec.marshal(v.record).value) &&
        (codec.marshal(v.record).None? ==> v.store[key].value == ""))) &&
      (faults.setFails ==> v.outcome == Fail(ErrInternalServerError) && v.store == m)
    ensures c.value == value && codec.marshal(v.record).Some? ==>
      (!faults.setFails ==> (v.outcome == Pass &&
        key in v.store && v.store[key] == Entry(codec.marshal(v.record).value, ttlMinutes))) &&
      (faults.setFails ==> v.outcome == Fail(StoreFailure) && v.store == m)
    ensures c.value == value && codec.marshal(v.record).None? ==>
      v.outcome == Fail(ErrInternalServerError) && v.store == m
  {
    if c.value != value then
      var c' := c.(triesLeft := Decrement(c.triesLeft));
      if c'.triesLeft <= 0 then
        Validation(Fail(ErrNoTriesLeft), c', if faults.delFails then m else m - {key})
      else
        var data := match codec.marshal(c') case Some(d) => d case None => "";
        if faults.setFails then Validation(Fail(ErrInternalServerError), c', m)
        else Validation(Fail(ErrInvalidCaptchaValue), c', m[key := Entry(data, ttlMinutes)])
    else
      var c' := c.(solved := true);
      match codec.marshal(c')
      case None => Validation(Fail(ErrInternalServerError), c', m)
      case Some(data) =>
        if faults.setFails then Validation(Fail(StoreFailure), c', m)
        else Validation(Pass, c', m[key := Entry(data, ttlMinutes)])
  }

  /** `ValidateCaptchaTask.Execute`: mutates `record` in place and writes under
      `capcha:<id>`. */
  method ValidateCaptcha(store: Store, codec: Codec, ttlMinutes: Int64, id: string, value: string,
                         record: CaptchaRecord, faults: ValidateFaults) returns (r: Outcome)
    modifies store, record
    ensures var v := ValidateStep(codec, ttlMinutes, ValidatorKey(id), value, old(record.Snapshot()),
                                  old(store.data), faults);
      r == v.outcome && record.Snapshot() == v.record && store.data == v.store
  {
    var key := ValidatorKey(id);
    if record.value != value {
      record.triesLeft := Decrement(record.triesLeft);
      if record.triesLeft <= 0 {
        var _ := store.Del(key, faults.delFails);
        return Fail(ErrNoTriesLeft);
      }
      var encoded := codec.marshal(record.Snapshot());
      var data := if encoded.Some? then encoded.value else "";
      var ok := store.Set(key, data, ttlMinutes, faults.setFails);
      if !ok {
        return Fail(ErrInternalServerError);
      }
      return Fail(ErrInvalidCaptchaValue);
    }
    record.solved := true;
    var encoded := codec.marshal(record.Snapshot());
    if encoded.None? {
      return Fail(ErrInternalServerError);
    }
    var ok := store.Set(key, encoded.value, ttlMinutes, faults.setFails);
    if !ok {
      return Fail(StoreFailure);
    }
    return Pass;
  }

  // ---- Process ----

  datatype VerifyRequest = VerifyRequest(captchaId: string, captchaValue: string)

  datatype VerifyResponse = VerifyResponse(captchaId: string)

  /** Which store calls of one verification fail. */
  datatype VerifyFaults = VerifyFaults(getFails: bool, delFails: bool, setFails: bool)

  const NoFaults := VerifyFaults(false, false, false)

  datatype VerifyRun = VerifyRun(result: Result<VerifyResponse, GoError>, store: map<string, Entry>)

  /** Read, then validate with writes under `key`: a read error is returned unchanged
      and validation is skipped; a validation error is returned unchanged; success
      echoes the request's id. */
  function Verify(codec: Codec, ttlMinutes: Int64, key: string, req: VerifyRequest,
                  faults: VerifyFaults, m: map<string, Entry>): (run: VerifyRun)
    ensures run.result.Ok? ==> run.result.value == VerifyResponse(req.captchaId)
    ensures ReadCaptchaOf(m, codec, req.captchaId, faults.getFails).Err? ==>
      run == VerifyRun(Err(ReadCaptchaOf(m, codec, req.captchaId, faults.getFails).error), m)
    ensures AgreeExcept(m, run.store, key)
    ensures ReadCaptchaOf(m, codec, req.captchaId, faults.getFails).Ok? ==>
      var v := ValidateStep(codec, ttlMinutes, key, req.captchaValue,
                            ReadCaptchaOf(m, codec, req.captchaId, faults.getFails).value, m,
                            ValidateFaults(faults.delFails, faults.setFails));
      run.store == v.store &&
      (v.outcome.Fail? ==> run.result == Err(v.outcome.error)) &&
      (v.outcome.Pass? ==> run.result == Ok(VerifyResponse(req.captchaId)))
  {
    match ReadCaptchaOf(m, codec, req.captchaId, faults.getFails)
    case Err(e) => VerifyRun(Err(e), m)
    case Ok(c) =>
      var v := ValidateStep(codec, ttlMinutes, key, req.captchaValue, c, m,
                            ValidateFaults(faults.delFails, faults.setFails));
      if v.outcome.Fail? then VerifyRun(Err(v.outcome.error), v.store)
      else VerifyRun(Ok(VerifyResponse(req.captchaId)), v.store)
  }

  /** The verification as the source writes it: validated records go to `capcha:<id>`. */
  function VerifyAsWritten(codec: Codec, ttlMinutes: Int64, req: VerifyRequest,
                           faults: VerifyFaults, m: map<string, Entry>): (run: VerifyRun)
    ensures AgreeExcept(m, run.store, ValidatorKey(req.captchaId))
    ensures ReadCaptchaOf(m, codec, req.captchaId, faults.getFails).Err? ==>
      run == VerifyRun(Err(ReadCaptchaOf(m, codec, req.captchaId, faults.getFails).error), m)
  {
    Verify(codec, ttlMinutes, ValidatorKey(req.captchaId), req, faults, m)
  }

  /** `Process.Process`. The record the read returns is handed to the validator,
      which mutates it in place. */
  method VerifyProcess(store: Store, codec: Codec, ttlMinutes: Int64, req: VerifyRequest,
                       faults: VerifyFaults) returns (r: Result<VerifyResponse, GoError>)
    modifies store
    ensures var run := VerifyAsWritten(codec, ttlMinutes, req, faults, old(store.data));
      r == run.result && store.data == run.store
  {
    var read := ReadCaptcha(store, codec, req.captchaId, faults.getFails);
    if read.Err? {
      return Err(read.error);
    }
    var record := new CaptchaRecord(read.value);
    var err := ValidateCaptcha(store, codec, ttlMinutes, req.captchaId, req.captchaValue, record,
                               ValidateFaults(faults.delFails, faults.setFails));
    if err.Fail? {
      return Err(err.error);
    }
    return Ok(VerifyResponse(req.captchaId));
  }

  /** As written, a verification changes no saved record and no used-seed marker:
      every later read of any captcha returns what it returned before. */
  lemma AsWrittenLeavesRecordsAlone(codec: Codec, ttlMinutes: Int64, req: VerifyRequest,
                                    faults: VerifyFaults, m: map<string, Entry>, id: string, seed: string,
                                    fault: bool)
    ensures var run := VerifyAsWritten(codec, ttlMinutes, req, faults, m);
      ReadCaptchaOf(run.store, codec, id, fault) == ReadCaptchaOf(m, codec, id, fault) &&
      (UsedSeedKey(seed) in run.store <==> UsedSeedKey(seed) in m)
  {
    ValidatorKeyMissesRecords(req.captchaId, id, seed);
  }

  /** Nothing rejects a solved record: a right answer succeeds, and succeeds again on
      the store the first verification leaves. */
  lemma RepeatSolveSucceeds(codec: Codec, ttlMinutes: Int64, req: VerifyRequest, m: map<string, Entry>)
    requires Faithful(codec)
    requires ReadCaptchaOf(m, codec, req.captchaId, false).Ok?
    requires ReadCaptchaOf(m, codec, req.captchaId, false).value.value == req.captchaValue
    ensures var first := VerifyAsWritten(codec, ttlMinutes, req, NoFaults, m);
      first.result == Ok(VerifyResponse(req.captchaId)) &&
      VerifyAsWritten(codec, ttlMinutes, req, NoFaults, first.store).result == Ok(VerifyResponse(req.captchaId))
  {
  }

  // ---- Repeated attempts ----

  /** The verification as evidently intended: validated records written back under the
      `captcha:<id>` key they were read from. */
  function VerifyIntended(codec: Codec, ttlMinutes: Int64, req: VerifyRequest,
                          faults: VerifyFaults, m: map<string, Entry>): (run: VerifyRun)
    ensures AgreeExcept(m, run.store, CaptchaKey(req.captchaId))
    ensures Faithful(codec) && faults == NoFaults && ReadCaptchaOf(m, codec, req.captchaId, false).Ok? ==>
      var c := ReadCaptchaOf(m, codec, req.captchaId, false).value;
      var after := ReadCaptchaOf(run.store, codec, req.captchaId, false);
      (c.value == req.captchaValue ==> after == Ok(c.(solved := true))) &&
      (c.value != req.captchaValue && Decrement(c.triesLeft) > 0 ==>
        after == Ok(c.(triesLeft := Decrement(c.triesLeft)))) &&
      (c.value != req.captchaValue && Decrement(c.triesLeft) <= 0 ==> after == Err(ErrCaptchaNotFound))
  {
    Verify(codec, ttlMinutes, CaptchaKey(req.captchaId), req, faults, m)
  }

  /** The results of a sequence of fault-free attempts on one captcha, as written or
      as intended, and the store they leave. */
  datatype Session = Session(results: seq<Result<VerifyResponse, GoError>>, store: map<string, Entry>)

  function Attempts(codec: Codec, ttlMinutes: Int64, intended: bool, id: string, values: seq<string>,
                    m: map<string, Entry>): (s: Session)
    ensures |s.results| == |values|
    decreases |values|
  {
    if values == [] then Session([], m)
    else
      var req := VerifyRequest(id, values[0]);
      var run := if intended then VerifyIntended(codec, ttlMinutes, req, NoFaults, m)
                 else VerifyAsWritten(codec, ttlMinutes, req, NoFaults, m);
      var rest := Attempts(codec, ttlMinutes, intended, id, values[1..], run.store);
      Session([run.result] + rest.results, rest.store)
  }

  /** As written, wrong answers are never counted: with a saved record allowing at
      least two tries, every wrong answer, however many, is InvalidCaptchaValue and the
      saved record still reads back unchanged. */
  lemma {:induction false} AsWrittenWrongAnswersNeverExhaust(codec: Codec, ttlMinutes: Int64, id: string,
                                                             values: seq<string>, m: map<string, Entry>, c: Captcha)
    requires ReadCaptchaOf(m, codec, id, false) == Ok(c)
    requires c.triesLeft >= 2
    requires forall i :: 0 <= i < |values| ==> values[i] != c.value
    ensures var s := Attempts(codec, ttlMinutes, false, id, values, m);
      (forall i :: 0 <= i < |values| ==> s.results[i] == Err(ErrInvalidCaptchaValue)) &&
      ReadCaptchaOf(s.store, codec, id, false) == Ok(c)
    decreases |values|
  {
    if values != [] {
      var run := Verify(codec, ttlMinutes, ValidatorKey(id), VerifyRequest(id, values[0]), NoFaults, m);
      ValidatorKeyMissesRecords(id, id, "");
      assert ReadCaptchaOf(run.store, codec, id, false) == Ok(c);
      AsWrittenWrongAnswersNeverExhaust(codec, ttlMinutes, id, values[1..], run.store, c);
      var s := Attempts(codec, ttlMinutes, false, id, values, m);
      forall i | 0 <= i < |values| ensures s.results[i] == Err(ErrInvalidCaptchaValue) {
        if i > 0 {
          assert s.results[i] == Attempts(codec, ttlMinutes, false, id, values[1..], run.store).results[i - 1];
        }
      }
    }
  }

  /** With `maxTries = 3`, the third wrong answer is still InvalidCaptchaValue rather
      than NoTriesLeft, and the record can still be read. */
  lemma AsWrittenThirdWrongAnswer(codec: Codec, ttlMinutes: Int64, id: string, answer: string,
                                  wrong: string, m: map<string, Entry>)
    requires Faithful(codec)
    requires wrong != answer
    ensures var saved := SaveCaptchaStep(codec, m, ttlMinutes, 3, id, answer, false);
      var s := Attempts(codec, ttlMinutes, false, id, [wrong, wrong, wrong], saved.store);
      s.results[2] == Err(ErrInvalidCaptchaValue) &&
      ReadCaptchaOf(s.store, codec, id, false).Ok?
  {
    var saved := SaveCaptchaStep(codec, m, ttlMinutes, 3, id, answer, false);
    AsWrittenWrongAnswersNeverExhaust(codec, ttlMinutes, id, [wrong, wrong, wrong], saved.store,
                                      Captcha(answer, 3, false));
  }

  /** With the intended key, a record with `n >= 1` tries takes exactly `n` wrong
      answers: the first `n - 1` are InvalidCaptchaValue, the `n`-th is NoTriesLeft, and
      the captcha is then not found. */
  lemma {:induction false} IntendedWrongAnswersExhaust(codec: Codec, ttlMinutes: Int64, id: string,
                                                       values: seq<string>, m: map<string, Entry>, c: Captcha)
    requires Faithful(codec)
    requires ReadCaptchaOf(m, codec, id, false) == Ok(c)
    requires c.triesLeft >= 1 && |values| == c.triesLeft
    requires forall i :: 0 <= i < |values| ==> values[i] != c.value
    ensures var s := Attempts(codec, ttlMinutes, true, id, values, m);
      (forall i :: 0 <= i < |values| - 1 ==> s.results[i] == Err(ErrInvalidCaptchaValue)) &&
      s.results[|values| - 1] == Err(ErrNoTriesLeft) &&
      ReadCaptchaOf(s.store, codec, id, false) == Err(ErrCaptchaNotFound)
    decreases |values|
  {
    var run := Verify(codec, ttlMinutes, CaptchaKey(id), VerifyRequest(id, values[0]), NoFaults, m);
    var s := Attempts(codec, ttlMinutes, true, id, values, m);
    if c.triesLeft == 1 {
      assert values[1..] == [];
      assert CaptchaKey(id) !in run.store;
    } else {
      var c' := c.(triesLeft := c.triesLeft - 1);
      assert run.store[CaptchaKey(id)].value == codec.marshal(c').value;
      assert ReadCaptchaOf(run.store, codec, id, false) == Ok(c');
      IntendedWrongAnswersExhaust(codec, ttlMinutes, id, values[1..], run.store, c');
      var rest := Attempts(codec, ttlMinutes, true, id, values[1..], run.store);
      forall i | 1 <= i < |values| ensures s.results[i] == rest.results[i - 1] {
      }
    }
  }

  /** The scenario of three wrong answers against `maxTries = 3`, as intended:
      InvalidCaptchaValue, InvalidCaptchaValue, NoTriesLeft, then CaptchaNotFound. */
  lemma IntendedThreeWrongAnswers(codec: Codec, ttlMinutes: Int64, id: string, answer: string,
                                  wrong: string, m: map<string, Entry>)
    requires Faithful(codec)
    requires wrong != answer
    ensures var saved := SaveCaptchaStep(codec, m, ttlMinutes, 3, id, answer, false);
      var s := Attempts(codec, ttlMinutes, true, id, [wrong, wrong, wrong], saved.store);
      s.results == [Err(ErrInvalidCaptchaValue), Err(ErrInvalidCaptchaValue), Err(ErrNoTriesLeft)] &&
      ReadCaptchaOf(s.store, codec, id, false) == Err(ErrCaptchaNotFound)
  {
    var saved := SaveCaptchaStep(codec, m, ttlMinutes, 3, id, answer, false);
    IntendedWrongAnswersExhaust(codec, ttlMinutes, id, [wrong, wrong, wrong], saved.store,
                                Captcha(answer, 3, false));
  }
}
