/** The Lambda handler: one invocation over a batch of stream records. */
module Handler {
  import opened Wrappers
  import opened Telemetry
  import opened Naming
  import opened Bucket

  /** `base64.StdEncoding.DecodeString`: the bytes, or None on malformed input. */
  type Decoder = string -> Option<seq<byte>>

  /** `json.Marshal` of a JSON record: the text, or None when it fails. */
  type Marshaller = JsonRecord -> Option<seq<byte>>

  /** What (part of) an invocation does: the uploads it attempts, in order,
      and whether it ended in `log.Panic`. */
  datatype Step = Step(attempts: seq<Attempt>, panicked: bool)

  /** Attempts already made, followed by what the rest of the invocation does. */
  function Then(done: seq<Attempt>, rest: Step): Step {
    Step(done + rest.attempts, rest.panicked)
  }

  lemma ThenThen(done: seq<Attempt>, more: seq<Attempt>, rest: Step)
    ensures Then(done, Then(more, rest)) == Then(done + more, rest)
  {
    assert done + (more + rest.attempts) == (done + more) + rest.attempts;
  }

  /** A record that leads to uploads: an INSERT whose image decodes. */
  predicate Kept(r: ChangeRecord, decode: Decoder) {
    IsInsert(r) && decode(r.newImage.image).Some?
  }

  /** The uploads one record causes when the next attempt is the `n`-th:
      nothing for a record that is not an INSERT or whose image does not
      decode; otherwise the image, and only once that is stored and the JSON
      record marshals, the JSON record. Any failure on the way panics. */
  function RecordAttempts(tub: string, r: ChangeRecord, decode: Decoder, marshal: Marshaller,
                          succeeds: nat -> bool, n: nat): Step
  {
    if !IsInsert(r) then Step([], false)
    else
      var t := r.newImage;
      match decode(t.image)
      case None => Step([], false)   // logged; the record is skipped
      case Some(imageBytes) =>
        var image := Attempt(ImageKey(tub, t.camImageArray), imageBytes, succeeds(n));
        if !image.ok then Step([image], true)
        else
          match marshal(ToJsonRecord(t))
          case None => Step([image], true)
          case Some(rawJson) =>
            var record := Attempt(RecordKey(tub, t.currentIX as int), rawJson, succeeds(n + 1));
            Step([image, record], !record.ok)
  }

  /** What the loop body does with one record, given the number of the next
      attempt. */
  type RecordStep = (ChangeRecord, nat) -> Step

  function StepOf(tub: string, decode: Decoder, marshal: Marshaller, succeeds: nat -> bool): RecordStep {
    (r: ChangeRecord, n: nat) => RecordAttempts(tub, r, decode, marshal, succeeds, n)
  }

  lemma StepOfApplies(tub: string, decode: Decoder, marshal: Marshaller, succeeds: nat -> bool, r: ChangeRecord, n: nat)
    ensures StepOf(tub, decode, marshal, succeeds)(r, n) == RecordAttempts(tub, r, decode, marshal, succeeds, n)
  {
  }

  /** The handler's loop over a batch: the records in order, numbering the
      attempts from `n`, up to the first record that panics. */
  function Run(rs: seq<ChangeRecord>, step: RecordStep, n: nat): Step
    decreases |rs|
  {
    if rs == [] then Step([], false)
    else
      var first := step(rs[0], n);
      if first.panicked then first
      else Then(first.attempts, Run(rs[1..], step, n + |first.attempts|))
  }

  /** The uploads a batch causes when the next attempt is the `n`-th. */
  function BatchAttempts(tub: string, rs: seq<ChangeRecord>, decode: Decoder, marshal: Marshaller,
                         succeeds: nat -> bool, n: nat): Step
  {
    Run(rs, StepOf(tub, decode, marshal, succeeds), n)
  }

  /** A batch split in two: the second part runs only if the first did not
      panic, and its attempts are numbered after the first part's. */
  lemma {:induction false} RunSplit(a: seq<ChangeRecord>, b: seq<ChangeRecord>, step: RecordStep, n: nat)
    ensures var first := Run(a, step, n);
      Run(a + b, step, n) ==
        if first.panicked then first
        else Then(first.attempts, Run(b, step, n + |first.attempts|))
    decreases |a|
  {
    if a == [] {
      assert a + b == b;
    } else {
      assert (a + b)[0] == a[0] && (a + b)[1..] == a[1..] + b;
      var r := step(a[0], n);
      if !r.panicked {
        RunSplit(a[1..], b, step, n + |r.attempts|);
        var rest := Run(a[1..], step, n + |r.attempts|);
        if !rest.panicked {
          ThenThen(r.attempts, rest.attempts, Run(b, step, n + |r.attempts| + |rest.attempts|));
        }
      }
    }
  }

  lemma RunSingleton(r: ChangeRecord, step: RecordStep, n: nat)
    ensures Run([r], step, n) == step(r, n)
  {
    assert [r][1..] == [];
    assert step(r, n).attempts + [] == step(r, n).attempts;
  }

  /** One more record processed after a prefix that did not panic. */
  lemma RunExtend(rs: seq<ChangeRecord>, i: nat, step: RecordStep, n: nat, done: seq<Attempt>)
    requires i < |rs| && Run(rs[..i], step, n) == Step(done, false)
    ensures Run(rs[..i + 1], step, n) == Then(done, step(rs[i], n + |done|))
  {
    assert rs[..i] + [rs[i]] == rs[..i + 1];
    RunSplit(rs[..i], [rs[i]], step, n);
    RunSingleton(rs[i], step, n + |done|);
  }

  /** A prefix that panicked is the whole run. */
  lemma RunStops(rs: seq<ChangeRecord>, i: nat, step: RecordStep, n: nat)
    requires i <= |rs| && Run(rs[..i], step, n).panicked
    ensures Run(rs, step, n) == Run(rs[..i], step, n)
  {
    assert rs[..i] + rs[i..] == rs;
    RunSplit(rs[..i], rs[i..], step, n);
  }

  /** Regrouping a log of attempts; a cheap hint for the frame reasoning in
      `Startup.ColdStart`, where the inline assertion is costly. */
  lemma AppendAssoc(a: seq<Attempt>, b: seq<Attempt>, c: seq<Attempt>)
    ensures a + (b + c) == (a + b) + c
  {
  }

  /** The body of the handler's loop for one record: for an INSERT whose
      image decodes, upload the image and then its JSON record; any upload or
      marshal failure panics. */
  method HandleRecord(bucket: Bucket, tub: string, r: ChangeRecord, decode: Decoder, marshal: Marshaller)
    returns (panicked: bool)
    modifies bucket
    ensures var s := RecordAttempts(tub, r, decode, marshal, bucket.succeeds, |old(bucket.attempts)|);
      && bucket.attempts == old(bucket.attempts) + s.attempts
      && panicked == s.panicked
  {
    if IsInsert(r) {
      var t := r.newImage;
      var imageBytes := decode(t.image);
      if imageBytes.Some? {
        var imageName := ImageKey(tub, t.camImageArray);
        var ok := bucket.Upload(imageName, imageBytes.value);
        if !ok {
          return true;   // log.Panic
        }
        var jsonName := RecordKey(tub, t.currentIX as int);
        var rawJson := marshal(ToJsonRecord(t));
        if rawJson.None? {
          return true;   // log.Panic
        }
        ok := bucket.Upload(jsonName, rawJson.value);
        if !ok {
          return true;   // log.Panic
        }
        return false;
      }
      // base64 failure: logged with Errorln, and the loop goes on
    }
    return false;
  }

  /** `handler`: walk the records in order, stopping at the first panic. The
      bucket then holds what the attempted puts made of its old contents. */
  method Handle(bucket: Bucket, tub: string, records: seq<ChangeRecord>, decode: Decoder, marshal: Marshaller)
    returns (panicked: bool)
    modifies bucket
    ensures var s := BatchAttempts(tub, records, decode, marshal, bucket.succeeds, |old(bucket.attempts)|);
      && bucket.attempts == old(bucket.attempts) + s.attempts
      && panicked == s.panicked
      && bucket.Objects() == Stored(old(bucket.Objects()), s.attempts)
  {
    ghost var before := bucket.attempts;
    ghost var n0 := |before|;
    ghost var step := StepOf(tub, decode, marshal, bucket.succeeds);
    panicked := false;
    var i := 0;
    assert records[..i] == [];
    assert before + [] == before;
    while i < |records| && !panicked
      invariant 0 <= i <= |records|
      invariant panicked == Run(records[..i], step, n0).panicked
      invariant bucket.attempts == before + Run(records[..i], step, n0).attempts
    {
      ghost var done := Run(records[..i], step, n0).attempts;
      assert |bucket.attempts| == n0 + |done|;
      ghost var current := RecordAttempts(tub, records[i], decode, marshal, bucket.succeeds, n0 + |done|);
      StepOfApplies(tub, decode, marshal, bucket.succeeds, records[i], n0 + |done|);
      RunExtend(records, i, step, n0, done);
      panicked := HandleRecord(bucket, tub, records[i], decode, marshal);
      assert before + (done + current.attempts) == (before + done) + current.attempts;
      i := i + 1;
    }
    if panicked {
      RunStops(records, i, step, n0);   // log.Panic ends the invocation
    } else {
      assert records[..i] == records;
    }
    StoredAppend(bucket.initial, before, Run(records, step, n0).attempts);
  }
}
