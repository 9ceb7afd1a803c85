/** Process start-up: the run prefix is fixed from the clock, the manifest is
    uploaded under it, and only then does the runtime hand batches to the
    handler. */
module Startup {
  import opened Telemetry
  import opened Naming
  import opened Bucket
  import opened Handler
  import opened Behaviour

  /** `generateMeta`: put the manifest at `{tub}/meta.json`; a failed put
      panics. */
  method GenerateMeta(bucket: Bucket, tub: string) returns (panicked: bool)
    modifies bucket
    ensures panicked == !bucket.succeeds(|old(bucket.attempts)|)
    ensures bucket.attempts == old(bucket.attempts) + [Attempt(MetaKey(tub), MetaBody(), !panicked)]
    ensures bucket.Objects() == if panicked then old(bucket.Objects()) else old(bucket.Objects())[MetaKey(tub) := MetaBody()]
  {
    var ok := bucket.Upload(MetaKey(tub), MetaBody());
    if !ok {
      return true;   // log.Panic
    }
    return false;
  }

  /** What a fresh process does when the clock reads `clock` and its first
      invocation receives `rs`: the manifest put, and, once that succeeds,
      the handler's uploads under the same prefix. */
  function ColdStartAttempts(clock: Timestamp, rs: seq<ChangeRecord>, decode: Decoder, marshal: Marshaller,
                             succeeds: nat -> bool, n: nat): Step
  {
    var tub := RunPrefix(clock);
    var meta := Attempt(MetaKey(tub), MetaBody(), succeeds(n));
    if !meta.ok then Step([meta], true)
    else Then([meta], BatchAttempts(tub, rs, decode, marshal, succeeds, n + 1))
  }

  /** `main`: fix the run prefix, write the manifest, then serve one
      invocation; `served` tells whether the handler ran at all. */
  method ColdStart(bucket: Bucket, clock: Timestamp, records: seq<ChangeRecord>, decode: Decoder, marshal: Marshaller)
    returns (served: bool, panicked: bool)
    modifies bucket
    ensures served == bucket.succeeds(|old(bucket.attempts)|)
    ensures var s := ColdStartAttempts(clock, records, decode, marshal, bucket.succeeds, |old(bucket.attempts)|);
      && bucket.attempts == old(bucket.attempts) + s.attempts
      && panicked == s.panicked
      && bucket.Objects() == Stored(old(bucket.Objects()), s.attempts)
  {
    ghost var before := bucket.attempts;
    var tub := RunPrefix(clock);
    panicked := GenerateMeta(bucket, tub);
    ghost var meta := Attempt(MetaKey(tub), MetaBody(), !panicked);
    StoredStep(bucket.initial, before, meta);
    if panicked {
      served := false;
      StoredAppend(bucket.initial, before, [meta]);
      return;
    }
    served := true;
    ghost var afterMeta := bucket.attempts;
    panicked := Handle(bucket, tub, records, decode, marshal);
    ghost var batch := BatchAttempts(tub, records, decode, marshal, bucket.succeeds, |before| + 1);
    AppendAssoc(before, [meta], batch.attempts);
    StoredAppend(bucket.initial, before, [meta] + batch.attempts);
    StoredAppend(bucket.initial, before, [meta]);
    StoredAppend(Stored(bucket.initial, before), [meta], batch.attempts);
  }

  /** The puts a cold start means to issue: the manifest, then the batch's
      plan. */
  function ColdStartPlan(clock: Timestamp, rs: seq<ChangeRecord>, decode: Decoder, marshal: Marshaller): Plan {
    var tub := RunPrefix(clock);
    var batch := BatchPlan(tub, rs, decode, marshal);
    Plan([Put(MetaKey(tub), MetaBody())] + batch.puts, batch.complete)
  }

  /** A cold start carries out its plan: the manifest is the first put, a
      failed manifest put stops everything, and the handler's puts follow in
      their planned order. */
  lemma ColdStartExecutesPlan(clock: Timestamp, rs: seq<ChangeRecord>, decode: Decoder, marshal: Marshaller,
                              succeeds: nat -> bool, n: nat)
    ensures ColdStartAttempts(clock, rs, decode, marshal, succeeds, n) ==
      Execute(ColdStartPlan(clock, rs, decode, marshal), n, succeeds)
  {
    var tub := RunPrefix(clock);
    var metaPut := Put(MetaKey(tub), MetaBody());
    var batch := BatchPlan(tub, rs, decode, marshal);
    ExecuteAppend([metaPut], batch, n, succeeds);
    assert [metaPut][1..] == [];
    var a := Attempt(metaPut.key, metaPut.body, succeeds(n));
    assert Issue([], true, n + 1, succeeds) == Step([], false);
    assert [a] + [] == [a];
    assert Execute(Plan([metaPut], true), n, succeeds) == Step([a], !a.ok);
    BatchExecutesPlan(tub, rs, decode, marshal, succeeds, n + 1);
  }

  /** Every upload of a cold start lies under the run prefix fixed at start-up. */
  lemma ColdStartStaysInRun(clock: Timestamp, rs: seq<ChangeRecord>, decode: Decoder, marshal: Marshaller,
                            succeeds: nat -> bool, n: nat)
    ensures var s := ColdStartAttempts(clock, rs, decode, marshal, succeeds, n);
      forall j :: 0 <= j < |s.attempts| ==> UnderRun(s.attempts[j].key, RunPrefix(clock))
  {
    var tub := RunPrefix(clock);
    var s := ColdStartAttempts(clock, rs, decode, marshal, succeeds, n);
    var p := ColdStartPlan(clock, rs, decode, marshal);
    var batch := BatchPlan(tub, rs, decode, marshal);
    ColdStartExecutesPlan(clock, rs, decode, marshal, succeeds, n);
    ExecuteFollows(p, n, succeeds);
    BatchPlanKeys(tub, rs, decode, marshal);
    forall j | 0 <= j < |s.attempts|
      ensures UnderRun(s.attempts[j].key, tub)
    {
      assert Puts(s.attempts)[j] == p.puts[j];
      if j > 0 {
        assert p.puts[j] == batch.puts[j - 1];
      }
    }
  }

  /** Once the manifest put succeeds, the handler never overwrites it when
      no INSERT of the batch whose image decodes names its image `meta.json`
      (records after a panic included): the manifest key then still holds
      the manifest body. */
  lemma ManifestSurvives(clock: Timestamp, rs: seq<ChangeRecord>, decode: Decoder, marshal: Marshaller,
                         succeeds: nat -> bool, n: nat, objects: map<string, seq<byte>>)
    requires succeeds(n)
    requires forall r :: r in rs && Kept(r, decode) ==> r.newImage.camImageArray != "meta.json"
    ensures var stored := Stored(objects, ColdStartAttempts(clock, rs, decode, marshal, succeeds, n).attempts);
      MetaKey(RunPrefix(clock)) in stored && stored[MetaKey(RunPrefix(clock))] == MetaBody()
  {
    var tub := RunPrefix(clock);
    var key := MetaKey(tub);
    var meta := Attempt(key, MetaBody(), true);
    var batch := BatchAttempts(tub, rs, decode, marshal, succeeds, n + 1);
    var plan := BatchPlan(tub, rs, decode, marshal);
    BatchExecutesPlan(tub, rs, decode, marshal, succeeds, n + 1);
    ExecuteFollows(plan, n + 1, succeeds);
    BatchPlanKeys(tub, rs, decode, marshal);
    forall j | 0 <= j < |batch.attempts| && batch.attempts[j].ok
      ensures batch.attempts[j].key != key
    {
      assert Puts(batch.attempts)[j] == plan.puts[j];
    }
    StoredAppend(objects, [meta], batch.attempts);
    StoredStep(objects, [], meta);
    assert [] + [meta] == [meta];
    UntouchedKey(Stored(objects, [meta]), batch.attempts, key);
  }
}
