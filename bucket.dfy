/** The target S3 bucket as the ingester sees it: a put-object call that either
    succeeds or fails, and the objects the successful puts leave behind. */
module Bucket {
  import opened Telemetry

  /** One upload attempt, in the order issued, with its outcome. */
  datatype Attempt = Attempt(key: string, body: seq<byte>, ok: bool)

  /** The objects after applying the successful attempts in order to
      `objects`; a failed attempt changes nothing and a later put to a key
      replaces the earlier one. */
  function Stored(objects: map<string, seq<byte>>, attempts: seq<Attempt>): map<string, seq<byte>>
    decreases |attempts|
  {
    if attempts == [] then objects
    else
      var before := Stored(objects, attempts[..|attempts| - 1]);
      var last := attempts[|attempts| - 1];
      if last.ok then before[last.key := last.body] else before
  }

  lemma StoredStep(objects: map<string, seq<byte>>, attempts: seq<Attempt>, a: Attempt)
    ensures Stored(objects, attempts + [a]) ==
      if a.ok then Stored(objects, attempts)[a.key := a.body] else Stored(objects, attempts)
  {
    assert (attempts + [a])[..|attempts|] == attempts;
  }

  lemma StoredAppend(objects: map<string, seq<byte>>, attempts: seq<Attempt>, more: seq<Attempt>)
    ensures Stored(objects, attempts + more) == Stored(Stored(objects, attempts), more)
    decreases |more|
  {
    if more == [] {
      assert attempts + more == attempts;
    } else {
      assert (attempts + more)[..|attempts + more| - 1] == attempts + more[..|more| - 1];
      StoredAppend(objects, attempts, more[..|more| - 1]);
    }
  }

  /** Last write wins: the object at a key is the body of the last successful
      attempt on that key. */
  lemma {:induction false} LastWriteWins(objects: map<string, seq<byte>>, attempts: seq<Attempt>, i: nat)
    requires i < |attempts| && attempts[i].ok
    requires forall j :: i < j < |attempts| && attempts[j].ok ==> attempts[j].key != attempts[i].key
    ensures attempts[i].key in Stored(objects, attempts)
    ensures Stored(objects, attempts)[attempts[i].key] == attempts[i].body
    decreases |attempts|
  {
    if i < |attempts| - 1 {
      LastWriteWins(objects, attempts[..|attempts| - 1], i);
    }
  }

  /** A key that no successful attempt names keeps what it held before. */
  lemma {:induction false} UntouchedKey(objects: map<string, seq<byte>>, attempts: seq<Attempt>, k: string)
    requires forall j :: 0 <= j < |attempts| && attempts[j].ok ==> attempts[j].key != k
    ensures k in Stored(objects, attempts) <==> k in objects
    ensures k in objects ==> Stored(objects, attempts)[k] == objects[k]
    decreases |attempts|
  {
    if attempts != [] {
      UntouchedKey(objects, attempts[..|attempts| - 1], k);
    }
  }

  /** The bucket the ingester writes to, seen through its put-object calls:
      what it held before the invocation, every attempt issued since, in
      order, and the outcome of each attempt by its position in that sequence
      (the network and the S3 service stand behind `succeeds`). */
  class Bucket {
    const succeeds: nat -> bool
    const initial: map<string, seq<byte>>
    var attempts: seq<Attempt>

    /** The objects the bucket holds now. */
    function Objects(): map<string, seq<byte>>
      reads this
    {
      Stored(initial, attempts)
    }

    constructor (succeeds: nat -> bool, objects: map<string, seq<byte>>)
      ensures this.succeeds == succeeds && initial == objects && attempts == []
      ensures Objects() == objects
    {
      this.succeeds := succeeds;
      initial := objects;
      attempts := [];
    }

    /** `uploader.Upload`: put `body` at `key`; a successful put replaces
        whatever the key held, a failed one leaves the bucket as it was. */
    method Upload(key: string, body: seq<byte>) returns (ok: bool)
      modifies this
      ensures ok == succeeds(|old(attempts)|)
      ensures attempts == old(attempts) + [Attempt(key, body, ok)]
      ensures Objects() == if ok then old(Objects())[key := body] else old(Objects())
    {
      ok := succeeds(|attempts|);
      StoredStep(initial, attempts, Attempt(key, body, ok));
      attempts := attempts + [Attempt(key, body, ok)];
    }
  }
}
