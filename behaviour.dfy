/** What an invocation promises, stated against the plan of puts the handler
    means to issue: upload outcomes decide only where the invocation stops,
    never what it writes or in which order. */
module Behaviour {
  import opened Wrappers
  import opened Telemetry
  import opened Naming
  import opened Bucket
  import opened Handler

  /** A put the handler means to issue. */
  datatype Put = Put(key: string, body: seq<byte>)

  /** The puts of a sequence of attempts, outcomes dropped. */
  function Puts(attempts: seq<Attempt>): seq<Put> {
    seq(|attempts|, j requires 0 <= j < |attempts| => Put(attempts[j].key, attempts[j].body))
  }

  /** No attempt failed. */
  predicate Clean(attempts: seq<Attempt>) {
    forall j :: 0 <= j < |attempts| ==> attempts[j].ok
  }

  /** The puts a run means to issue were every upload to succeed, and whether
      it would then finish without panicking (it would not when a JSON record
      fails to marshal). */
  datatype Plan = Plan(puts: seq<Put>, complete: bool)

  /** The handler's intent for one record: nothing unless it is an INSERT
      whose image decodes; then its image, followed by its JSON record when
      that marshals. */
  function RecordPlan(tub: string, r: ChangeRecord, decode: Decoder, marshal: Marshaller): Plan {
    if !Kept(r, decode) then Plan([], true)
    else
      var t := r.newImage;
      var image := Put(ImageKey(tub, t.camImageArray), decode(t.image).value);
      match marshal(ToJsonRecord(t))
      case None => Plan([image], false)
      case Some(rawJson) => Plan([image, Put(RecordKey(tub, t.currentIX as int), rawJson)], true)
  }

  /** The intents of the records in order, up to the first that cannot
      complete. */
  function Planned(rs: seq<ChangeRecord>, plan: ChangeRecord -> Plan): Plan
    decreases |rs|
  {
    if rs == [] then Plan([], true)
    else
      var first := plan(rs[0]);
      if !first.complete then first
      else
        var rest := Planned(rs[1..], plan);
        Plan(first.puts + rest.puts, rest.complete)
  }

  function BatchPlan(tub: string, rs: seq<ChangeRecord>, decode: Decoder, marshal: Marshaller): Plan {
    Planned(rs, r => RecordPlan(tub, r, decode, marshal))
  }

  /** Carrying out a plan from the `n`-th attempt under the outcomes
      `succeeds`. */
  function Execute(p: Plan, n: nat, succeeds: nat -> bool): Step {
    Issue(p.puts, p.complete, n, succeeds)
  }

  /** The puts in order until one fails, which panics; when all succeed, a
      panic only if the plan cannot complete. */
  function Issue(puts: seq<Put>, complete: bool, n: nat, succeeds: nat -> bool): Step
    decreases |puts|
  {
    if puts == [] then Step([], !complete)
    else
      var a := Attempt(puts[0].key, puts[0].body, succeeds(n));
      if !a.ok then Step([a], true)
      else Then([a], Issue(puts[1..], complete, n + 1, succeeds))
  }

  /** Carrying out two plans one after the other. */
  lemma {:induction false} ExecuteAppend(first: seq<Put>, rest: Plan, n: nat, succeeds: nat -> bool)
    ensures var f := Execute(Plan(first, true), n, succeeds);
      Execute(Plan(first + rest.puts, rest.complete), n, succeeds) ==
        if f.panicked then f else Then(f.attempts, Execute(rest, n + |f.attempts|, succeeds))
  {
    IssueAppend(first, rest.puts, rest.complete, n, succeeds);
  }

  lemma {:induction false} IssueAppend(first: seq<Put>, more: seq<Put>, complete: bool, n: nat, succeeds: nat -> bool)
    ensures var f := Issue(first, true, n, succeeds);
      Issue(first + more, complete, n, succeeds) ==
        if f.panicked then f else Then(f.attempts, Issue(more, complete, n + |f.attempts|, succeeds))
    decreases |first|
  {
    if first == [] {
      assert first + more == more;
      var e := Issue(more, complete, n, succeeds);
      assert [] + e.attempts == e.attempts;
    } else {
      var all := first + more;
      assert all[0] == first[0] && all[1..] == first[1..] + more;
      if succeeds(n) {
        var a := Attempt(first[0].key, first[0].body, true);
        var tail := Issue(first[1..], true, n + 1, succeeds);
        assert Issue(first, true, n, succeeds) == Then([a], tail);
        assert Issue(all, complete, n, succeeds) == Then([a], Issue(first[1..] + more, complete, n + 1, succeeds));
        IssueAppend(first[1..], more, complete, n + 1, succeeds);
        if !tail.panicked {
          ThenThen([a], tail.attempts, Issue(more, complete, n + 1 + |tail.attempts|, succeeds));
        }
      }
    }
  }

  /** A plan that cannot complete always ends in a panic. */
  lemma {:induction false} ExecuteIncomplete(p: Plan, n: nat, succeeds: nat -> bool)
    requires !p.complete
    ensures Execute(p, n, succeeds).panicked
    decreases |p.puts|
  {
    if p.puts != [] && succeeds(n) {
      ExecuteIncomplete(Plan(p.puts[1..], p.complete), n + 1, succeeds);
    }
  }

  /** The loop carries out the plans of its records one after the other. */
  lemma {:induction false} RunExecutes(rs: seq<ChangeRecord>, step: RecordStep, plan: ChangeRecord -> Plan,
                                       n: nat, succeeds: nat -> bool)
    requires forall r, m :: step(r, m) == Execute(plan(r), m, succeeds)
    ensures Run(rs, step, n) == Execute(Planned(rs, plan), n, succeeds)
    decreases |rs|
  {
    if rs != [] {
      var first := plan(rs[0]);
      var f := step(rs[0], n);
      assert f == Execute(first, n, succeeds);
      if !first.complete {
        ExecuteIncomplete(first, n, succeeds);
      } else {
        ExecuteAppend(first.puts, Planned(rs[1..], plan), n, succeeds);
        if !f.panicked {
          RunExecutes(rs[1..], step, plan, n + |f.attempts|, succeeds);
        }
      }
    }
  }

  /** One record's uploads carry out its plan. */
  lemma RecordExecutesPlan(tub: string, r: ChangeRecord, decode: Decoder, marshal: Marshaller,
                           succeeds: nat -> bool, n: nat)
    ensures RecordAttempts(tub, r, decode, marshal, succeeds, n) == Execute(RecordPlan(tub, r, decode, marshal), n, succeeds)
  {
    if Kept(r, decode) {
      var t := r.newImage;
      var image := Put(ImageKey(tub, t.camImageArray), decode(t.image).value);
      var a := Attempt(image.key, image.body, succeeds(n));
      match marshal(ToJsonRecord(t))
      case None =>
        assert [image][1..] == [];
        assert [a] + [] == [a];
        assert Issue([image], false, n, succeeds) == Step([a], true);
      case Some(rawJson) =>
        var json := Put(RecordKey(tub, t.currentIX as int), rawJson);
        var b := Attempt(json.key, json.body, succeeds(n + 1));
        assert [image, json][1..] == [json] && [json][1..] == [];
        assert [b] + [] == [b];
        assert Issue([json], true, n + 1, succeeds) == Step([b], !b.ok);
        assert [a] + [b] == [a, b];
    }
  }

  /** `handler` carries out the batch's plan: whatever the upload outcomes,
      the handler's uploads are the planned puts issued in order until the
      first failure. */
  lemma BatchExecutesPlan(tub: string, rs: seq<ChangeRecord>, decode: Decoder, marshal: Marshaller,
                          succeeds: nat -> bool, n: nat)
    ensures BatchAttempts(tub, rs, decode, marshal, succeeds, n) == Execute(BatchPlan(tub, rs, decode, marshal), n, succeeds)
  {
    var step := StepOf(tub, decode, marshal, succeeds);
    var plan := r => RecordPlan(tub, r, decode, marshal);
    forall r, m: nat
      ensures step(r, m) == Execute(plan(r), m, succeeds)
    {
      RecordExecutesPlan(tub, r, decode, marshal, succeeds, m);
    }
    RunExecutes(rs, step, plan, n, succeeds);
  }

  /** `s`, starting at the `n`-th attempt, carries out plan `p` under the
      outcomes `succeeds`: it issues the planned puts in order, each outcome
      is the one for its number, it stops early only right after a failed
      attempt, only its last attempt can have failed, and it panics exactly
      when an attempt failed or the plan cannot complete. */
  predicate Follows(s: Step, p: Plan, n: nat, succeeds: nat -> bool) {
    && Puts(s.attempts) <= p.puts
    && (forall j :: 0 <= j < |s.attempts| ==> s.attempts[j].ok == succeeds(n + j))
    && (forall j :: 0 <= j < |s.attempts| - 1 ==> s.attempts[j].ok)
    && (|s.attempts| < |p.puts| ==> |s.attempts| > 0 && !s.attempts[|s.attempts| - 1].ok)
    && (s.panicked <==> !p.complete || !Clean(s.attempts))
  }

  /** Carrying out a plan does what `Follows` says. */
  lemma IssueFollows(puts: seq<Put>, complete: bool, n: nat, succeeds: nat -> bool)
    ensures Follows(Issue(puts, complete, n, succeeds), Plan(puts, complete), n, succeeds)
  {
    IssuePrefix(puts, complete, n, succeeds);
    IssueNumbering(puts, complete, n, succeeds);
    IssueStops(puts, complete, n, succeeds);
    IssuePanics(puts, complete, n, succeeds);
  }

  lemma {:induction false} IssuePrefix(puts: seq<Put>, complete: bool, n: nat, succeeds: nat -> bool)
    ensures Puts(Issue(puts, complete, n, succeeds).attempts) <= puts
    decreases |puts|
  {
    if puts != [] && succeeds(n) {
      var a := Attempt(puts[0].key, puts[0].body, true);
      var tail := Issue(puts[1..], complete, n + 1, succeeds);
      IssuePrefix(puts[1..], complete, n + 1, succeeds);
      assert Puts([a] + tail.attempts) == [puts[0]] + Puts(tail.attempts);
      assert puts == [puts[0]] + puts[1..];
    }
  }

  /** Attempts are numbered consecutively and never outnumber the puts. */
  lemma {:induction false} IssueNumbering(puts: seq<Put>, complete: bool, n: nat, succeeds: nat -> bool)
    ensures var s := Issue(puts, complete, n, succeeds);
      && |s.attempts| <= |puts|
      && forall j :: 0 <= j < |s.attempts| ==> s.attempts[j].ok == succeeds(n + j)
    decreases |puts|
  {
    if puts != [] && succeeds(n) {
      var a := Attempt(puts[0].key, puts[0].body, true);
      var tail := Issue(puts[1..], complete, n + 1, succeeds);
      IssueNumbering(puts[1..], complete, n + 1, succeeds);
      var all := [a] + tail.attempts;
      forall j | 0 <= j < |all|
        ensures all[j].ok == succeeds(n + j)
      {
        if j > 0 {
          assert all[j] == tail.attempts[j - 1];
        }
      }
    }
  }

  /** Only the last attempt can fail, and the puts stop early only after one
      that failed. */
  lemma {:induction false} IssueStops(puts: seq<Put>, complete: bool, n: nat, succeeds: nat -> bool)
    ensures var s := Issue(puts, complete, n, succeeds);
      && (forall j :: 0 <= j < |s.attempts| - 1 ==> s.attempts[j].ok)
      && (|s.attempts| < |puts| ==> |s.attempts| > 0 && !s.attempts[|s.attempts| - 1].ok)
    decreases |puts|
  {
    if puts != [] && succeeds(n) {
      var a := Attempt(puts[0].key, puts[0].body, true);
      var tail := Issue(puts[1..], complete, n + 1, succeeds);
      IssueStops(puts[1..], complete, n + 1, succeeds);
      var all := [a] + tail.attempts;
      assert Issue(puts, complete, n, succeeds).attempts == all;
      forall j | 1 <= j < |all|
        ensures all[j] == tail.attempts[j - 1]
      {
      }
    }
  }

  /** The puts panic exactly when one failed or the plan cannot complete. */
  lemma {:induction false} IssuePanics(puts: seq<Put>, complete: bool, n: nat, succeeds: nat -> bool)
    ensures var s := Issue(puts, complete, n, succeeds);
      s.panicked <==> !complete || !Clean(s.attempts)
    decreases |puts|
  {
    if puts != [] {
      var a := Attempt(puts[0].key, puts[0].body, succeeds(n));
      if a.ok {
        var tail := Issue(puts[1..], complete, n + 1, succeeds);
        IssuePanics(puts[1..], complete, n + 1, succeeds);
        CleanCons(a, tail.attempts);
      } else {
        CleanCons(a, []);
      }
    }
  }

  lemma CleanCons(a: Attempt, rest: seq<Attempt>)
    ensures Clean([a] + rest) <==> a.ok && Clean(rest)
  {
    var all := [a] + rest;
    assert all[0] == a;
    if Clean(all) {
      forall j | 0 <= j < |rest|
        ensures rest[j].ok
      {
        assert all[j + 1] == rest[j];
      }
    }
    if a.ok && Clean(rest) {
      forall j | 0 <= j < |all|
        ensures all[j].ok
      {
        if j > 0 {
          assert all[j] == rest[j - 1];
        }
      }
    }
  }

  lemma ExecuteFollows(p: Plan, n: nat, succeeds: nat -> bool)
    ensures Follows(Execute(p, n, succeeds), p, n, succeeds)
  {
    IssueFollows(p.puts, p.complete, n, succeeds);
  }

  /** The handler's uploads for a batch follow the batch's plan: planned puts
      in order, the first failed upload the last, and a panic exactly when an
      upload failed or a JSON record did not marshal. */
  lemma HandlerFollowsPlan(tub: string, rs: seq<ChangeRecord>, decode: Decoder, marshal: Marshaller,
                           succeeds: nat -> bool, n: nat)
    ensures Follows(BatchAttempts(tub, rs, decode, marshal, succeeds, n), BatchPlan(tub, rs, decode, marshal), n, succeeds)
  {
    BatchExecutesPlan(tub, rs, decode, marshal, succeeds, n);
    ExecuteFollows(BatchPlan(tub, rs, decode, marshal), n, succeeds);
  }

  /** When every upload succeeds, exactly the planned puts are issued, and
      the invocation panics only when the plan cannot complete. */
  lemma FollowsWhenClean(s: Step, p: Plan, n: nat, succeeds: nat -> bool)
    requires Follows(s, p, n, succeeds) && Clean(s.attempts)
    ensures Puts(s.attempts) == p.puts
    ensures s.panicked <==> !p.complete
  {
  }

  /** A failed upload is the last thing the invocation does, and it panics. */
  lemma FollowsWhenFailed(s: Step, p: Plan, n: nat, succeeds: nat -> bool, j: nat)
    requires Follows(s, p, n, succeeds) && j < |s.attempts| && !s.attempts[j].ok
    ensures j == |s.attempts| - 1 && s.panicked
  {
  }

  /** A record that is not an INSERT, or whose image does not decode, leads
      to no upload and does not stop the loop; an INSERT whose image decodes
      always leads to at least its image upload. */
  lemma SkippedRecords(tub: string, r: ChangeRecord, decode: Decoder, marshal: Marshaller,
                       succeeds: nat -> bool, n: nat)
    ensures RecordAttempts(tub, r, decode, marshal, succeeds, n) == Step([], false) <==> !Kept(r, decode)
    ensures RecordPlan(tub, r, decode, marshal) == Plan([], true) <==> !Kept(r, decode)
  {
  }

  /** The records of `rs` that satisfy `keep`, in order. */
  function Filter(rs: seq<ChangeRecord>, keep: ChangeRecord -> bool): seq<ChangeRecord>
    decreases |rs|
  {
    if rs == [] then []
    else if keep(rs[0]) then [rs[0]] + Filter(rs[1..], keep)
    else Filter(rs[1..], keep)
  }

  /** Records whose step does nothing can be dropped from the batch. */
  lemma {:induction false} RunSkipsSilent(rs: seq<ChangeRecord>, step: RecordStep, keep: ChangeRecord -> bool, n: nat)
    requires forall r, m :: !keep(r) ==> step(r, m) == Step([], false)
    ensures Run(rs, step, n) == Run(Filter(rs, keep), step, n)
    decreases |rs|
  {
    if rs != [] {
      var f := step(rs[0], n);
      var tail := Filter(rs[1..], keep);
      if keep(rs[0]) {
        var kept := [rs[0]] + tail;
        assert Filter(rs, keep) == kept;
        assert kept[0] == rs[0] && kept[1..] == tail;
        if !f.panicked {
          RunSkipsSilent(rs[1..], step, keep, n + |f.attempts|);
        }
      } else {
        assert f == Step([], false);
        assert Filter(rs, keep) == tail;
        var rest := Run(rs[1..], step, n);
        assert Run(rs, step, n) == Then([], rest);
        assert [] + rest.attempts == rest.attempts;
        RunSkipsSilent(rs[1..], step, keep, n);
      }
    }
  }

  /** Only the INSERTs whose image decodes matter: dropping every other
      record from the batch changes nothing the handler does. */
  lemma OnlyKeptRecordsMatter(tub: string, rs: seq<ChangeRecord>, decode: Decoder, marshal: Marshaller,
                              succeeds: nat -> bool, n: nat)
    ensures BatchAttempts(tub, rs, decode, marshal, succeeds, n) ==
      BatchAttempts(tub, Filter(rs, r => Kept(r, decode)), decode, marshal, succeeds, n)
  {
    var step := StepOf(tub, decode, marshal, succeeds);
    var keep := r => Kept(r, decode);
    forall r, m: nat | !keep(r)
      ensures step(r, m) == Step([], false)
    {
      SkippedRecords(tub, r, decode, marshal, succeeds, m);
    }
    RunSkipsSilent(rs, step, keep, n);
  }

  /** Every put's key passes `ok`. */
  predicate KeysSatisfy(puts: seq<Put>, ok: string -> bool) {
    forall j :: 0 <= j < |puts| ==> ok(puts[j].key)
  }

  lemma KeysAppend(a: seq<Put>, b: seq<Put>, ok: string -> bool)
    requires KeysSatisfy(a, ok) && KeysSatisfy(b, ok)
    ensures KeysSatisfy(a + b, ok)
  {
    forall j | 0 <= j < |a + b|
      ensures ok((a + b)[j].key)
    {
      if j >= |a| {
        assert (a + b)[j] == b[j - |a|];
      }
    }
  }

  /** A batch's plan writes only keys its records' plans write. */
  lemma {:induction false} PlannedKeys(rs: seq<ChangeRecord>, plan: ChangeRecord -> Plan, ok: string -> bool)
    requires forall r :: r in rs ==> KeysSatisfy(plan(r).puts, ok)
    ensures KeysSatisfy(Planned(rs, plan).puts, ok)
    decreases |rs|
  {
    if rs != [] {
      assert rs[0] in rs;
      var first := plan(rs[0]);
      if first.complete {
        forall r | r in rs[1..]
          ensures KeysSatisfy(plan(r).puts, ok)
        {
          assert r in rs;
        }
        PlannedKeys(rs[1..], plan, ok);
        KeysAppend(first.puts, Planned(rs[1..], plan).puts, ok);
      }
    }
  }

  /** Every object the handler means to write lies under the run prefix, and
      none is the manifest when no INSERT of the batch whose image decodes
      names its image `meta.json`. */
  lemma BatchPlanKeys(tub: string, rs: seq<ChangeRecord>, decode: Decoder, marshal: Marshaller)
    ensures var puts := BatchPlan(tub, rs, decode, marshal).puts;
      forall j :: 0 <= j < |puts| ==> UnderRun(puts[j].key, tub)
    ensures var puts := BatchPlan(tub, rs, decode, marshal).puts;
      (forall r :: r in rs && Kept(r, decode) ==> r.newImage.camImageArray != "meta.json") ==>
        forall j :: 0 <= j < |puts| ==> puts[j].key != MetaKey(tub)
  {
    var plan := r => RecordPlan(tub, r, decode, marshal);
    var under := k => UnderRun(k, tub);
    assert forall r :: r in rs ==> KeysSatisfy(plan(r).puts, under);
    PlannedKeys(rs, plan, under);
    if forall r :: r in rs && Kept(r, decode) ==> r.newImage.camImageArray != "meta.json" {
      var notMeta := k => k != MetaKey(tub);
      forall r | r in rs
        ensures KeysSatisfy(plan(r).puts, notMeta)
      {
        ImageKeyCollisions(tub, r.newImage.camImageArray, r.newImage.currentIX as int);
        RecordKeyIsNotMeta(tub, r.newImage.currentIX as int);
      }
      PlannedKeys(rs, plan, notMeta);
    }
  }
}
