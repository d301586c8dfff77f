/**
 * What a series does with the step records `run` writes: a reference run of
 * the templates that never looks at the store, and the proofs that the chain
 * over the store makes the same deliveries, settles the same way, collects
 * the same compensations, and leaves the store as it found it when it
 * succeeds.
 */
module Runs {
  import opened Outcomes
  import opened Json
  import opened Util
  import opened KeyValue
  import opened Saga
  import opened Jobs

  /** A template whose `param` and `result`, when present, are neither plain strings nor null, so that they read back. */
  predicate Template(t: Task) {
    forall k :: k in t && IsParsedField(k) ==> Revivable(t[k])
  }

  predicate AllTemplates(tasks: seq<Task>) {
    forall i :: 0 <= i < |tasks| ==> Template(tasks[i])
  }

  /**
   * The payload `next` decodes from the record `run` wrote for template t at
   * index i, when t satisfies `Template` (RevivedIsRead): `param` and `result`
   * as the template had them, every other field as its stored text.
   */
  function Revived(t: Task, i: nat): (p: Task)
    ensures p.Keys == t.Keys + {"idx"} && p["idx"] == Str(NatText(i))
  {
    Restored(t["idx" := Num(i)])
  }

  /** Reading back the record `run` wrote for template t at index i gives `Revived(t, i)`. */
  lemma RevivedIsRead(t: Task, i: nat)
    requires Template(t)
    ensures Deserialize(StepFields(t, i)) == Some(Revived(t, i))
  {
    DeserializeSerialize(t["idx" := Num(i)]);
  }

  /**
   * `Revived(t, i)`, the decoded payload for a template satisfying
   * `Template`, has a truthy `idx`, the text of i, and gives back `param`,
   * `result` and every string field of the template as they were, so that a
   * string `path` or `rewindPath` is the one the template named.
   */
  lemma RevivedKeepsFields(t: Task, i: nat)
    ensures Truthy(Revived(t, i)["idx"])
    ensures forall k :: k in t && (IsParsedField(k) || t[k].Str?) && k != "idx" ==> Revived(t, i)[k] == t[k]
  {
  }

  /** The store holds records of steps k to |recs|-1 as given, and no record |recs|. */
  ghost predicate Stored(data: map<string, Entry>, sid: string, recs: seq<Fields>, k: nat) {
    && (forall j: nat :: k <= j < |recs| ==> StepKey(sid, j) in data && data[StepKey(sid, j)] == Hash(recs[j]))
    && StepKey(sid, |recs|) !in data
  }

  /** Record j decodes to template j as the reference run sees it. */
  ghost predicate Decodes(recs: seq<Fields>, tasks: seq<Task>) {
    |recs| == |tasks| && forall j :: 0 <= j < |recs| ==> Deserialize(recs[j]) == Some(Revived(tasks[j], j))
  }

  // ----- the reference run -----

  /** How a run of the templates ends, without the store. */
  datatype Trace = Trace(settled: Settled, compensations: seq<Task>, dispatched: seq<nat>, invoked: seq<nat>)

  function Ahead(k: nat, ran: seq<nat>, t: Trace): Trace {
    t.(dispatched := [k] + t.dispatched, invoked := ran + t.invoked)
  }

  /**
   * The reference run from step k: deliver the payload; an error or a throw
   * stops the run (an error adds the compensations of steps k..0); a result
   * goes on to step k+1, whose payload is its decoded record with
   * `preResult` set to the result, or ends the run with that result after
   * the last template.
   */
  function Forward(tasks: seq<Task>, rewind: bool, body: Body, k: nat, payload: Task, comps: seq<Task>): Trace
    requires k < |tasks|
    decreases |tasks| - k
  {
    var d := Dispatch(payload, rewind, body);
    var ran := if d.invoked then [k] else [];
    match d.outcome
    case BodyErr(msg) => Trace(Rejected(msg), comps + Compensations(tasks, k), [k], ran)
    case BodyThrew(msg) => Trace(Rejected(msg), comps, [k], ran)
    case BodyOk(res) =>
      if k + 1 < |tasks| then
        Ahead(k, ran, Forward(tasks, rewind, body, k + 1, Revived(tasks[k + 1], k + 1)["preResult" := res], comps))
      else
        Trace(Resolved(res), comps, [k], ran)
  }

  /** The indices a..b-1, in order. */
  function Range(a: nat, b: nat): (r: seq<nat>)
    requires a <= b
    ensures |r| == b - a && forall i :: 0 <= i < |r| ==> r[i] == a + i
  {
    seq(b - a, i requires 0 <= i < b - a => a + i)
  }

  /**
   * A run from step k dispatched steps k, k+1, ... once each and in order,
   * ran the body only for dispatched steps, reached the last template
   * exactly when it resolved, and added compensations only for an error,
   * and then exactly those of the step it stopped at.
   */
  predicate Shaped(f: Trace, tasks: seq<Task>, k: nat, comps: seq<Task>) {
    && 1 <= |f.dispatched| <= |tasks| - k
    && f.dispatched == Range(k, k + |f.dispatched|)
    && (forall i :: i in f.invoked ==> i in f.dispatched)
    && (f.settled.Resolved? ==> |f.dispatched| == |tasks| - k && f.compensations == comps)
    && (f.compensations == comps || f.compensations == comps + Compensations(tasks, k + |f.dispatched| - 1))
  }

  /** Every reference run has that shape. */
  lemma {:induction false} ForwardShape(tasks: seq<Task>, rewind: bool, body: Body, k: nat, payload: Task, comps: seq<Task>)
    requires k < |tasks|
    ensures Shaped(Forward(tasks, rewind, body, k, payload, comps), tasks, k, comps)
    decreases |tasks| - k
  {
    var d := Dispatch(payload, rewind, body);
    if d.outcome.BodyOk? && k + 1 < |tasks| {
      var next := Revived(tasks[k + 1], k + 1)["preResult" := d.outcome.result];
      ForwardShape(tasks, rewind, body, k + 1, next, comps);
      var f' := Forward(tasks, rewind, body, k + 1, next, comps);
      ShapedAhead(f', tasks, k, comps, if d.invoked then [k] else []);
    }
  }

  lemma ShapedAhead(f: Trace, tasks: seq<Task>, k: nat, comps: seq<Task>, ran: seq<nat>)
    requires k + 1 < |tasks| && Shaped(f, tasks, k + 1, comps) && (ran == [] || ran == [k])
    ensures Shaped(Ahead(k, ran, f), tasks, k, comps)
  {
    assert [k] + Range(k + 1, k + 1 + |f.dispatched|) == Range(k, k + 1 + |f.dispatched|);
  }

  /** A run whose every delivery succeeds dispatches every step once, in order 0..N-1. */
  lemma AllStepsInOrder(tasks: seq<Task>, rewind: bool, body: Body, payload: Task, comps: seq<Task>)
    requires 0 < |tasks|
    requires Forward(tasks, rewind, body, 0, payload, comps).settled.Resolved?
    ensures Forward(tasks, rewind, body, 0, payload, comps).dispatched == Range(0, |tasks|)
    ensures Forward(tasks, rewind, body, 0, payload, comps).compensations == comps
  {
    ForwardShape(tasks, rewind, body, 0, payload, comps);
  }

  // ----- the chain over the store follows the reference run -----

  /**
   * The chain ended as the reference run did; a resolved chain left the
   * store it started from without the records of steps 0..n-1; a rejected
   * one deleted no record and left the record of the step that failed as
   * it was.
   */
  ghost predicate Follows(e: ChainEnd, f: Trace, data: map<string, Entry>, sid: string, n: nat, k: nat) {
    && e.settled == f.settled && e.compensations == f.compensations
    && e.dispatched == f.dispatched && e.invoked == f.invoked
    && (e.settled.Resolved? ==> n > 0 && e.data == data - StepKeys(sid, n - 1))
    && (e.settled.Rejected? ==>
          && e.data.Keys == data.Keys && |e.dispatched| > 0
          && (StepKey(sid, k + |e.dispatched| - 1) in data ==>
                e.data[StepKey(sid, k + |e.dispatched| - 1)] == data[StepKey(sid, k + |e.dispatched| - 1)]))
  }

  /** After step k is marked complete, the records after it are still as they were. */
  lemma StoredAfterComplete(data: map<string, Entry>, sid: string, recs: seq<Fields>, k: nat, res: Value)
    requires k < |recs| && Stored(data, sid, recs, k)
    ensures Stored(ApplyAll(data, CompleteCmds(sid, k, res)), sid, recs, k + 1)
  {
    CompleteFrame(data, sid, k, res);
    forall j: nat | k < j <= |recs| ensures StepKey(sid, j) != StepKey(sid, k) {
      if StepKey(sid, j) == StepKey(sid, k) { StepKeyInjective(sid, j, k); }
    }
  }

  /** Two stores that differ only at a key of S agree once S is removed. */
  lemma SameOutside(a: map<string, Entry>, b: map<string, Entry>, key: string, s: set<string>)
    requires a.Keys == b.Keys && key in s
    requires forall x :: x in a && x != key ==> a[x] == b[x]
    ensures a - s == b - s
  {
  }

  /** A step whose body reports an error or throws: both stop there, and nothing is written. */
  lemma StopCase(data: map<string, Entry>, sid: string, tasks: seq<Task>, k: nat,
                 payload: Task, rewind: bool, body: Body, comps: seq<Task>)
    requires k < |tasks| && !Dispatch(payload, rewind, body).outcome.BodyOk?
    ensures Follows(Chain(data, sid, tasks, k, payload, rewind, body, comps),
                    Forward(tasks, rewind, body, k, payload, comps), data, sid, |tasks|, k)
  {
    ChainStops(data, sid, tasks, k, payload, rewind, body, comps);
  }

  /** The last step succeeds: both resolve with its result, and the chain deletes the records. */
  lemma LastCase(data: map<string, Entry>, sid: string, tasks: seq<Task>, recs: seq<Fields>, k: nat,
                 payload: Task, rewind: bool, body: Body, comps: seq<Task>)
    requires k + 1 == |tasks| == |recs| && Stored(data, sid, recs, k)
    requires Dispatch(payload, rewind, body).outcome.BodyOk?
    ensures Follows(Chain(data, sid, tasks, k, payload, rewind, body, comps),
                    Forward(tasks, rewind, body, k, payload, comps), data, sid, |tasks|, k)
  {
    var res := Dispatch(payload, rewind, body).outcome.result;
    var data1 := ApplyAll(data, CompleteCmds(sid, k, res));
    ChainGoesOn(data, sid, tasks, k, payload, rewind, body, comps);
    StoredAfterComplete(data, sid, recs, k, res);
    ContinueToEnd(data, sid, tasks, k, res, rewind, body, comps);
    CompleteFrame(data, sid, k, res);
    SameOutside(data1, data, StepKey(sid, k), StepKeys(sid, k));
  }

  /** A step that succeeds before the last: the chain goes on with the decoded next record. */
  lemma ChainNext(data: map<string, Entry>, sid: string, tasks: seq<Task>, recs: seq<Fields>, k: nat,
                  payload: Task, rewind: bool, body: Body, comps: seq<Task>)
    requires k + 1 < |tasks| && Decodes(recs, tasks) && Stored(data, sid, recs, k)
    requires Dispatch(payload, rewind, body).outcome.BodyOk?
    ensures var d := Dispatch(payload, rewind, body);
      var data1 := ApplyAll(data, CompleteCmds(sid, k, d.outcome.result));
      Chain(data, sid, tasks, k, payload, rewind, body, comps)
      == Behind([k], if d.invoked then [k] else [],
                Chain(data1, sid, tasks, k + 1, Revived(tasks[k + 1], k + 1)["preResult" := d.outcome.result],
                      rewind, body, comps))
  {
    var d := Dispatch(payload, rewind, body);
    var res := d.outcome.result;
    var data1 := ApplyAll(data, CompleteCmds(sid, k, res));
    var next := Revived(tasks[k + 1], k + 1);
    ChainGoesOn(data, sid, tasks, k, payload, rewind, body, comps);
    StoredAfterComplete(data, sid, recs, k, res);
    assert ReadStep(data1, sid, k + 1) == Success(next);
    ContinueToNext(data, sid, tasks, k, res, rewind, body, comps, next);
    var ran: seq<nat> := if d.invoked then [k] else [];
    var e1 := Chain(data1, sid, tasks, k + 1, next["preResult" := res], rewind, body, comps);
    BehindBehind([], ran, [k], [], e1);
    assert [] + [k] == [k] && ran + [] == ran;
  }

  /** Following the reference run from step k+1 over the store after step k carries back to step k. */
  lemma FollowsBack(e1: ChainEnd, f1: Trace, data: map<string, Entry>, data1: map<string, Entry>,
                    sid: string, n: nat, k: nat, ran: seq<nat>)
    requires k < n && Follows(e1, f1, data1, sid, n, k + 1)
    requires StepKey(sid, k) in data && data1.Keys == data.Keys
    requires forall key :: key in data && key != StepKey(sid, k) ==> data1[key] == data[key]
    ensures Follows(Behind([k], ran, e1), Ahead(k, ran, f1), data, sid, n, k)
  {
    if e1.settled.Resolved? {
      assert StepKey(sid, k) in StepKeys(sid, n - 1);
      SameOutside(data1, data, StepKey(sid, k), StepKeys(sid, n - 1));
    } else {
      var f: nat := k + 1 + |e1.dispatched| - 1;
      assert StepKey(sid, f) != StepKey(sid, k) by {
        if StepKey(sid, f) == StepKey(sid, k) { StepKeyInjective(sid, f, k); }
      }
    }
  }

  /**
   * Over records that decode to the templates, the chain from step k
   * follows the reference run from step k.
   */
  lemma {:induction false} ChainIsForward(data: map<string, Entry>, sid: string, tasks: seq<Task>, recs: seq<Fields>,
                                          k: nat, payload: Task, rewind: bool, body: Body, comps: seq<Task>)
    requires k < |tasks| && Decodes(recs, tasks) && Stored(data, sid, recs, k)
    ensures Follows(Chain(data, sid, tasks, k, payload, rewind, body, comps),
                    Forward(tasks, rewind, body, k, payload, comps), data, sid, |tasks|, k)
    decreases |tasks| - k
  {
    var d := Dispatch(payload, rewind, body);
    if !d.outcome.BodyOk? {
      StopCase(data, sid, tasks, k, payload, rewind, body, comps);
    } else if k + 1 == |tasks| {
      LastCase(data, sid, tasks, recs, k, payload, rewind, body, comps);
    } else {
      var res := d.outcome.result;
      var data1 := ApplyAll(data, CompleteCmds(sid, k, res));
      var payload1 := Revived(tasks[k + 1], k + 1)["preResult" := res];
      StoredAfterComplete(data, sid, recs, k, res);
      ChainIsForward(data1, sid, tasks, recs, k + 1, payload1, rewind, body, comps);
      ChainNext(data, sid, tasks, recs, k, payload, rewind, body, comps);
      CompleteFrame(data, sid, k, res);
      FollowsBack(Chain(data1, sid, tasks, k + 1, payload1, rewind, body, comps),
                  Forward(tasks, rewind, body, k + 1, payload1, comps),
                  data, data1, sid, |tasks|, k, if d.invoked then [k] else []);
    }
  }

  /** When record k+1 has an `idx`, the chain goes on with it. */
  lemma ContinueToNext(data: map<string, Entry>, sid: string, tasks: seq<Task>, k: nat, res: Value,
                       rewind: bool, body: Body, comps: seq<Task>, next: Task)
    requires ReadStep(ApplyAll(data, CompleteCmds(sid, k, res)), sid, k + 1) == Success(next)
    requires "idx" in next && Truthy(next["idx"])
    ensures Continue(data, sid, tasks, k, res, rewind, body, comps)
      == Behind([k], [], Chain(ApplyAll(data, CompleteCmds(sid, k, res)), sid, tasks, k + 1,
                               next["preResult" := res], rewind, body, comps))
  {
  }

  /** When record k+1 is missing, the chain deletes records k..0 and resolves with the result. */
  lemma ContinueToEnd(data: map<string, Entry>, sid: string, tasks: seq<Task>, k: nat, res: Value,
                      rewind: bool, body: Body, comps: seq<Task>)
    requires ReadStep(ApplyAll(data, CompleteCmds(sid, k, res)), sid, k + 1) == Success(map[])
    ensures Continue(data, sid, tasks, k, res, rewind, body, comps)
      == ChainEnd(Resolved(res), ApplyAll(data, CompleteCmds(sid, k, res)) - StepKeys(sid, k), comps, [k], [])
  {
  }

  // ----- what a rejected chain leaves behind -----

  /** No step record under `sid` holds text. */
  ghost predicate NoTextSteps(data: map<string, Entry>, sid: string) {
    forall i: nat :: StepKey(sid, i) in data ==> data[StepKey(sid, i)].Hash?
  }

  /** Record j says that step j completed, and has a `result` field. */
  ghost predicate MarkedComplete(data: map<string, Entry>, sid: string, j: nat) {
    && StepKey(sid, j) in data && data[StepKey(sid, j)].Hash?
    && "status" in data[StepKey(sid, j)].fields && data[StepKey(sid, j)].fields["status"] == "complete"
    && "result" in data[StepKey(sid, j)].fields
  }

  /** Marking step k complete marks record k and leaves every other step record as it was. */
  lemma CompleteMarks(data: map<string, Entry>, sid: string, k: nat, res: Value)
    requires NoTextSteps(data, sid)
    ensures var data1 := ApplyAll(data, CompleteCmds(sid, k, res));
      && NoTextSteps(data1, sid) && MarkedComplete(data1, sid, k)
      && forall j: nat :: j != k && StepKey(sid, j) in data ==> StepKey(sid, j) in data1 && data1[StepKey(sid, j)] == data[StepKey(sid, j)]
  {
    CompleteFrame(data, sid, k, res);
    CompleteRecord(data, sid, k, res);
    forall j: nat | j != k ensures StepKey(sid, j) != StepKey(sid, k) {
      if StepKey(sid, j) == StepKey(sid, k) { StepKeyInjective(sid, j, k); }
    }
  }

  /**
   * What a rejected chain from step k leaves: the step records before k as
   * they were, and every step it completed before the failing one marked
   * complete, with a `result` field.
   */
  ghost predicate LeftBehind(e: ChainEnd, data: map<string, Entry>, sid: string, k: nat) {
    e.settled.Rejected? ==>
      && (forall j: nat :: j < k && StepKey(sid, j) in data ==>
            StepKey(sid, j) in e.data && e.data[StepKey(sid, j)] == data[StepKey(sid, j)])
      && (forall j: nat :: k <= j < k + |e.dispatched| - 1 ==> MarkedComplete(e.data, sid, j))
  }

  /**
   * When a chain rejects, every step before the one that failed is recorded
   * as complete, with a `result` field, and no earlier record is touched.
   */
  lemma {:induction false} CompletedBeforeFailure(data: map<string, Entry>, sid: string, tasks: seq<Task>, k: nat,
                                                  payload: Task, rewind: bool, body: Body, comps: seq<Task>)
    requires NoTextSteps(data, sid)
    ensures LeftBehind(Chain(data, sid, tasks, k, payload, rewind, body, comps), data, sid, k)
    decreases Later(data, sid, k)
  {
    var d := Dispatch(payload, rewind, body);
    if !d.outcome.BodyOk? {
      ChainStops(data, sid, tasks, k, payload, rewind, body, comps);
    } else {
      var res := d.outcome.result;
      var data1 := ApplyAll(data, CompleteCmds(sid, k, res));
      CompleteMarks(data, sid, k, res);
      ChainGoesOn(data, sid, tasks, k, payload, rewind, body, comps);
      match ReadStep(data1, sid, k + 1)
      case Failure(_) =>
      case Success(next) =>
        if "idx" in next && Truthy(next["idx"]) {
          var payload1 := next["preResult" := res];
          LaterShrinks(data, sid, k, res);
          ContinueToNext(data, sid, tasks, k, res, rewind, body, comps, next);
          CompletedBeforeFailure(data1, sid, tasks, k + 1, payload1, rewind, body, comps);
          MarksCarryBack(Chain(data1, sid, tasks, k + 1, payload1, rewind, body, comps), data, data1, sid, k,
                         if d.invoked then [k] else []);
        }
    }
  }

  /** What the chain from step k+1 leaves carries back to step k, once step k is marked. */
  lemma MarksCarryBack(e1: ChainEnd, data: map<string, Entry>, data1: map<string, Entry>, sid: string, k: nat,
                       ran: seq<nat>)
    requires LeftBehind(e1, data1, sid, k + 1) && MarkedComplete(data1, sid, k)
    requires forall j: nat :: j != k && StepKey(sid, j) in data ==> StepKey(sid, j) in data1 && data1[StepKey(sid, j)] == data[StepKey(sid, j)]
    ensures LeftBehind(Behind([], ran, Behind([k], [], e1)), data, sid, k)
  {
    var e := Behind([], ran, Behind([k], [], e1));
    if e.settled.Rejected? {
      assert |e.dispatched| == 1 + |e1.dispatched|;
      forall j: nat | k <= j < k + |e.dispatched| - 1 ensures MarkedComplete(e.data, sid, j) {
        if j == k {
          assert StepKey(sid, k) in data1;
        }
      }
    }
  }

  // ----- a whole run over a fresh series id -----

  /** No record of steps 0..n exists under `sid`. */
  ghost predicate Fresh(data: map<string, Entry>, sid: string, n: nat) {
    forall i: nat :: i <= n ==> StepKey(sid, i) !in data
  }

  /** The records `run` writes for the templates, in order. */
  function Records(tasks: seq<Task>): (recs: seq<Fields>)
    ensures |recs| == |tasks| && forall i :: 0 <= i < |recs| ==> recs[i] == StepFields(tasks[i], i)
  {
    seq(|tasks|, i requires 0 <= i < |tasks| => StepFields(tasks[i], i))
  }

  /** The writes of records i..|recs|-1. */
  function Writes(sid: string, recs: seq<Fields>, i: nat): (r: seq<Command>)
    requires i <= |recs|
    ensures |r| == |recs| - i && forall j :: 0 <= j < |r| ==> r[j] == HMSet(StepKey(sid, i + j), recs[i + j])
  {
    seq(|recs| - i, j requires 0 <= j < |recs| - i => HMSet(StepKey(sid, i + j), recs[i + j]))
  }

  /**
   * Writing records i.. onto a store that holds none of them stores each as
   * written, adds no record |recs|, and changes nothing outside any set of
   * keys that holds their keys.
   */
  lemma {:induction false} WritesStore(data: map<string, Entry>, sid: string, recs: seq<Fields>, i: nat, s: set<string>)
    requires i <= |recs|
    requires forall j: nat :: i <= j <= |recs| ==> StepKey(sid, j) !in data
    requires forall j: nat :: i <= j < |recs| ==> StepKey(sid, j) in s
    ensures Stored(ApplyAll(data, Writes(sid, recs, i)), sid, recs, i)
    ensures ApplyAll(data, Writes(sid, recs, i)) - s == data - s
    decreases |recs| - i
  {
    var cmds := Writes(sid, recs, i);
    if i < |recs| {
      var key := StepKey(sid, i);
      var data1 := Apply(data, cmds[0]);
      assert data1 == data[key := Hash(recs[i])] by {
        assert map[] + recs[i] == recs[i];
      }
      assert cmds[1..] == Writes(sid, recs, i + 1);
      forall j: nat | i + 1 <= j <= |recs| ensures StepKey(sid, j) !in data1 {
        if StepKey(sid, j) == key { StepKeyInjective(sid, j, i); }
      }
      WritesStore(data1, sid, recs, i + 1, s);
      WritesAfter(sid, recs, i);
      ApplyAllFrame(data1, cmds[1..], key);
      assert data1 - s == data - s;
    }
  }

  /** The writes after record i do not address record i. */
  lemma WritesAfter(sid: string, recs: seq<Fields>, i: nat)
    requires i < |recs|
    ensures var cmds := Writes(sid, recs, i + 1);
      forall j :: 0 <= j < |cmds| ==> cmds[j].key != StepKey(sid, i)
  {
    var cmds := Writes(sid, recs, i + 1);
    forall j | 0 <= j < |cmds| ensures cmds[j].key != StepKey(sid, i) {
      if cmds[j].key == StepKey(sid, i) { StepKeyInjective(sid, i + 1 + j, i); }
    }
  }

  /** The batch `run` writes is the writes of the templates' records. */
  lemma RunCmdsWrites(sid: string, tasks: seq<Task>)
    ensures RunCmds(sid, tasks) == Writes(sid, Records(tasks), 0)
  {
  }

  /** The records of the indexed templates decode to the indexed templates as the reference run sees them. */
  lemma RecordsDecode(tasks: seq<Task>)
    requires AllTemplates(tasks)
    ensures Decodes(Records(tasks), Indexed(tasks))
  {
    forall j | 0 <= j < |tasks|
      ensures Deserialize(Records(tasks)[j]) == Some(Revived(Indexed(tasks)[j], j))
    {
      RevivedIsRead(tasks[j], j);
      assert Indexed(tasks)[j]["idx" := Num(j)] == tasks[j]["idx" := Num(j)];
    }
  }

  /**
   * A job whose templates all read back, run under a series id with no step
   * records yet: the chain over the records `run` writes makes the deliveries
   * of the reference run and settles as it does with the same compensations;
   * when it resolves it has visited every step in order, added no
   * compensation, and left the store exactly as it was before `run` wrote
   * the records.
   */
  lemma FreshRunFollows(data: map<string, Entry>, sid: string, tasks: seq<Task>, rewind: bool, body: Body)
    requires 0 < |tasks| && AllTemplates(tasks) && Fresh(data, sid, |tasks|)
    ensures var written := ApplyAll(data, RunCmds(sid, tasks));
      var e := Chain(written, sid, Indexed(tasks), 0, Indexed(tasks)[0], rewind, body, []);
      var f := Forward(Indexed(tasks), rewind, body, 0, Indexed(tasks)[0], []);
      && e.settled == f.settled && e.compensations == f.compensations
      && e.dispatched == f.dispatched && e.invoked == f.invoked
      && (e.settled.Resolved? ==> e.data == data && e.dispatched == Range(0, |tasks|) && e.compensations == [])
  {
    var written := ApplyAll(data, RunCmds(sid, tasks));
    FreshWrites(data, sid, tasks);
    RecordsDecode(tasks);
    ChainIsForward(written, sid, Indexed(tasks), Records(tasks), 0, Indexed(tasks)[0], rewind, body, []);
    if Forward(Indexed(tasks), rewind, body, 0, Indexed(tasks)[0], []).settled.Resolved? {
      AllStepsInOrder(Indexed(tasks), rewind, body, Indexed(tasks)[0], []);
    }
  }

  /** `run`'s batch over a fresh series id stores every record, and removing them gives the store back. */
  lemma FreshWrites(data: map<string, Entry>, sid: string, tasks: seq<Task>)
    requires 0 < |tasks| && Fresh(data, sid, |tasks|)
    ensures var written := ApplyAll(data, RunCmds(sid, tasks));
      Stored(written, sid, Records(tasks), 0) && written - StepKeys(sid, |tasks| - 1) == data
  {
    var n := |tasks|;
    var keys := StepKeys(sid, n - 1);
    RunCmdsWrites(sid, tasks);
    forall j: nat | j < n ensures StepKey(sid, j) in keys {
      assert j <= n - 1;
    }
    WritesStore(data, sid, Records(tasks), 0, keys);
    assert data - keys == data;
  }
}
