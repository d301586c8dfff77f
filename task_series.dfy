/**
 * The saga engine of lib/taskSeries.js: one series runs a chain of step jobs
 * over the store, one step at a time, each step's result handed to the next
 * as `preResult`; a failing task body makes the series collect the
 * compensating tasks of the steps up to the failing one.
 *
 * The queue is abstracted away: the chain of `complete` events that
 * `createStep` reacts to becomes a loop over step indices, and the task
 * bodies become a function from (executable path, param, preResult) to what
 * the body reports.
 */
module Saga {
  import opened Outcomes
  import opened Json
  import opened Util
  import opened KeyValue

  /** A task template, or the payload of a step job. */
  type Task = Doc

  /** The `tasks` argument: an array of templates, or any other value. */
  datatype TaskList = TaskArray(items: seq<Task>) | NotArray

  /**
   * What running a task body comes to: the body's callback reports a result
   * or an error, or resolving or calling the body throws.
   */
  datatype BodyResult = BodyOk(result: Value) | BodyErr(message: string) | BodyThrew(message: string)

  /** The task bodies: (executable path, param, preResult) to what the body reports. */
  type Body = (Option<Value>, Option<Value>, Option<Value>) -> BodyResult

  /** How a series' promise settles. */
  datatype Settled = Resolved(value: Value) | Rejected(reason: string)

  const NoTaskError := "No task to be executed."
  const JsonSyntaxError := "SyntaxError: Unexpected token in JSON"

  function Get(d: Doc, k: string): Option<Value> {
    if k in d then Some(d[k]) else None
  }

  // ----- step records -----

  /** The key of step `i`'s record: `${sid}:${i}`. */
  function StepKey(sid: string, i: nat): string {
    sid + ":" + NatText(i)
  }

  lemma StepKeyInjective(sid: string, i: nat, j: nat)
    requires StepKey(sid, i) == StepKey(sid, j)
    ensures i == j
  {
    var p := sid + ":";
    assert StepKey(sid, i)[|p|..] == NatText(i);
    assert StepKey(sid, j)[|p|..] == NatText(j);
    NatTextInjective(i, j);
  }

  /** The keys of steps 0 through k. */
  function StepKeys(sid: string, k: nat): set<string> {
    set i: nat | i <= k :: StepKey(sid, i)
  }

  /** The record `run` writes for template `t` at index `i`: `serialize(t)` after `t.idx = i`. */
  function StepFields(t: Task, i: nat): Fields {
    StoreForm(Serialize(t["idx" := Num(i)]))
  }

  /** `next`'s reading of step `i`: the decoded record, or why reading it fails. */
  function ReadStep(data: map<string, Entry>, sid: string, i: nat): (r: Result<Task>)
    ensures StepKey(sid, i) !in data ==> r == Success(map[])
  {
    var key := StepKey(sid, i);
    if key in data && data[key].Text? then Failure(WrongType)
    else
      match Deserialize(FieldsAt(data, key))
      case None => Failure(JsonSyntaxError)
      case Some(d) => Success(d)
  }

  /** The batch that marks step `k` complete with its result. */
  function CompleteCmds(sid: string, k: nat, result: Value): seq<Command> {
    [HSet(StepKey(sid, k), "status", "complete"), HSet(StepKey(sid, k), "result", StoreText(result))]
  }

  /** Marking step k complete changes record k, adds it when missing, and changes no other key. */
  lemma CompleteFrame(data: map<string, Entry>, sid: string, k: nat, res: Value)
    ensures var data1 := ApplyAll(data, CompleteCmds(sid, k, res));
      && data1.Keys == data.Keys + {StepKey(sid, k)}
      && forall key :: key in data && key != StepKey(sid, k) ==> data1[key] == data[key]
  {
    var cmds := CompleteCmds(sid, k, res);
    ApplyAllKeys(data, cmds);
    assert CommandKeys(cmds[1..][1..]) == {};
    assert CommandKeys(cmds[1..]) == {StepKey(sid, k)};
    forall key | key != StepKey(sid, k)
      ensures key in data ==> ApplyAll(data, cmds)[key] == data[key]
    {
      ApplyAllFrame(data, cmds, key);
    }
  }

  /**
   * What marking step k complete writes: record k gets `status` `complete`
   * and `result` the text the store client sends for the result, over whatever fields it had; a key that
   * holds text refuses both writes and the store stays as it was.
   */
  lemma CompleteRecord(data: map<string, Entry>, sid: string, k: nat, res: Value)
    ensures var data1 := ApplyAll(data, CompleteCmds(sid, k, res));
      && StepKey(sid, k) in data1
      && (StepKey(sid, k) in data && data[StepKey(sid, k)].Text? ==> data1 == data)
      && (StepKey(sid, k) !in data || data[StepKey(sid, k)].Hash? ==>
            data1[StepKey(sid, k)]
            == Hash(FieldsAt(data, StepKey(sid, k))["status" := "complete"]["result" := StoreText(res)]))
  {
    var cmds := CompleteCmds(sid, k, res);
    var key := StepKey(sid, k);
    var d0 := Apply(data, cmds[0]);
    assert ApplyAll(data, cmds) == ApplyAll(Apply(d0, cmds[1]), []) by {
      assert cmds[1..][1..] == [];
    }
    if !(key in data && data[key].Text?) {
      assert d0[key] == Hash(FieldsAt(data, key)["status" := "complete"]);
    }
  }

  // ----- one delivery -----

  /** The duplicate-delivery test: the payload already records a completed step with a result. */
  predicate AlreadyComplete(payload: Task) {
    Get(payload, "status") == Some(Str("complete")) && "result" in payload && Truthy(payload["result"])
  }

  /** The executable the handler resolves: `rewindPath` in rewind mode, `path` otherwise. */
  function Executable(payload: Task, rewind: bool): Option<Value> {
    if rewind then Get(payload, "rewindPath") else Get(payload, "path")
  }

  /** What one delivery reports, and whether it ran the task body. */
  datatype Delivery = Delivery(outcome: BodyResult, invoked: bool)

  /** Whether `require` accepts the executable as a module id: only a non-empty string. */
  predicate Loadable(exe: Option<Value>) {
    exe.Some? && exe.value.Str? && exe.value.s != ""
  }

  /** The TypeError `require` throws for a module id that is missing, not a string, or empty. */
  const BadModuleId := "The \"id\" argument must be a non-empty string"

  /**
   * The step handler, for one delivery of a step job carrying `payload`: a
   * completed payload reports its stored result; otherwise `require` of the
   * executable throws unless it is a non-empty string, and the body runs.
   */
  function Dispatch(payload: Task, rewind: bool, body: Body): (d: Delivery)
    ensures d.invoked <==> !AlreadyComplete(payload) && Loadable(Executable(payload, rewind))
    ensures AlreadyComplete(payload) ==> d.outcome == BodyOk(payload["result"])
    ensures !AlreadyComplete(payload) && !Loadable(Executable(payload, rewind)) ==> d.outcome == BodyThrew(BadModuleId)
    ensures d.invoked ==>
      d.outcome == body(Executable(payload, rewind), Get(payload, "param"), Get(payload, "preResult"))
  {
    if AlreadyComplete(payload) then Delivery(BodyOk(payload["result"]), false)
    else if !Loadable(Executable(payload, rewind)) then Delivery(BodyThrew(BadModuleId), false)
    else Delivery(body(Executable(payload, rewind), Get(payload, "param"), Get(payload, "preResult")), true)
  }

  // ----- compensation -----

  /** Whether a template declares a compensating task. */
  predicate HasRewind(t: Task) {
    "rewindPath" in t && Truthy(t["rewindPath"])
  }

  /**
   * The indices hi, hi-1, ..., lo (in that order) whose template exists and
   * declares a compensating task.
   */
  function RewindRange(tasks: seq<Task>, hi: int, lo: nat): (r: seq<nat>)
    ensures forall j :: 0 <= j < |r| ==> lo <= r[j] <= hi && r[j] < |tasks| && HasRewind(tasks[r[j]])
    decreases hi - lo + 1
  {
    if hi < lo then []
    else (if hi < |tasks| && HasRewind(tasks[hi]) then [hi as nat] else []) + RewindRange(tasks, hi - 1, lo)
  }

  /** The templates at the given indices. */
  function Pick(tasks: seq<Task>, ix: seq<nat>): (r: seq<Task>)
    requires forall j :: 0 <= j < |ix| ==> ix[j] < |tasks|
    ensures |r| == |ix| && forall j :: 0 <= j < |ix| ==> r[j] == tasks[ix[j]]
  {
    seq(|ix|, j requires 0 <= j < |ix| => tasks[ix[j]])
  }

  /** The compensations a failure of step k adds: templates k down to 0 that declare one. */
  function Compensations(tasks: seq<Task>, k: nat): seq<Task> {
    Pick(tasks, RewindRange(tasks, k, 0))
  }

  /** Taking one more index at the low end of the range. */
  lemma {:induction false} RewindRangeExtend(tasks: seq<Task>, hi: int, lo: nat)
    requires lo <= hi + 1
    ensures RewindRange(tasks, hi, lo) ==
      RewindRange(tasks, hi, lo + 1) + (if lo <= hi && lo < |tasks| && HasRewind(tasks[lo]) then [lo] else [])
    decreases hi - lo + 1
  {
    if lo <= hi {
      if lo < hi {
        RewindRangeExtend(tasks, hi - 1, lo);
      }
    }
  }

  predicate Descending(s: seq<nat>) {
    forall a, b :: 0 <= a < b < |s| ==> s[a] > s[b]
  }

  /** The compensation indices strictly descend. */
  lemma {:induction false} RewindRangeDescends(tasks: seq<Task>, hi: int, lo: nat)
    ensures Descending(RewindRange(tasks, hi, lo))
    decreases hi - lo + 1
  {
    if lo <= hi {
      RewindRangeDescends(tasks, hi - 1, lo);
      var t := RewindRange(tasks, hi - 1, lo);
      var h: seq<nat> := if hi < |tasks| && HasRewind(tasks[hi]) then [hi as nat] else [];
      var r := RewindRange(tasks, hi, lo);
      assert r == h + t;
      forall a, b | 0 <= a < b < |r| ensures r[a] > r[b] {
        assert r[b] == t[b - |h|] <= hi - 1;
        if a >= |h| { assert r[a] == t[a - |h|] > t[b - |h|]; } else { assert r[a] == hi; }
      }
    }
  }

  /** Exactly the indices in [lo, hi] whose template declares a compensation are taken. */
  lemma {:induction false} RewindRangeMembers(tasks: seq<Task>, hi: int, lo: nat, i: nat)
    ensures i in RewindRange(tasks, hi, lo) <==> lo <= i <= hi && i < |tasks| && HasRewind(tasks[i])
    decreases hi - lo + 1
  {
    if lo <= hi {
      RewindRangeMembers(tasks, hi - 1, lo, i);
    }
  }

  /**
   * The compensations for a failure of step k are the templates k down to 0
   * that declare a compensating task, each once, in strictly descending index order.
   */
  lemma CompensationsOfFailure(tasks: seq<Task>, k: nat)
    ensures var ix := RewindRange(tasks, k, 0);
      && Compensations(tasks, k) == Pick(tasks, ix)
      && Descending(ix)
      && (forall i: nat :: i in ix <==> i <= k && i < |tasks| && HasRewind(tasks[i]))
  {
    RewindRangeDescends(tasks, k, 0);
    forall i: nat ensures i in RewindRange(tasks, k, 0) <==> i <= k && i < |tasks| && HasRewind(tasks[i]) {
      RewindRangeMembers(tasks, k, 0, i);
    }
  }

  // ----- the chain, as a specification -----

  /** How a chain ends: the settled promise, the store, the compensation list and which steps ran. */
  datatype ChainEnd = ChainEnd(
    settled: Settled,
    data: map<string, Entry>,
    compensations: seq<Task>,
    dispatched: seq<nat>,
    invoked: seq<nat>)

  /** A chain's end, after steps that dispatched `ds` and invoked `ran` before it. */
  function Behind(ds: seq<nat>, ran: seq<nat>, e: ChainEnd): ChainEnd {
    e.(dispatched := ds + e.dispatched, invoked := ran + e.invoked)
  }

  lemma BehindBehind(ds: seq<nat>, ran: seq<nat>, ds2: seq<nat>, ran2: seq<nat>, e: ChainEnd)
    ensures Behind(ds, ran, Behind(ds2, ran2, e)) == Behind(ds + ds2, ran + ran2, e)
  {
    assert ds + (ds2 + e.dispatched) == (ds + ds2) + e.dispatched;
    assert ran + (ran2 + e.invoked) == (ran + ran2) + e.invoked;
  }

  /** The step records after step k that the store still holds: the chain can only visit these. */
  ghost function Later(data: map<string, Entry>, sid: string, k: nat): set<string> {
    set key | key in data && exists j: nat :: k < j && key == StepKey(sid, j)
  }

  /** Marking step k complete and moving to step k+1 leaves fewer records ahead. */
  lemma LaterShrinks(data: map<string, Entry>, sid: string, k: nat, result: Value)
    requires StepKey(sid, k + 1) in ApplyAll(data, CompleteCmds(sid, k, result))
    ensures Later(ApplyAll(data, CompleteCmds(sid, k, result)), sid, k + 1) < Later(data, sid, k)
  {
    var data1 := ApplyAll(data, CompleteCmds(sid, k, result));
    CompleteFrame(data, sid, k, result);
    forall key | key in Later(data1, sid, k + 1) ensures key in Later(data, sid, k) {
      var j: nat :| k + 1 < j && key == StepKey(sid, j);
      if key == StepKey(sid, k) { StepKeyInjective(sid, j, k); }
    }
    if StepKey(sid, k + 1) == StepKey(sid, k) { StepKeyInjective(sid, k + 1, k); }
    assert StepKey(sid, k + 1) in Later(data, sid, k);
    if StepKey(sid, k + 1) in Later(data1, sid, k + 1) {
      var j: nat :| k + 1 < j && StepKey(sid, k + 1) == StepKey(sid, j);
      StepKeyInjective(sid, j, k + 1);
    }
  }

  /**
   * The chain from step k on: deliver the payload; on success mark step k
   * complete, read step k+1 and go on with it if it has an `idx`, else
   * delete steps k..0 and resolve with the result; on failure reject and
   * write nothing.
   */
  ghost function Chain(data: map<string, Entry>, sid: string, tasks: seq<Task>, k: nat, payload: Task,
                       rewind: bool, body: Body, comps: seq<Task>): ChainEnd
    decreases Later(data, sid, k), 1
  {
    var d := Dispatch(payload, rewind, body);
    var ran := if d.invoked then [k] else [];
    match d.outcome
    case BodyErr(msg) => ChainEnd(Rejected(msg), data, comps + Compensations(tasks, k), [k], ran)
    case BodyThrew(msg) => ChainEnd(Rejected(msg), data, comps, [k], ran)
    case BodyOk(res) => Behind([], ran, Continue(data, sid, tasks, k, res, rewind, body, comps))
  }

  /** The chain after step k succeeded with `res`. */
  ghost function Continue(data: map<string, Entry>, sid: string, tasks: seq<Task>, k: nat, res: Value,
                          rewind: bool, body: Body, comps: seq<Task>): ChainEnd
    decreases Later(data, sid, k), 0
  {
    var data1 := ApplyAll(data, CompleteCmds(sid, k, res));
    match ReadStep(data1, sid, k + 1)
    case Failure(e) => ChainEnd(Rejected(e), data1, comps, [k], [])
    case Success(next) =>
      if "idx" in next && Truthy(next["idx"]) then
        LaterShrinks(data, sid, k, res);
        Behind([k], [], Chain(data1, sid, tasks, k + 1, next["preResult" := res], rewind, body, comps))
      else
        ChainEnd(Resolved(res), data1 - StepKeys(sid, k), comps, [k], [])
  }

  /** A step whose body reports an error or throws ends the chain, and only an error adds compensations. */
  lemma ChainStops(data: map<string, Entry>, sid: string, tasks: seq<Task>, k: nat, payload: Task,
                   rewind: bool, body: Body, comps: seq<Task>)
    requires !Dispatch(payload, rewind, body).outcome.BodyOk?
    ensures var d := Dispatch(payload, rewind, body);
      Chain(data, sid, tasks, k, payload, rewind, body, comps)
      == ChainEnd(Rejected(d.outcome.message), data,
                  comps + (if d.outcome.BodyErr? then Compensations(tasks, k) else []),
                  [k], if d.invoked then [k] else [])
  {
  }

  /** A step that succeeds hands over to what follows it. */
  lemma ChainGoesOn(data: map<string, Entry>, sid: string, tasks: seq<Task>, k: nat, payload: Task,
                    rewind: bool, body: Body, comps: seq<Task>)
    requires Dispatch(payload, rewind, body).outcome.BodyOk?
    ensures var d := Dispatch(payload, rewind, body);
      Chain(data, sid, tasks, k, payload, rewind, body, comps)
      == Behind([], if d.invoked then [k] else [], Continue(data, sid, tasks, k, d.outcome.result, rewind, body, comps))
  {
  }

  /** A step that succeeds and then ends or hands over ends its chain the same way. */
  lemma ChainSteps(data: map<string, Entry>, sid: string, tasks: seq<Task>, k: nat, payload: Task,
                   rewind: bool, body: Body, comps: seq<Task>, done: bool, r: Settled,
                   data1: map<string, Entry>, next: Task)
    requires Dispatch(payload, rewind, body).outcome.BodyOk?
    requires var c := Continue(data, sid, tasks, k, Dispatch(payload, rewind, body).outcome.result, rewind, body, comps);
      if done then c == ChainEnd(r, data1, comps, [k], [])
      else c == Behind([k], [], Chain(data1, sid, tasks, k + 1, next, rewind, body, comps))
    ensures var d := Dispatch(payload, rewind, body);
      var e := Chain(data, sid, tasks, k, payload, rewind, body, comps);
      var ran := if d.invoked then [k] else [];
      if done then e == ChainEnd(r, data1, comps, [k], ran)
      else e == Behind([k], ran, Chain(data1, sid, tasks, k + 1, next, rewind, body, comps))
  {
    ChainGoesOn(data, sid, tasks, k, payload, rewind, body, comps);
    if !done {
      var ran := if Dispatch(payload, rewind, body).invoked then [k] else [];
      BehindBehind([], ran, [k], [], Chain(data1, sid, tasks, k + 1, next, rewind, body, comps));
      assert [] + [k] == [k] && ran + [] == ran;
    }
  }

  /** Whether a non-empty `tasks` list starts at a step index the chain can address. */
  predicate StartsAtIndex(tasks: TaskList) {
    tasks.TaskArray? && tasks.items != [] ==>
      "idx" in tasks.items[0] && tasks.items[0]["idx"].Num? && tasks.items[0]["idx"].n >= 0
  }

  // ----- the series object -----

  class TaskSeries {
    var sid: string
    var compensateTasks: seq<Task>

    constructor ()
      ensures sid == "" && compensateTasks == []
    {
      sid := "";
      compensateTasks := [];
    }

    /**
     * The step handler for one delivery of step k: runs the body unless the
     * payload records a completed step; when the body reports an error,
     * appends the compensations of steps k down to 0.
     */
    method Handle(payload: Task, k: nat, tasks: seq<Task>, rewind: bool, body: Body) returns (d: Delivery)
      modifies this`compensateTasks
      ensures d == Dispatch(payload, rewind, body)
      ensures compensateTasks == old(compensateTasks) + (if d.outcome.BodyErr? then Compensations(tasks, k) else [])
    {
      d := Dispatch(payload, rewind, body);
      if d.outcome.BodyErr? {
        var i: int := k;
        while i >= 0
          invariant -1 <= i <= k
          invariant compensateTasks == old(compensateTasks) + Pick(tasks, RewindRange(tasks, k, i + 1))
        {
          RewindRangeExtend(tasks, k, i);
          if i < |tasks| && HasRewind(tasks[i]) {
            compensateTasks := compensateTasks + [tasks[i]];
          }
          i := i - 1;
        }
      }
    }

    /** `next`: the decoded record of step k+1; an empty record when there is none. */
    method Next(store: Store, sid: string, k: nat) returns (r: Result<Task>)
      ensures r == ReadStep(store.data, sid, k + 1)
      ensures StepKey(sid, k + 1) !in store.data ==> r == Success(map[])
    {
      var raw := store.HGetAll(StepKey(sid, k + 1));
      match raw
      case Failure(e) =>
        r := Failure(e);
      case Success(fields) =>
        var decoded := Deserialize(fields);
        r := if decoded.Some? then Success(decoded.value) else Failure(JsonSyntaxError);
    }

    /** The cleanup after the last step: deletes `${this.sid}:i` for i = k down to 0. */
    method DeleteSteps(store: Store, k: nat)
      modifies store
      ensures store.data == old(store.data) - StepKeys(sid, k)
    {
      var i: int := k;
      while i >= 0
        invariant -1 <= i <= k
        invariant store.data == old(store.data) - (set j: nat | i < j <= k :: StepKey(sid, j))
      {
        assert (set j: nat | i - 1 < j <= k :: StepKey(sid, j)) ==
               (set j: nat | i < j <= k :: StepKey(sid, j)) + {StepKey(sid, i)};
        store.Del(StepKey(sid, i));
        i := i - 1;
      }
      assert (set j: nat | -1 < j <= k :: StepKey(sid, j)) == StepKeys(sid, k);
    }

    /**
     * What follows a successful step k: mark it complete, read step k+1, and
     * either hand back its payload or delete the steps and finish.
     */
    method Advance(store: Store, items: seq<Task>, k: nat, res: Value, rewind: bool, body: Body)
      returns (done: bool, r: Settled, next: Task)
      modifies store
      ensures var e := Continue(old(store.data), sid, items, k, res, rewind, body, compensateTasks);
        if done then e == ChainEnd(r, store.data, compensateTasks, [k], [])
        else
          && Later(store.data, sid, k + 1) < Later(old(store.data), sid, k)
          && e == Behind([k], [], Chain(store.data, sid, items, k + 1, next, rewind, body, compensateTasks))
    {
      store.Exec(CompleteCmds(sid, k, res));
      var read := Next(store, sid, k);
      if read.Failure? {
        return true, Rejected(read.error), map[];
      }
      if "idx" in read.value && Truthy(read.value["idx"]) {
        LaterShrinks(old(store.data), sid, k, res);
        return false, Resolved(res), read.value["preResult" := res];
      }
      DeleteSteps(store, k);
      return true, Resolved(res), map[];
    }

    /**
     * One turn of the chain at step k: the delivery, then either the end of the
     * chain or the payload of step k+1.
     */
    method Step(store: Store, items: seq<Task>, k: nat, payload: Task, rewind: bool, body: Body)
      returns (done: bool, r: Settled, ran: seq<nat>, next: Task)
      modifies this`compensateTasks, store
      ensures var e := Chain(old(store.data), sid, items, k, payload, rewind, body, old(compensateTasks));
        if done then e == ChainEnd(r, store.data, compensateTasks, [k], ran)
        else
          && Later(store.data, sid, k + 1) < Later(old(store.data), sid, k)
          && e == Behind([k], ran, Chain(store.data, sid, items, k + 1, next, rewind, body, compensateTasks))
    {
      ghost var data0 := store.data;
      var d := Handle(payload, k, items, rewind, body);
      ran := if d.invoked then [k] else [];
      if !d.outcome.BodyOk? {
        ChainStops(data0, sid, items, k, payload, rewind, body, old(compensateTasks));
        return true, Rejected(d.outcome.message), ran, map[];
      }
      assert compensateTasks == old(compensateTasks) && store.data == data0;
      done, r, next := Advance(store, items, k, d.outcome.result, rewind, body);
      ChainSteps(data0, sid, items, k, payload, rewind, body, compensateTasks, done, r, store.data, next);
    }

    /**
     * `execute`: rejects when `tasks` is not an array, resolves with `{}` when
     * it is empty, and otherwise runs the chain from `tasks[0]`.
     */
    method Execute(store: Store, sid: string, tasks: TaskList, rewind: bool, body: Body)
      returns (r: Settled, dispatched: seq<nat>, invoked: seq<nat>)
      requires StartsAtIndex(tasks)
      modifies this, store
      ensures this.sid == sid
      ensures tasks.NotArray? ==>
        r == Rejected(NoTaskError) && dispatched == [] && invoked == []
        && store.data == old(store.data) && compensateTasks == old(compensateTasks)
      ensures tasks == TaskArray([]) ==>
        r == Resolved(Obj([])) && dispatched == [] && invoked == []
        && store.data == old(store.data) && compensateTasks == old(compensateTasks)
      ensures tasks.TaskArray? && tasks.items != [] ==>
        var e := Chain(old(store.data), sid, tasks.items, tasks.items[0]["idx"].n, tasks.items[0],
                       rewind, body, old(compensateTasks));
        e == ChainEnd(r, store.data, compensateTasks, dispatched, invoked)
    {
      this.sid := sid;
      dispatched, invoked := [], [];
      if tasks.NotArray? {
        return Rejected(NoTaskError), dispatched, invoked;
      }
      if tasks.items == [] {
        return Resolved(Obj([])), dispatched, invoked;
      }
      var items: seq<Task> := tasks.items;
      var first: Value := items[0]["idx"];
      var k: nat := first.n;
      var payload := items[0];
      ghost var goal := Chain(store.data, sid, items, k, payload, rewind, body, compensateTasks);
      while true
        invariant this.sid == sid
        invariant goal == Behind(dispatched, invoked, Chain(store.data, sid, items, k, payload, rewind, body, compensateTasks))
        decreases Later(store.data, sid, k)
      {
        var done, settled, ran, next := Step(store, items, k, payload, rewind, body);
        BehindBehind(dispatched, invoked, [k], ran, Chain(store.data, sid, items, k + 1, next, rewind, body, compensateTasks));
        dispatched, invoked := dispatched + [k], invoked + ran;
        if done {
          return settled, dispatched, invoked;
        }
        k, payload := k + 1, next;
      }
    }
  }
}
