/**
 * The job manager of lib/jobManager.js: it registers job types and their task
 * templates, admits jobs (validating them, reserving their outcome key and
 * storing the outcome when the job completes), and runs a job type by
 * writing one step record per template and handing the templates to a task
 * series.
 *
 * The queue becomes a list of admitted jobs and a table of registered
 * handlers; what the queue decides (the job id it assigns, whether saving
 * the job succeeds, which job it delivers) arrives as arguments.
 */
module Jobs {
  import opened Outcomes
  import opened Json
  import opened Util
  import opened KeyValue
  import opened Saga

  const ParamError := "please pass correct param"
  const WrongJobType := "wrong job type."
  const NotAnArray := "tasks should be an array."
  const SaveError := "save job error."
  const NotImplemented := "this API is not implement yet"

  /** Five minutes, in milliseconds. */
  const DefaultJobTTL := 1000 * 60 * 5
  /** Three days, in seconds. */
  const DefaultResultTTL := 3600 * 24 * 3

  /** The options of `addJob`; an absent option is None, and a missing options object has all of them absent. */
  datatype JobOptions = JobOptions(uniqField: Option<string>, jobTTL: Option<int>, resultTTL: Option<int>)

  /** What `addJob` settles on before touching the store. */
  datatype Ticket = Ticket(jobType: string, uniqField: string, key: string, jobTTL: int, resultTTL: int)

  /** A job the queue holds: its id, type and data, and what its completion listener stores where. */
  datatype QueuedJob = QueuedJob(id: nat, jobType: string, data: Doc, jobTTL: int, key: string, resultTTL: int)

  /** The type check of `addJob`, `addTasks` and `run`: a non-empty string. */
  predicate ValidType(t: Value) {
    t.Str? && t.s != ""
  }

  /** `opt.uniqField || 'id'`. */
  function UniqField(opt: JobOptions): string {
    if opt.uniqField.Some? && opt.uniqField.value != "" then opt.uniqField.value else "id"
  }

  /** `opt.jobTTL || 1000 * 60 * 5`: an absent or zero TTL means the default. */
  function JobTTL(opt: JobOptions): (ttl: int)
    ensures ttl != 0
    ensures opt.jobTTL.Some? && opt.jobTTL.value != 0 ==> ttl == opt.jobTTL.value
    ensures opt.jobTTL.None? || opt.jobTTL.value == 0 ==> ttl == DefaultJobTTL
  {
    if opt.jobTTL.Some? && opt.jobTTL.value != 0 then opt.jobTTL.value else DefaultJobTTL
  }

  /** `opt.resultTTL || 3600 * 24 * 3`: an absent or zero TTL means the default. */
  function ResultTTL(opt: JobOptions): (ttl: int)
    ensures ttl != 0
    ensures opt.resultTTL.Some? && opt.resultTTL.value != 0 ==> ttl == opt.resultTTL.value
    ensures opt.resultTTL.None? || opt.resultTTL.value == 0 ==> ttl == DefaultResultTTL
  {
    if opt.resultTTL.Some? && opt.resultTTL.value != 0 then opt.resultTTL.value else DefaultResultTTL
  }

  /** The outcome key `${type}:${uniqField}:${data[uniqField]}`. */
  function OutcomeKey(jobType: string, uniqField: string, v: Value): string {
    jobType + ":" + uniqField + ":" + ToText(v)
  }

  /** The message `addJob` throws when the unique field is empty. */
  function EmptyFieldError(uniqField: string): string {
    "data[" + uniqField + "] can not be empty."
  }

  /** The TypeError reading a field of undefined `data` throws. */
  function UndefinedDataError(uniqField: string): string {
    "TypeError: Cannot read property '" + uniqField + "' of undefined"
  }

  /**
   * The synchronous checks of `addJob`, in their order: the type, then the
   * unique field of `data`; on success, the key and the two TTLs.
   */
  function Admit(jobType: Value, data: Option<Doc>, opt: JobOptions): (r: Result<Ticket>)
    ensures !ValidType(jobType) ==> r == Failure(ParamError)
    ensures ValidType(jobType) && data.None? ==> r == Failure(UndefinedDataError(UniqField(opt)))
    ensures ValidType(jobType) && data.Some? && !(UniqField(opt) in data.value && Truthy(data.value[UniqField(opt)])) ==>
      r == Failure(EmptyFieldError(UniqField(opt)))
    ensures r.Success? <==>
      ValidType(jobType) && data.Some? && UniqField(opt) in data.value && Truthy(data.value[UniqField(opt)])
    ensures r.Success? ==>
      && r.value.jobType == jobType.s
      && r.value.uniqField == UniqField(opt)
      && r.value.key == OutcomeKey(jobType.s, UniqField(opt), data.value[UniqField(opt)])
      && r.value.jobTTL == JobTTL(opt) && r.value.resultTTL == ResultTTL(opt)
  {
    if !ValidType(jobType) then Failure(ParamError)
    else
      var uniq := UniqField(opt);
      if data.None? then Failure(UndefinedDataError(uniq))
      else if !(uniq in data.value && Truthy(data.value[uniq])) then Failure(EmptyFieldError(uniq))
      else Success(Ticket(jobType.s, uniq, OutcomeKey(jobType.s, uniq, data.value[uniq]), JobTTL(opt), ResultTTL(opt)))
  }

  /** The text the completion listener stores: JSON for `typeof result === 'object'`, String(result) otherwise. */
  function OutcomeText(result: Value): string {
    if TypeofObject(result) then Stringify(result) else ToText(result)
  }

  /** A stored outcome that is not a plain string reads back, through JSON.parse, as the result itself. */
  lemma OutcomeTextReadsBack(result: Value)
    requires !result.Str?
    ensures Parse(OutcomeText(result)) == Some(result)
  {
    ParseStringify(result);
    if !TypeofObject(result) {
      ToTextIsJsonOfScalar(result);
    }
  }

  /** The job without tasks completes with null, which is stored as the text "null". */
  lemma NullOutcomeIsNullText()
    ensures OutcomeText(Null) == "null"
  {
  }

  /** The templates as `run` leaves them: template i gets `idx = i`. */
  function Indexed(tasks: seq<Task>): (r: seq<Task>)
    ensures |r| == |tasks|
    ensures forall i :: 0 <= i < |r| ==> r[i] == tasks[i]["idx" := Num(i)]
  {
    seq(|tasks|, i requires 0 <= i < |tasks| => tasks[i]["idx" := Num(i)])
  }

  /** The batch `run` writes: `hmset ${sid}:${i} serialize(tasks[i])` for each template, in order. */
  function RunCmds(sid: string, tasks: seq<Task>): (r: seq<Command>)
    ensures |r| == |tasks|
    ensures forall i :: 0 <= i < |r| ==> r[i] == HMSet(StepKey(sid, i), StepFields(tasks[i], i))
  {
    seq(|tasks|, i requires 0 <= i < |tasks| => HMSet(StepKey(sid, i), StepFields(tasks[i], i)))
  }

  /** The text `${sid}` makes of `job.data.id`: "undefined" when the field is absent. */
  function SidText(data: Doc): string {
    if "id" in data then ToText(data["id"]) else "undefined"
  }

  class JobManager {
    /** `job.collections`: the registered job types (each mapped to '' in the source). */
    var jobTypes: set<string>
    /** `task.collections`: the task templates of each job type. */
    var taskCollections: map<string, seq<Task>>
    /** The jobs `addJob` saved to the queue, in order. */
    var queue: seq<QueuedJob>
    /** The job types `run` registered a handler for, with the handler's concurrency. */
    var handlers: map<string, int>
    /** The store of job outcomes and step records. */
    const db: Store

    /** Every queued job carries the non-zero TTLs `addJob` computed. */
    predicate Valid()
      reads this
    {
      forall q :: q in queue ==> q.jobTTL != 0 && q.resultTTL != 0
    }

    constructor (db: Store)
      ensures this.db == db
      ensures jobTypes == {} && taskCollections == map[] && queue == [] && handlers == map[]
      ensures Valid()
    {
      this.db := db;
      jobTypes := {};
      taskCollections := map[];
      queue := [];
      handlers := map[];
    }

    /** `listTasks`: the templates registered for the type, None when there are none. */
    function ListTasks(jobType: Value): (r: Option<seq<Task>>)
      reads this
      ensures r.Some? <==> jobType.Str? && jobType.s in taskCollections
      ensures r.Some? ==> r.value == taskCollections[jobType.s]
    {
      if jobType.Str? && jobType.s in taskCollections then Some(taskCollections[jobType.s]) else None
    }

    /**
     * `addTasks`: throws for an invalid or unregistered type or a non-array
     * list; otherwise the type's list becomes exactly `newTasks` (the
     * concatenation is overwritten at once) and it returns true.
     */
    method AddTasks(jobType: Value, newTasks: TaskList) returns (r: Result<bool>)
      modifies this`taskCollections
      ensures !ValidType(jobType) ==> r == Failure(ParamError)
      ensures ValidType(jobType) && jobType.s !in jobTypes ==> r == Failure(WrongJobType)
      ensures ValidType(jobType) && jobType.s in jobTypes && newTasks.NotArray? ==> r == Failure(NotAnArray)
      ensures r.Failure? ==> taskCollections == old(taskCollections)
      ensures r.Success? <==> ValidType(jobType) && jobType.s in jobTypes && newTasks.TaskArray?
      ensures r.Success? ==>
        r.value && taskCollections == old(taskCollections)[jobType.s := newTasks.items]
        && ListTasks(jobType) == Some(newTasks.items)
    {
      if !ValidType(jobType) {
        return Failure(ParamError);
      }
      if jobType.s !in jobTypes {
        return Failure(WrongJobType);
      }
      if newTasks.NotArray? {
        return Failure(NotAnArray);
      }
      var t := jobType.s;
      if t in taskCollections {
        taskCollections := taskCollections[t := taskCollections[t] + newTasks.items];
      }
      taskCollections := taskCollections[t := newTasks.items];
      return Success(true);
    }

    /**
     * `addJob`: throws when the checks fail; otherwise reserves the outcome
     * key with '', registers the type, registers the tasks (a failure there
     * rejects and leaves the '' at the key and the type registered), and
     * then either saves the job (the key holds the job id) or, when saving
     * fails, deletes the key and rejects.
     */
    method AddJob(jobType: Value, data: Option<Doc>, tasks: TaskList, opt: JobOptions, saveOk: bool, jobId: nat)
      returns (r: Call<()>)
      requires Valid()
      modifies this, db
      ensures Valid()
      ensures handlers == old(handlers)
      ensures Admit(jobType, data, opt).Failure? ==>
        && r == Throws(Admit(jobType, data, opt).error)
        && db.data == old(db.data) && jobTypes == old(jobTypes)
        && taskCollections == old(taskCollections) && queue == old(queue)
      ensures Admit(jobType, data, opt).Success? ==>
        var tk := Admit(jobType, data, opt).value;
        && jobTypes == old(jobTypes) + {tk.jobType}
        && (tasks.NotArray? ==>
              && r == Rejects(NotAnArray)
              && db.data == old(db.data)[tk.key := Text("", None)]
              && taskCollections == old(taskCollections) && queue == old(queue))
        && (tasks.TaskArray? ==> taskCollections == old(taskCollections)[tk.jobType := tasks.items])
        && (tasks.TaskArray? && !saveOk ==>
              r == Rejects(SaveError) && db.data == old(db.data) - {tk.key} && queue == old(queue))
        && (tasks.TaskArray? && saveOk ==>
              && r == Resolves(())
              && db.data == old(db.data)[tk.key := Text(NatText(jobId), None)]
              && queue == old(queue) + [QueuedJob(jobId, tk.jobType, data.value, tk.jobTTL, tk.key, tk.resultTTL)])
    {
      var admitted := Admit(jobType, data, opt);
      if admitted.Failure? {
        return Throws(admitted.error);
      }
      var tk := admitted.value;
      db.Set(tk.key, "");
      if tk.jobType !in jobTypes {
        jobTypes := jobTypes + {tk.jobType};
      }
      var added := AddTasks(jobType, tasks);
      if added.Failure? {
        return Rejects(added.error);
      }
      if !saveOk {
        db.Del(tk.key);
        return Rejects(SaveError);
      }
      queue := queue + [QueuedJob(jobId, tk.jobType, data.value, tk.jobTTL, tk.key, tk.resultTTL)];
      db.Set(tk.key, NatText(jobId));
      return Resolves(());
    }

    /**
     * The completion listener of a job: the result is stored at the job's key
     * as its outcome text, with no expiry when the result TTL is negative
     * and expiring after the result TTL otherwise.
     */
    method CompleteJob(job: QueuedJob, result: Value)
      requires job.resultTTL != 0
      modifies db
      ensures db.data == old(db.data)[job.key :=
        Text(OutcomeText(result), if job.resultTTL < 0 then None else Some(job.resultTTL as nat))]
    {
      var text := OutcomeText(result);
      if job.resultTTL < 0 {
        db.Set(job.key, text);
      } else {
        db.SetEx(job.key, job.resultTTL as nat, text);
      }
    }

    /** `run`'s registration: rejects for an invalid type, else registers a handler with concurrency `|| 1`. */
    method Run(jobType: Value, concurrency: int) returns (r: Result<()>)
      modifies this`handlers
      ensures !ValidType(jobType) ==> r == Failure(ParamError) && handlers == old(handlers)
      ensures ValidType(jobType) ==>
        r == Success(()) && handlers == old(handlers)[jobType.s := if concurrency == 0 then 1 else concurrency]
    {
      if !ValidType(jobType) {
        return Failure(ParamError);
      }
      handlers := handlers[jobType.s := if concurrency == 0 then 1 else concurrency];
      return Success(());
    }

    /** The loop of `run` that sets `tasks[i].idx = i` and queues `hmset ${sid}:${i}` for each template. */
    method IndexTemplates(sid: string, tasks: seq<Task>) returns (indexed: seq<Task>, cmds: seq<Command>)
      ensures indexed == Indexed(tasks)
      ensures cmds == RunCmds(sid, tasks)
    {
      indexed, cmds := [], [];
      var i := 0;
      while i < |tasks|
        invariant 0 <= i <= |tasks|
        invariant indexed == Indexed(tasks[..i])
        invariant cmds == RunCmds(sid, tasks[..i])
      {
        var t := tasks[i]["idx" := Num(i)];
        indexed := indexed + [t];
        cmds := cmds + [HMSet(StepKey(sid, i), StoreForm(Serialize(t)))];
        i := i + 1;
      }
      assert tasks[..i] == tasks;
    }

    /**
     * `run`'s handler, for one delivery of queued job j: without templates the
     * job completes with null and the call resolves with nothing; otherwise
     * the templates are indexed (in the registry too), their step records are
     * written in one batch under `sid = job.data.id`, the series runs, a
     * resolved series completes the job with its result (a rejected one only
     * fails it), and the call resolves with `job.data.id`.
     */
    method Process(j: nat, body: Body) returns (resolved: Option<Value>, settled: Option<Settled>)
      requires Valid() && j < |queue| && queue[j].jobType in handlers
      modifies this`taskCollections, db
      ensures Valid()
      ensures var job := old(queue[j]);
        var tasks := if job.jobType in old(taskCollections) then old(taskCollections[job.jobType]) else [];
        if tasks == [] then
          && resolved.None? && settled.None?
          && db.data == old(db.data)[job.key := Text("null", if job.resultTTL < 0 then None else Some(job.resultTTL as nat))]
          && taskCollections == old(taskCollections)
        else
          var sid := SidText(job.data);
          var written := ApplyAll(old(db.data), RunCmds(sid, tasks));
          var e := Chain(written, sid, Indexed(tasks), 0, Indexed(tasks)[0], false, body, []);
          && resolved == Get(job.data, "id")
          && settled == Some(e.settled)
          && taskCollections == old(taskCollections)[job.jobType := Indexed(tasks)]
          && db.data == (if e.settled.Resolved? then
                           e.data[job.key := Text(OutcomeText(e.settled.value),
                                                  if job.resultTTL < 0 then None else Some(job.resultTTL as nat))]
                         else e.data)
    {
      var job := queue[j];
      assert job in queue;
      var tasks := if job.jobType in taskCollections then taskCollections[job.jobType] else [];
      if tasks == [] {
        CompleteJob(job, Null);
        return None, None;
      }
      var sid := SidText(job.data);
      var indexed, cmds := IndexTemplates(sid, tasks);
      taskCollections := taskCollections[job.jobType := indexed];
      db.Exec(cmds);
      var series := new TaskSeries();
      var r, dispatched, invoked := series.Execute(db, sid, TaskArray(indexed), false, body);
      if r.Resolved? {
        CompleteJob(job, r.value);
      }
      return Get(job.data, "id"), Some(r);
    }

    /** `removeTask`: always throws. */
    method RemoveTask(jobType: Value, taskName: Value) returns (r: Call<()>)
      ensures r == Throws("please implement this for " + ToText(taskName))
    {
      return Throws("please implement this for " + ToText(taskName));
    }

    /** `cloneJob`: always throws. */
    method CloneJob() returns (r: Call<()>)
      ensures r == Throws(NotImplemented)
    {
      return Throws(NotImplemented);
    }

    /** `toJSON`: always throws. */
    method ToJSON() returns (r: Call<()>)
      ensures r == Throws(NotImplemented)
    {
      return Throws(NotImplemented);
    }

    /** `clean`: always throws. */
    method Clean() returns (r: Call<()>)
      ensures r == Throws(NotImplemented)
    {
      return Throws(NotImplemented);
    }
  }
}
