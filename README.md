# kue-jm saga engine, modelled in Dafny

kue-jm is a small job manager over a kue job queue and Redis.

- **Job manager.** A job type is registered with a list of task templates (`addTasks`).
  - `addJob` validates the job, reserves an outcome key `${type}:${uniqField}:${data[uniqField]}` and queues the job.
  - When the job completes, its result is stored at that key, with or without expiry.
  - `run` handles one job type. For each delivered job it gives template `i` its `idx = i`. It writes one step record `${sid}:${i}` per template in one MULTI batch, with `sid = job.data.id`. It then hands the templates to a task series.
- **Task series.** A task series is a saga over the step records. It delivers step 0 as a step job.
  - When a step completes, the series marks record `idx` complete with its result and reads record `idx+1`.
  - If that record has an `idx`, the series delivers it as the next step, with the result as `preResult`.
  - Otherwise it deletes records `idx..0` and resolves with the result.
  - A step whose body reports an error makes the series collect the templates from that step down to 0 that declare a `rewindPath`: the compensating tasks.
  - A redelivered step whose payload already says `status: 'complete'` with a result is not run again.
- **Step-record codec.** `serialize` turns every object-valued field of a template into JSON text. `deserialize` parses only `param` and `result`.

The model has seven modules:

- `Outcomes`: Option, Result, and how a JavaScript call ends (throws, rejects, resolves).
- `Json`: JavaScript values, `String(v)`, and `JSON.stringify`. It also holds a JSON reader for text without whitespace whose numbers are integers, with the round trip proved.
- `Util` (lib/util.js): `serialize` and `deserialize`, and what survives a trip through the store.
- `KeyValue`: the store as one map from key to entry. An entry is either text with an optional expiry or a hash record. The store is a class with SET, SETEX, DEL, HGETALL and MULTI/EXEC of hash writes.
- `Saga` (lib/taskSeries.js): the class `TaskSeries` with its fields `sid` and `compensateTasks`.
  - The chain of `complete` events becomes a loop over step indices in `Execute`.
  - The loop is specified by the ghost function `Chain`, whose termination measure is the set of step records still ahead in the store.
  - Task bodies are a function parameter from (executable path, param, preResult) to a result, an error, or a throw.
- `Jobs` (lib/jobManager.js): the class `JobManager`, with the type registry, the template registry, the queue as a list of admitted jobs, the registered handlers, and the store.
- `Runs`: a reference run of the templates that never looks at the store (`Forward`), and the proofs that connect it to the chain.
  - Over records that decode to the templates, the chain makes the deliveries of the reference run, settles as it does, and collects the same compensations.
  - Under a fresh series id, and for templates whose `param` and `result` are neither plain strings nor null, a resolved chain visits steps 0..N-1 once each and in order, and leaves the store exactly as it was before `run` wrote the records.

The model follows the code, including these behaviours:
- A step that fails writes nothing to its record; only a completed step is marked, with `status` `complete` and its result.
- A job type without templates completes with `null`, which the completion listener stores as the text `"null"`.
- `run` takes the series id from `job.data.id`, whatever `uniqField` was.
- `addTasks` replaces the list, although its doc comment (lib/jobManager.js:85) says it appends: the concatenation at lib/jobManager.js:101 is overwritten by the next line.
- `addJob` without a task array registers the type, leaves `''` at the outcome key, and rejects.

## Model

| member | source | states |
|---|---|---|
| Util.Serialize | lib/util.js:9-13 | the result has exactly the input's keys; no field of it is an object; every object-valued field becomes its JSON text; every other field is unchanged |
| Util.SerializedObjectsParse | lib/util.js:9-23 | the JSON text written for an object-valued field parses back to that field's value |
| Util.Deserialize | lib/util.js:15-23 | decoding fails exactly when `param` or `result` is present and its text is not JSON text, and otherwise keeps exactly the record's keys |
| Util.DeserializeFields | lib/util.js:15-23 | decoding fails exactly when `param` or `result` is present and is not JSON text; otherwise it keeps every key, leaves every field other than `param`/`result` as its text, and gives `param`/`result` the values their text parses to |
| Util.DeserializeEmpty | lib/util.js:15-23 | an empty record decodes to an empty record, so it has no `idx` |
| Util.ParsedFieldParses | lib/util.js:9-23 | the stored text of any field that is neither a plain string nor null parses back to the field's value |
| Util.ParsedFieldsParse | lib/util.js:9-23 | the stored text of a `param` or `result` that is neither a plain string nor null parses back to the field's value |
| Util.DeserializeSerialize | lib/util.js:9-23 | a record whose `param`/`result` are neither plain strings nor null reads back from the store as `Restored(doc)`: same keys, the same `param` and `result`, every other field as the text the store kept |
| Util.OtherObjectsStayText | lib/util.js:15-21 | an object-valued field other than `param`/`result` is still its JSON text after the round trip |
| Util.StringParamIsParsed | lib/util.js:9-23 | a string-valued `param` is stored raw and read back as JSON text: reading throws when the string is not JSON text, and otherwise `param` comes back as what the string parses to, not as the string |
| Util.NullParsedFieldFails | lib/util.js:15-23 | a null `param` or `result` is written by the store client as the empty string, so reading the record back throws |
| Json.ParseStringify | lib/util.js:9-23 | `JSON.parse(JSON.stringify(v))` is `v` for every value |
| Json.LeadingZeroRefused | lib/util.js:18 | `JSON.parse` throws on a numeral of more than one digit that starts with `0`, with or without a minus sign |
| Json.ToTextIsJsonOfScalar | lib/util.js:15-21 | for null, booleans and integers, the text the store keeps is already their JSON text |
| KeyValue.Apply | lib/taskSeries.js:96-101 | one hash write adds only its own key and changes no other key |
| KeyValue.ApplyAllFrame | lib/taskSeries.js:96-101 | a MULTI batch leaves every key that none of its commands names as it was |
| KeyValue.ApplyAllKeys | lib/taskSeries.js:96-101 | a batch adds exactly the keys its commands name |
| KeyValue.Store.Set | lib/jobManager.js:43 | SET: the key holds the text with no expiry; nothing else changes |
| KeyValue.Store.SetEx | lib/jobManager.js:62 | SETEX: the key holds the text with the given expiry; nothing else changes |
| KeyValue.Store.Del | lib/jobManager.js:71 | DEL: the key is gone; nothing else changes |
| KeyValue.Store.HGetAll | lib/taskSeries.js:144 | a missing key reads as an empty record; the read fails with WRONGTYPE exactly when the key holds text |
| KeyValue.Store.Exec | lib/taskSeries.js:96-101 | the batch's commands are applied in order |
| Saga.StepKeyInjective | lib/taskSeries.js:98-99 | distinct step indices address distinct records |
| Saga.ReadStep | lib/taskSeries.js:141-150 | a missing record `sid:i` reads as an empty task |
| Saga.CompleteFrame | lib/taskSeries.js:96-101 | marking step k complete adds or changes record k only |
| Saga.CompleteRecord | lib/taskSeries.js:96-101 | marking step k complete sets `status` to `complete` and `result` to the text the store client sends for the result (the empty string for null) in record k, keeping its other fields and creating it when missing; a key that holds text refuses both writes and nothing changes |
| Saga.Dispatch | lib/taskSeries.js:29-58 | a payload already complete with a truthy result reports that result without running the body; otherwise the executable is `rewindPath` in rewind mode and `path` otherwise, and when it is not a non-empty string `require` throws and the body does not run; in every other case the body runs with the executable, `param` and `preResult` and its outcome is reported |
| Saga.RewindRange | lib/taskSeries.js:43-45 | every index it yields lies in the range, names an existing template, and that template has a truthy `rewindPath` |
| Saga.CompensationsOfFailure | lib/taskSeries.js:43-45 | the compensations of a failure at step k are the templates k down to 0 with a truthy `rewindPath`, each once, in strictly descending index order |
| Saga.LaterShrinks | lib/taskSeries.js:120-127 | going on to step k+1 leaves strictly fewer step records ahead, so the chain ends |
| Saga.ChainStops | lib/taskSeries.js:110-113 | a body error or throw rejects the chain with its message and writes nothing; only an error adds the compensations |
| Saga.ChainGoesOn | lib/taskSeries.js:94-109 | an equation of `Chain`'s definition, stated for callers: a step that succeeds continues by marking itself complete and reading the next record |
| Saga.ChainSteps | lib/taskSeries.js:94-131 | an equation of `Chain`'s definition, stated for callers: a step that succeeds and then ends, or hands over to step k+1, ends its whole chain the same way, with step k dispatched first |
| Saga.TaskSeries.constructor | lib/taskSeries.js:7-10 | a new series has an empty `sid` and no compensations |
| Saga.TaskSeries.Handle | lib/taskSeries.js:29-58 | the delivery reports what `Dispatch` says; on a body error, exactly the compensations of steps k..0 are appended, and the earlier list stays as a prefix |
| Saga.TaskSeries.Next | lib/taskSeries.js:141-150 | the result is the decoded record of step k+1, or an empty task when it is missing |
| Saga.TaskSeries.DeleteSteps | lib/taskSeries.js:128-129 | the store loses exactly the records k..0 |
| Saga.TaskSeries.Advance | lib/taskSeries.js:94-131 | after a success the store and the outcome are those of `Continue`: step k is marked complete, then either the next payload with `preResult` or the cleanup and the result |
| Saga.TaskSeries.Step | lib/taskSeries.js:85-131 | one turn of the chain ends it as `Chain` says, or hands over to step k+1 with fewer records ahead |
| Saga.TaskSeries.Execute | lib/taskSeries.js:20-63 | it rejects with 'No task to be executed.' for a non-array and resolves `{}` for an empty array, touching nothing; otherwise the settled promise, the store, the compensations and the steps dispatched and run are those of `Chain` from `tasks[0]` |
| Jobs.JobTTL | lib/jobManager.js:37 | the job TTL is the option when it is non-zero, else 300000 |
| Jobs.ResultTTL | lib/jobManager.js:38 | the result TTL is the option when it is non-zero, else 259200 |
| Jobs.Admit | lib/jobManager.js:30-38 | it fails for a missing or non-string type, then for undefined data, then for a falsy `data[uniqField]` (with `uniqField` defaulting to 'id'); it succeeds exactly otherwise, with key `${type}:${uniqField}:${data[uniqField]}` and both TTLs |
| Jobs.OutcomeTextReadsBack | lib/jobManager.js:57-58 | a stored outcome that is not a plain string parses back to the result |
| Jobs.NullOutcomeIsNullText | lib/jobManager.js:160-161 | the null outcome of a job without templates is stored as "null" |
| Jobs.JobManager.constructor | lib/jobManager.js:13-19 | a new manager has no types, templates, queued jobs or handlers |
| Jobs.JobManager.ListTasks | lib/jobManager.js:114-116 | the registered templates of the type, and nothing for an unknown type |
| Jobs.JobManager.AddTasks | lib/jobManager.js:91-106 | it fails for an invalid type, an unregistered type or a non-array list, changing nothing; otherwise the type's list becomes exactly `newTasks` and it returns true |
| Jobs.JobManager.AddJob | lib/jobManager.js:28-82 | it throws on failed checks before touching the store; otherwise it registers the type; for a non-array task list it rejects and leaves '' at the key; when saving fails it deletes the key and rejects; otherwise the key holds the job id and the job is queued |
| Jobs.JobManager.CompleteJob | lib/jobManager.js:54-64 | the outcome text is stored at the key with no expiry for a negative TTL, and expiring after the TTL otherwise |
| Jobs.JobManager.Run | lib/jobManager.js:148-156 | it rejects for an invalid type; otherwise it registers a handler with the concurrency, 0 meaning 1 |
| Jobs.JobManager.IndexTemplates | lib/jobManager.js:164-170 | template i gets `idx = i`, and the batch holds `hmset sid:i serialize(tasks[i])` for each i, in order |
| Jobs.JobManager.Process | lib/jobManager.js:156-185 | with no templates the job completes with null; otherwise the templates are indexed in the registry, their records are written in one batch, the series runs as `Chain` over that store, a resolved series stores its outcome, and the call resolves with `job.data.id` |
| Jobs.JobManager.RemoveTask | lib/jobManager.js:125-127 | always throws, naming the task |
| Jobs.JobManager.CloneJob | lib/jobManager.js:190-192 | always throws |
| Jobs.JobManager.ToJSON | lib/jobManager.js:194-196 | always throws |
| Jobs.JobManager.Clean | lib/jobManager.js:198-200 | always throws |
| Runs.RevivedIsRead | lib/taskSeries.js:141-150 | for a template whose `param` and `result` are neither plain strings nor null (`Template`), the record `run` wrote for it at index i decodes to `Revived(t, i)` |
| Runs.RevivedKeepsFields | lib/taskSeries.js:124 | `Revived(t, i)`, which is the decoded record for templates satisfying `Template` (Runs.RevivedIsRead), has a truthy `idx`, and gives back `param`, `result` and every string field as the template had them |
| Runs.ForwardShape | lib/taskSeries.js:85-131 | a run dispatches consecutive steps from k, once each; it runs the body only for dispatched steps; it resolves only after the last template and then adds no compensation |
| Runs.AllStepsInOrder | lib/taskSeries.js:120-131 | a resolved run dispatched exactly the steps 0..N-1, in order |
| Runs.StopCase | lib/taskSeries.js:110-113 | a failing step ends the chain and the reference run alike, and nothing is written |
| Runs.LastCase | lib/taskSeries.js:128-130 | a successful last step resolves both with its result, and the chain removes the records |
| Runs.ContinueToNext | lib/taskSeries.js:102-127 | when record k+1 read after the completion batch has a truthy `idx`, the chain goes on with it as step k+1, with `preResult` set to the result |
| Runs.ContinueToEnd | lib/taskSeries.js:102-131 | when record k+1 is missing, the chain resolves with the result after deleting records k..0 |
| Runs.ChainNext | lib/taskSeries.js:120-127 | a successful step before the last hands over to the decoded next record with `preResult` set to the result |
| Runs.ChainIsForward | lib/taskSeries.js:85-131 | over records that decode to the templates, the chain settles, compensates, dispatches and runs as the reference run; a resolved chain removes only records 0..N-1; a rejected one deletes nothing |
| Runs.CompleteMarks | lib/taskSeries.js:96-101 | on a store whose step records are hashes, the completion batch marks record k complete with a `result` field, keeps the records hashes, and leaves every other step record as it was |
| Runs.CompletedBeforeFailure | lib/taskSeries.js:94-131 | when a chain from step k rejects, every step from k up to the one that failed is recorded as complete, with a `result` field, and no record before k is touched |
| Runs.WritesStore | lib/jobManager.js:164-171 | writing the records onto a store without them stores each record and changes nothing else |
| Runs.RecordsDecode | lib/jobManager.js:167-169 | every record `run` writes decodes to the indexed template as the reference run sees it |
| Runs.FreshWrites | lib/jobManager.js:164-171 | under a fresh series id the batch stores every record, and removing records 0..N-1 gives back the original store |
| Runs.FreshRunFollows | lib/jobManager.js:164-175 | under a fresh series id the chain over `run`'s records behaves as the reference run; when it resolves it has dispatched 0..N-1 in order, added no compensation, and left the store as before the batch |

## Left out

- The kue queue: job creation, `.ttl`, `.attempts`, `.removeOnComplete`, saving, and retries after a failure. Each step is delivered once, and the body's outcome is a function parameter. The job id and whether saving succeeds are arguments of `AddJob`.
- `watchStuckJobs` (lib/jobManager.js:134-140): it is queue maintenance and changes nothing the model tracks.
- Dynamic `require` of task bodies: a body is a function parameter, and a throw while loading or calling it is its `BodyThrew` outcome. A module id that is missing, not a string, or empty throws before any body runs; the model gives that rejection one fixed message (`BadModuleId`) in place of Node's two TypeError texts.
- Concurrency and Promise timing: `run` resolving before the series ends, the handler's concurrency (recorded only), several series at once, and `this.emit` events.
- `debug` logging and the `_job` handle kept at lib/jobManager.js:52.
- The compensation dispatch at lib/taskSeries.js:46-50. It calls `jm.sortTasks`, which the manager does not define, so in the source a non-empty list throws a TypeError inside the body's callback. The model keeps the list the loop builds and reports the body's error.
- The 'JM instance not setup well.' branch of `addTasks`: the registry always exists, so the branch is unreachable.
- Store failures, lost connections and a failing EXEC. The only store errors modelled are WRONGTYPE on reading and skipped writes to a key that holds text.
- JSON numbers are integers of unbounded size: fractions, exponents and the rounding of large numbers to doubles are not modelled.
- Util.DeserializeFields: the JSON reader refuses three kinds of text that `JSON.parse` accepts: whitespace anywhere in the text (before, between or after tokens, as in `" 5"`), numbers with a fraction or an exponent, and `\u` escapes of UTF-16 surrogate halves. For such a `param` or `result` the model reports a syntax error where the source reads a value. Strings in the model are sequences of Unicode scalar values, so a lone surrogate has no model. An object with a repeated key reads as an object with both members, where `JSON.parse` keeps the last one. Leading zeros and raw control characters in strings are refused, as `JSON.parse` refuses them.
- Jobs.JobManager.Process: templates are values. lib/jobManager.js:168 writes `idx` into the shared template objects, which are also the objects the caller passed to `addTasks`. When the same object appears twice in the list, the source's series reads the last index written into it, while the model gives each position its own index; the caller's copy of the templates is not modelled either.
- Options of unusual types: a non-numeric TTL, or a `uniqField` that is not a string. Options are typed.
- Saga.CompleteRecord: a step result that is an array is written as its `String()` text (the elements joined with commas). The store client instead spreads an array argument into extra HSET arguments. In the source such a result gives record k no joined `result`: the HSET fails, or `result` takes the first element and further fields follow, or, for an empty array, the whole batch aborts and the chain rejects.
- Runs.CompletedBeforeFailure: states that each completed step's record has a `result` field, not which value it holds; a chain end does not keep the results of the steps before the last.
- Saga.TaskSeries.Execute: the index of each later step is one more than the previous one, not the `idx` decoded from its record. The two agree for the records `run` writes (Runs.RevivedIsRead). The first index must be a non-negative integer, which `run` always gives.
- Jobs.JobManager.AddJob: resolves with unit rather than with the manager itself.
- The concrete run of the fixture bodies ('bar', then 'barqux'): those bodies are test fixtures and are not part of this model. That the chain resolves with the last step's result is part of `Forward` and Runs.ChainIsForward.
- The literal text of the `{foo: 'bar'}` example (`'{"foo":"bar"}'`): the model proves that an object-valued field is stored as `JSON.stringify` of the object (Util.Serialize), but does not evaluate that on this literal.
