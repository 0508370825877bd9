# ECS task facts: task resolution, modelled in Dafny

This project models the task-resolution logic of `EcsTaskManager` in the
Ansible module `ecs_task_facts`, which lists and describes the tasks running
in an Amazon ECS cluster. There are three operations:

- `list_tasks` resolves the filters into a list of task ARNs. The optional
  filters are task family, service and desired status. The ECS `ListTasks`
  API takes at most one of these per call. So the method makes one call per
  filter given, each with the cluster when one is given. It takes a
  `ClientError` as an empty answer and intersects the answers.
- `describe_tasks` takes an explicit comma-separated `task` string or the
  ARNs that `list_tasks` resolves. It makes one `DescribeTasks` call and
  returns the records, normalised, plus `tasks_not_running` when the service
  reports failures.
- `jsonize` turns the datetime fields `createdAt`, `startedAt` and
  `stoppedAt` of a record into strings.

Files:

- `wrappers.dfy`: `Option` and `Result`.
- `ecs_api.dfy`: the request and response shapes, and `EcsClient`, which
  stands for the boto3 client `self.ecs`. The remote `list_tasks` and
  `describe_tasks` are fixed functions of the keyword arguments. A
  `ClientError` is `None`; a describe fault is `Err`. Every call is appended
  to a ghost `log`, so the calls made can be stated.
- `task_filters.dfy`: the arguments of each list call, which filters are
  supplied, and the running intersection (`Running`, `Resolved`). Lemmas cover
  membership, order independence, error absorption and the call shape.
- `task_records.dfy`: `split(",")` with its inverse `Join`, the normalised
  record (`Jsonized`), and the reply built from a describe response (`FactsOf`).
- `ecs_task_facts.dfy`: `EcsTaskManager` with imperative `ListTasks`,
  `DescribeTasks` and `Jsonize`. Each is proved against the functions above.

The model does what the code does, which differs from what one might
expect of such a resolver:

- `list_tasks` makes one call per filter. It does not follow pagination
  tokens.
- When no family, service or status is given, `list_tasks` makes no call
  and returns an empty list. It does not list every task in the cluster.
- The only filter sent with every call is `cluster`. No node or
  "started by" filter exists.
- `describe_tasks` sends every resolved ARN in one call. It does not limit
  the batch size.

## Model

| member | source | states |
|---|---|---|
| `EcsApi.EcsClient.ListTasks` | cloud/amazon/ecs_task_facts.py:179 | the remote list call answers from the fixed oracle for exactly these arguments and is appended to the call log |
| `EcsApi.EcsClient.DescribeTasks` | cloud/amazon/ecs_task_facts.py:226 | the remote describe call answers (or faults) from the fixed oracle and is appended to the call log |
| `TaskFilters.Given` | cloud/amazon/ecs_task_facts.py:172-218 | the guard `x and x is not None` on `cluster`, `family`, `service`, `status` and `task`: the parameter is present and not the empty string |
| `TaskFilters.Upper` | cloud/amazon/ecs_task_facts.py:198 | `status.upper()`: same length, every lower-case ASCII letter raised by 32, every other character kept, no lower-case letter left |
| `TaskFilters.FilterKey` | cloud/amazon/ecs_task_facts.py:177-198 | each filter is sent under one of the three mutually exclusive keys `family`, `serviceName`, `desiredStatus` |
| `TaskFilters.BaseArgs` | cloud/amazon/ecs_task_facts.py:171-173 | the arguments every call starts from hold `cluster` exactly when a non-empty cluster is given, and nothing else |
| `TaskFilters.FilterValue` | cloud/amazon/ecs_task_facts.py:177-198 | family and service are sent as given; the status is sent as `Upper` of it (`status.upper()`), so with the caller's length and no lower-case letter left |
| `TaskFilters.QueryFor` | cloud/amazon/ecs_task_facts.py:177-198 | `fn_args` at the moment of a filter's call holds that filter's key with the value sent |
| `TaskFilters.Supplied` | cloud/amazon/ecs_task_facts.py:176-197 | which of the three `if` blocks run, in family, service, status order: at most three filters |
| `TaskFilters.Answer` | cloud/amazon/ecs_task_facts.py:176-206 | `set(response['taskArns'])` of one call: empty when the call raised `ClientError`, otherwise containing every ARN the response lists |
| `TaskFilters.Running` | cloud/amazon/ecs_task_facts.py:175-206 | the running `tasks` set after some filters' blocks: the first filter seeds it and later ones only narrow it, so it is within the first filter's answer |
| `TaskFilters.Resolved` | cloud/amazon/ecs_task_facts.py:209-212 | the ARNs `list_tasks` returns: none when no filter is given, and within the family's, the service's and the status's answers when each is given |
| `TaskFilters.QueryShape` | cloud/amazon/ecs_task_facts.py:171-207 | every list call carries `cluster` exactly when it is given and exactly one exclusive key, the filter's own, whose value is the filter's value (the status upper-cased) |
| `TaskFilters.RemoveFilterKey` | cloud/amazon/ecs_task_facts.py:183-207 | deleting the filter's key after its call leaves the arguments as they were before it, so keys never leak into the next call |
| `TaskFilters.SuppliedShape` | cloud/amazon/ecs_task_facts.py:176-197 | a filter is queried iff its parameter is present and non-empty; no exclusive key is queried twice; no filter is queried when none is given |
| `TaskFilters.ListCalls` | cloud/amazon/ecs_task_facts.py:176-207 | the remote list calls `list_tasks` makes, in order: one per supplied filter, each with that filter's `fn_args` |
| `TaskFilters.ListCallsSnoc` | cloud/amazon/ecs_task_facts.py:176-207 | one more filter appends exactly its own call to the calls made |
| `TaskFilters.RunningSnoc` | cloud/amazon/ecs_task_facts.py:191-206 | a later filter's answer is intersected into the running set |
| `TaskFilters.RunningMembers` | cloud/amazon/ecs_task_facts.py:175-206 | an ARN is in the running set iff every supplied filter's call reported it |
| `TaskFilters.RunningWithinEach` | cloud/amazon/ecs_task_facts.py:175-206 | the running set lies within the answer of each filter that built it |
| `TaskFilters.ResolvedMembers` | cloud/amazon/ecs_task_facts.py:175-212 | an ARN is returned iff some filter is supplied and every supplied filter's call reported it: the result is the intersection over the supplied filters |
| `TaskFilters.ResolvedWithinEach` | cloud/amazon/ecs_task_facts.py:176-212 | the resolved ARNs are a subset of each supplied filter's answer |
| `TaskFilters.RunningOrderIndependent` | cloud/amazon/ecs_task_facts.py:176-206 | the result does not depend on the order in which the filters are evaluated |
| `TaskFilters.ClientErrorEmpties` | cloud/amazon/ecs_task_facts.py:176-206 | a `ClientError` on any supplied filter's call empties the result, and the error does not escape |
| `TaskFilters.FamilyAndStatusScenario` | cloud/amazon/ecs_task_facts.py:176-212 | family answering t1,t2,t3 and status answering t2,t3,t4 resolve to exactly t2,t3 |
| `TaskRecords.Split` | cloud/amazon/ecs_task_facts.py:219 | `task.split(",")` yields at least one piece and no piece contains a comma |
| `TaskRecords.JoinSplit` | cloud/amazon/ecs_task_facts.py:219 | joining the pieces of the split with `,` gives back the original `task` string |
| `TaskRecords.SplitJoin` | cloud/amazon/ecs_task_facts.py:219 | splitting the join of comma-free ARNs gives back those ARNs |
| `TaskRecords.SplitCommaFree` | cloud/amazon/ecs_task_facts.py:219 | a comma-free prefix of the string ends up in the split's first piece |
| `TaskRecords.Stringify` | cloud/amazon/ecs_task_facts.py:237-241 | `str` of a value that is already a (byte) string returns it unchanged; any other value goes to the opaque rendering |
| `TaskRecords.Jsonized` | cloud/amazon/ecs_task_facts.py:233-242 | normalising keeps the key set, so absent fields stay absent; keys other than the three timestamps are unchanged; the timestamps present become strings; string values are kept |
| `TaskRecords.JsonizedIdempotent` | cloud/amazon/ecs_task_facts.py:233-242 | normalising an already normalised record changes nothing |
| `TaskRecords.NoTasks` | cloud/amazon/ecs_task_facts.py:210 | `dict(tasks = [])`: no records and no `tasks_not_running`, the same reply an empty describe response would give (also returned at line 224) |
| `TaskRecords.FactsOf` | cloud/amazon/ecs_task_facts.py:228-230 | the reply has the response's records in the same order and number, each normalised; `tasks_not_running` is present iff `failures` is present and non-empty, and is then that list |
| `EcsTaskFacts.ToList` | cloud/amazon/ecs_task_facts.py:212 | `list(tasks)` holds exactly the members of the set, each once |
| `EcsTaskFacts.DescribeArgs` | cloud/amazon/ecs_task_facts.py:215-221 | the describe arguments carry `cluster` exactly when given, and `tasks` with the ARN list |
| `EcsTaskFacts.TracksSnoc` | cloud/amazon/ecs_task_facts.py:176-207 | one filter's block (add key, call, absorb error, seed or intersect, delete key) keeps the arguments, the running set and the call log in step |
| `EcsTaskFacts.TracksAll` | cloud/amazon/ecs_task_facts.py:209-212 | after the three blocks the running set is the resolved set; it is unset, and no call was made, exactly when no filter was given |
| `EcsTaskFacts.EcsTaskManager.FilterStep` | cloud/amazon/ecs_task_facts.py:176-207 | one filter's block, when its parameter is given, advances the running set and the log by that filter only |
| `EcsTaskFacts.EcsTaskManager.ListTasks` | cloud/amazon/ecs_task_facts.py:170-212 | returns each resolved ARN once; issues exactly one call per supplied filter, in the order family, service, status; with no filter, it issues no call and returns `[]` |
| `EcsTaskFacts.EcsTaskManager.Jsonize` | cloud/amazon/ecs_task_facts.py:233-242 | the in-place field rewrites produce the normalised record |
| `EcsTaskFacts.EcsTaskManager.RelevantResponse` | cloud/amazon/ecs_task_facts.py:228-230 | mapping `jsonize` over the records and adding the failures builds the reply of `FactsOf` |
| `EcsTaskFacts.EcsTaskManager.Answered` | cloud/amazon/ecs_task_facts.py:226-231 | a describe fault propagates unchanged; a response becomes its reply |
| `EcsTaskFacts.EcsTaskManager.DescribeTasks` | cloud/amazon/ecs_task_facts.py:214-231 | a given `task` overrides the filters: no list call, one describe call with its split; otherwise the list calls, then `{tasks: []}` with no describe call when nothing is resolved, else one describe call with each resolved ARN once; faults propagate |

## Left out

- `EcsTaskManager.__init__`, which does the region lookup, the boto3 connection and the authorisation error. The constructor here just takes a client.
- `main`: parameter parsing, the boto checks, `fail_json`/`exit_json`.
- `ecr_images.py` and `ecr_images_facts.py`: single pass-through calls with no resolution logic. They are not part of this model.
- `str` of a datetime or of any other non-string value is the parameter `render`. What it produces is left open.
- ECS task records are maps from field names to opaque values.
- `TaskFilters.Upper`: ASCII letters only. Python's `str.upper` also maps non-ASCII letters. The status choices (`running`, `pending`, `stopped`) are ASCII.
- `EcsTaskFacts.ToList`: the order of `list(set)` depends on Python's hashing. The model leaves it arbitrary and states only membership and distinctness.
- `EcsTaskFacts.EcsTaskManager.Jsonize`: it returns a new map. The Python code overwrites the response's own dictionaries in place, and that aliasing is not modelled.
- List-call faults other than `ClientError`, and a list response without `taskArns`, would raise in the source. The model's lister can only answer or raise `ClientError`.
- A describe response without a `tasks` key would raise `KeyError` at `response['tasks']` in the source. `DescribeResponse` always has `tasks`, so the model does not capture that error.
- TaskRecords.Stringify: every `Text` value comes back unchanged. Under Python 2, `str` of a `unicode` value is encoded to bytes and raises `UnicodeEncodeError` on non-ASCII text. This does not arise here, because boto3 hands over `createdAt`, `startedAt` and `stoppedAt` as datetimes, and those go to `render`.
- TaskFilters.Answer: its contract states that a `ClientError` gives the empty set and that every ARN the response lists is in the set. That nothing else is in it follows from its definition (a set comprehension over the response) and is not restated in the contract.
