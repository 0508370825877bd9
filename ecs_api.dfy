/**
 * The slice of the ECS service that the task manager talks to: the shapes of
 * the keyword arguments it passes, of the records it gets back, and a client
 * object standing for `self.ecs`.
 *
 * The remote service is an oracle: `listTasks` and `describeTasks` are fixed
 * functions of the request, and every request issued is appended to the ghost
 * `log`, so that properties about "which calls were made" can be stated.
 */
module EcsApi {
  import opened Wrappers

  type Arn = string

  /** A keyword argument value: a string, or a list of strings (`tasks=[...]`). */
  datatype Arg = Str(text: string) | Strs(items: seq<string>)

  /** The `**fn_args` dictionary passed to a client call. */
  type Args = map<string, Arg>

  /** A field value of a task record; `Moment` is a datetime, `Data` anything else. */
  datatype Value = Text(text: string) | Moment(ticks: int) | Data(id: nat)

  /** One task record as returned by `describe_tasks`. */
  type Task = map<string, Value>

  /** One entry of the `failures` list of a `describe_tasks` response. */
  datatype Failure = Failure(arn: Arn, reason: string)

  /** A `describe_tasks` response; `failures` is `None` when the key is absent. */
  datatype DescribeResponse = DescribeResponse(tasks: seq<Task>, failures: Option<seq<Failure>>)

  /** A fault raised by a client call (botocore's `ClientError` and the like). */
  datatype Fault = Fault(code: string)

  /** Remote `list_tasks`: the `taskArns` of the response, or `None` for a `ClientError`. */
  type Lister = Args -> Option<seq<Arn>>

  /** Remote `describe_tasks`: a response, or the fault it raises. */
  type Describer = Args -> Result<DescribeResponse, Fault>

  datatype Call = ListTasksCall(args: Args) | DescribeTasksCall(args: Args)

  class EcsClient {
    const listTasks: Lister
    const describeTasks: Describer
    /** Every call issued so far, oldest first. */
    ghost var log: seq<Call>

    constructor (listTasks: Lister, describeTasks: Describer)
      ensures this.listTasks == listTasks && this.describeTasks == describeTasks
      ensures log == []
    {
      this.listTasks := listTasks;
      this.describeTasks := describeTasks;
      log := [];
    }

    method ListTasks(args: Args) returns (r: Option<seq<Arn>>)
      modifies this
      ensures r == listTasks(args)
      ensures log == old(log) + [ListTasksCall(args)]
    {
      r := listTasks(args);
      log := log + [ListTasksCall(args)];
    }

    method DescribeTasks(args: Args) returns (r: Result<DescribeResponse, Fault>)
      modifies this
      ensures r == describeTasks(args)
      ensures log == old(log) + [DescribeTasksCall(args)]
    {
      r := describeTasks(args);
      log := log + [DescribeTasksCall(args)];
    }
  }
}
