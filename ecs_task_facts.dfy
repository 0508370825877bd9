/**
 * `EcsTaskManager`: lists the ARNs of the tasks matching a cluster and some
 * filters, or describes tasks, through the ECS client it holds.
 */
module EcsTaskFacts {
  import opened Wrappers
  import opened EcsApi
  import opened TaskFilters
  import opened TaskRecords

  predicate Distinct<T(==)>(s: seq<T>) {
    forall i, j :: 0 <= i < j < |s| ==> s[i] != s[j]
  }

  /** `list(s)`: every member of `s` once, in an order the model leaves open. */
  method ToList<T(==)>(s: set<T>) returns (r: seq<T>)
    ensures forall x :: x in r <==> x in s
    ensures |r| == |s|
    ensures Distinct(r)
  {
    r := [];
    var rest := s;
    while rest != {}
      invariant rest <= s
      invariant forall x :: x in r <==> x in s && x !in rest
      invariant |r| + |rest| == |s|
      invariant Distinct(r)
      decreases |rest|
    {
      var x :| x in rest;
      r := r + [x];
      rest := rest - {x};
    }
  }

  const TasksKey: string := "tasks"

  /** The arguments of the `describe_tasks` call: the cluster when given, and the ARNs. */
  function DescribeArgs(cluster: Option<string>, arns: seq<Arn>): (a: Args)
    ensures ClusterKey in a <==> Given(cluster)
    ensures Given(cluster) ==> a[ClusterKey] == Str(cluster.value)
    ensures TasksKey in a && a[TasksKey] == Strs(arns)
    ensures a.Keys <= {ClusterKey, TasksKey}
  {
    BaseArgs(cluster)[TasksKey := Strs(arns)]
  }

  /**
   * The state of `ListTasks` after the filters `done`: the arguments hold
   * only the cluster again, the running set is that of `done` (none before
   * the first filter), and `log` is `before` and one call per filter.
   */
  ghost predicate Tracks(listTasks: Lister, cluster: Option<string>, fnArgs: Args, running: Option<set<Arn>>,
                         before: seq<Call>, done: seq<Filter>, log: seq<Call>)
  {
    && fnArgs == BaseArgs(cluster)
    && (running.None? <==> done == [])
    && (running.Some? ==> running.value == Running(listTasks, cluster, done))
    && log == before + ListCalls(cluster, done)
  }

  /** One more filter's call and answer keep `Tracks`. */
  lemma TracksSnoc(listTasks: Lister, cluster: Option<string>, running: Option<set<Arn>>,
                   before: seq<Call>, done: seq<Filter>, f: Filter, log: seq<Call>)
    requires Tracks(listTasks, cluster, BaseArgs(cluster), running, before, done, log)
    ensures var answer := Answer(listTasks, QueryFor(cluster, f));
      Tracks(listTasks, cluster, QueryFor(cluster, f) - {FilterKey(f)},
             Some(if running.None? then answer else running.value * answer),
             before, done + [f], log + [ListTasksCall(QueryFor(cluster, f))])
  {
    RemoveFilterKey(cluster, f);
    ListCallsSnoc(cluster, done, f);
    if running.None? {
      assert done + [f] == [f];
    } else {
      RunningSnoc(listTasks, cluster, done, f);
    }
  }

  /** After every filter's block, the running set is the resolved one and every call is logged. */
  lemma TracksAll(listTasks: Lister, cluster: Option<string>, fnArgs: Args, running: Option<set<Arn>>,
                  before: seq<Call>, family: Option<string>, service: Option<string>, status: Option<string>,
                  log: seq<Call>)
    requires Tracks(listTasks, cluster, fnArgs, running, before, Supplied(family, service, status), log)
    ensures log == before + ListCalls(cluster, Supplied(family, service, status))
    ensures running.None? ==> Resolved(listTasks, cluster, family, service, status) == {}
    ensures running.None? <==> !Given(family) && !Given(service) && !Given(status)
    ensures running.None? ==> log == before
    ensures running.Some? ==> running.value == Resolved(listTasks, cluster, family, service, status)
  {
    if running.None? {
      assert before + [] == before;
    }
  }

  class EcsTaskManager {
    /** The ECS client (`self.ecs`). */
    const ecs: EcsClient
    /** Python's `str` on a non-string field value, such as a datetime. */
    const render: Value -> string

    constructor (ecs: EcsClient, render: Value -> string)
      ensures this.ecs == ecs && this.render == render
    {
      this.ecs := ecs;
      this.render := render;
    }

    /**
     * The ARNs of the tasks in `cluster` that match every filter given; one
     * remote call per filter given, none when no filter is given.
     */
    method ListTasks(cluster: Option<string>, family: Option<string>,
                     service: Option<string>, status: Option<string>) returns (tasks: seq<Arn>)
      modifies ecs
      ensures forall a :: a in tasks <==> a in Resolved(ecs.listTasks, cluster, family, service, status)
      ensures Distinct(tasks)
      ensures ecs.log == old(ecs.log) + ListCalls(cluster, Supplied(family, service, status))
      ensures !Given(family) && !Given(service) && !Given(status) ==> tasks == [] && ecs.log == old(ecs.log)
    {
      var fnArgs: Args := map[];
      if Given(cluster) {
        fnArgs := fnArgs[ClusterKey := Str(cluster.value)];
      }
      var running: Option<set<Arn>> := None;
      assert Tracks(ecs.listTasks, cluster, fnArgs, running, old(ecs.log), [], ecs.log);
      fnArgs, running := FilterStep(cluster, fnArgs, running, old(ecs.log), [], family, Family(family.GetOr("")));
      ghost var done := IfGiven(family, Family(family.GetOr("")));
      assert [] + done == done;
      fnArgs, running := FilterStep(cluster, fnArgs, running, old(ecs.log), done, service, Service(service.GetOr("")));
      done := done + IfGiven(service, Service(service.GetOr("")));
      fnArgs, running := FilterStep(cluster, fnArgs, running, old(ecs.log), done, status, Status(status.GetOr("")));
      done := done + IfGiven(status, Status(status.GetOr("")));
      assert done == Supplied(family, service, status);
      TracksAll(ecs.listTasks, cluster, fnArgs, running, old(ecs.log), family, service, status, ecs.log);

      if running.None? {
        tasks := [];
      } else {
        tasks := ToList(running.value);
      }
    }

    /**
     * One filter's block of `ListTasks`, run when its parameter `p` is given:
     * add the filter's key to the arguments, call the service, take a
     * `ClientError` as no ARNs, seed or narrow the running set, and remove
     * the key again.
     */
    method FilterStep(cluster: Option<string>, fnArgs: Args, running: Option<set<Arn>>,
                      ghost before: seq<Call>, ghost done: seq<Filter>, p: Option<string>, f: Filter)
      returns (fnArgs': Args, running': Option<set<Arn>>)
      requires Tracks(ecs.listTasks, cluster, fnArgs, running, before, done, ecs.log)
      modifies ecs
      ensures Tracks(ecs.listTasks, cluster, fnArgs', running', before, done + IfGiven(p, f), ecs.log)
    {
      fnArgs', running' := fnArgs, running;
      if Given(p) {
        fnArgs' := fnArgs'[FilterKey(f) := Str(FilterValue(f))];
        var response := ecs.ListTasks(fnArgs');
        var answer := set a | a in response.GetOr([]);
        if running'.None? {
          running' := Some(answer);
        } else {
          running' := Some(running'.value * answer);
        }
        fnArgs' := fnArgs' - {FilterKey(f)};
        TracksSnoc(ecs.listTasks, cluster, running, before, done, f, old(ecs.log));
      } else {
        assert done + [] == done;
      }
    }

    /** `jsonize`: the record with its datetime fields, those present, made strings. */
    method Jsonize(task: Task) returns (r: Task)
      ensures r == Jsonized(render, task)
    {
      r := task;
      if CreatedAt in r {
        r := r[CreatedAt := Text(Stringify(render, r[CreatedAt]))];
      }
      if StartedAt in r {
        r := r[StartedAt := Text(Stringify(render, r[StartedAt]))];
      }
      if StoppedAt in r {
        r := r[StoppedAt := Text(Stringify(render, r[StoppedAt]))];
      }
    }

    /**
     * Describes the tasks named in `task` (comma-separated), or else those
     * `ListTasks` finds; a fault of the describe call is passed on.
     */
    method DescribeTasks(cluster: Option<string>, task: Option<string>, family: Option<string>,
                         service: Option<string>, status: Option<string>) returns (r: Result<Facts, Fault>)
      modifies ecs
      ensures Given(task) ==>
        var args := DescribeArgs(cluster, Split(task.value));
        && ecs.log == old(ecs.log) + [DescribeTasksCall(args)]
        && r == Answered(ecs.describeTasks(args))
      ensures !Given(task) ==>
        var listed := old(ecs.log) + ListCalls(cluster, Supplied(family, service, status));
        var resolved := Resolved(ecs.listTasks, cluster, family, service, status);
        && (resolved == {} ==> ecs.log == listed && r == Ok(NoTasks()))
        && (resolved != {} ==>
              exists arns :: Requested(arns, resolved)
                && ecs.log == listed + [DescribeTasksCall(DescribeArgs(cluster, arns))]
                && r == Answered(ecs.describeTasks(DescribeArgs(cluster, arns))))
    {
      var fnArgs: Args := map[];
      if Given(cluster) {
        fnArgs := fnArgs[ClusterKey := Str(cluster.value)];
      }
      var arns: seq<Arn>;
      if Given(task) {
        arns := Split(task.value);
      } else {
        arns := ListTasks(cluster, family, service, status);
      }
      fnArgs := fnArgs[TasksKey := Strs(arns)];
      assert fnArgs == DescribeArgs(cluster, arns);

      if |arns| < 1 {
        assert !Given(task);
        assert Resolved(ecs.listTasks, cluster, family, service, status) == {};
        return Ok(NoTasks());
      }

      assert Given(task) ==> ecs.log == old(ecs.log);
      assert !Given(task) ==> Requested(arns, Resolved(ecs.listTasks, cluster, family, service, status));
      assert !Given(task) ==> arns[0] in Resolved(ecs.listTasks, cluster, family, service, status);
      var response := ecs.DescribeTasks(fnArgs);
      if response.Err? {
        return Err(response.error);
      }
      var facts := RelevantResponse(response.value);
      r := Ok(facts);
    }

    /** The reply to one response: each record normalised, failures only when there are any. */
    method RelevantResponse(response: DescribeResponse) returns (facts: Facts)
      ensures facts == FactsOf(render, response)
    {
      var records: seq<Task> := [];
      for i := 0 to |response.tasks|
        invariant |records| == i
        invariant forall k :: 0 <= k < i ==> records[k] == Jsonized(render, response.tasks[k])
      {
        var record := Jsonize(response.tasks[i]);
        records := records + [record];
      }
      facts := Facts(records, None);
      if response.failures.Some? && |response.failures.value| > 0 {
        facts := facts.(tasksNotRunning := response.failures);
      }
    }

    /** The reply to a `describe_tasks` response, or the fault it raised. */
    function Answered(response: Result<DescribeResponse, Fault>): (r: Result<Facts, Fault>)
      ensures response.Err? <==> r.Err?
      ensures response.Err? ==> r.error == response.error
      ensures response.Ok? ==> r.value == FactsOf(render, response.value)
    {
      match response
      case Err(e) => Err(e)
      case Ok(d) => Ok(FactsOf(render, d))
    }
  }

  /** `arns` lists each member of `resolved` once. */
  predicate Requested(arns: seq<Arn>, resolved: set<Arn>) {
    && Distinct(arns)
    && (forall a :: a in arns ==> a in resolved)
    && (forall a :: a in resolved ==> a in arns)
  }
}
