/**
 * What `list_tasks` asks the service and what it makes of the answers.
 *
 * The service accepts at most one of `family`, `serviceName` and
 * `desiredStatus` per call, so each supplied filter is sent in a call of its
 * own, beside the optional `cluster`; the answers are intersected.
 */
module TaskFilters {
  import opened Wrappers
  import opened EcsApi

  /** Python truthiness of an optional string parameter: present and non-empty. */
  predicate Given(p: Option<string>) {
    p.Some? && p.value != ""
  }

  const ClusterKey: string := "cluster"
  const FamilyKey: string := "family"
  const ServiceKey: string := "serviceName"
  const StatusKey: string := "desiredStatus"

  /** The keys of which the service accepts at most one per call. */
  const ExclusiveKeys: set<string> := {FamilyKey, ServiceKey, StatusKey}

  /** One exclusive filter dimension with the value the caller gave. */
  datatype Filter = Family(name: string) | Service(name: string) | Status(name: string)

  function UpperChar(c: char): char {
    if 'a' <= c <= 'z' then (c as int - 32) as char else c
  }

  /** `str.upper` on the ASCII letters. */
  function Upper(s: string): (r: string)
    ensures |r| == |s|
    ensures forall i :: 0 <= i < |s| && 'a' <= s[i] <= 'z' ==> r[i] as int == s[i] as int - 32
    ensures forall i :: 0 <= i < |s| && !('a' <= s[i] <= 'z') ==> r[i] == s[i]
    ensures forall i :: 0 <= i < |r| ==> !('a' <= r[i] <= 'z')
  {
    seq(|s|, i requires 0 <= i < |s| => UpperChar(s[i]))
  }

  function FilterKey(f: Filter): (k: string)
    ensures k in ExclusiveKeys
  {
    match f
    case Family(_) => FamilyKey
    case Service(_) => ServiceKey
    case Status(_) => StatusKey
  }

  /** The value sent for a filter: the status goes upper-cased. */
  function FilterValue(f: Filter): (v: string)
    ensures |v| == |f.name|
    ensures !f.Status? ==> v == f.name
    ensures f.Status? ==> v == Upper(f.name)
    ensures f.Status? ==> forall i :: 0 <= i < |v| ==> !('a' <= v[i] <= 'z')
  {
    match f
    case Family(n) => n
    case Service(n) => n
    case Status(n) => Upper(n)
  }

  /** The arguments every call carries: the cluster, when one is given. */
  function BaseArgs(cluster: Option<string>): (a: Args)
    ensures ClusterKey in a <==> Given(cluster)
    ensures Given(cluster) ==> a[ClusterKey] == Str(cluster.value)
    ensures a.Keys <= {ClusterKey}
  {
    if Given(cluster) then map[ClusterKey := Str(cluster.value)] else map[]
  }

  /** The arguments of the one call made for filter `f`. */
  function QueryFor(cluster: Option<string>, f: Filter): (a: Args)
    ensures FilterKey(f) in a && a[FilterKey(f)] == Str(FilterValue(f))
  {
    BaseArgs(cluster)[FilterKey(f) := Str(FilterValue(f))]
  }

  /**
   * Every list call carries the cluster exactly when one is given, and
   * exactly one exclusive key, the filter's own, with the filter's value.
   */
  lemma QueryShape(cluster: Option<string>, f: Filter)
    ensures var a := QueryFor(cluster, f);
      && (ClusterKey in a <==> Given(cluster))
      && (Given(cluster) ==> a[ClusterKey] == Str(cluster.value))
      && a.Keys * ExclusiveKeys == {FilterKey(f)}
      && a.Keys <= {ClusterKey} + ExclusiveKeys
      && a[FilterKey(f)] == Str(FilterValue(f))
  {
    var a := QueryFor(cluster, f);
    forall k | k in a.Keys * ExclusiveKeys ensures k == FilterKey(f) {
      assert k != ClusterKey;
    }
  }

  /** Removing the filter's key from its call's arguments leaves the cluster alone. */
  lemma RemoveFilterKey(cluster: Option<string>, f: Filter)
    ensures QueryFor(cluster, f) - {FilterKey(f)} == BaseArgs(cluster)
  {
    assert FilterKey(f) != ClusterKey;
  }

  /** The filters supplied, in the order `list_tasks` evaluates them. */
  function Supplied(family: Option<string>, service: Option<string>, status: Option<string>): (fs: seq<Filter>)
    ensures |fs| <= 3
  {
    IfGiven(family, Family(family.GetOr("")))
    + IfGiven(service, Service(service.GetOr("")))
    + IfGiven(status, Status(status.GetOr("")))
  }

  /** `[f]` when the parameter `p` is given, `[]` otherwise. */
  function IfGiven(p: Option<string>, f: Filter): seq<Filter> {
    if Given(p) then [f] else []
  }

  /**
   * A filter is queried exactly when its parameter is given, no dimension is
   * queried twice, and nothing is queried when no filter is given.
   */
  lemma SuppliedShape(family: Option<string>, service: Option<string>, status: Option<string>)
    ensures var fs := Supplied(family, service, status);
      && (fs == [] <==> !Given(family) && !Given(service) && !Given(status))
      && (forall i, j :: 0 <= i < j < |fs| ==> FilterKey(fs[i]) != FilterKey(fs[j]))
      && (Family(family.GetOr("")) in fs <==> Given(family))
      && (Service(service.GetOr("")) in fs <==> Given(service))
      && (Status(status.GetOr("")) in fs <==> Given(status))
      && (forall f :: f in fs ==> f in {Family(family.GetOr("")), Service(service.GetOr("")), Status(status.GetOr(""))})
  {
  }

  /** The calls made for filters `fs`, in order. */
  function ListCalls(cluster: Option<string>, fs: seq<Filter>): seq<Call> {
    seq(|fs|, i requires 0 <= i < |fs| => ListTasksCall(QueryFor(cluster, fs[i])))
  }

  /** One more filter appends its call. */
  lemma ListCallsSnoc(cluster: Option<string>, fs: seq<Filter>, f: Filter)
    ensures ListCalls(cluster, fs + [f]) == ListCalls(cluster, fs) + [ListTasksCall(QueryFor(cluster, f))]
  {
  }

  /** The ARNs one call yields; a `ClientError` yields none. */
  function Answer(listTasks: Lister, args: Args): (r: set<Arn>)
    ensures listTasks(args).None? ==> r == {}
    ensures listTasks(args).Some? ==> forall i :: 0 <= i < |listTasks(args).value| ==> listTasks(args).value[i] in r
  {
    match listTasks(args)
    case None => {}
    case Some(arns) => set a | a in arns
  }

  /** The running set after the filters `fs`: the first seeds it, each later one is intersected in. */
  function Running(listTasks: Lister, cluster: Option<string>, fs: seq<Filter>): (r: set<Arn>)
    requires |fs| > 0
    ensures r <= Answer(listTasks, QueryFor(cluster, fs[0]))
    decreases |fs|
  {
    if |fs| == 1 then Answer(listTasks, QueryFor(cluster, fs[0]))
    else Running(listTasks, cluster, fs[..|fs| - 1]) * Answer(listTasks, QueryFor(cluster, fs[|fs| - 1]))
  }

  /** The ARNs `list_tasks` reports: none when no filter is supplied. */
  function Resolved(listTasks: Lister, cluster: Option<string>,
                    family: Option<string>, service: Option<string>, status: Option<string>): (r: set<Arn>)
    ensures !Given(family) && !Given(service) && !Given(status) ==> r == {}
    ensures Given(family) ==> r <= Answer(listTasks, QueryFor(cluster, Family(family.value)))
    ensures Given(service) ==> r <= Answer(listTasks, QueryFor(cluster, Service(service.value)))
    ensures Given(status) ==> r <= Answer(listTasks, QueryFor(cluster, Status(status.value)))
  {
    var fs := Supplied(family, service, status);
    if fs == [] then {}
    else if Given(service) then
      RunningWithinEach(listTasks, cluster, fs, Service(service.value));
      Running(listTasks, cluster, fs)
    else Running(listTasks, cluster, fs)
  }

  /** Running one more filter intersects its answer into the running set. */
  lemma RunningSnoc(listTasks: Lister, cluster: Option<string>, fs: seq<Filter>, f: Filter)
    requires |fs| > 0
    ensures Running(listTasks, cluster, fs + [f])
         == Running(listTasks, cluster, fs) * Answer(listTasks, QueryFor(cluster, f))
  {
    assert (fs + [f])[..|fs|] == fs;
  }

  /** An ARN survives exactly when every filter's call reported it. */
  lemma {:induction false} RunningMembers(listTasks: Lister, cluster: Option<string>, fs: seq<Filter>, a: Arn)
    requires |fs| > 0
    ensures a in Running(listTasks, cluster, fs)
        <==> forall i :: 0 <= i < |fs| ==> a in Answer(listTasks, QueryFor(cluster, fs[i]))
  {
    if |fs| > 1 {
      var init, last := fs[..|fs| - 1], fs[|fs| - 1];
      RunningMembers(listTasks, cluster, init, a);
      assert a in Running(listTasks, cluster, fs)
         <==> a in Running(listTasks, cluster, init) && a in Answer(listTasks, QueryFor(cluster, last));
      assert forall i :: 0 <= i < |init| ==> init[i] == fs[i];
    }
  }

  /** The running set lies within the answer of each of its filters. */
  lemma RunningWithinEach(listTasks: Lister, cluster: Option<string>, fs: seq<Filter>, f: Filter)
    requires f in fs
    ensures Running(listTasks, cluster, fs) <= Answer(listTasks, QueryFor(cluster, f))
  {
    var i :| 0 <= i < |fs| && fs[i] == f;
    forall a | a in Running(listTasks, cluster, fs)
      ensures a in Answer(listTasks, QueryFor(cluster, f))
    {
      RunningMembers(listTasks, cluster, fs, a);
    }
  }

  /** The result lies within the answer of every supplied filter. */
  lemma ResolvedWithinEach(listTasks: Lister, cluster: Option<string>,
                           family: Option<string>, service: Option<string>, status: Option<string>, f: Filter)
    requires f in Supplied(family, service, status)
    ensures Resolved(listTasks, cluster, family, service, status) <= Answer(listTasks, QueryFor(cluster, f))
  {
    RunningWithinEach(listTasks, cluster, Supplied(family, service, status), f);
  }

  /** An ARN is reported exactly when some filter is supplied and every supplied filter's call reported it. */
  lemma ResolvedMembers(listTasks: Lister, cluster: Option<string>,
                        family: Option<string>, service: Option<string>, status: Option<string>, a: Arn)
    ensures var fs := Supplied(family, service, status);
      a in Resolved(listTasks, cluster, family, service, status)
      <==> fs != [] && forall f :: f in fs ==> a in Answer(listTasks, QueryFor(cluster, f))
  {
    var fs := Supplied(family, service, status);
    if fs != [] {
      RunningMembers(listTasks, cluster, fs, a);
    }
  }

  /** The order in which the filters are evaluated does not matter. */
  lemma RunningOrderIndependent(listTasks: Lister, cluster: Option<string>, fs: seq<Filter>, gs: seq<Filter>)
    requires |fs| > 0 && |gs| > 0
    requires forall f :: f in fs <==> f in gs
    ensures Running(listTasks, cluster, fs) == Running(listTasks, cluster, gs)
  {
    forall a ensures a in Running(listTasks, cluster, fs) <==> a in Running(listTasks, cluster, gs) {
      RunningMembers(listTasks, cluster, fs, a);
      RunningMembers(listTasks, cluster, gs, a);
      if a in Running(listTasks, cluster, fs) {
        forall j | 0 <= j < |gs| ensures a in Answer(listTasks, QueryFor(cluster, gs[j])) {
          assert gs[j] in fs;
        }
      }
      if a in Running(listTasks, cluster, gs) {
        forall j | 0 <= j < |fs| ensures a in Answer(listTasks, QueryFor(cluster, fs[j])) {
          assert fs[j] in gs;
        }
      }
    }
  }

  /** A `ClientError` on any supplied filter's call empties the result. */
  lemma ClientErrorEmpties(listTasks: Lister, cluster: Option<string>,
                           family: Option<string>, service: Option<string>, status: Option<string>, f: Filter)
    requires f in Supplied(family, service, status)
    requires listTasks(QueryFor(cluster, f)).None?
    ensures Resolved(listTasks, cluster, family, service, status) == {}
  {
    ResolvedWithinEach(listTasks, cluster, family, service, status, f);
  }

  /** Family "web" answers t1, t2, t3 and status "running" answers t2, t3, t4: t2 and t3 remain. */
  lemma FamilyAndStatusScenario(listTasks: Lister, cluster: Option<string>)
    requires listTasks(QueryFor(cluster, Family("web"))) == Some(["t1", "t2", "t3"])
    requires listTasks(QueryFor(cluster, Status("running"))) == Some(["t2", "t3", "t4"])
    ensures Resolved(listTasks, cluster, Some("web"), None, Some("running")) == {"t2", "t3"}
  {
    var fs := [Family("web"), Status("running")];
    assert Supplied(Some("web"), None, Some("running")) == fs;
    assert fs[..1] == [Family("web")];
    assert (set a | a in ["t1", "t2", "t3"]) * (set a | a in ["t2", "t3", "t4"]) == {"t2", "t3"};
  }
}
