/**
 * What `describe_tasks` does with its input and with the service's answer:
 * splitting an explicit `task` string into ARNs, turning the datetime fields
 * of each record into strings, and shaping the reply.
 */
module TaskRecords {
  import opened Wrappers
  import opened EcsApi

  const Comma: char := ','

  /** `s.split(",")`: the pieces between commas, empty pieces included. */
  function Split(s: string): (pieces: seq<string>)
    ensures |pieces| >= 1
    ensures forall i :: 0 <= i < |pieces| ==> Comma !in pieces[i]
    decreases |s|
  {
    if s == [] then [[]]
    else
      var rest := Split(s[1..]);
      if s[0] == Comma then [[]] + rest
      else [[s[0]] + rest[0]] + rest[1..]
  }

  /** `",".join(pieces)`. */
  function Join(pieces: seq<string>): string
    requires |pieces| >= 1
    decreases |pieces|
  {
    if |pieces| == 1 then pieces[0] else pieces[0] + [Comma] + Join(pieces[1..])
  }

  /** Joining the pieces of a split gives back the string that was split. */
  lemma {:induction false} JoinSplit(s: string)
    ensures Join(Split(s)) == s
    decreases |s|
  {
    if s != [] {
      var rest := Split(s[1..]);
      JoinSplit(s[1..]);
      if s[0] != Comma {
        var pieces := [[s[0]] + rest[0]] + rest[1..];
        if |rest| > 1 {
          assert pieces[1..] == rest[1..];
          assert Join(rest) == rest[0] + [Comma] + Join(rest[1..]);
        }
      } else {
        assert ([[]] + rest)[1..] == rest;
      }
    }
  }

  /** Splitting the join of comma-free pieces gives back the pieces. */
  lemma {:induction false} SplitJoin(pieces: seq<string>)
    requires |pieces| >= 1
    requires forall i :: 0 <= i < |pieces| ==> Comma !in pieces[i]
    ensures Split(Join(pieces)) == pieces
    decreases |pieces|
  {
    if |pieces| == 1 {
      SplitCommaFree(pieces[0], []);
      assert pieces[0] + [] == pieces[0];
    } else {
      var tail := pieces[1..];
      SplitJoin(tail);
      SplitCommaFree(pieces[0], [Comma] + Join(tail));
      assert Split([Comma] + Join(tail)) == [[]] + tail by {
        assert ([Comma] + Join(tail))[1..] == Join(tail);
      }
      assert Join(pieces) == pieces[0] + ([Comma] + Join(tail));
      assert pieces[0] + [] == pieces[0];
      assert pieces == [pieces[0]] + tail;
    }
  }

  /** A comma-free prefix becomes part of the first piece. */
  lemma {:induction false} SplitCommaFree(p: string, t: string)
    requires Comma !in p
    ensures Split(p + t) == [p + Split(t)[0]] + Split(t)[1..]
    decreases |p|
  {
    if p != [] {
      assert (p + t)[1..] == p[1..] + t;
      SplitCommaFree(p[1..], t);
      assert [p[0]] + (p[1..] + Split(t)[0]) == p + Split(t)[0];
    } else {
      assert p + t == t;
      assert p + Split(t)[0] == Split(t)[0];
      assert Split(t) == [Split(t)[0]] + Split(t)[1..];
    }
  }

  /** The fields of a task record that hold datetimes. */
  const CreatedAt: string := "createdAt"
  const StartedAt: string := "startedAt"
  const StoppedAt: string := "stoppedAt"
  const TimestampFields: set<string> := {CreatedAt, StartedAt, StoppedAt}

  /** Python's `str`: a string stays itself, anything else is rendered by `render`. */
  function Stringify(render: Value -> string, v: Value): (s: string)
    ensures v.Text? ==> s == v.text
  {
    if v.Text? then v.text else render(v)
  }

  /** A record with each datetime field that is present turned into a string. */
  function Jsonized(render: Value -> string, task: Task): (r: Task)
    ensures r.Keys == task.Keys
    ensures forall k :: k in task && k !in TimestampFields ==> r[k] == task[k]
    ensures forall k :: k in task && k in TimestampFields ==> r[k].Text?
    ensures forall k :: k in task && task[k].Text? ==> r[k] == task[k]
  {
    map k | k in task :: if k in TimestampFields then Text(Stringify(render, task[k])) else task[k]
  }

  /** Normalising a normalised record changes nothing. */
  lemma JsonizedIdempotent(render: Value -> string, task: Task)
    ensures Jsonized(render, Jsonized(render, task)) == Jsonized(render, task)
  {
  }

  /** The reply of `describe_tasks`: the records, and the failures when there are any. */
  datatype Facts = Facts(tasks: seq<Task>, tasksNotRunning: Option<seq<Failure>>)

  /** The reply built from one `describe_tasks` response. */
  function FactsOf(render: Value -> string, response: DescribeResponse): (facts: Facts)
    ensures |facts.tasks| == |response.tasks|
    ensures forall i :: 0 <= i < |response.tasks| ==> facts.tasks[i] == Jsonized(render, response.tasks[i])
    ensures facts.tasksNotRunning.Some?
        <==> response.failures.Some? && |response.failures.value| > 0
    ensures facts.tasksNotRunning.Some? ==> facts.tasksNotRunning == response.failures
  {
    Facts(seq(|response.tasks|, i requires 0 <= i < |response.tasks| => Jsonized(render, response.tasks[i])),
          if response.failures.Some? && |response.failures.value| > 0 then response.failures else None)
  }

  /** The reply when there is nothing to describe: what an empty describe response would give. */
  function NoTasks(): (f: Facts)
    ensures |f.tasks| == 0 && f.tasksNotRunning.None?
    ensures forall render: Value -> string :: f == FactsOf(render, DescribeResponse([], None))
    ensures forall render: Value -> string :: f == FactsOf(render, DescribeResponse([], Some([])))
  {
    Facts([], None)
  }
}
