/** The release gate's question: can this job start only after that one?  Job
    graphs come from a workflow file, so they may loop and name jobs that are
    not there. */
module ReleaseGate {

  /** A job's `needs` as YAML decodes it; a list entry is rendered as text. */
  datatype Needs =
    | One(name: string)
    | Many(names: seq<string>)
    | Other

  type Jobs = map<string, Needs>

  function NamesOf(needs: Needs): seq<string> {
    match needs
    case One(name) => [name]
    case Many(names) => names
    case Other => []
  }

  /** What a job needs directly; an undeclared job needs nothing. */
  function Direct(jobs: Jobs, job: string): seq<string> {
    if job in jobs then NamesOf(jobs[job]) else []
  }

  /** needs: the list is copied entry by entry. */
  method NeedsOf(needs: Needs) returns (names: seq<string>)
    ensures names == NamesOf(needs)
  {
    match needs
    case One(name) =>
      names := [name];
    case Many(all) =>
      names := [];
      for i := 0 to |all|
        invariant names == all[..i]
      {
        names := names + [all[i]];
      }
    case Other =>
      names := [];
  }

  /** A chain of direct needs with at least one link. */
  ghost predicate IsPath(jobs: Jobs, path: seq<string>, from: string, to: string) {
    && |path| >= 2 && path[0] == from && path[|path| - 1] == to
    && forall i :: 0 <= i < |path| - 1 ==> path[i + 1] in Direct(jobs, path[i])
  }

  ghost predicate RunsAfter(jobs: Jobs, job: string, earlier: string) {
    exists path :: IsPath(jobs, path, job, earlier)
  }

  /** Every name some job needs. */
  ghost function Named(jobs: Jobs): set<string> {
    set job, name | job in jobs && name in NamesOf(jobs[job]) :: name
  }

  lemma DirectIsPath(jobs: Jobs, job: string, next: string)
    requires next in Direct(jobs, job)
    ensures RunsAfter(jobs, job, next)
  {
    assert IsPath(jobs, [job, next], job, next);
  }

  lemma PathExtends(jobs: Jobs, job: string, mid: string, next: string)
    requires RunsAfter(jobs, job, mid) && next in Direct(jobs, mid)
    ensures RunsAfter(jobs, job, next)
  {
    var path :| IsPath(jobs, path, job, mid);
    assert IsPath(jobs, path + [next], job, next);
  }

  /** A set that holds what the job needs and is closed under needing holds
      everything the job runs after. */
  lemma {:induction false} ClosedHoldsPaths(
      jobs: Jobs, closed: set<string>, path: seq<string>, from: string, to: string)
    requires IsPath(jobs, path, from, to)
    requires forall next :: next in Direct(jobs, from) ==> next in closed
    requires forall name, next :: name in closed && next in Direct(jobs, name) ==> next in closed
    ensures to in closed
    decreases |path|
  {
    assert path[0 + 1] in Direct(jobs, path[0]);
    if |path| == 2 {
    } else {
      var rest := path[1..];
      forall i | 0 <= i < |rest| - 1 ensures rest[i + 1] in Direct(jobs, rest[i]) {
        assert path[(i + 1) + 1] in Direct(jobs, path[i + 1]);
      }
      ClosedHoldsPaths(jobs, closed, rest, path[1], to);
    }
  }

  lemma ClosedHoldsAll(jobs: Jobs, closed: set<string>, from: string, to: string)
    requires forall next :: next in Direct(jobs, from) ==> next in closed
    requires forall name, next :: name in closed && next in Direct(jobs, name) ==> next in closed
    ensures RunsAfter(jobs, from, to) ==> to in closed
  {
    if RunsAfter(jobs, from, to) {
      var path :| IsPath(jobs, path, from, to);
      ClosedHoldsPaths(jobs, closed, path, from, to);
    }
  }

  /** The search so far: it only ever met names the job runs after, and what
      those need is either met or waiting. */
  ghost predicate OnCourse(jobs: Jobs, job: string, seen: set<string>, queue: seq<string>) {
    && seen <= Named(jobs)
    && (forall name :: name in queue ==> name in Named(jobs) && RunsAfter(jobs, job, name))
    && (forall name :: name in seen ==> RunsAfter(jobs, job, name))
    && (forall next :: next in Direct(jobs, job) ==> next in seen || next in queue)
    && (forall name, next :: name in seen && next in Direct(jobs, name) ==> next in seen || next in queue)
  }

  lemma StartsOnCourse(jobs: Jobs, job: string)
    ensures OnCourse(jobs, job, {}, Direct(jobs, job))
  {
    forall name | name in Direct(jobs, job) ensures RunsAfter(jobs, job, name) {
      DirectIsPath(jobs, job, name);
    }
  }

  /** Taking the first name off the queue and, unless met before, adding what it
      needs. */
  lemma StaysOnCourse(jobs: Jobs, job: string, seen: set<string>, queue: seq<string>)
    requires |queue| > 0 && OnCourse(jobs, job, seen, queue)
    ensures queue[0] in Named(jobs) && RunsAfter(jobs, job, queue[0])
    ensures queue[0] in seen ==> OnCourse(jobs, job, seen, queue[1..])
    ensures OnCourse(jobs, job, seen + {queue[0]}, queue[1..] + Direct(jobs, queue[0]))
  {
    hide RunsAfter;
    var next, rest := queue[0], queue[1..];
    assert queue == [next] + rest;
    forall name | name in Direct(jobs, next) ensures name in Named(jobs) && RunsAfter(jobs, job, name) {
      PathExtends(jobs, job, next, name);
    }
  }

  /** runsAfter: a worklist search.  Each turn either meets a name for the first
      time or shortens the queue, so it ends on any graph. */
  method RunsAfterSearch(jobs: Jobs, job: string, earlier: string) returns (found: bool)
    ensures found <==> RunsAfter(jobs, job, earlier)
  {
    hide RunsAfter;
    var seen: set<string> := {};
    var queue: seq<string> := [];
    if job in jobs {
      queue := NeedsOf(jobs[job]);
    }
    StartsOnCourse(jobs, job);
    while |queue| > 0
      invariant OnCourse(jobs, job, seen, queue) && earlier !in seen
      decreases Named(jobs) - seen, |queue|
    {
      hide OnCourse;
      var next := queue[0];
      StaysOnCourse(jobs, job, seen, queue);
      queue := queue[1..];
      if next == earlier {
        return true;
      }
      if next !in seen {
        seen := seen + {next};
        var more: seq<string> := [];
        if next in jobs {
          more := NeedsOf(jobs[next]);
        }
        queue := queue + more;
      }
    }
    ClosedHoldsAll(jobs, seen, job, earlier);
    found := false;
  }

  lemma FirstLink(jobs: Jobs, job: string, later: string)
    ensures RunsAfter(jobs, job, later) <==>
            exists next :: next in Direct(jobs, job) && (later == next || RunsAfter(jobs, next, later))
  {
    if RunsAfter(jobs, job, later) {
      var path :| IsPath(jobs, path, job, later);
      var next, rest := path[1], path[1..];
      assert path[0 + 1] in Direct(jobs, path[0]);
      if |path| > 2 {
        forall i | 0 <= i < |rest| - 1 ensures rest[i + 1] in Direct(jobs, rest[i]) {
          assert path[(i + 1) + 1] in Direct(jobs, path[i + 1]);
        }
        assert IsPath(jobs, rest, next, later);
      }
    }
    if next :| next in Direct(jobs, job) && (later == next || RunsAfter(jobs, next, later)) {
      DirectIsPath(jobs, job, next);
      if later != next {
        RunsAfterIsTransitive(jobs, job, next, later);
      }
    }
  }

  /** What the workflow's own text says: a job that needs one name runs after that
      and all it runs after, one that needs a list runs after each name of it, and
      any other after nothing. */
  lemma NeedsDecide(jobs: Jobs, job: string, later: string)
    ensures job in jobs && jobs[job].One? ==>
              (RunsAfter(jobs, job, later) <==>
                 later == jobs[job].name || RunsAfter(jobs, jobs[job].name, later))
    ensures job in jobs && jobs[job].Many? ==>
              (RunsAfter(jobs, job, later) <==>
                 exists i :: 0 <= i < |jobs[job].names| &&
                             (later == jobs[job].names[i] || RunsAfter(jobs, jobs[job].names[i], later)))
    ensures (job in jobs ==> jobs[job].Other?) ==> !RunsAfter(jobs, job, later)
  {
    FirstLink(jobs, job, later);
    hide RunsAfter;
    if job in jobs {
      forall next ensures next in Direct(jobs, job) <==> Names(jobs[job], next) {
      }
    }
    hide Direct;
    if job in jobs && jobs[job].One? {
      assert Names(jobs[job], jobs[job].name);
    } else if job in jobs && jobs[job].Many? {
      var names := jobs[job].names;
      forall i | 0 <= i < |names| && (later == names[i] || RunsAfter(jobs, names[i], later))
        ensures RunsAfter(jobs, job, later)
      {
        assert Names(jobs[job], names[i]);
      }
    }
  }

  predicate Names(needs: Needs, name: string) {
    match needs
    case One(one) => name == one
    case Many(names) => exists i :: 0 <= i < |names| && names[i] == name
    case Other => false
  }

  /** What the gate rests on: needing is transitive, so a chain of jobs that
      each wait for the next orders its ends. */
  lemma RunsAfterIsTransitive(jobs: Jobs, a: string, b: string, c: string)
    requires RunsAfter(jobs, a, b) && RunsAfter(jobs, b, c)
    ensures RunsAfter(jobs, a, c)
  {
    var first :| IsPath(jobs, first, a, b);
    var second :| IsPath(jobs, second, b, c);
    var path := first + second[1..];
    forall i | 0 <= i < |path| - 1 ensures path[i + 1] in Direct(jobs, path[i]) {
      if i < |first| - 1 {
        assert path[i] == first[i] && path[i + 1] == first[i + 1];
      } else {
        var k := i - (|first| - 1);
        assert path[i] == second[k] && path[i + 1] == second[k + 1];
      }
    }
    assert IsPath(jobs, path, a, c);
  }
}
