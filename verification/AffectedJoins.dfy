/** Which joins may change their logical state because a task completed. */
module AffectedJoins {
  import opened WorkflowSpec

  /** The search does not look past a join that already has an execution. */
  predicate Stops(s: Spec, existing: set<Name>, n: Name) {
    IsJoin(s, n) && n in existing
  }

  /** Transitions lead along p, and nothing strictly inside p stops the search. */
  ghost predicate OpenPath(s: Spec, existing: set<Name>, p: seq<Name>) {
    |p| >= 2 && forall i :: 0 <= i < |p| - 1 ==> p[i + 1] in Outbound(s, p[i]) && (i > 0 ==> !Stops(s, existing, p[i]))
  }

  ghost predicate OpenTo(s: Spec, existing: set<Name>, t: Name, x: Name) {
    exists p :: OpenPath(s, existing, p) && p[0] == t && p[|p| - 1] == x
  }

  /** The existing joins other than t that an open path from t leads to. */
  ghost function Affected(s: Spec, existing: set<Name>, t: Name): set<Name> {
    set j | j in s.tasks && j != t && Stops(s, existing, j) && OpenTo(s, existing, t, j)
  }

  lemma OpenStep(s: Spec, existing: set<Name>, t: Name, x: Name)
    requires x in Outbound(s, t)
    ensures OpenTo(s, existing, t, x)
  {
    assert OpenPath(s, existing, [t, x]);
  }

  lemma OpenExtend(s: Spec, existing: set<Name>, t: Name, y: Name, x: Name)
    requires OpenTo(s, existing, t, y) && !Stops(s, existing, y) && x in Outbound(s, y)
    ensures OpenTo(s, existing, t, x)
  {
    var p :| OpenPath(s, existing, p) && p[0] == t && p[|p| - 1] == y;
    var q := p + [x];
    forall i | 0 <= i < |q| - 1
      ensures q[i + 1] in Outbound(s, q[i]) && (i > 0 ==> !Stops(s, existing, q[i]))
    {
      assert q[i] == p[i];
      assert i < |p| - 1 ==> q[i + 1] == p[i + 1];
    }
    assert OpenPath(s, existing, q);
  }

  /** A set that contains t and all successors of its members, except past stopping joins, holds every open path. */
  lemma {:induction false} ClosedHoldsPath(s: Spec, existing: set<Name>, t: Name, closed: set<Name>, p: seq<Name>,
                                           i: nat)
    requires t in closed
    requires forall x :: x in closed && (x == t || !Stops(s, existing, x)) ==> Outbound(s, x) <= closed
    requires OpenPath(s, existing, p) && p[0] == t && i < |p|
    ensures p[i] in closed
  {
    if i > 0 {
      ClosedHoldsPath(s, existing, t, closed, p, i - 1);
    }
  }

  function AllNames(s: Spec): set<Name> {
    s.tasks.Keys + set t, n | t in s.tasks && n in Outbound(s, t) :: n
  }

  /** The work-list search terminates on every graph and finds exactly the affected joins. */
  method FindIndirectlyAffected(s: Spec, existing: set<Name>, t: Name) returns (res: set<Name>)
    requires t in s.tasks
    ensures res == Affected(s, existing, t)
  {
    var allJoins := set n | n in s.tasks && IsJoin(s, n);
    var cached := allJoins * existing;
    var visited: set<Name>, name, clauses := {}, t, Outbound(s, t);
    res := {};
    forall x | x in clauses
      ensures OpenTo(s, existing, t, x)
    {
      OpenStep(s, existing, t, x);
    }
    while clauses != {}
      invariant clauses <= AllNames(s) && visited + {name} <= AllNames(s)
      invariant t in visited + {name}
      invariant forall x :: x in clauses ==> OpenTo(s, existing, t, x)
      invariant forall x :: x in visited + {name} && (x == t || !Stops(s, existing, x)) ==>
                              Outbound(s, x) <= visited + {name} + clauses
      invariant forall x :: x in visited + {name} && x != t && Stops(s, existing, x) ==> x in res
      invariant res <= Affected(s, existing, t)
      decreases AllNames(s) - (visited + {name}), clauses
    {
      visited := visited + {name};
      name :| name in clauses;
      clauses := clauses - {name};
      if name in visited {
        assert visited + {name} == visited;
        continue;
      }
      if name !in s.tasks {
        continue;
      }
      if name in allJoins && name in cached {
        res := res + {name};
        continue;
      }
      forall x | x in Outbound(s, name)
        ensures OpenTo(s, existing, t, x)
      {
        OpenExtend(s, existing, t, name, x);
      }
      clauses := clauses + Outbound(s, name);
    }
    forall j | j in Affected(s, existing, t)
      ensures j in res
    {
      var p :| OpenPath(s, existing, p) && p[0] == t && p[|p| - 1] == j;
      ClosedHoldsPath(s, existing, t, visited + {name}, p, |p| - 1);
    }
  }
}
