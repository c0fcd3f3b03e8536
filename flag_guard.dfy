/** The per-channel processing flag of `nekochanbot2.py`
    (`vc_processing_flags`, and `summary_vc_processing_flags` per guild).
    A routine that finds the flag set returns at once; otherwise it sets
    the flag, does its work (possibly across awaits) and clears the flag in
    `finally`. Checking and setting are one step because no await separates
    them. This module follows the flag over an interleaving of such
    routines and shows that at most one routine is ever inside the guarded
    part for a given channel. */
module FlagGuard {

  /** A routine (task) asks to enter, or leaves, the guarded part for `key`. */
  datatype Event = Enter(task: nat, key: int) | Leave(task: nat, key: int)

  /** The flags that are set, and which tasks are inside the guarded part.
      Only `flags` exists in the program; `inside` is bookkeeping. */
  datatype Guard = Guard(flags: set<int>, inside: set<(nat, int)>)

  /** The flags say exactly who is inside, and at most one task per key. */
  ghost predicate Consistent(g: Guard)
  {
    && (forall k :: k in g.flags <==> exists t :: (t, k) in g.inside)
    && (forall t1, t2, k :: (t1, k) in g.inside && (t2, k) in g.inside ==> t1 == t2)
  }

  /** A task only leaves a guarded part it entered. */
  predicate Allowed(g: Guard, e: Event)
  {
    e.Leave? ==> (e.task, e.key) in g.inside
  }

  /** One event: `Enter` is skipped when the flag is already set. */
  function Step(g: Guard, e: Event): (r: Guard)
    ensures e.Enter? && e.key in g.flags ==> r == g
    ensures e.Enter? && e.key !in g.flags ==> (e.task, e.key) in r.inside && e.key in r.flags
    ensures e.Leave? ==> e.key !in r.flags && (e.task, e.key) !in r.inside
  {
    match e
    case Enter(t, k) =>
      if k in g.flags then g else Guard(g.flags + {k}, g.inside + {(t, k)})
    case Leave(t, k) =>
      Guard(g.flags - {k}, g.inside - {(t, k)})
  }

  /** Every event of the interleaving is allowed when it happens. */
  predicate Legal(g: Guard, trace: seq<Event>)
    decreases |trace|
  {
    |trace| == 0 || (Allowed(g, trace[0]) && Legal(Step(g, trace[0]), trace[1..]))
  }

  function Run(g: Guard, trace: seq<Event>): Guard
    decreases |trace|
  {
    if |trace| == 0 then g else Run(Step(g, trace[0]), trace[1..])
  }

  lemma StepConsistent(g: Guard, e: Event)
    requires Consistent(g) && Allowed(g, e)
    ensures Consistent(Step(g, e))
  {
    var r := Step(g, e);
    if e.Leave? {
      forall k ensures k in r.flags <==> exists t :: (t, k) in r.inside {
        if k in r.flags {
          var t :| (t, k) in g.inside;
          assert (t, k) in r.inside;
        }
      }
    } else if e.key !in g.flags {
      forall k ensures k in r.flags <==> exists t :: (t, k) in r.inside {
        if k == e.key {
          assert (e.task, k) in r.inside;
        } else if k in r.flags {
          var t :| (t, k) in g.inside;
          assert (t, k) in r.inside;
        }
      }
    }
  }

  /** At most one routine is inside the guarded part for any channel, at
      every point of any legal interleaving. */
  lemma {:induction false} RunConsistent(g: Guard, trace: seq<Event>)
    requires Consistent(g) && Legal(g, trace)
    ensures Consistent(Run(g, trace))
    decreases |trace|
  {
    if |trace| > 0 {
      StepConsistent(g, trace[0]);
      RunConsistent(Step(g, trace[0]), trace[1..]);
    }
  }

  /** A routine that holds the flag and then calls another guarded routine
      for the same channel gets nothing done by it: the inner routine sees
      the flag and returns. */
  lemma NestedEnterSkipped(g: Guard, holder: nat, other: nat, k: int)
    requires Consistent(g) && (holder, k) in g.inside
    ensures Step(g, Enter(other, k)) == g
  {
  }
}
