/** Counting handlers in flight and steps taken. */
module Counting {

  ghost function Chosen<T>(tasks: map<nat, T>, p: T -> bool): set<nat> {
    set t | t in tasks && p(tasks[t])
  }

  ghost function CountTasks<T>(tasks: map<nat, T>, p: T -> bool): nat {
    |Chosen(tasks, p)|
  }

  function Tally<E>(log: seq<E>, p: E -> bool): nat {
    if log == [] then 0 else Tally(log[..|log| - 1], p) + if p(log[|log| - 1]) then 1 else 0
  }

  function One(b: bool): nat {
    if b then 1 else 0
  }

  lemma TallyAppend<E>(log: seq<E>, entry: E, p: E -> bool)
    ensures Tally(log + [entry], p) == Tally(log, p) + One(p(entry))
  {
    assert (log + [entry])[..|log|] == log;
  }

  lemma SizeWithout(s: set<nat>, t: nat)
    ensures |s| == |s - {t}| + One(t in s)
  {
    if t in s {
      assert s == (s - {t}) + {t};
    } else {
      assert s == s - {t};
    }
  }

  lemma ChosenUpdate<T>(tasks: map<nat, T>, t: nat, task: T, p: T -> bool)
    ensures Chosen(tasks[t := task], p) - {t} == Chosen(tasks, p) - {t}
    ensures t in Chosen(tasks[t := task], p) <==> p(task)
  {
    var updated := tasks[t := task];
    forall u: nat | u != t
      ensures u in Chosen(updated, p) <==> u in Chosen(tasks, p)
    {
      assert u in updated <==> u in tasks;
      if u in tasks {
        assert updated[u] == tasks[u];
      }
    }
  }

  /** Replacing or adding one task changes the count by what it and its predecessor contribute. */
  lemma CountUpdate<T>(tasks: map<nat, T>, t: nat, task: T, p: T -> bool)
    ensures CountTasks(tasks[t := task], p) == CountTasks(tasks, p) - One(t in tasks && p(tasks[t])) + One(p(task))
  {
    ChosenUpdate(tasks, t, task, p);
    SizeWithout(Chosen(tasks, p), t);
    SizeWithout(Chosen(tasks[t := task], p), t);
  }

  lemma CountNone<T>(tasks: map<nat, T>, p: T -> bool)
    requires forall t :: t in tasks ==> !p(tasks[t])
    ensures CountTasks(tasks, p) == 0
  {
    assert Chosen(tasks, p) == {};
  }
}
