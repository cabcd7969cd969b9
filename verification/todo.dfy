/**
 The to-do list hook (hooks/useTodo.ts): a list of tasks and the text of
 the input box. `addTask` appends the input as a new task unless it is
 blank; `removeTask` drops every task carrying a given id. The id of a
 new task is the clock reading `Date.now()`, which the model takes as a
 parameter.
 */
module Todo {

  datatype Task = Task(id: int, text: string)

  datatype TodoState = TodoState(tasks: seq<Task>, taskInput: string)

  /**
   The characters `String.prototype.trim` strips: the ECMAScript
   WhiteSpace and LineTerminator code points.
   */
  predicate IsJsSpace(c: char) {
    || c == '\t' || c == '\n' || c == '\U{000B}' || c == '\U{000C}' || c == '\r'
    || c == ' ' || c == '\U{00A0}' || c == '\U{1680}'
    || ('\U{2000}' <= c <= '\U{200A}')
    || c == '\U{2028}' || c == '\U{2029}' || c == '\U{202F}' || c == '\U{205F}'
    || c == '\U{3000}' || c == '\U{FEFF}'
  }

  predicate AllSpace(s: string) {
    forall i :: 0 <= i < |s| ==> IsJsSpace(s[i])
  }

  /** `s` with its leading white space removed. */
  function TrimStart(s: string): (r: string) {
    if s != [] && IsJsSpace(s[0]) then TrimStart(s[1..]) else s
  }

  /** `s` with its trailing white space removed. */
  function TrimEnd(s: string): (r: string) {
    if s != [] && IsJsSpace(s[|s| - 1]) then TrimEnd(s[..|s| - 1]) else s
  }

  /** `String.prototype.trim`. */
  function Trim(s: string): (r: string) {
    TrimEnd(TrimStart(s))
  }

  /** `!taskInput.trim()`: the trimmed input is the (falsy) empty string. */
  predicate IsBlank(s: string) {
    Trim(s) == []
  }

  /**
   `TrimStart` drops a prefix made only of white space and stops at the
   first other character.
   */
  lemma {:induction false} TrimStartDropsSpace(s: string)
    ensures var r := TrimStart(s);
            && |r| <= |s| && r == s[|s| - |r|..]
            && (r == [] || !IsJsSpace(r[0]))
            && forall i :: 0 <= i < |s| - |r| ==> IsJsSpace(s[i])
  {
    if s != [] && IsJsSpace(s[0]) {
      TrimStartDropsSpace(s[1..]);
      var r := TrimStart(s[1..]);
      assert forall i :: 1 <= i < |s| - |r| ==> s[i] == s[1..][i - 1];
    }
  }

  /**
   `TrimEnd` drops a suffix made only of white space and stops at the
   last other character.
   */
  lemma {:induction false} TrimEndDropsSpace(s: string)
    ensures var r := TrimEnd(s);
            && |r| <= |s| && r == s[..|r|]
            && (r == [] || !IsJsSpace(r[|r| - 1]))
            && forall i :: |r| <= i < |s| ==> IsJsSpace(s[i])
  {
    if s != [] && IsJsSpace(s[|s| - 1]) {
      TrimEndDropsSpace(s[..|s| - 1]);
      var r := TrimEnd(s[..|s| - 1]);
      assert forall i :: |r| <= i < |s| - 1 ==> s[i] == s[..|s| - 1][i];
    }
  }

  /** The input is blank exactly when every character of it is white space. */
  lemma BlankIffAllSpace(s: string)
    ensures IsBlank(s) <==> AllSpace(s)
  {
    var a := TrimStart(s);
    TrimStartDropsSpace(s);
    if AllSpace(s) {
      assert a == [];
    } else {
      var i :| 0 <= i < |s| && !IsJsSpace(s[i]);
      var j := i - (|s| - |a|);
      assert 0 <= j < |a| && !IsJsSpace(a[j]) by {
        assert a[j] == s[i];
      }
      TrimEndDropsSpace(a);
    }
  }

  /** The setter the hook hands to the input box. */
  function SetTaskInput(s: TodoState, text: string): (r: TodoState)
    ensures r.tasks == s.tasks && r.taskInput == text
  {
    s.(taskInput := text)
  }

  /**
   `addTask` at clock reading `now`: a blank input changes nothing;
   otherwise exactly one task, holding the untrimmed input and the id
   `now`, is appended after the existing tasks and the input is cleared.
   */
  function AddTask(s: TodoState, now: int): (r: TodoState)
    ensures AllSpace(s.taskInput) ==> r == s
    ensures !AllSpace(s.taskInput) ==>
              && |r.tasks| == |s.tasks| + 1
              && r.tasks[..|s.tasks|] == s.tasks
              && r.tasks[|s.tasks|] == Task(now, s.taskInput)
              && r.taskInput == []
  {
    BlankIffAllSpace(s.taskInput);
    if IsBlank(s.taskInput) then s
    else TodoState(s.tasks + [Task(now, s.taskInput)], "")
  }

  /** How many tasks carry id `id`. */
  function CountId(tasks: seq<Task>, id: int): (n: nat)
    ensures n <= |tasks|
  {
    if tasks == [] then 0
    else (if tasks[0].id == id then 1 else 0) + CountId(tasks[1..], id)
  }

  /** `a` can be obtained from `b` by deleting elements, keeping the order of the rest. */
  ghost predicate IsSubsequence(a: seq<Task>, b: seq<Task>)
    decreases |b|
  {
    a == [] || (b != [] && ((a[0] == b[0] && IsSubsequence(a[1..], b[1..])) || IsSubsequence(a, b[1..])))
  }

  /**
   `removeTask(id)`, i.e. `tasks.filter(task => task.id !== id)`: no task
   with that id survives, and the list shrinks by exactly the number of
   tasks that carry it. Which tasks survive, how often and in what order
   is stated by the lemmas after it.
   */
  function RemoveTask(tasks: seq<Task>, id: int): (r: seq<Task>)
    ensures forall i :: 0 <= i < |r| ==> r[i].id != id
    ensures |r| == |tasks| - CountId(tasks, id)
  {
    if tasks == [] then []
    else
      var rest := RemoveTask(tasks[1..], id);
      if tasks[0].id == id then rest
      else [tasks[0]] + rest
  }

  /** The survivors keep their relative order. */
  lemma {:induction false} RemoveTaskSubsequence(tasks: seq<Task>, id: int)
    ensures IsSubsequence(RemoveTask(tasks, id), tasks)
  {
    if tasks != [] {
      var rest := RemoveTask(tasks[1..], id);
      RemoveTaskSubsequence(tasks[1..], id);
      if tasks[0].id != id {
        assert ([tasks[0]] + rest)[1..] == rest;
      } else if rest != [] {
        assert IsSubsequence(rest, tasks[1..]);
      }
    }
  }

  /** A task survives exactly when it was present with a different id. */
  lemma {:induction false} RemoveTaskMembers(tasks: seq<Task>, id: int)
    ensures forall t :: t in RemoveTask(tasks, id) <==> t in tasks && t.id != id
  {
    RemoveTaskCounts(tasks, id);
    forall t ensures t in RemoveTask(tasks, id) <==> t in multiset(RemoveTask(tasks, id)) {
    }
  }

  /** Every task whose id differs survives `RemoveTask` as often as it occurs in `tasks`. */
  lemma {:induction false} RemoveTaskCounts(tasks: seq<Task>, id: int)
    ensures forall t :: multiset(RemoveTask(tasks, id))[t] == if t.id == id then 0 else multiset(tasks)[t]
  {
    if tasks != [] {
      RemoveTaskCounts(tasks[1..], id);
      assert tasks == [tasks[0]] + tasks[1..];
      if tasks[0].id != id {
        assert RemoveTask(tasks, id) == [tasks[0]] + RemoveTask(tasks[1..], id);
      }
    }
  }

  /** A subsequence never holds an element more often than the sequence it is taken from. */
  lemma {:induction false} SubsequenceMultiset(a: seq<Task>, b: seq<Task>)
    requires IsSubsequence(a, b)
    ensures multiset(a) <= multiset(b)
    decreases |b|
  {
    if a != [] {
      assert b == [b[0]] + b[1..];
      if a[0] == b[0] && IsSubsequence(a[1..], b[1..]) {
        SubsequenceMultiset(a[1..], b[1..]);
        assert a == [a[0]] + a[1..];
      } else {
        SubsequenceMultiset(a, b[1..]);
      }
    }
  }

  /**
   `RemoveTask` is the only way to keep the tasks whose id differs: any
   order-preserving selection from `tasks` that holds each such task as
   often as `tasks` does, and no task with that id, is `RemoveTask(tasks, id)`.
   */
  lemma {:induction false} RemoveTaskUnique(tasks: seq<Task>, id: int, a: seq<Task>)
    requires IsSubsequence(a, tasks)
    requires forall t :: multiset(a)[t] == if t.id == id then 0 else multiset(tasks)[t]
    ensures a == RemoveTask(tasks, id)
    decreases |tasks|
  {
    if tasks != [] {
      var x, rest := tasks[0], tasks[1..];
      assert tasks == [x] + rest;
      if x.id == id {
        assert IsSubsequence(a, rest) by {
          if a != [] {
            assert a[0] in multiset(a);
          }
        }
        forall t ensures multiset(a)[t] == if t.id == id then 0 else multiset(rest)[t] {
          if t.id != id {
            assert t != x;
          }
        }
        RemoveTaskUnique(rest, id, a);
      } else {
        assert multiset(a)[x] > 0;
        assert a == [a[0]] + a[1..];
        if a[0] == x && IsSubsequence(a[1..], rest) {
          forall t ensures multiset(a[1..])[t] == if t.id == id then 0 else multiset(rest)[t] {
          }
          RemoveTaskUnique(rest, id, a[1..]);
        } else {
          SubsequenceMultiset(a, rest);
          assert false;
        }
      }
    }
  }

  /** Removing an id that no task carries leaves the list unchanged. */
  lemma {:induction false} RemoveAbsentId(tasks: seq<Task>, id: int)
    requires forall i :: 0 <= i < |tasks| ==> tasks[i].id != id
    ensures RemoveTask(tasks, id) == tasks
  {
    if tasks != [] {
      RemoveAbsentId(tasks[1..], id);
    }
  }

  /** `removeTask` is idempotent. */
  lemma {:induction false} RemoveIdempotent(tasks: seq<Task>, id: int)
    ensures RemoveTask(RemoveTask(tasks, id), id) == RemoveTask(tasks, id)
  {
    RemoveAbsentId(RemoveTask(tasks, id), id);
  }

  /** Filtering distributes over concatenation. */
  lemma {:induction false} RemoveAppend(a: seq<Task>, b: seq<Task>, id: int)
    ensures RemoveTask(a + b, id) == RemoveTask(a, id) + RemoveTask(b, id)
  {
    if a == [] {
      assert a + b == b;
    } else {
      assert (a + b)[0] == a[0];
      assert (a + b)[1..] == a[1..] + b;
      RemoveAppend(a[1..], b, id);
      if a[0].id == id {
        calc {
          RemoveTask(a + b, id);
          RemoveTask(a[1..] + b, id);
          RemoveTask(a[1..], id) + RemoveTask(b, id);
        }
      } else {
        calc {
          RemoveTask(a + b, id);
          [a[0]] + RemoveTask(a[1..] + b, id);
          [a[0]] + (RemoveTask(a[1..], id) + RemoveTask(b, id));
          ([a[0]] + RemoveTask(a[1..], id)) + RemoveTask(b, id);
        }
      }
    }
  }

  /**
   Removing the id a task was just added under undoes the addition when
   no earlier task shares that clock reading; when one does, it goes too.
   */
  lemma AddThenRemove(s: TodoState, now: int)
    ensures RemoveTask(AddTask(s, now).tasks, now) == RemoveTask(s.tasks, now)
    ensures (forall i :: 0 <= i < |s.tasks| ==> s.tasks[i].id != now) ==>
              RemoveTask(AddTask(s, now).tasks, now) == s.tasks
  {
    var r := AddTask(s, now);
    if !AllSpace(s.taskInput) {
      var added := [Task(now, s.taskInput)];
      assert r.tasks == r.tasks[..|s.tasks|] + [r.tasks[|s.tasks|]];
      assert r.tasks == s.tasks + added;
      RemoveAppend(s.tasks, added, now);
      assert RemoveTask(added, now) == [] by {
        assert added[1..] == [];
      }
      assert s.tasks + [] == s.tasks;
    }
    if forall i :: 0 <= i < |s.tasks| ==> s.tasks[i].id != now {
      RemoveAbsentId(s.tasks, now);
    }
  }

  /** For a non-blank input, `addTask` is exactly "append one task". */
  lemma AddTaskAppends(s: TodoState, now: int)
    requires !AllSpace(s.taskInput)
    ensures AddTask(s, now).tasks == s.tasks + [Task(now, s.taskInput)]
  {
  }

  /** Removing an id from tasks appended under that id removes just them. */
  lemma RemoveAppendedSameId(tasks: seq<Task>, added: seq<Task>, id: int)
    requires forall i :: 0 <= i < |added| ==> added[i].id == id
    ensures RemoveTask(tasks + added, id) == RemoveTask(tasks, id)
  {
    RemoveAppend(tasks, added, id);
    assert CountId(added, id) == |added| by {
      CountAllSameId(added, id);
    }
    assert RemoveTask(tasks, id) + [] == RemoveTask(tasks, id);
  }

  lemma {:induction false} CountAllSameId(tasks: seq<Task>, id: int)
    requires forall i :: 0 <= i < |tasks| ==> tasks[i].id == id
    ensures CountId(tasks, id) == |tasks|
  {
    if tasks != [] {
      CountAllSameId(tasks[1..], id);
    }
  }

  /**
   Two non-blank inputs added at the same clock reading become two tasks
   sharing an id, and a single `removeTask` of that id drops both.
   */
  lemma SameMillisecondRemovesBoth(s: TodoState, a: string, b: string, now: int)
    requires !AllSpace(a) && !AllSpace(b)
    ensures var s1 := AddTask(SetTaskInput(s, a), now);
            var s2 := AddTask(SetTaskInput(s1, b), now);
            && s2.tasks == s.tasks + [Task(now, a), Task(now, b)]
            && RemoveTask(s2.tasks, now) == RemoveTask(s.tasks, now)
  {
    var s1 := AddTask(SetTaskInput(s, a), now);
    var s2 := AddTask(SetTaskInput(s1, b), now);
    var both := [Task(now, a), Task(now, b)];
    assert s2.tasks == s.tasks + both by {
      AddTaskAppends(SetTaskInput(s, a), now);
      AddTaskAppends(SetTaskInput(s1, b), now);
      assert both == [Task(now, a)] + [Task(now, b)];
    }
    assert RemoveTask(s.tasks + both, now) == RemoveTask(s.tasks, now) by {
      RemoveAppendedSameId(s.tasks, both, now);
    }
  }
}
