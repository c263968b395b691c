/** The todo table whose counts a report records (internal/todos/fake_store.go). */
module TodoTable {
  import opened Prelude

  datatype Todo = Todo(id: TodoId, createdAt: Time, updatedAt: Time, text: string, completed: bool)

  datatype Summary = Summary(total: nat, completed: nat, outstanding: nat)

  type Todos = map<TodoId, Todo>

  function Done(m: Todos): set<TodoId> {
    set id | id in m && m[id].completed
  }

  /** The three numbers as sizes of sets of rows. */
  function Count(m: Todos): (s: Summary)
    ensures s.total == s.completed + s.outstanding
  {
    assert Done(m) <= m.Keys && m.Keys == Done(m) + (m.Keys - Done(m));
    Summary(|m|, |Done(m)|, |m.Keys - Done(m)|)
  }

  /** Taking one more row out of what is left to scan. */
  lemma ScanStep(rows: set<TodoId>, rest: set<TodoId>, id: TodoId)
    requires id in rest
    ensures |rows - (rest - {id})| == |rows - rest| + (if id in rows then 1 else 0)
  {
    assert rows - (rest - {id}) == (rows - rest) + (if id in rows then {id} else {});
  }

  lemma ScanEnd(m: Todos)
    ensures |m.Keys - {}| == Count(m).total && |Done(m) - {}| == Count(m).completed
  {
    assert m.Keys - {} == m.Keys && Done(m) - {} == Done(m);
  }

  class Store {
    var todos: Todos

    constructor ()
      ensures todos == map[]
    {
      todos := map[];
    }

    method CreateTodo(t: Todo)
      modifies this
      ensures todos == old(todos)[t.id := t]
      ensures old(t.id !in todos) ==>
        Count(todos).total == Count(old(todos)).total + 1 &&
        Count(todos).completed == Count(old(todos)).completed + (if t.completed then 1 else 0)
    {
      ghost var before := todos;
      todos := todos[t.id := t];
      if t.id !in before {
        assert todos.Keys == before.Keys + {t.id};
        assert Done(todos) == Done(before) + (if t.completed then {t.id} else {});
      }
    }

    /** Label, flag and time change; creation time does not. A missing row is `sql.ErrNoRows`. */
    method UpdateTodo(id: TodoId, text: string, completed: bool, at: Time) returns (found: bool)
      modifies this
      ensures found == old(id in todos)
      ensures !found ==> todos == old(todos)
      ensures found ==>
        todos == old(todos)[id := Todo(old(todos)[id].id, old(todos)[id].createdAt, at, text, completed)]
      ensures Count(todos).total == Count(old(todos)).total
    {
      found := id in todos;
      if found {
        todos := todos[id := todos[id].(text := text, completed := completed, updatedAt := at)];
        assert todos.Keys == old(todos).Keys;
      }
    }

    method DeleteTodo(id: TodoId) returns (found: bool)
      modifies this
      ensures found == old(id in todos)
      ensures todos == old(todos) - {id}
      ensures Count(todos).total == Count(old(todos)).total - (if found then 1 else 0)
    {
      found := id in todos;
      if found {
        todos := todos - {id};
        assert todos.Keys == old(todos).Keys - {id};
      } else {
        assert todos - {id} == todos;
      }
    }

    /** One pass over the rows with two counters. */
    method CountTodos() returns (s: Summary)
      ensures s == Count(todos)
    {
      var total, completed := 0, 0;
      var rest := todos.Keys;
      while rest != {}
        invariant rest <= todos.Keys
        invariant total == |todos.Keys - rest| && completed == |Done(todos) - rest|
      {
        var id :| id in rest;
        ScanStep(todos.Keys, rest, id);
        ScanStep(Done(todos), rest, id);
        rest := rest - {id};
        total := total + 1;
        if todos[id].completed {
          completed := completed + 1;
        }
      }
      ScanEnd(todos);
      s := Summary(total, completed, total - completed);
    }
  }
}
