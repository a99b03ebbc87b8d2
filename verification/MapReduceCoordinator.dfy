/** The MapReduce coordinator: which task a worker gets, and what a completion report does. */
module MapReduceCoordinator {

  datatype TaskState = Waiting | Processing | Success

  datatype Role = Mapper | Reducer

  datatype Task = Task(state: TaskState, expected: int, role: Role)

  /** The coordinator's state; map tasks come first, and a task's position is its id. */
  datatype Coord = Coord(
    tasks: seq<Task>, index: nat, mapDone: bool, reduceDone: bool, leftMap: int, leftReduce: int)

  datatype Grant = Run(id: nat, token: nat, role: Role) | Wait | Exit

  function Started(m: nat, n: nat): Coord {
    Coord(seq(m, _ => Task(Waiting, 0, Mapper)) + seq(n, _ => Task(Waiting, 0, Reducer)), 0, false, false, m, n)
  }

  function RoleNow(c: Coord): Role {
    if c.mapDone then Reducer else Mapper
  }

  /** A task of the current phase that is waiting, or whose worker is taken to have stopped. */
  predicate Free(t: Task, role: Role, expired: bool) {
    t.role == role && (t.state == Waiting || (t.state == Processing && expired))
  }

  /** The first free task from position `i`, or the number of tasks. */
  function FirstFree(tasks: seq<Task>, role: Role, expired: set<nat>, i: nat): (k: nat)
    requires i <= |tasks|
    ensures i <= k <= |tasks|
    ensures k < |tasks| ==> Free(tasks[k], role, k in expired)
    decreases |tasks| - i
  {
    if i == |tasks| || Free(tasks[i], role, i in expired) then i else FirstFree(tasks, role, expired, i + 1)
  }

  /** Give out a task; `expired` are the tasks whose start is too long ago at this moment. */
  function Alloc(c: Coord, expired: set<nat>): (Coord, Grant) {
    if c.reduceDone then (c, Exit)
    else
      var k := FirstFree(c.tasks, RoleNow(c), expired, 0);
      if k == |c.tasks| then (c, Wait)
      else
        (c.(index := c.index + 1, tasks := c.tasks[k := Task(Processing, c.index + 1, RoleNow(c))]),
         Run(k, c.index + 1, RoleNow(c)))
  }

  /** Task `k` may be handed out: it is of this role and waiting, or in progress for too long. */
  ghost predicate Available(c: Coord, role: Role, expired: set<nat>, k: nat) {
    && k < |c.tasks| && c.tasks[k].role == role && c.tasks[k].state != Success
    && (c.tasks[k].state == Processing ==> k in expired)
  }

  lemma {:induction false} FirstFreeIsFirst(tasks: seq<Task>, role: Role, expired: set<nat>, i: nat)
    requires i <= |tasks|
    ensures forall k: nat :: i <= k < FirstFree(tasks, role, expired, i) ==> !Free(tasks[k], role, k in expired)
    decreases |tasks| - i
  {
    if i < |tasks| && !Free(tasks[i], role, i in expired) {
      FirstFreeIsFirst(tasks, role, expired, i + 1);
    }
  }

  /**
   What a worker that asks is given: an exit once the job is done; otherwise the first available task of the phase, an
   expired one included, under a token one larger than any before; and a wait exactly when none is available.
   */
  lemma HandsOutFirstAvailable(c: Coord, expired: set<nat>)
    ensures var (d, g) := Alloc(c, expired);
      var role := if c.mapDone then Reducer else Mapper;
      && (g == Exit <==> c.reduceDone)
      && (g == Wait <==> !c.reduceDone && forall k: nat :: !Available(c, role, expired, k))
      && (!g.Run? ==> d == c)
      && (g.Run? ==>
            && Available(c, role, expired, g.id) && (forall k: nat :: k < g.id ==> !Available(c, role, expired, k))
            && g.role == role && g.token == c.index + 1
            && d == c.(index := c.index + 1, tasks := c.tasks[g.id := Task(Processing, c.index + 1, role)]))
  {
    FirstFreeIsFirst(c.tasks, RoleNow(c), expired, 0);
    var k := FirstFree(c.tasks, RoleNow(c), expired, 0);
    forall i: nat ensures Available(c, RoleNow(c), expired, i) <==>
        i < |c.tasks| && Free(c.tasks[i], RoleNow(c), i in expired) {}
    if k < |c.tasks| { assert Available(c, RoleNow(c), expired, k); }
  }

  /** Whether a report is counted: its token is the expected one, and the task is of a phase not yet over. */
  predicate Counts(c: Coord, id: nat, token: int)
    requires id < |c.tasks|
  {
    !(c.mapDone && c.tasks[id].role == Mapper) && c.tasks[id].expected == token
  }

  /** Take the report of the run with this token. */
  function Complete(c: Coord, id: nat, token: int): Coord
    requires id < |c.tasks|
  {
    if !Counts(c, id, token) then c
    else
      var tasks := c.tasks[id := c.tasks[id].(state := Success)];
      if !c.mapDone then c.(tasks := tasks, leftMap := c.leftMap - 1, mapDone := c.leftMap - 1 == 0)
      else c.(tasks := tasks, leftReduce := c.leftReduce - 1, reduceDone := c.reduceDone || c.leftReduce - 1 == 0)
  }

  /** The tasks of a role that are not yet done. */
  ghost function Open(c: Coord, role: Role): set<nat> {
    set i: nat | i < |c.tasks| && c.tasks[i].role == role && c.tasks[i].state != Success
  }

  lemma OpenAfter(c: Coord, id: nat, token: int, role: Role)
    requires id < |c.tasks| && Counts(c, id, token)
    ensures Open(Complete(c, id, token), role) == Open(c, role) - {id}
    ensures id in Open(c, role) <==> c.tasks[id].role == role && c.tasks[id].state != Success
  {
  }

  /**
   When a counted report keeps the count of what is left: in the map phase exactly when it is for a map task
   not yet done, and in the reduce phase exactly when its task is not yet done.
   */
  lemma ReportKeepsCountIff(c: Coord, id: nat, token: int)
    requires id < |c.tasks| && Counts(c, id, token)
    ensures var d := Complete(c, id, token);
      && (!c.mapDone && c.leftMap == |Open(c, Mapper)| ==>
            (d.leftMap == |Open(d, Mapper)| <==> c.tasks[id].role == Mapper && c.tasks[id].state != Success))
      && (c.mapDone && c.leftReduce == |Open(c, Reducer)| ==>
            (d.leftReduce == |Open(d, Reducer)| <==> c.tasks[id].state != Success))
  {
    OpenAfter(c, id, token, Mapper);
    OpenAfter(c, id, token, Reducer);
  }

  /**
   A token reported twice is counted twice: with two map tasks, one of them reported twice, the map phase is
   declared complete although the other map task has not been done.
   */
  lemma DuplicateReportEndsMapPhaseEarly()
    ensures var c := Alloc(Started(2, 1), {}).0;
      var d := Complete(Complete(c, 0, 1), 0, 1);
      d.mapDone && d.tasks[1].role == Mapper && d.tasks[1].state == Waiting
  {
  }

  class Coordinator {
    var tasks: array<Task>
    var index: nat
    var mapCompleted: bool
    var reduceCompleted: bool
    var leftMapTask: int
    var leftReduceTask: int

    ghost function View(): Coord
      reads this, tasks
    {
      Coord(tasks[..], index, mapCompleted, reduceCompleted, leftMapTask, leftReduceTask)
    }

    constructor (files: nat, nReduce: nat)
      ensures fresh(tasks) && View() == Started(files, nReduce)
    {
      tasks := new Task[files + nReduce](i => if i < files then Task(Waiting, 0, Mapper)
          else Task(Waiting, 0, Reducer));
      index, mapCompleted, reduceCompleted := 0, false, false;
      leftMapTask, leftReduceTask := files, nReduce;
      new;
      assert tasks[..] == Started(files, nReduce).tasks;
    }

    method TaskAlloc(expired: set<nat>) returns (g: Grant)
      modifies this`index, tasks
      ensures (View(), g) == Alloc(old(View()), expired)
    {
      if reduceCompleted {
        return Exit;
      }
      var role := if mapCompleted then Reducer else Mapper;
      for i := 0 to tasks.Length
        invariant View() == old(View())
        invariant FirstFree(tasks[..], role, expired, 0) == FirstFree(tasks[..], role, expired, i)
      {
        if tasks[i].role != role {
          continue;
        }
        if tasks[i].state == Waiting || (tasks[i].state == Processing && i in expired) {
          index := index + 1;
          tasks[i] := Task(Processing, index, role);
          return Run(i, index, role);
        }
      }
      return Wait;
    }

    method TaskComplete(id: nat, token: int)
      requires id < tasks.Length
      modifies this`leftMapTask, this`leftReduceTask, this`mapCompleted, this`reduceCompleted, tasks
      ensures View() == Complete(old(View()), id, token)
    {
      if !mapCompleted {
        if tasks[id].expected != token {
          return;
        }
        tasks[id] := tasks[id].(state := Success);
        leftMapTask := leftMapTask - 1;
        if leftMapTask == 0 {
          mapCompleted := true;
        }
      } else {
        if tasks[id].role == Mapper || tasks[id].expected != token {
          return;
        }
        tasks[id] := tasks[id].(state := Success);
        leftReduceTask := leftReduceTask - 1;
        if leftReduceTask == 0 {
          reduceCompleted := true;
        }
      }
    }
  }
}
