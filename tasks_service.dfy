/** The tasks service: a kanban board per user (a project with its lists,
    the lists' tasks, and each task's checklist and comments), created on
    first visit, and the handlers that edit its rows. Tables are maps from
    id to row; a database failure is the `fault` flag; timestamps the
    database assigns are parameters. */
module TasksService {
  import opened Common
  import opened Ordering

  datatype Project = Project(id: int, owner: string, name: string)
  datatype TaskList = TaskList(id: int, projectId: int, name: Option<string>, position: int)
  datatype Task = Task(id: int, listId: int, content: Option<string>, description: Option<string>,
                       dueDate: Option<string>, position: int)
  /** `completed` is None until first set: the column's default is not part
      of this model. */
  datatype ChecklistItem = ChecklistItem(id: int, taskId: int, content: Option<string>, completed: Option<bool>,
                                         position: int)
  datatype Comment = Comment(id: int, taskId: int, userId: string, content: Option<string>, createdAt: int)

  /** `{ ...task, checklist, comments }`. */
  datatype TaskView = TaskView(task: Task, checklist: seq<ChecklistItem>, comments: seq<Comment>)
  /** `{ ...list, tasks }`. */
  datatype ListView = ListView(list: TaskList, tasks: seq<TaskView>)
  /** `{ ...project, lists }`. */
  datatype BoardView = BoardView(project: Project, lists: seq<ListView>)

  datatype TasksPayload =
    | BoardPayload(board: BoardView)
    | ListRow(list: TaskList)
    | TaskRow(task: Task)
    | ItemRow(item: ChecklistItem)
    | CommentRow(comment: Comment)

  const DefaultProjectName := "Meu Primeiro Projeto"
  const DefaultLists: seq<string> := ["A Fazer", "Em Andamento", "Concluído"]

  const BoardFailed := "Falha ao buscar o quadro."
  const CreateListFailed := "Falha ao criar a lista."
  const UpdateListFailed := "Falha ao atualizar a lista."
  const DeleteListFailed := "Falha ao deletar a lista."
  const CreateTaskFailed := "Falha ao criar tarefa."
  const MoveTaskFailed := "Falha ao mover tarefa."
  const UpdateTaskFailed := "Falha ao atualizar a tarefa."
  const DeleteTaskFailed := "Falha ao deletar tarefa."
  const AddItemFailed := "Falha ao adicionar item no checklist."
  const UpdateItemFailed := "Falha ao atualizar item do checklist."
  const AddCommentFailed := "Falha ao adicionar comentário."

  // ---- Column accessors and row selections of the board queries ----

  function ListId(l: TaskList): int { l.id }
  function ListPosition(l: TaskList): int { l.position }
  function TaskId(t: Task): int { t.id }
  function TaskPosition(t: Task): int { t.position }
  function ItemId(i: ChecklistItem): int { i.id }
  function ItemPosition(i: ChecklistItem): int { i.position }
  function CommentId(c: Comment): int { c.id }
  function CommentTime(c: Comment): int { c.createdAt }

  /** `WHERE project_id = $1` on `task_lists`. */
  function ListsOfProject(pid: int): TaskList -> bool {
    (l: TaskList) => l.projectId == pid
  }

  /** A list id names a list of project `pid`. */
  predicate InProject(lists: map<int, TaskList>, pid: int, listId: int) {
    listId in lists && lists[listId].projectId == pid
  }

  /** The join of `tasks` with `task_lists` restricted to the project. */
  function TasksOfProject(lists: map<int, TaskList>, pid: int): Task -> bool {
    (t: Task) => InProject(lists, pid, t.listId)
  }

  /** The joins of the checklist and comment queries: rows of a task of a
      list of the project. */
  function ItemsOfProject(lists: map<int, TaskList>, tasks: map<int, Task>, pid: int): ChecklistItem -> bool {
    (i: ChecklistItem) => i.taskId in tasks && InProject(lists, pid, tasks[i.taskId].listId)
  }

  function CommentsOfProject(lists: map<int, TaskList>, tasks: map<int, Task>, pid: int): Comment -> bool {
    (c: Comment) => c.taskId in tasks && InProject(lists, pid, tasks[c.taskId].listId)
  }

  /** The filters of the assembly: `task.list_id === list.id`,
      `item.task_id === task.id`, `comment.task_id === task.id`. */
  function OfList(lid: int): Task -> bool { (t: Task) => t.listId == lid }
  function DetailOfList(lid: int): TaskView -> bool { (tv: TaskView) => tv.task.listId == lid }
  function ItemOfTask(tid: int): ChecklistItem -> bool { (i: ChecklistItem) => i.taskId == tid }
  function CommentOfTask(tid: int): Comment -> bool { (c: Comment) => c.taskId == tid }

  // ---- Board assembly ----

  /** A task with its checklist and comments picked out of the flat rows. */
  function WithDetails(t: Task, items: seq<ChecklistItem>, comments: seq<Comment>): TaskView {
    TaskView(t, Where(items, ItemOfTask(t.id)), Where(comments, CommentOfTask(t.id)))
  }

  function Details(tasks: seq<Task>, items: seq<ChecklistItem>, comments: seq<Comment>): seq<TaskView> {
    seq(|tasks|, k requires 0 <= k < |tasks| => WithDetails(tasks[k], items, comments))
  }

  function TasksIn(tvs: seq<TaskView>): seq<Task> {
    seq(|tvs|, k requires 0 <= k < |tvs| => tvs[k].task)
  }

  function ListsIn(b: BoardView): seq<TaskList> {
    seq(|b.lists|, k requires 0 <= k < |b.lists| => b.lists[k].list)
  }

  /** The board of the `/board` handler, built from the four query answers:
      each list gets the tasks of that list, each task its items and
      comments. */
  function AssembleBoard(project: Project, lists: seq<TaskList>, tasks: seq<Task>, items: seq<ChecklistItem>,
                         comments: seq<Comment>): (b: BoardView)
    ensures b.project == project && ListsIn(b) == lists
  {
    var details := Details(tasks, items, comments);
    BoardView(project, seq(|lists|, k requires 0 <= k < |lists| => ListView(lists[k], Where(details, DetailOfList(lists[k].id)))))
  }

  /** What the source promises of the board: the caller's project, its lists
      in position order, each list's tasks exactly the tasks of that list in
      position order, each task's checklist exactly its items in position
      order and its comments exactly its comments in creation order. */
  predicate IsBoard(b: BoardView, projects: map<int, Project>, lists: map<int, TaskList>, tasks: map<int, Task>,
                    items: map<int, ChecklistItem>, comments: map<int, Comment>, uid: string)
  {
    && b.project.id in projects && projects[b.project.id] == b.project && b.project.owner == uid
    && Enumerates(ListsIn(b), lists, ListsOfProject(b.project.id), ListId, ListPosition, false)
    && (forall k :: 0 <= k < |b.lists| ==>
          Enumerates(TasksIn(b.lists[k].tasks), tasks, OfList(b.lists[k].list.id), TaskId, TaskPosition, false))
    && (forall k, m :: 0 <= k < |b.lists| && 0 <= m < |b.lists[k].tasks| ==>
          var tv := b.lists[k].tasks[m];
          && Enumerates(tv.checklist, items, ItemOfTask(tv.task.id), ItemId, ItemPosition, false)
          && Enumerates(tv.comments, comments, CommentOfTask(tv.task.id), CommentId, CommentTime, false))
  }

  /** Narrowing a query's answer with a filter answers the narrower query,
      provided every row the filter keeps was selected in the first place. */
  lemma WhereNarrows<R(!new)>(s: seq<R>, table: map<int, R>, sel: R -> bool, sub: R -> bool, id: R -> int,
                              key: R -> int)
    requires Enumerates(s, table, sel, id, key, false)
    requires forall i :: i in table && sub(table[i]) ==> sel(table[i])
    ensures Enumerates(Where(s, sub), table, sub, id, key, false)
  {
    var rel := (a: R, b: R) => id(a) != id(b) && Before(key(a), key(b), false);
    assert forall i, j :: 0 <= i < j < |s| ==> rel(s[i], s[j]);
    WhereKeepsOrder(s, sub, rel);
    var r := Where(s, sub);
    forall k | 0 <= k < |r| ensures id(r[k]) in table && table[id(r[k])] == r[k] && sub(r[k]) {
      assert r[k] in s;
      var j :| 0 <= j < |s| && s[j] == r[k];
    }
  }

  /** Filtering tasks-with-details by list is filtering the tasks. */
  lemma {:induction false} DetailsByList(tasks: seq<Task>, items: seq<ChecklistItem>, comments: seq<Comment>, lid: int)
    ensures TasksIn(Where(Details(tasks, items, comments), DetailOfList(lid))) == Where(tasks, OfList(lid))
    decreases |tasks|
  {
    if |tasks| > 0 {
      var d := Details(tasks, items, comments);
      assert d[1..] == Details(tasks[1..], items, comments);
      DetailsByList(tasks[1..], items, comments, lid);
      var rest := Where(Details(tasks[1..], items, comments), DetailOfList(lid));
      if tasks[0].listId == lid {
        assert Where(d, DetailOfList(lid)) == [d[0]] + rest;
        assert TasksIn([d[0]] + rest) == [tasks[0]] + TasksIn(rest);
      } else {
        assert Where(d, DetailOfList(lid)) == rest;
      }
    }
  }

  /** The assembled board is the board the source promises, given the four
      query answers. */
  lemma AssembledIsBoard(project: Project, ls: seq<TaskList>, ts: seq<Task>, its: seq<ChecklistItem>, cs: seq<Comment>,
                         projects: map<int, Project>, lists: map<int, TaskList>, tasks: map<int, Task>,
                         items: map<int, ChecklistItem>, comments: map<int, Comment>, uid: string)
    requires project.id in projects && projects[project.id] == project && project.owner == uid
    requires Enumerates(ls, lists, ListsOfProject(project.id), ListId, ListPosition, false)
    requires Enumerates(ts, tasks, TasksOfProject(lists, project.id), TaskId, TaskPosition, false)
    requires Enumerates(its, items, ItemsOfProject(lists, tasks, project.id), ItemId, ItemPosition, false)
    requires Enumerates(cs, comments, CommentsOfProject(lists, tasks, project.id), CommentId, CommentTime, false)
    ensures IsBoard(AssembleBoard(project, ls, ts, its, cs), projects, lists, tasks, items, comments, uid)
  {
    var b := AssembleBoard(project, ls, ts, its, cs);
    var pid := project.id;
    var details := Details(ts, its, cs);
    forall k | 0 <= k < |b.lists|
      ensures Enumerates(TasksIn(b.lists[k].tasks), tasks, OfList(b.lists[k].list.id), TaskId, TaskPosition, false)
    {
      var l := ls[k];
      assert l.id in lists && lists[l.id] == l && l.projectId == pid;
      DetailsByList(ts, its, cs, l.id);
      WhereNarrows(ts, tasks, TasksOfProject(lists, pid), OfList(l.id), TaskId, TaskPosition);
    }
    forall k, m | 0 <= k < |b.lists| && 0 <= m < |b.lists[k].tasks|
      ensures var tv := b.lists[k].tasks[m];
              && Enumerates(tv.checklist, items, ItemOfTask(tv.task.id), ItemId, ItemPosition, false)
              && Enumerates(tv.comments, comments, CommentOfTask(tv.task.id), CommentId, CommentTime, false)
    {
      var tv := b.lists[k].tasks[m];
      assert tv in details;
      var j :| 0 <= j < |details| && details[j] == tv;
      var t := ts[j];
      assert tv == WithDetails(t, its, cs);
      assert t.id in tasks && tasks[t.id] == t && InProject(lists, pid, t.listId);
      WhereNarrows(its, items, ItemsOfProject(lists, tasks, pid), ItemOfTask(t.id), ItemId, ItemPosition);
      WhereNarrows(cs, comments, CommentsOfProject(lists, tasks, pid), CommentOfTask(t.id), CommentId, CommentTime);
    }
  }

  // ---- The default lists of a new project ----

  /** The list the lazy creation inserts with id `k`, its ids counting from
      `start`. */
  function SeedRow(start: int, pid: int, k: int): TaskList
    requires start <= k < start + |DefaultLists|
  {
    TaskList(k, pid, Some(DefaultLists[k - start]), k - start)
  }

  /** The lists inserted by the loop of lazy creation after `n` rounds. */
  function Seeded(start: int, pid: int, n: nat): (m: map<int, TaskList>)
    requires n <= |DefaultLists|
    ensures forall k :: k in m <==> start <= k < start + n
    ensures forall k :: k in m ==> m[k] == SeedRow(start, pid, k)
  {
    if n == 0 then map[] else Seeded(start, pid, n - 1)[start + n - 1 := SeedRow(start, pid, start + n - 1)]
  }

  /** A new project's board has exactly the three default lists, in order,
      at positions 0, 1 and 2. */
  lemma SeededBoardLists(s: seq<TaskList>, old_lists: map<int, TaskList>, start: int, pid: int)
    requires forall k :: k in old_lists ==> k < start && old_lists[k].projectId != pid
    requires Enumerates(s, old_lists + Seeded(start, pid, 3), ListsOfProject(pid), ListId, ListPosition, false)
    ensures s == [SeedRow(start, pid, start), SeedRow(start, pid, start + 1), SeedRow(start, pid, start + 2)]
    ensures forall k :: 0 <= k < |s| ==> s[k].id == start + k && s[k].name == Some(DefaultLists[k]) && s[k].position == k
  {
    SeededOnly(s, old_lists, start, pid);
    SeededPresent(s, old_lists, start, pid);
    SeededInOrder(s, start, pid);
  }

  /** Only the seeded lists belong to the new project. */
  lemma SeededOnly(s: seq<TaskList>, old_lists: map<int, TaskList>, start: int, pid: int)
    requires forall k :: k in old_lists ==> k < start && old_lists[k].projectId != pid
    requires Enumerates(s, old_lists + Seeded(start, pid, 3), ListsOfProject(pid), ListId, ListPosition, false)
    ensures forall k :: 0 <= k < |s| ==> (start <= s[k].id < start + 3 && s[k] == SeedRow(start, pid, s[k].id))
  {
    var all := old_lists + Seeded(start, pid, 3);
    forall k | 0 <= k < |s| ensures start <= s[k].id < start + 3 && s[k] == SeedRow(start, pid, s[k].id) {
      assert ListId(s[k]) in all && all[ListId(s[k])] == s[k] && ListsOfProject(pid)(s[k]);
      assert s[k].id !in old_lists;
    }
  }

  /** Every seeded list is listed. */
  lemma SeededPresent(s: seq<TaskList>, old_lists: map<int, TaskList>, start: int, pid: int)
    requires forall k :: k in old_lists ==> k < start
    requires Enumerates(s, old_lists + Seeded(start, pid, 3), ListsOfProject(pid), ListId, ListPosition, false)
    ensures SeedRow(start, pid, start) in s && SeedRow(start, pid, start + 1) in s && SeedRow(start, pid, start + 2) in s
  {
    var all := old_lists + Seeded(start, pid, 3);
    assert ListsOfProject(pid)(all[start]) && all[start] == SeedRow(start, pid, start);
    assert ListsOfProject(pid)(all[start + 1]) && all[start + 1] == SeedRow(start, pid, start + 1);
    assert ListsOfProject(pid)(all[start + 2]) && all[start + 2] == SeedRow(start, pid, start + 2);
  }

  /** A position-ordered listing of distinct seeded lists holding all three
      is the three in order. */
  lemma SeededInOrder(s: seq<TaskList>, start: int, pid: int)
    requires forall k :: 0 <= k < |s| ==> (start <= s[k].id < start + 3 && s[k] == SeedRow(start, pid, s[k].id))
    requires forall a, b :: 0 <= a < b < |s| ==> ListId(s[a]) != ListId(s[b]) && Before(ListPosition(s[a]), ListPosition(s[b]), false)
    requires SeedRow(start, pid, start) in s && SeedRow(start, pid, start + 1) in s && SeedRow(start, pid, start + 2) in s
    ensures |s| == 3
    ensures s == [SeedRow(start, pid, start), SeedRow(start, pid, start + 1), SeedRow(start, pid, start + 2)]
  {
    var i0 :| 0 <= i0 < |s| && s[i0] == SeedRow(start, pid, start);
    var i1 :| 0 <= i1 < |s| && s[i1] == SeedRow(start, pid, start + 1);
    var i2 :| 0 <= i2 < |s| && s[i2] == SeedRow(start, pid, start + 2);
    assert i0 < i1 < i2;
    PositionsRise(s, start, pid, |s| - 1);
    assert s[|s| - 1].position <= 2;
    assert |s| == 3;
    assert i0 == 0 && i1 == 1 && i2 == 2;
  }

  /** Along such a listing the positions of the seeded lists rise by at
      least one per entry. */
  lemma {:induction false} PositionsRise(s: seq<TaskList>, start: int, pid: int, i: nat)
    requires i < |s|
    requires forall k :: 0 <= k < |s| ==> (start <= s[k].id < start + 3 && s[k] == SeedRow(start, pid, s[k].id))
    requires forall a, b :: 0 <= a < b < |s| ==> ListId(s[a]) != ListId(s[b]) && Before(ListPosition(s[a]), ListPosition(s[b]), false)
    ensures s[i].position >= i
  {
    if i > 0 {
      PositionsRise(s, start, pid, i - 1);
      assert ListId(s[i - 1]) != ListId(s[i]) && ListPosition(s[i - 1]) <= ListPosition(s[i]);
    }
  }

  // ---- Updates by id ----

  function RenamedList(lists: map<int, TaskList>, id: int, name: Option<string>): map<int, TaskList> {
    if id in lists then lists[id := lists[id].(name := name)] else lists
  }

  function MovedTask(tasks: map<int, Task>, id: int, listId: int, position: int): map<int, Task> {
    if id in tasks then tasks[id := tasks[id].(listId := listId, position := position)] else tasks
  }

  function EditedTask(tasks: map<int, Task>, id: int, content: Option<string>, description: Option<string>,
                      dueDate: Option<string>): map<int, Task> {
    if id in tasks then tasks[id := tasks[id].(content := content, description := description, dueDate := dueDate)]
    else tasks
  }

  function EditedItem(items: map<int, ChecklistItem>, id: int, content: Option<string>, completed: Option<bool>)
    : map<int, ChecklistItem> {
    if id in items then items[id := items[id].(content := content, completed := completed)] else items
  }

  /** The by-id updates change only the row with that id, only in the
      columns they set, and for any caller: there is no ownership check. */
  lemma UpdatesTouchOneRow(lists: map<int, TaskList>, tasks: map<int, Task>, items: map<int, ChecklistItem>,
                           id: int, name: Option<string>, listId: int, position: int,
                           content: Option<string>, description: Option<string>, dueDate: Option<string>,
                           completed: Option<bool>)
    ensures var r := RenamedList(lists, id, name);
            r.Keys == lists.Keys && (forall k :: k in lists && k != id ==> r[k] == lists[k])
            && (id in lists ==> r[id].id == lists[id].id && r[id].projectId == lists[id].projectId
                                && r[id].position == lists[id].position && r[id].name == name)
    ensures var r := MovedTask(tasks, id, listId, position);
            r.Keys == tasks.Keys && (forall k :: k in tasks && k != id ==> r[k] == tasks[k])
            && (id in tasks ==> r[id].id == tasks[id].id && r[id].content == tasks[id].content
                                && r[id].description == tasks[id].description && r[id].dueDate == tasks[id].dueDate
                                && r[id].listId == listId && r[id].position == position)
    ensures var r := EditedTask(tasks, id, content, description, dueDate);
            r.Keys == tasks.Keys && (forall k :: k in tasks && k != id ==> r[k] == tasks[k])
            && (id in tasks ==> r[id].id == tasks[id].id && r[id].listId == tasks[id].listId
                                && r[id].position == tasks[id].position
                                && r[id].content == content && r[id].description == description && r[id].dueDate == dueDate)
    ensures var r := EditedItem(items, id, content, completed);
            r.Keys == items.Keys && (forall k :: k in items && k != id ==> r[k] == items[k])
            && (id in items ==> r[id].id == items[id].id && r[id].taskId == items[id].taskId
                                && r[id].position == items[id].position
                                && r[id].content == content && r[id].completed == completed)
  {
  }

  /** The reply to an `UPDATE ... RETURNING *`: `rows[0]` is the updated
      row, or undefined when no row has that id, and then `res.json` sends
      no body at all. */
  function UpdatedReply<R>(row: Option<R>): (r: Reply<R>)
    ensures r.status == 200
    ensures row.Some? <==> r.body.Payload?
    ensures row.Some? ==> r.body == Payload(row.value)
    ensures row.None? ==> r.body == NoBody
  {
    match row
    case Some(x) => Reply(200, Payload(x))
    case None => Reply(200, NoBody)
  }

  /** One round of the loop of lazy creation adds the next seeded list. */
  lemma SeedStep(a: map<int, TaskList>, start: int, pid: int, i: nat)
    requires i < |DefaultLists|
    ensures (a + Seeded(start, pid, i))[start + i := TaskList(start + i, pid, Some(DefaultLists[i]), i)]
         == a + Seeded(start, pid, i + 1)
  {
    assert Seeded(start, pid, i + 1) == Seeded(start, pid, i)[start + i := SeedRow(start, pid, start + i)];
  }

  predicate HasProject(projects: map<int, Project>, uid: string) {
    exists id :: id in projects && projects[id].owner == uid
  }

  class TasksDb {
    var projects: map<int, Project>
    var lists: map<int, TaskList>
    var tasks: map<int, Task>
    var items: map<int, ChecklistItem>
    var comments: map<int, Comment>
    var nextProject: int
    var nextList: int
    var nextTask: int
    var nextItem: int
    var nextComment: int

    /** Rows sit under their own ids, below the next id of their table; a
        user has at most one project (projects are only made by lazy
        creation); every list belongs to an existing project. */
    ghost predicate Valid()
      reads this
    {
      && 1 <= nextProject && 1 <= nextList && 1 <= nextTask && 1 <= nextItem && 1 <= nextComment
      && (forall i :: i in projects ==> projects[i].id == i && i < nextProject)
      && (forall i :: i in lists ==> lists[i].id == i && i < nextList && lists[i].projectId in projects)
      && (forall i :: i in tasks ==> tasks[i].id == i && i < nextTask)
      && (forall i :: i in items ==> items[i].id == i && i < nextItem)
      && (forall i :: i in comments ==> comments[i].id == i && i < nextComment)
      && (forall i, j :: i in projects && j in projects && projects[i].owner == projects[j].owner ==> i == j)
    }

    constructor ()
      ensures Valid() && projects == map[] && lists == map[] && tasks == map[] && items == map[] && comments == map[]
    {
      projects, lists, tasks, items, comments := map[], map[], map[], map[], map[];
      nextProject, nextList, nextTask, nextItem, nextComment := 1, 1, 1, 1, 1;
    }

    /** `SELECT * FROM task_projects WHERE owner_id = $1 LIMIT 1`, and the
        project with its three default lists when there is none. */
    method EnsureProject(uid: string) returns (project: Project)
      requires Valid()
      modifies this
      ensures Valid()
      ensures project.id in projects && projects[project.id] == project && project.owner == uid
      ensures tasks == old(tasks) && items == old(items) && comments == old(comments)
      ensures HasProject(old(projects), uid) ==>
                projects == old(projects) && lists == old(lists) && nextProject == old(nextProject) && nextList == old(nextList)
      ensures !HasProject(old(projects), uid) ==>
                && project == Project(old(nextProject), uid, DefaultProjectName)
                && projects == old(projects)[old(nextProject) := project] && nextProject == old(nextProject) + 1
                && lists == old(lists) + Seeded(old(nextList), project.id, 3) && nextList == old(nextList) + 3
    {
      if HasProject(projects, uid) {
        var id :| id in projects && projects[id].owner == uid;
        return projects[id];
      }
      project := Project(nextProject, uid, DefaultProjectName);
      projects := projects[nextProject := project];
      nextProject := nextProject + 1;
      InsertDefaultLists(project.id);
    }

    /** The loop of lazy creation: one list per default name, at positions
        0, 1 and 2. */
    method InsertDefaultLists(pid: int)
      requires Valid() && pid in projects
      modifies this
      ensures Valid()
      ensures projects == old(projects) && tasks == old(tasks) && items == old(items) && comments == old(comments)
      ensures nextProject == old(nextProject) && nextTask == old(nextTask) && nextItem == old(nextItem)
      ensures nextComment == old(nextComment)
      ensures lists == old(lists) + Seeded(old(nextList), pid, 3) && nextList == old(nextList) + 3
    {
      var start := nextList;
      var ls := lists;
      var i := 0;
      while i < |DefaultLists|
        invariant 0 <= i <= |DefaultLists|
        invariant ls == old(lists) + Seeded(start, pid, i)
        modifies {}
      {
        SeedStep(old(lists), start, pid, i);
        ls := ls[start + i := TaskList(start + i, pid, Some(DefaultLists[i]), i)];
        i := i + 1;
      }
      lists, nextList := ls, start + |DefaultLists|;
    }

    /** `GET /board`. */
    method Board(headers: map<string, string>, fault: bool) returns (r: Reply<TasksPayload>)
      requires Valid()
      modifies this
      ensures Valid()
      ensures tasks == old(tasks) && items == old(items) && comments == old(comments)
      ensures GetUserId(headers).None? || fault ==> projects == old(projects) && lists == old(lists)
      ensures GetUserId(headers).None? ==> r == Unidentified()
      ensures GetUserId(headers).Some? && fault ==> r == Reply(500, Error(BoardFailed))
      ensures GetUserId(headers).Some? && !fault ==>
                var uid := GetUserId(headers).value;
                && HasProject(projects, uid)
                && (HasProject(old(projects), uid) ==> projects == old(projects) && lists == old(lists))
                && (!HasProject(old(projects), uid) ==>
                      && projects == old(projects)[old(nextProject) := Project(old(nextProject), uid, DefaultProjectName)]
                      && lists == old(lists) + Seeded(old(nextList), old(nextProject), 3))
                && r.status == 200 && r.body.Payload? && r.body.value.BoardPayload?
                && IsBoard(r.body.value.board, projects, lists, tasks, items, comments, uid)
    {
      var uid := GetUserId(headers);
      if uid.None? {
        return Unidentified();
      }
      if fault {
        return Reply(500, Error(BoardFailed));
      }
      var project := EnsureProject(uid.value);
      var pid := project.id;
      var ls := Select(lists, ListsOfProject(pid), ListId, ListPosition, false);
      var ts := Select(tasks, TasksOfProject(lists, pid), TaskId, TaskPosition, false);
      var its := Select(items, ItemsOfProject(lists, tasks, pid), ItemId, ItemPosition, false);
      var cs := Select(comments, CommentsOfProject(lists, tasks, pid), CommentId, CommentTime, false);
      AssembledIsBoard(project, ls, ts, its, cs, projects, lists, tasks, items, comments, uid.value);
      r := Reply(200, Payload(BoardPayload(AssembleBoard(project, ls, ts, its, cs))));
    }

    /** `POST /lists`; a project id that names no project is refused by the
        database's foreign key. */
    method CreateList(headers: map<string, string>, projectId: int, name: Option<string>, position: int, fault: bool)
      returns (r: Reply<TasksPayload>)
      requires Valid()
      modifies this
      ensures Valid()
      ensures projects == old(projects) && tasks == old(tasks) && items == old(items) && comments == old(comments)
      ensures GetUserId(headers).None? ==> r == Unidentified() && lists == old(lists)
      ensures GetUserId(headers).Some? && (fault || projectId !in projects) ==>
                r == Reply(500, Error(CreateListFailed)) && lists == old(lists)
      ensures GetUserId(headers).Some? && !fault && projectId in projects ==>
                var l := TaskList(old(nextList), projectId, name, position);
                lists == old(lists)[l.id := l] && r == Reply(201, Payload(ListRow(l)))
    {
      if GetUserId(headers).None? {
        return Unidentified();
      }
      if fault || projectId !in projects {
        return Reply(500, Error(CreateListFailed));
      }
      var l := TaskList(nextList, projectId, name, position);
      lists := lists[nextList := l];
      nextList := nextList + 1;
      r := Reply(201, Payload(ListRow(l)));
    }

    /** `PUT /lists/:id`: by id alone. */
    method UpdateList(headers: map<string, string>, id: int, name: Option<string>, fault: bool)
      returns (r: Reply<TasksPayload>)
      requires Valid()
      modifies this
      ensures Valid()
      ensures projects == old(projects) && tasks == old(tasks) && items == old(items) && comments == old(comments)
      ensures GetUserId(headers).None? ==> r == Unidentified() && lists == old(lists)
      ensures GetUserId(headers).Some? && fault ==> r == Reply(500, Error(UpdateListFailed)) && lists == old(lists)
      ensures GetUserId(headers).Some? && !fault ==>
                && lists == RenamedList(old(lists), id, name)
                && r == UpdatedReply(if id in lists then Some(ListRow(lists[id])) else None)
    {
      if GetUserId(headers).None? {
        return Unidentified();
      }
      if fault {
        return Reply(500, Error(UpdateListFailed));
      }
      lists := RenamedList(lists, id, name);
      r := UpdatedReply(if id in lists then Some(ListRow(lists[id])) else None);
    }

    /** `DELETE /lists/:id`: 204 whether or not the row existed. */
    method DeleteList(headers: map<string, string>, id: int, fault: bool) returns (r: Reply<TasksPayload>)
      requires Valid()
      modifies this
      ensures Valid()
      ensures projects == old(projects) && tasks == old(tasks) && items == old(items) && comments == old(comments)
      ensures GetUserId(headers).None? ==> r == Unidentified() && lists == old(lists)
      ensures GetUserId(headers).Some? && fault ==> r == Reply(500, Error(DeleteListFailed)) && lists == old(lists)
      ensures GetUserId(headers).Some? && !fault ==> lists == old(lists) - {id} && r == Reply(204, NoBody)
    {
      if GetUserId(headers).None? {
        return Unidentified();
      }
      if fault {
        return Reply(500, Error(DeleteListFailed));
      }
      lists := lists - {id};
      r := Reply(204, NoBody);
    }

    /** `POST /tasks`. */
    method CreateTask(headers: map<string, string>, listId: int, content: Option<string>, position: int, fault: bool)
      returns (r: Reply<TasksPayload>)
      requires Valid()
      modifies this
      ensures Valid()
      ensures projects == old(projects) && lists == old(lists) && items == old(items) && comments == old(comments)
      ensures GetUserId(headers).None? ==> r == Unidentified() && tasks == old(tasks)
      ensures GetUserId(headers).Some? && fault ==> r == Reply(500, Error(CreateTaskFailed)) && tasks == old(tasks)
      ensures GetUserId(headers).Some? && !fault ==>
                var t := Task(old(nextTask), listId, content, None, None, position);
                tasks == old(tasks)[t.id := t] && r == Reply(201, Payload(TaskRow(t)))
    {
      if GetUserId(headers).None? {
        return Unidentified();
      }
      if fault {
        return Reply(500, Error(CreateTaskFailed));
      }
      var t := Task(nextTask, listId, content, None, None, position);
      tasks := tasks[nextTask := t];
      nextTask := nextTask + 1;
      r := Reply(201, Payload(TaskRow(t)));
    }

    /** `PUT /tasks/:id/move`: by id alone. */
    method MoveTask(headers: map<string, string>, id: int, newListId: int, position: int, fault: bool)
      returns (r: Reply<TasksPayload>)
      requires Valid()
      modifies this
      ensures Valid()
      ensures projects == old(projects) && lists == old(lists) && items == old(items) && comments == old(comments)
      ensures GetUserId(headers).None? ==> r == Unidentified() && tasks == old(tasks)
      ensures GetUserId(headers).Some? && fault ==> r == Reply(500, Error(MoveTaskFailed)) && tasks == old(tasks)
      ensures GetUserId(headers).Some? && !fault ==>
                && tasks == MovedTask(old(tasks), id, newListId, position)
                && r == UpdatedReply(if id in tasks then Some(TaskRow(tasks[id])) else None)
    {
      if GetUserId(headers).None? {
        return Unidentified();
      }
      if fault {
        return Reply(500, Error(MoveTaskFailed));
      }
      tasks := MovedTask(tasks, id, newListId, position);
      r := UpdatedReply(if id in tasks then Some(TaskRow(tasks[id])) else None);
    }

    /** `PUT /tasks/:id`: by id alone. */
    method UpdateTask(headers: map<string, string>, id: int, content: Option<string>, description: Option<string>,
                      dueDate: Option<string>, fault: bool)
      returns (r: Reply<TasksPayload>)
      requires Valid()
      modifies this
      ensures Valid()
      ensures projects == old(projects) && lists == old(lists) && items == old(items) && comments == old(comments)
      ensures GetUserId(headers).None? ==> r == Unidentified() && tasks == old(tasks)
      ensures GetUserId(headers).Some? && fault ==> r == Reply(500, Error(UpdateTaskFailed)) && tasks == old(tasks)
      ensures GetUserId(headers).Some? && !fault ==>
                && tasks == EditedTask(old(tasks), id, content, description, dueDate)
                && r == UpdatedReply(if id in tasks then Some(TaskRow(tasks[id])) else None)
    {
      if GetUserId(headers).None? {
        return Unidentified();
      }
      if fault {
        return Reply(500, Error(UpdateTaskFailed));
      }
      tasks := EditedTask(tasks, id, content, description, dueDate);
      r := UpdatedReply(if id in tasks then Some(TaskRow(tasks[id])) else None);
    }

    /** `DELETE /tasks/:id`: 204 whether or not the row existed. */
    method DeleteTask(headers: map<string, string>, id: int, fault: bool) returns (r: Reply<TasksPayload>)
      requires Valid()
      modifies this
      ensures Valid()
      ensures projects == old(projects) && lists == old(lists) && items == old(items) && comments == old(comments)
      ensures GetUserId(headers).None? ==> r == Unidentified() && tasks == old(tasks)
      ensures GetUserId(headers).Some? && fault ==> r == Reply(500, Error(DeleteTaskFailed)) && tasks == old(tasks)
      ensures GetUserId(headers).Some? && !fault ==> tasks == old(tasks) - {id} && r == Reply(204, NoBody)
    {
      if GetUserId(headers).None? {
        return Unidentified();
      }
      if fault {
        return Reply(500, Error(DeleteTaskFailed));
      }
      tasks := tasks - {id};
      r := Reply(204, NoBody);
    }

    /** `POST /tasks/:id/checklist`. */
    method AddChecklistItem(headers: map<string, string>, taskId: int, content: Option<string>, position: int, fault: bool)
      returns (r: Reply<TasksPayload>)
      requires Valid()
      modifies this
      ensures Valid()
      ensures projects == old(projects) && lists == old(lists) && tasks == old(tasks) && comments == old(comments)
      ensures GetUserId(headers).None? ==> r == Unidentified() && items == old(items)
      ensures GetUserId(headers).Some? && fault ==> r == Reply(500, Error(AddItemFailed)) && items == old(items)
      ensures GetUserId(headers).Some? && !fault ==>
                var i := ChecklistItem(old(nextItem), taskId, content, None, position);
                items == old(items)[i.id := i] && r == Reply(201, Payload(ItemRow(i)))
    {
      if GetUserId(headers).None? {
        return Unidentified();
      }
      if fault {
        return Reply(500, Error(AddItemFailed));
      }
      var i := ChecklistItem(nextItem, taskId, content, None, position);
      items := items[nextItem := i];
      nextItem := nextItem + 1;
      r := Reply(201, Payload(ItemRow(i)));
    }

    /** `PUT /checklist/:itemId`: by id alone. */
    method UpdateChecklistItem(headers: map<string, string>, id: int, content: Option<string>, completed: Option<bool>,
                               fault: bool)
      returns (r: Reply<TasksPayload>)
      requires Valid()
      modifies this
      ensures Valid()
      ensures projects == old(projects) && lists == old(lists) && tasks == old(tasks) && comments == old(comments)
      ensures GetUserId(headers).None? ==> r == Unidentified() && items == old(items)
      ensures GetUserId(headers).Some? && fault ==> r == Reply(500, Error(UpdateItemFailed)) && items == old(items)
      ensures GetUserId(headers).Some? && !fault ==>
                && items == EditedItem(old(items), id, content, completed)
                && r == UpdatedReply(if id in items then Some(ItemRow(items[id])) else None)
    {
      if GetUserId(headers).None? {
        return Unidentified();
      }
      if fault {
        return Reply(500, Error(UpdateItemFailed));
      }
      items := EditedItem(items, id, content, completed);
      r := UpdatedReply(if id in items then Some(ItemRow(items[id])) else None);
    }

    /** `POST /tasks/:id/comments`: the author is the caller, whatever the
        body says. */
    method AddComment(headers: map<string, string>, taskId: int, content: Option<string>, stamp: int, fault: bool)
      returns (r: Reply<TasksPayload>)
      requires Valid()
      modifies this
      ensures Valid()
      ensures projects == old(projects) && lists == old(lists) && tasks == old(tasks) && items == old(items)
      ensures GetUserId(headers).None? ==> r == Unidentified() && comments == old(comments)
      ensures GetUserId(headers).Some? && fault ==> r == Reply(500, Error(AddCommentFailed)) && comments == old(comments)
      ensures GetUserId(headers).Some? && !fault ==>
                var c := Comment(old(nextComment), taskId, GetUserId(headers).value, content, stamp);
                comments == old(comments)[c.id := c] && r == Reply(201, Payload(CommentRow(c)))
    {
      var uid := GetUserId(headers);
      if uid.None? {
        return Unidentified();
      }
      if fault {
        return Reply(500, Error(AddCommentFailed));
      }
      var c := Comment(nextComment, taskId, uid.value, content, stamp);
      comments := comments[nextComment := c];
      nextComment := nextComment + 1;
      r := Reply(201, Payload(CommentRow(c)));
    }
  }

  /** A first visit creates the project and its three lists and shows them
      in order; a second visit creates nothing and shows the same lists. */
  method FirstAndSecondVisit(db: TasksDb, headers: map<string, string>)
    returns (first: Reply<TasksPayload>, second: Reply<TasksPayload>)
    requires db.Valid() && GetUserId(headers).Some? && !HasProject(db.projects, GetUserId(headers).value)
    modifies db
    ensures first.status == 200 && first.body.Payload? && first.body.value.BoardPayload?
    ensures var ls := ListsIn(first.body.value.board);
            |ls| == 3 && forall k :: 0 <= k < 3 ==> ls[k].name == Some(DefaultLists[k]) && ls[k].position == k
    ensures second.status == 200 && second.body.Payload? && second.body.value.BoardPayload?
    ensures ListsIn(second.body.value.board) == ListsIn(first.body.value.board)
    ensures db.projects == old(db.projects)[old(db.nextProject) :=
                             Project(old(db.nextProject), GetUserId(headers).value, DefaultProjectName)]
    ensures db.lists == old(db.lists) + Seeded(old(db.nextList), old(db.nextProject), 3)
  {
    ghost var lists0, start, pid := db.lists, db.nextList, db.nextProject;
    first := db.Board(headers, false);
    SeededBoardLists(ListsIn(first.body.value.board), lists0, start, pid);
    ghost var projectsAfter, listsAfter := db.projects, db.lists;
    second := db.Board(headers, false);
    assert db.projects == projectsAfter && db.lists == listsAfter;
    assert second.body.value.board.project.id == pid;
    SeededBoardLists(ListsIn(second.body.value.board), lists0, start, pid);
  }
}
