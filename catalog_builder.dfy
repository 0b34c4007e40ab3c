/**
 * `HarlequinWherobotsConnection.__build_catalog` and `get_catalog`: the nested loops that
 * build the catalog, database and table entries and submit one schema task per table, then
 * the wait for every task. The tasks run on a thread pool in the source; each writes only the
 * fresh `children` list of its own table, so running them one after another in submission
 * order gives the same tree.
 */
module CatalogBuilder {
  import opened Wrappers
  import opened Catalog
  import opened TableSchema
  import opened CatalogModel

  /**
   * A `CatalogItem` while the tree is being built. A table entry's children are the list
   * object its schema task appends to later.
   */
  datatype LiveItem = LiveItem(
    qualifiedIdentifier: string,
    queryName: string,
    displayLabel: string,
    typeLabel: string,
    children: LiveChildren)

  datatype LiveChildren = Built(nodes: seq<LiveItem>) | Shared(list: ChildList)

  /** The lists shared with schema tasks anywhere in `items`. */
  function ListsIn(items: seq<LiveItem>): set<ChildList>
  {
    if items == [] then {}
    else
      var last := items[|items| - 1];
      ListsIn(items[..|items| - 1]) +
        match last.children
        case Built(nodes) => ListsIn(nodes)
        case Shared(list) => {list}
  }

  /** The tree as the caller sees it: each shared list read as it is now. */
  function Freeze(items: seq<LiveItem>): seq<CatalogItem>
    reads ListsIn(items)
  {
    if items == [] then []
    else
      var last := items[|items| - 1];
      var children :=
        match last.children
        case Built(nodes) => Freeze(nodes)
        case Shared(list) => list.items;
      Freeze(items[..|items| - 1])
        + [CatalogItem(last.qualifiedIdentifier, last.queryName, last.displayLabel, last.typeLabel, children)]
  }

  /** The tree as it will be once every shared list holds its own task's result. */
  ghost function FreezeAs(items: seq<LiveItem>, fetch: Fetcher): seq<CatalogItem>
  {
    if items == [] then []
    else
      var last := items[|items| - 1];
      var children :=
        match last.children
        case Built(nodes) => FreezeAs(nodes, fetch)
        case Shared(list) => ChildrenAfterFetch(fetch, list.owner);
      FreezeAs(items[..|items| - 1], fetch)
        + [CatalogItem(last.qualifiedIdentifier, last.queryName, last.displayLabel, last.typeLabel, children)]
  }

  /** The frozen form of one entry, given the frozen form of a shared list. */
  ghost function FreezeItemAs(item: LiveItem, fetch: Fetcher): CatalogItem {
    var children :=
      match item.children
      case Built(nodes) => FreezeAs(nodes, fetch)
      case Shared(list) => ChildrenAfterFetch(fetch, list.owner);
    CatalogItem(item.qualifiedIdentifier, item.queryName, item.displayLabel, item.typeLabel, children)
  }

  lemma LiveAppend(items: seq<LiveItem>, item: LiveItem, fetch: Fetcher)
    ensures FreezeAs(items + [item], fetch) == FreezeAs(items, fetch) + [FreezeItemAs(item, fetch)]
    ensures ListsIn(items + [item]) == ListsIn(items) +
      match item.children
      case Built(nodes) => ListsIn(nodes)
      case Shared(list) => {list}
  {
    assert (items + [item])[..|items|] == items;
  }

  lemma {:induction false} FreezeAgrees(items: seq<LiveItem>, fetch: Fetcher)
    requires forall list | list in ListsIn(items) :: list.items == ChildrenAfterFetch(fetch, list.owner)
    ensures Freeze(items) == FreezeAs(items, fetch)
  {
    if items != [] {
      var last := items[|items| - 1];
      FreezeAgrees(items[..|items| - 1], fetch);
      match last.children
      case Built(nodes) => FreezeAgrees(nodes, fetch);
      case Shared(list) =>
    }
  }

  /** The entry `__build_catalog` makes for one table, its children being `list`. */
  function TableItem(c: CatalogEntry, d: DatabaseEntry, t: TableEntry, list: ChildList): LiveItem {
    var path := c.name + "." + d.name + "." + t.name;
    LiveItem(path, path, t.name, "table", Shared(list))
  }

  lemma TableItemStep(c: CatalogEntry, d: DatabaseEntry, ts: seq<TableEntry>, t: TableEntry,
                      tables: seq<LiveItem>, list: ChildList, fetch: Fetcher)
    requires FreezeAs(tables, fetch) == TableNodes(c, d, ts, fetch)
    requires list.owner == TaskFor(c, d, t)
    ensures FreezeAs(tables + [TableItem(c, d, t, list)], fetch) == TableNodes(c, d, ts + [t], fetch)
    ensures ListsIn(tables + [TableItem(c, d, t, list)]) == ListsIn(tables) + {list}
  {
    var entry := TableItem(c, d, t, list);
    LiveAppend(tables, entry, fetch);
    assert FreezeItemAs(entry, fetch) == TableNode(TaskFor(c, d, t), fetch);
    TableNodesAppend(c, d, ts, t, fetch);
  }

  /** A submitted schema task (`executor.submit(self.__get_table_schema, ..., children)`). */
  datatype Submitted = Submitted(task: SchemaTask, into: ChildList)

  function TasksOf(submitted: seq<Submitted>): seq<SchemaTask> {
    seq(|submitted|, k requires 0 <= k < |submitted| => submitted[k].task)
  }

  lemma TableTasksAppend(c: CatalogEntry, d: DatabaseEntry, tables: seq<TableEntry>, t: TableEntry)
    ensures TableTasks(c, d, tables + [t]) == TableTasks(c, d, tables) + [TaskFor(c, d, t)]
  {
  }

  function ListsOf(submitted: seq<Submitted>): set<ChildList> {
    set s | s in submitted :: s.into
  }

  lemma ListsOfConcat(a: seq<Submitted>, b: seq<Submitted>)
    ensures ListsOf(a + b) == ListsOf(a) + ListsOf(b)
  {
    assert forall s :: s in a + b <==> s in a || s in b;
  }

  lemma TasksOfConcat(a: seq<Submitted>, b: seq<Submitted>)
    ensures TasksOf(a + b) == TasksOf(a) + TasksOf(b)
  {
  }

  /**
   * The tasks `submitted`, the first of them submitted after `base` others: each was handed
   * a list made for it, whose position is its place in the submission order.
   */
  ghost predicate Submissions(submitted: seq<Submitted>, base: nat) {
    forall k | 0 <= k < |submitted| ::
      submitted[k].into.owner == submitted[k].task && submitted[k].into.position == base + k
  }

  lemma SubmissionsConcat(a: seq<Submitted>, b: seq<Submitted>, base: nat)
    requires Submissions(a, base) && Submissions(b, base + |a|)
    ensures Submissions(a + b, base)
  {
  }

  /**
   * What the table loop has built for the tables `ts` of `d`: their entries, and the tasks
   * submitted for them after `base` others.
   */
  ghost predicate TablesBuilt(c: CatalogEntry, d: DatabaseEntry, ts: seq<TableEntry>, base: nat, fetch: Fetcher,
                              tables: seq<LiveItem>, submitted: seq<Submitted>)
  {
    && FreezeAs(tables, fetch) == TableNodes(c, d, ts, fetch)
    && TasksOf(submitted) == TableTasks(c, d, ts)
    && ListsIn(tables) <= ListsOf(submitted)
    && Submissions(submitted, base)
    && |submitted| == |ts|
  }

  lemma {:induction false} TablesBuiltStep(c: CatalogEntry, d: DatabaseEntry, i: nat, base: nat, fetch: Fetcher,
                                           tables: seq<LiveItem>, submitted: seq<Submitted>, list: ChildList)
    requires i < |d.tables|
    requires TablesBuilt(c, d, d.tables[..i], base, fetch, tables, submitted)
    requires list.owner == TaskFor(c, d, d.tables[i]) && list.position == base + i
    ensures TablesBuilt(c, d, d.tables[..i + 1], base, fetch, tables + [TableItem(c, d, d.tables[i], list)],
                        submitted + [Submitted(TaskFor(c, d, d.tables[i]), list)])
  {
    var ts, t := d.tables[..i], d.tables[i];
    assert d.tables[..i + 1] == ts + [t];
    var s := Submitted(TaskFor(c, d, t), list);
    TableItemStep(c, d, ts, t, tables, list, fetch);
    TasksOfConcat(submitted, [s]);
    TableTasksAppend(c, d, ts, t);
    SubmissionsConcat(submitted, [s], base);
    ListsOfConcat(submitted, [s]);
  }

  /**
   * The innermost loop of `__build_catalog`, over one database's tables: a table entry with a
   * fresh, empty `children` list per table, and one submitted task holding that same list.
   */
  method SubmitTables(catalog: CatalogEntry, db: DatabaseEntry, ghost base: nat, ghost fetch: Fetcher)
    returns (tables: seq<LiveItem>, submitted: seq<Submitted>)
    ensures TablesBuilt(catalog, db, db.tables, base, fetch, tables, submitted)
    ensures forall k | 0 <= k < |submitted| :: fresh(submitted[k].into) && submitted[k].into.items == []
  {
    tables, submitted := [], [];
    for ti := 0 to |db.tables|
      invariant TablesBuilt(catalog, db, db.tables[..ti], base, fetch, tables, submitted)
      invariant forall k | 0 <= k < |submitted| :: fresh(submitted[k].into) && submitted[k].into.items == []
    {
      var table := db.tables[ti];
      var task := TaskFor(catalog, db, table);
      var children := new ChildList(task, base + ti);
      TablesBuiltStep(catalog, db, ti, base, fetch, tables, submitted, children);
      tables := tables + [TableItem(catalog, db, table, children)];
      submitted := submitted + [Submitted(task, children)];
    }
    assert db.tables[..|db.tables|] == db.tables;
  }

  /** The entry `__build_catalog` makes for one database, its children being `tables`. */
  function DatabaseItem(c: CatalogEntry, d: DatabaseEntry, tables: seq<LiveItem>): LiveItem {
    var path := c.name + "." + d.name;
    LiveItem(path, path, d.name, "db", Built(tables))
  }

  /**
   * What the database loop has built for the databases `ds` of `c`: their entries, and the
   * tasks submitted for their tables after `base` others.
   */
  ghost predicate DatabasesBuilt(c: CatalogEntry, ds: seq<DatabaseEntry>, base: nat, fetch: Fetcher,
                                 dbs: seq<LiveItem>, submitted: seq<Submitted>)
  {
    && FreezeAs(dbs, fetch) == DatabaseNodes(c, ds, fetch)
    && TasksOf(submitted) == DatabaseTasks(c, ds)
    && ListsIn(dbs) <= ListsOf(submitted)
    && Submissions(submitted, base)
  }

  lemma {:induction false} DatabasesBuiltStep(c: CatalogEntry, i: nat, base: nat, fetch: Fetcher,
                                              dbs: seq<LiveItem>, submitted: seq<Submitted>,
                                              tables: seq<LiveItem>, more: seq<Submitted>)
    requires i < |c.databases|
    requires DatabasesBuilt(c, c.databases[..i], base, fetch, dbs, submitted)
    requires TablesBuilt(c, c.databases[i], c.databases[i].tables, base + |submitted|, fetch, tables, more)
    ensures DatabasesBuilt(c, c.databases[..i + 1], base, fetch, dbs + [DatabaseItem(c, c.databases[i], tables)],
                           submitted + more)
  {
    var ds, d := c.databases[..i], c.databases[i];
    assert c.databases[..i + 1] == ds + [d];
    LiveAppend(dbs, DatabaseItem(c, d, tables), fetch);
    assert FreezeItemAs(DatabaseItem(c, d, tables), fetch) == DatabaseNode(c, d, fetch);
    DatabaseNodesAppend(c, ds, d, fetch);
    assert (ds + [d])[..|ds|] == ds;
    TasksOfConcat(submitted, more);
    SubmissionsConcat(submitted, more, base);
    ListsOfConcat(submitted, more);
  }

  /**
   * The middle loop of `__build_catalog`, over one catalog's databases: a database entry per
   * database, holding the table entries `SubmitTables` makes for it.
   */
  method SubmitDatabases(catalog: CatalogEntry, ghost base: nat, ghost fetch: Fetcher)
    returns (dbs: seq<LiveItem>, submitted: seq<Submitted>)
    ensures DatabasesBuilt(catalog, catalog.databases, base, fetch, dbs, submitted)
    ensures forall k | 0 <= k < |submitted| :: fresh(submitted[k].into) && submitted[k].into.items == []
  {
    dbs, submitted := [], [];
    for di := 0 to |catalog.databases|
      invariant DatabasesBuilt(catalog, catalog.databases[..di], base, fetch, dbs, submitted)
      invariant forall k | 0 <= k < |submitted| :: fresh(submitted[k].into) && submitted[k].into.items == []
    {
      var db := catalog.databases[di];
      var tables, more := SubmitTables(catalog, db, base + |submitted|, fetch);
      DatabasesBuiltStep(catalog, di, base, fetch, dbs, submitted, tables, more);
      dbs := dbs + [DatabaseItem(catalog, db, tables)];
      submitted := submitted + more;
    }
    assert catalog.databases[..|catalog.databases|] == catalog.databases;
  }

  /**
   * `wait(tasks)`: every submitted task runs to completion, one after another. A task that
   * raises leaves its list as it was; the exception stays in its future.
   */
  method WaitAll(fetch: Fetcher, tasks: seq<Submitted>)
    requires Submissions(tasks, 0)
    requires forall k | 0 <= k < |tasks| :: tasks[k].into.items == []
    modifies ListsOf(tasks)
    ensures forall k | 0 <= k < |tasks| :: tasks[k].into.items == ChildrenAfterFetch(fetch, tasks[k].task)
  {
    for k := 0 to |tasks|
      invariant forall j | 0 <= j < |tasks| ::
        tasks[j].into.items == (if j < k then ChildrenAfterFetch(fetch, tasks[j].task) else [])
    {
      var task := tasks[k].task;
      var _ := GetTableSchema(fetch, task.catalogId, task.catalog, task.db, task.table, tasks[k].into);
    }
  }

  /** The entry `__build_catalog` makes for one catalog, its children being `dbs`. */
  function CatalogItemOf(c: CatalogEntry, dbs: seq<LiveItem>): LiveItem {
    LiveItem(c.name, c.name, c.name, "catalog", Built(dbs))
  }

  /** What the catalog loop has built for the catalogs `cs`: their entries and every task. */
  ghost predicate CatalogsBuilt(cs: seq<CatalogEntry>, fetch: Fetcher, roots: seq<LiveItem>, tasks: seq<Submitted>)
  {
    && FreezeAs(roots, fetch) == CatalogNodes(cs, fetch)
    && TasksOf(tasks) == SchemaTasks(cs)
    && ListsIn(roots) <= ListsOf(tasks)
    && Submissions(tasks, 0)
  }

  lemma {:induction false} CatalogsBuiltStep(h: Hierarchy, i: nat, fetch: Fetcher,
                                             roots: seq<LiveItem>, tasks: seq<Submitted>,
                                             dbs: seq<LiveItem>, more: seq<Submitted>)
    requires i < |h.catalogs|
    requires CatalogsBuilt(h.catalogs[..i], fetch, roots, tasks)
    requires DatabasesBuilt(h.catalogs[i], h.catalogs[i].databases, |tasks|, fetch, dbs, more)
    ensures CatalogsBuilt(h.catalogs[..i + 1], fetch, roots + [CatalogItemOf(h.catalogs[i], dbs)], tasks + more)
  {
    var cs, c := h.catalogs[..i], h.catalogs[i];
    assert h.catalogs[..i + 1] == cs + [c];
    LiveAppend(roots, CatalogItemOf(c, dbs), fetch);
    assert FreezeItemAs(CatalogItemOf(c, dbs), fetch) == CatalogNode(c, fetch);
    CatalogNodesAppend(cs, c, fetch);
    assert (cs + [c])[..|cs|] == cs;
    TasksOfConcat(tasks, more);
    SubmissionsConcat(tasks, more, 0);
    ListsOfConcat(tasks, more);
  }

  /**
   * Builds the catalog tree: one entry per catalog, database and table, one schema task per
   * table, then waits for every task. Returns the tree and, as a ghost, the tasks in the
   * order they were submitted.
   */
  method BuildCatalog(h: Hierarchy, fetch: Fetcher) returns (items: seq<CatalogItem>, ghost scheduled: seq<SchemaTask>)
    ensures items == CatalogTree(h, fetch)
    ensures scheduled == SchemaTasks(h.catalogs)
  {
    var roots: seq<LiveItem> := [];
    var tasks: seq<Submitted> := [];
    for ci := 0 to |h.catalogs|
      invariant CatalogsBuilt(h.catalogs[..ci], fetch, roots, tasks)
      invariant forall k | 0 <= k < |tasks| :: fresh(tasks[k].into) && tasks[k].into.items == []
    {
      var catalog := h.catalogs[ci];
      var dbs, more := SubmitDatabases(catalog, |tasks|, fetch);
      CatalogsBuiltStep(h, ci, fetch, roots, tasks, dbs, more);
      roots := roots + [CatalogItemOf(catalog, dbs)];
      tasks := tasks + more;
    }
    assert h.catalogs[..|h.catalogs|] == h.catalogs;

    WaitAll(fetch, tasks);

    forall list | list in ListsIn(roots)
      ensures list.items == ChildrenAfterFetch(fetch, list.owner)
    {
      var s :| s in tasks && s.into == list;
      var j :| 0 <= j < |tasks| && tasks[j] == s;
    }
    FreezeAgrees(roots, fetch);
    items := Freeze(roots);
    scheduled := TasksOf(tasks);
  }

  /** What the GET of https://<host>/catalog/hierarchy gives back. */
  datatype HierarchyOutcome =
    /** `requests.get` raises */
    | HierarchyConnectionFailed
    /** `body` is None when the body cannot be decoded or lacks a key the builder reads */
    | HierarchyResponse(status: int, body: Option<Hierarchy>)

  datatype CatalogError =
    /** "Error reading catalog information from Wherobots" */
    | CatalogReadError
    /** "Invalid catalog data!" */
    | InvalidCatalogData

  /** The statuses `raise_for_status` raises for: client and server errors. */
  predicate IsErrorStatus(status: int) {
    400 <= status < 600
  }

  /**
   * `get_catalog`: a failed hierarchy request is fatal, a malformed hierarchy is fatal, and
   * otherwise the whole tree is built, however many table schemas fail.
   */
  method GetCatalog(response: HierarchyOutcome, fetch: Fetcher) returns (result: Result<seq<CatalogItem>, CatalogError>)
    ensures result == Failure(CatalogReadError) <==>
      response.HierarchyConnectionFailed? || IsErrorStatus(response.status)
    ensures result == Failure(InvalidCatalogData) <==>
      response.HierarchyResponse? && !IsErrorStatus(response.status) && response.body.None?
    ensures result.Success? ==>
      response.HierarchyResponse? && response.body.Some? && result.value == CatalogTree(response.body.value, fetch)
  {
    if response.HierarchyConnectionFailed? || IsErrorStatus(response.status) {
      return Failure(CatalogReadError);
    }
    if response.body.None? {
      return Failure(InvalidCatalogData);
    }
    var items, _ := BuildCatalog(response.body.value, fetch);
    return Success(items);
  }
}
