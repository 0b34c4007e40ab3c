/**
 * The catalog hierarchy the service returns and the tree `__build_catalog` hands back once
 * every schema task has finished. The imperative builder in CatalogBuilder is proved to
 * produce exactly `CatalogTree`.
 */
module CatalogModel {
  import opened Catalog
  import opened TableSchema

  /** The body of https://<host>/catalog/hierarchy, after decoding. */
  datatype TableEntry = TableEntry(name: string)
  datatype DatabaseEntry = DatabaseEntry(name: string, tables: seq<TableEntry>)
  datatype CatalogEntry = CatalogEntry(name: string, extId: string, databases: seq<DatabaseEntry>)
  datatype Hierarchy = Hierarchy(catalogs: seq<CatalogEntry>)

  /** The schema task submitted for table `t` of database `d` of catalog `c`. */
  function TaskFor(c: CatalogEntry, d: DatabaseEntry, t: TableEntry): SchemaTask {
    SchemaTask(c.extId, c.name, d.name, t.name)
  }

  /** A table entry once its schema task has finished. */
  function TableNode(task: SchemaTask, fetch: Fetcher): CatalogItem {
    var path := task.catalog + "." + task.db + "." + task.table;
    CatalogItem(path, path, task.table, "table", ChildrenAfterFetch(fetch, task))
  }

  function TableNodes(c: CatalogEntry, d: DatabaseEntry, tables: seq<TableEntry>, fetch: Fetcher): seq<CatalogItem> {
    seq(|tables|, i requires 0 <= i < |tables| => TableNode(TaskFor(c, d, tables[i]), fetch))
  }

  lemma TableNodesAppend(c: CatalogEntry, d: DatabaseEntry, tables: seq<TableEntry>, t: TableEntry, fetch: Fetcher)
    ensures TableNodes(c, d, tables + [t], fetch) == TableNodes(c, d, tables, fetch) + [TableNode(TaskFor(c, d, t), fetch)]
  {
  }

  function DatabaseNode(c: CatalogEntry, d: DatabaseEntry, fetch: Fetcher): CatalogItem {
    var path := c.name + "." + d.name;
    CatalogItem(path, path, d.name, "db", TableNodes(c, d, d.tables, fetch))
  }

  function DatabaseNodes(c: CatalogEntry, dbs: seq<DatabaseEntry>, fetch: Fetcher): seq<CatalogItem> {
    seq(|dbs|, j requires 0 <= j < |dbs| => DatabaseNode(c, dbs[j], fetch))
  }

  lemma DatabaseNodesAppend(c: CatalogEntry, dbs: seq<DatabaseEntry>, d: DatabaseEntry, fetch: Fetcher)
    ensures DatabaseNodes(c, dbs + [d], fetch) == DatabaseNodes(c, dbs, fetch) + [DatabaseNode(c, d, fetch)]
  {
  }

  function CatalogNode(c: CatalogEntry, fetch: Fetcher): CatalogItem {
    CatalogItem(c.name, c.name, c.name, "catalog", DatabaseNodes(c, c.databases, fetch))
  }

  /** The top-level catalog entries, in the order the hierarchy lists them. */
  function CatalogNodes(catalogs: seq<CatalogEntry>, fetch: Fetcher): seq<CatalogItem> {
    seq(|catalogs|, i requires 0 <= i < |catalogs| => CatalogNode(catalogs[i], fetch))
  }

  lemma CatalogNodesAppend(catalogs: seq<CatalogEntry>, c: CatalogEntry, fetch: Fetcher)
    ensures CatalogNodes(catalogs + [c], fetch) == CatalogNodes(catalogs, fetch) + [CatalogNode(c, fetch)]
  {
  }

  /** The tree `__build_catalog` returns for a hierarchy. */
  function CatalogTree(h: Hierarchy, fetch: Fetcher): seq<CatalogItem> {
    CatalogNodes(h.catalogs, fetch)
  }

  // ---- the schema tasks, in submission order

  function TableTasks(c: CatalogEntry, d: DatabaseEntry, tables: seq<TableEntry>): seq<SchemaTask> {
    seq(|tables|, i requires 0 <= i < |tables| => TaskFor(c, d, tables[i]))
  }

  function DatabaseTasks(c: CatalogEntry, dbs: seq<DatabaseEntry>): seq<SchemaTask> {
    if dbs == [] then []
    else DatabaseTasks(c, dbs[..|dbs| - 1]) + TableTasks(c, dbs[|dbs| - 1], dbs[|dbs| - 1].tables)
  }

  /** One task per table of the hierarchy, catalogs, databases and tables taken in input order. */
  function SchemaTasks(catalogs: seq<CatalogEntry>): seq<SchemaTask> {
    if catalogs == [] then []
    else SchemaTasks(catalogs[..|catalogs| - 1]) + DatabaseTasks(catalogs[|catalogs| - 1], catalogs[|catalogs| - 1].databases)
  }

  // ---- the table entries of a tree, read in order

  function DatabaseRows(dbs: seq<CatalogItem>): seq<CatalogItem> {
    if dbs == [] then [] else DatabaseRows(dbs[..|dbs| - 1]) + dbs[|dbs| - 1].children
  }

  /** The entries two levels below the roots (the tables), catalog by catalog, database by database. */
  function TableRows(tree: seq<CatalogItem>): seq<CatalogItem> {
    if tree == [] then [] else TableRows(tree[..|tree| - 1]) + DatabaseRows(tree[|tree| - 1].children)
  }

  function TableNodesFor(tasks: seq<SchemaTask>, fetch: Fetcher): seq<CatalogItem> {
    seq(|tasks|, k requires 0 <= k < |tasks| => TableNode(tasks[k], fetch))
  }

  // ---- what the builder's result promises

  /**
   * One catalog entry per catalog, one database entry per database and one table entry per
   * table, each in input order, with the type labels "catalog", "db" and "table", dot-joined
   * identifiers (query name equal to the identifier) and the own name as display label. A
   * table's children are what its own schema task produced.
   */
  lemma CatalogTreeShape(h: Hierarchy, fetch: Fetcher)
    ensures var tree := CatalogTree(h, fetch);
      && |tree| == |h.catalogs|
      && forall i | 0 <= i < |tree| ::
        var c := h.catalogs[i];
        && tree[i].qualifiedIdentifier == c.name
        && tree[i].queryName == c.name
        && tree[i].displayLabel == c.name
        && tree[i].typeLabel == "catalog"
        && |tree[i].children| == |c.databases|
        && forall j | 0 <= j < |c.databases| ::
          var d, db := c.databases[j], tree[i].children[j];
          && db.qualifiedIdentifier == c.name + "." + d.name
          && db.queryName == db.qualifiedIdentifier
          && db.displayLabel == d.name
          && db.typeLabel == "db"
          && |db.children| == |d.tables|
          && forall k | 0 <= k < |d.tables| ::
            var t, table := d.tables[k], db.children[k];
            && table.qualifiedIdentifier == c.name + "." + d.name + "." + t.name
            && table.queryName == table.qualifiedIdentifier
            && table.displayLabel == t.name
            && table.typeLabel == "table"
            && table.children == ChildrenAfterFetch(fetch, TaskFor(c, d, t))
  {
  }

  lemma TableNodesForAppend(a: seq<SchemaTask>, b: seq<SchemaTask>, fetch: Fetcher)
    ensures TableNodesFor(a + b, fetch) == TableNodesFor(a, fetch) + TableNodesFor(b, fetch)
  {
  }

  lemma {:induction false} DatabaseRowsFollowTasks(c: CatalogEntry, dbs: seq<DatabaseEntry>, fetch: Fetcher)
    ensures DatabaseRows(DatabaseNodes(c, dbs, fetch)) == TableNodesFor(DatabaseTasks(c, dbs), fetch)
    decreases |dbs|
  {
    if dbs != [] {
      var n := |dbs|;
      var prefix, last := dbs[..n - 1], dbs[n - 1];
      var nodes := DatabaseNodes(c, dbs, fetch);
      DatabaseRowsFollowTasks(c, prefix, fetch);
      assert nodes[..n - 1] == DatabaseNodes(c, prefix, fetch);
      assert nodes[n - 1].children == TableNodesFor(TableTasks(c, last, last.tables), fetch);
      TableNodesForAppend(DatabaseTasks(c, prefix), TableTasks(c, last, last.tables), fetch);
    }
  }

  lemma {:induction false} TableRowsFollowTasks(catalogs: seq<CatalogEntry>, fetch: Fetcher)
    ensures TableRows(CatalogNodes(catalogs, fetch)) == TableNodesFor(SchemaTasks(catalogs), fetch)
    decreases |catalogs|
  {
    if catalogs != [] {
      var n := |catalogs|;
      var prefix, last := catalogs[..n - 1], catalogs[n - 1];
      var nodes := CatalogNodes(catalogs, fetch);
      TableRowsFollowTasks(prefix, fetch);
      assert nodes[..n - 1] == CatalogNodes(prefix, fetch);
      DatabaseRowsFollowTasks(last, last.databases, fetch);
      TableNodesForAppend(SchemaTasks(prefix), DatabaseTasks(last, last.databases), fetch);
    }
  }

  /**
   * Read in order, the table entries of the tree are exactly one per submitted schema task,
   * and each one's children are its own task's result and nobody else's.
   */
  lemma EachTableGetsItsOwnFetch(h: Hierarchy, fetch: Fetcher)
    ensures var rows, tasks := TableRows(CatalogTree(h, fetch)), SchemaTasks(h.catalogs);
      && |rows| == |tasks|
      && forall k | 0 <= k < |tasks| ::
        && rows[k] == TableNode(tasks[k], fetch)
        && rows[k].children == ChildrenAfterFetch(fetch, tasks[k])
  {
    TableRowsFollowTasks(h.catalogs, fetch);
  }

  lemma {:induction false} DatabaseTasksAreTheTables(c: CatalogEntry, dbs: seq<DatabaseEntry>, task: SchemaTask)
    ensures task in DatabaseTasks(c, dbs) <==>
      exists d, t :: d in dbs && t in d.tables && task == TaskFor(c, d, t)
    decreases |dbs|
  {
    if dbs != [] {
      var n := |dbs|;
      var prefix, last := dbs[..n - 1], dbs[n - 1];
      assert dbs == prefix + [last];
      DatabaseTasksAreTheTables(c, prefix, task);
      var own := TableTasks(c, last, last.tables);
      if task in DatabaseTasks(c, dbs) && task !in DatabaseTasks(c, prefix) {
        var k :| 0 <= k < |own| && own[k] == task;
        assert last in dbs && last.tables[k] in last.tables;
      }
      if exists d, t :: d in dbs && t in d.tables && task == TaskFor(c, d, t) {
        var d, t :| d in dbs && t in d.tables && task == TaskFor(c, d, t);
        if d !in prefix {
          assert d == last;
          var k :| 0 <= k < |last.tables| && last.tables[k] == t;
          assert own[k] == task;
        }
      }
    }
  }

  /**
   * A schema task is submitted exactly for the tables of the hierarchy, and each carries the
   * `extId` and name of the catalog the table belongs to.
   */
  lemma {:induction false} SchemaTasksAreTheTables(catalogs: seq<CatalogEntry>, task: SchemaTask)
    ensures task in SchemaTasks(catalogs) <==>
      exists c, d, t :: c in catalogs && d in c.databases && t in d.tables && task == TaskFor(c, d, t)
    decreases |catalogs|
  {
    if catalogs != [] {
      var n := |catalogs|;
      var prefix, last := catalogs[..n - 1], catalogs[n - 1];
      assert catalogs == prefix + [last];
      SchemaTasksAreTheTables(prefix, task);
      DatabaseTasksAreTheTables(last, last.databases, task);
      if task in SchemaTasks(catalogs) && task !in SchemaTasks(prefix) {
        var d, t :| d in last.databases && t in d.tables && task == TaskFor(last, d, t);
        assert last in catalogs;
      }
      if exists c, d, t :: c in catalogs && d in c.databases && t in d.tables && task == TaskFor(c, d, t) {
        var c, d, t :| c in catalogs && d in c.databases && t in d.tables && task == TaskFor(c, d, t);
        if c !in prefix {
          assert c == last;
        }
      }
    }
  }

  lemma TableNodePathsExtend(task: SchemaTask, fetch: Fetcher)
    ensures PathsExtend(TableNode(task, fetch))
  {
    var table := TableNode(task, fetch);
    forall column | column in table.children
      ensures column.qualifiedIdentifier == table.qualifiedIdentifier + "." + column.displayLabel
      ensures PathsExtend(column)
    {
      ChildrenEmptyUnlessColumnsFetched(fetch, task);
      var fields := fetch(RequestOf(task)).body.fields.value;
      var i :| 0 <= i < |table.children| && table.children[i] == column;
      assert column.children == [];
    }
  }

  /**
   * Every entry's qualified identifier is the dot-joined path of display labels from its
   * catalog down to itself: a catalog's is its own name, and each child's is its parent's
   * followed by a dot and the child's label (for columns too).
   */
  lemma QualifiedIdentifiersArePaths(h: Hierarchy, fetch: Fetcher)
    ensures forall root | root in CatalogTree(h, fetch) ::
      root.qualifiedIdentifier == root.displayLabel && PathsExtend(root)
  {
    forall root | root in CatalogTree(h, fetch)
      ensures root.qualifiedIdentifier == root.displayLabel && PathsExtend(root)
    {
      var i :| 0 <= i < |h.catalogs| && CatalogTree(h, fetch)[i] == root;
      CatalogNodePathsExtend(h.catalogs[i], fetch);
    }
  }

  lemma CatalogNodePathsExtend(c: CatalogEntry, fetch: Fetcher)
    ensures PathsExtend(CatalogNode(c, fetch))
  {
    var root := CatalogNode(c, fetch);
    forall db | db in root.children
      ensures db.qualifiedIdentifier == root.qualifiedIdentifier + "." + db.displayLabel
      ensures PathsExtend(db)
    {
      var j :| 0 <= j < |c.databases| && root.children[j] == db;
      DatabaseNodePathsExtend(c, c.databases[j], fetch);
    }
  }

  lemma DatabaseNodePathsExtend(c: CatalogEntry, d: DatabaseEntry, fetch: Fetcher)
    ensures PathsExtend(DatabaseNode(c, d, fetch))
  {
    var db := DatabaseNode(c, d, fetch);
    forall table | table in db.children
      ensures table.qualifiedIdentifier == db.qualifiedIdentifier + "." + table.displayLabel
      ensures PathsExtend(table)
    {
      var k :| 0 <= k < |d.tables| && db.children[k] == table;
      TableNodePathsExtend(TaskFor(c, d, d.tables[k]), fetch);
    }
  }

  /**
   * A table whose schema fetch fails in any way gets no columns, and nothing else in the tree
   * changes: with `other` answering differently only for the request `bad`, every other table
   * keeps its entry and the tree keeps its shape.
   */
  lemma FetchFailureIsolated(h: Hierarchy, fetch: Fetcher, other: Fetcher, bad: SchemaRequest)
    requires forall r :: r != bad ==> other(r) == fetch(r)
    requires !HasColumns(other(bad))
    ensures |CatalogTree(h, other)| == |CatalogTree(h, fetch)|
    ensures var rows, rows', tasks := TableRows(CatalogTree(h, fetch)), TableRows(CatalogTree(h, other)), SchemaTasks(h.catalogs);
      && |rows'| == |rows| == |tasks|
      && forall k | 0 <= k < |tasks| ::
        && rows'[k].qualifiedIdentifier == rows[k].qualifiedIdentifier
        && (RequestOf(tasks[k]) != bad ==> rows'[k] == rows[k])
        && (RequestOf(tasks[k]) == bad ==> rows'[k].children == [])
  {
    EachTableGetsItsOwnFetch(h, fetch);
    EachTableGetsItsOwnFetch(h, other);
    var tasks := SchemaTasks(h.catalogs);
    forall k | 0 <= k < |tasks| && RequestOf(tasks[k]) == bad
      ensures ChildrenAfterFetch(other, tasks[k]) == []
    {
      ChildrenEmptyUnlessColumnsFetched(other, tasks[k]);
    }
  }
}
