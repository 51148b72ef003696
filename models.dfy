/** The helpers of `ModelBase` in `api/src/db/models.py` and the NOT NULL
    columns of the `user` and `article` tables. */
module Models {
  import opened Py

  /** A mapped object: the attributes it holds and the names of its table's
      columns, in table order. */
  class Model {
    const className: string
    const columns: seq<string>
    var attrs: map<string, PyObj>

    constructor (className: string, columns: seq<string>, attrs: map<string, PyObj>)
      ensures this.className == className && this.columns == columns && this.attrs == attrs
    {
      this.className, this.columns, this.attrs := className, columns, attrs;
    }

    /** `from_dict`: every column named in `values` takes its value from it. */
    method FromDict(values: map<string, PyObj>)
      modifies this
      ensures attrs == Merged(old(attrs), columns, values)
    {
      var i := 0;
      while i < |columns|
        invariant 0 <= i <= |columns|
        invariant attrs == Merged(old(attrs), columns[..i], values)
      {
        var c := columns[i];
        if c in values {
          attrs := attrs[c := values[c]];
        }
        MergedStep(old(attrs), columns[..i], c, values);
        assert columns[..i + 1] == columns[..i] + [c];
        i := i + 1;
      }
      assert columns[..i] == columns;
    }
  }

  /** The attributes after `from_dict`: a name that is a column and a key of
      `values` takes the value, every other attribute keeps its own. */
  function Merged(attrs: map<string, PyObj>, columns: seq<string>, values: map<string, PyObj>): map<string, PyObj> {
    map k | k in attrs.Keys + (set c | c in columns && c in values) ::
      if k in columns && k in values then values[k] else attrs[k]
  }

  /** Setting the columns one at a time builds Merged column by column. */
  lemma MergedStep(attrs: map<string, PyObj>, done: seq<string>, c: string, values: map<string, PyObj>)
    ensures Merged(attrs, done + [c], values)
              == if c in values then Merged(attrs, done, values)[c := values[c]] else Merged(attrs, done, values)
  {
    var lhs := Merged(attrs, done + [c], values);
    var rhs := if c in values then Merged(attrs, done, values)[c := values[c]] else Merged(attrs, done, values);
    assert forall k :: k in done + [c] <==> k in done || k == c;
    assert lhs.Keys == rhs.Keys;
  }

  /** What `from_dict` promises, key by key: exactly the columns that are keys
      of `values` change, other attributes stay, and keys that are not
      columns are ignored. */
  lemma MergedSetsExactlyColumns(attrs: map<string, PyObj>, columns: seq<string>, values: map<string, PyObj>, k: string)
    ensures k in columns && k in values ==> k in Merged(attrs, columns, values) && Merged(attrs, columns, values)[k] == values[k]
    ensures !(k in columns && k in values) ==>
              (k in Merged(attrs, columns, values) <==> k in attrs) &&
              (k in attrs ==> Merged(attrs, columns, values)[k] == attrs[k])
  {
  }

  /** `get_or_raise` once the query's answer is known: the instance if there
      is one; else the given exception class, instantiated; else
      `NotFoundError` with the message only when asked for. */
  function GetOrRaise(className: string, identity: string, found: Option<PyObj>,
                      exception: Option<string>, withMessage: bool): (r: Result<PyObj>)
    ensures found.Some? <==> r.Ok?
    ensures found.Some? ==> r.value == found.value
    ensures found.None? && exception.Some? ==> r == Err(Custom(exception.value))
    ensures found.None? && exception.None? ==>
              r.Err? && r.error.NotFoundError? &&
              (r.error.message.Some? <==> withMessage) &&
              (withMessage ==> r.error.message.value == className + " #" + identity + " not found.")
  {
    if found.Some? then Ok(found.value)
    else if exception.Some? then Err(Custom(exception.value))
    else Err(NotFoundError(if withMessage then Some(className + " #" + identity + " not found.") else None))
  }

  function Prefix(): string { "TRUNCATE TABLE " }

  /** The statement `truncate` runs: schema `public` unless the metadata
      names a (non-empty) schema. */
  function TruncateSql(schema: Option<string>, table: string): (sql: string)
    ensures |sql| > |Prefix()| && sql[..|Prefix()|] == Prefix()
  {
    var s := if schema.Some? && schema.value != "" then schema.value else "public";
    Prefix() + s + "." + table
  }

  /** The statement names the schema and the table, separated by a dot, and
      falls back to `public`. */
  lemma TruncateSqlShape(schema: Option<string>, table: string)
    ensures schema.None? ==> TruncateSql(schema, table) == "TRUNCATE TABLE public." + table
    ensures schema.Some? && schema.value == "" ==> TruncateSql(schema, table) == "TRUNCATE TABLE public." + table
    ensures schema.Some? && schema.value != "" ==>
              TruncateSql(schema, table) == "TRUNCATE TABLE " + schema.value + "." + table
  {
  }

  /** `is_relation_loaded`: the relation is not among the unloaded ones. */
  predicate IsRelationLoaded(relation: string, unloaded: set<string>) {
    relation !in unloaded
  }

  /** A column as the models declare it. */
  datatype Column = Column(name: string, nullable: bool, primaryKey: bool)

  const UserColumns: seq<Column> := [
    Column("id", false, true),
    Column("login", false, false),
    Column("password", false, false),
    Column("first_name", true, false),
    Column("last_name", true, false)
  ]

  const ArticleColumns: seq<Column> := [
    Column("id", false, true),
    Column("title", false, false),
    Column("content", false, false),
    Column("category_id", false, false),
    Column("user_id", false, false)
  ]

  /** A row the table accepts: every NOT NULL column other than the
      generated primary key has a value (a missing key is NULL). */
  predicate Accepts(columns: seq<Column>, row: map<string, Option<PyObj>>)
  {
    forall i :: 0 <= i < |columns| && !columns[i].nullable && !columns[i].primaryKey ==>
      columns[i].name in row && row[columns[i].name].Some?
  }

  function HasValue(row: map<string, Option<PyObj>>, name: string): bool {
    name in row && row[name].Some?
  }

  /** A user row is accepted exactly when `login` and `password` are set. */
  lemma UserNotNull(row: map<string, Option<PyObj>>)
    ensures Accepts(UserColumns, row) <==> HasValue(row, "login") && HasValue(row, "password")
  {
    if HasValue(row, "login") && HasValue(row, "password") {
      forall i | 0 <= i < |UserColumns| && !UserColumns[i].nullable && !UserColumns[i].primaryKey
        ensures UserColumns[i].name in row && row[UserColumns[i].name].Some?
      {
        assert i == 1 || i == 2;
      }
    }
    if Accepts(UserColumns, row) {
      assert UserColumns[1].name == "login" && UserColumns[2].name == "password";
    }
  }

  /** An article row is accepted exactly when title, content, category and
      author are set. */
  lemma ArticleNotNull(row: map<string, Option<PyObj>>)
    ensures Accepts(ArticleColumns, row) <==>
              HasValue(row, "title") && HasValue(row, "content") &&
              HasValue(row, "category_id") && HasValue(row, "user_id")
  {
    if HasValue(row, "title") && HasValue(row, "content") && HasValue(row, "category_id") && HasValue(row, "user_id") {
      forall i | 0 <= i < |ArticleColumns| && !ArticleColumns[i].nullable && !ArticleColumns[i].primaryKey
        ensures ArticleColumns[i].name in row && row[ArticleColumns[i].name].Some?
      {
        assert 1 <= i <= 4;
      }
    }
    if Accepts(ArticleColumns, row) {
      assert ArticleColumns[1].name == "title" && ArticleColumns[2].name == "content";
      assert ArticleColumns[3].name == "category_id" && ArticleColumns[4].name == "user_id";
    }
  }
}
