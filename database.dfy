/**
 * The recipients table `users(id SERIAL, chat_id TEXT UNIQUE, keywords TEXT,
 * mailing_kwork, mailing_fl, mailing_freelancer BOOLEAN)` and the `Database` wrapper
 * around its connection. The table is held in memory as its rows in table order; the
 * `Users()` view maps each `chat_id` to its row. A statement run while there is no
 * connection raises; `update_user` and `add_user` re-raise (here: return `false`),
 * while `get_user` and the selects catch it and return `None` or `[]`.
 */
module Db {
  import opened Wrappers
  import opened Text

  /** `SELECT *` yields `(id, chat_id, keywords, mailing_kwork, mailing_fl, mailing_freelancer)`. */
  datatype Row = Row(id: int, chatId: string, keywords: Option<string>,
                     mailingKwork: bool, mailingFl: bool, mailingFreelancer: bool)

  /** The three sources a recipient can subscribe to, one flag column each. */
  datatype Service = KworkService | FlService | FreelancerService

  function Flag(r: Row, s: Service): bool {
    match s
    case KworkService => r.mailingKwork
    case FlService => r.mailingFl
    case FreelancerService => r.mailingFreelancer
  }

  /** `chat_id` is unique, and every `id` was drawn from the serial before `nextId`, in table order. */
  predicate ValidTable(rows: seq<Row>, nextId: int) {
    && (forall i, j :: 0 <= i < j < |rows| ==> rows[i].chatId != rows[j].chatId)
    && (forall i, j :: 0 <= i < j < |rows| ==> rows[i].id < rows[j].id)
    && (forall i :: 0 <= i < |rows| ==> rows[i].id < nextId)
  }

  // ---------------------------------------------------------------- update_user

  /** The optional arguments of `update_user`; `None` is "not given". */
  datatype Patch = Patch(keywords: Option<string>, mailingKwork: Option<bool>,
                         mailingFl: Option<bool>, mailingFreelancer: Option<bool>)

  /** The updatable columns, in the order `update_user` tests them. */
  datatype Column = KeywordsCol | MailingKworkCol | MailingFlCol | MailingFreelancerCol

  function Rank(c: Column): nat {
    match c
    case KeywordsCol => 0
    case MailingKworkCol => 1
    case MailingFlCol => 2
    case MailingFreelancerCol => 3
  }

  function ColumnName(c: Column): string {
    match c
    case KeywordsCol => "keywords"
    case MailingKworkCol => "mailing_kwork"
    case MailingFlCol => "mailing_fl"
    case MailingFreelancerCol => "mailing_freelancer"
  }

  predicate Given(p: Patch, c: Column) {
    match c
    case KeywordsCol => p.keywords.Some?
    case MailingKworkCol => p.mailingKwork.Some?
    case MailingFlCol => p.mailingFl.Some?
    case MailingFreelancerCol => p.mailingFreelancer.Some?
  }

  /** A query parameter. */
  datatype SqlValue = Text(s: string) | Boolean(b: bool)

  function ValueOf(p: Patch, c: Column): SqlValue
    requires Given(p, c)
  {
    match c
    case KeywordsCol => Text(p.keywords.value)
    case MailingKworkCol => Boolean(p.mailingKwork.value)
    case MailingFlCol => Boolean(p.mailingFl.value)
    case MailingFreelancerCol => Boolean(p.mailingFreelancer.value)
  }

  /** The columns a patch sets, in the fixed order; exactly those given, each once, in ascending rank. */
  function Provided(p: Patch): (cs: seq<Column>)
    ensures forall c :: c in cs <==> Given(p, c)
    ensures forall i, j :: 0 <= i < j < |cs| ==> Rank(cs[i]) < Rank(cs[j])
  {
    (if p.keywords.Some? then [KeywordsCol] else [])
    + (if p.mailingKwork.Some? then [MailingKworkCol] else [])
    + (if p.mailingFl.Some? then [MailingFlCol] else [])
    + (if p.mailingFreelancer.Some? then [MailingFreelancerCol] else [])
  }

  /** The column `c`, when the patch gives it. */
  function IfGiven(p: Patch, c: Column): seq<Column> {
    if Given(p, c) then [c] else []
  }

  /** The clause `"{column} = %s"`. */
  function Clause(c: Column): string {
    ColumnName(c) + " = %s"
  }

  /** The statement text for a list of clauses. */
  function Query(fields: seq<string>): string {
    "UPDATE users SET " + Join(fields, ", ") + " WHERE chat_id = %s;"
  }

  function Clauses(cs: seq<Column>): seq<string> {
    seq(|cs|, i requires 0 <= i < |cs| => Clause(cs[i]))
  }

  function Values(p: Patch, cs: seq<Column>): seq<SqlValue>
    requires forall c :: c in cs ==> Given(p, c)
  {
    seq(|cs|, i requires 0 <= i < |cs| => ValueOf(p, cs[i]))
  }

  lemma ListsSnoc(p: Patch, cs: seq<Column>, c: Column)
    requires forall c' :: c' in cs ==> Given(p, c')
    requires Given(p, c)
    ensures Clauses(cs + [c]) == Clauses(cs) + [Clause(c)]
    ensures Values(p, cs + [c]) == Values(p, cs) + [ValueOf(p, c)]
  {
  }

  /**
   * The two lists `update_user` builds: one clause per given argument in the fixed
   * order, and the values in the same order.
   */
  method BuildUpdate(p: Patch) returns (fields: seq<string>, values: seq<SqlValue>)
    ensures fields == Clauses(Provided(p))
    ensures values == Values(p, Provided(p))
  {
    fields, values := [], [];
    fields, values := AddIfGiven(p, KeywordsCol, fields, values, []);
    fields, values := AddIfGiven(p, MailingKworkCol, fields, values, IfGiven(p, KeywordsCol));
    fields, values := AddIfGiven(p, MailingFlCol, fields, values,
                                 IfGiven(p, KeywordsCol) + IfGiven(p, MailingKworkCol));
    fields, values := AddIfGiven(p, MailingFreelancerCol, fields, values,
                                 IfGiven(p, KeywordsCol) + IfGiven(p, MailingKworkCol) + IfGiven(p, MailingFlCol));
  }

  /** One `if <arg> is not None:` of `update_user`: the clause and the value of `c`, appended when given. */
  method AddIfGiven(p: Patch, c: Column, fields: seq<string>, values: seq<SqlValue>, ghost cols: seq<Column>)
    returns (fields': seq<string>, values': seq<SqlValue>)
    requires forall c' :: c' in cols ==> Given(p, c')
    requires fields == Clauses(cols) && values == Values(p, cols)
    ensures forall c' :: c' in cols + IfGiven(p, c) ==> Given(p, c')
    ensures fields' == Clauses(cols + IfGiven(p, c)) && values' == Values(p, cols + IfGiven(p, c))
  {
    if Given(p, c) {
      ListsSnoc(p, cols, c);
      fields' := fields + [Clause(c)];
      values' := values + [ValueOf(p, c)];
    } else {
      assert cols + IfGiven(p, c) == cols;
      fields', values' := fields, values;
    }
  }

  /** What the `UPDATE` does to a row it matches: the given columns take the given values. */
  function Apply(r: Row, p: Patch): (r': Row)
    ensures r'.id == r.id && r'.chatId == r.chatId
    ensures r'.keywords == (if Given(p, KeywordsCol) then p.keywords else r.keywords)
    ensures r'.mailingKwork == (if Given(p, MailingKworkCol) then p.mailingKwork.value else r.mailingKwork)
    ensures r'.mailingFl == (if Given(p, MailingFlCol) then p.mailingFl.value else r.mailingFl)
    ensures r'.mailingFreelancer == (if Given(p, MailingFreelancerCol) then p.mailingFreelancer.value else r.mailingFreelancer)
  {
    r.(keywords := if p.keywords.Some? then p.keywords else r.keywords,
       mailingKwork := p.mailingKwork.GetOr(r.mailingKwork),
       mailingFl := p.mailingFl.GetOr(r.mailingFl),
       mailingFreelancer := p.mailingFreelancer.GetOr(r.mailingFreelancer))
  }

  /** A patch with nothing given leaves a row as it is. */
  lemma ApplyEmpty(r: Row, p: Patch)
    requires Provided(p) == []
    ensures Apply(r, p) == r
  {
    assert !Given(p, KeywordsCol) && !Given(p, MailingKworkCol) && !Given(p, MailingFlCol) && !Given(p, MailingFreelancerCol);
  }

  /** The rows after `UPDATE ... WHERE chat_id = chatId`. */
  function UpdateRows(rows: seq<Row>, chatId: string, p: Patch): seq<Row> {
    seq(|rows|, i requires 0 <= i < |rows| => if rows[i].chatId == chatId then Apply(rows[i], p) else rows[i])
  }

  // ---------------------------------------------------------------- selects

  /** The elements of `xs` that `keep` admits, in order: a `WHERE` clause. */
  function Where<T>(xs: seq<T>, keep: T -> bool): (ys: seq<T>)
    ensures |ys| <= |xs|
    decreases |xs|
  {
    if xs == [] then []
    else
      var init := Where(xs[..|xs| - 1], keep);
      if keep(xs[|xs| - 1]) then init + [xs[|xs| - 1]] else init
  }

  lemma {:induction false} WhereMembers<T>(xs: seq<T>, keep: T -> bool, x: T)
    ensures x in Where(xs, keep) <==> x in xs && keep(x)
    decreases |xs|
  {
    if xs != [] {
      WhereMembers(xs[..|xs| - 1], keep, x);
      assert xs == xs[..|xs| - 1] + [xs[|xs| - 1]];
    }
  }

  lemma WhereSnoc<T>(xs: seq<T>, x: T, keep: T -> bool)
    ensures Where(xs + [x], keep) == Where(xs, keep) + (if keep(x) then [x] else [])
  {
    assert (xs + [x])[..|xs|] == xs;
  }

  lemma {:induction false} WhereAppend<T>(xs: seq<T>, ys: seq<T>, keep: T -> bool)
    ensures Where(xs + ys, keep) == Where(xs, keep) + Where(ys, keep)
    decreases |ys|
  {
    if ys == [] {
      assert xs + ys == xs;
    } else {
      var init, y := ys[..|ys| - 1], ys[|ys| - 1];
      WhereAppend(xs, init, keep);
      assert xs + ys == (xs + init) + [y];
      WhereSnoc(xs + init, y, keep);
      WhereSnoc(init, y, keep);
    }
  }

  /** `SELECT * FROM users WHERE mailing_{s} = TRUE`, in table order. */
  function Subscribers(rows: seq<Row>, s: Service): seq<Row> {
    Where(rows, r => Flag(r, s))
  }

  /** The selection holds exactly the rows whose flag for `s` is set. */
  lemma SubscribersMembers(rows: seq<Row>, s: Service, r: Row)
    ensures r in Subscribers(rows, s) <==> r in rows && Flag(r, s)
  {
    WhereMembers(rows, r => Flag(r, s), r);
  }

  /** The selection keeps the table's order: selecting from two runs of rows is selecting from each. */
  lemma SubscribersAppend(xs: seq<Row>, ys: seq<Row>, s: Service)
    ensures Subscribers(xs + ys, s) == Subscribers(xs, s) + Subscribers(ys, s)
  {
    WhereAppend(xs, ys, r => Flag(r, s));
  }

  /** The table as a map from `chat_id` to row. */
  function UsersOf(rows: seq<Row>): map<string, Row>
    decreases |rows|
  {
    if rows == [] then map[]
    else UsersOf(rows[..|rows| - 1])[rows[|rows| - 1].chatId := rows[|rows| - 1]]
  }

  /** The map has an entry for exactly the `chat_id`s of the table. */
  lemma {:induction false} UsersOfKeys(rows: seq<Row>, k: string)
    ensures k in UsersOf(rows) <==> exists i :: 0 <= i < |rows| && rows[i].chatId == k
    decreases |rows|
  {
    if rows != [] {
      var init := rows[..|rows| - 1];
      UsersOfKeys(init, k);
      if exists i :: 0 <= i < |init| && init[i].chatId == k {
        var i :| 0 <= i < |init| && init[i].chatId == k;
        assert rows[i].chatId == k;
      }
      if exists i :: 0 <= i < |rows| && rows[i].chatId == k {
        var i :| 0 <= i < |rows| && rows[i].chatId == k;
        if i < |init| { assert init[i].chatId == k; }
      }
    }
  }

  class Database {
    const dsn: string
    /** Whether `self.conn` holds an open connection. */
    var connected: bool
    /** The `users` table, in table order. */
    var rows: seq<Row>
    /** The next value of the `id` serial. */
    var nextId: int

    predicate Valid()
      reads this
    {
      ValidTable(rows, nextId)
    }

    /** The table as a map from `chat_id` to row. */
    function Users(): map<string, Row>
      reads this
    {
      UsersOf(rows)
    }

    /** `Database()`: the connection string is fixed, and there is no connection yet. */
    constructor (dsn: string, rows: seq<Row>, nextId: int)
      requires ValidTable(rows, nextId)
      ensures Valid() && !connected
      ensures this.dsn == dsn && this.rows == rows && this.nextId == nextId
    {
      this.dsn := dsn;
      connected := false;
      this.rows := rows;
      this.nextId := nextId;
    }

    /** `connect`: opens the connection when the server can be reached, and raises otherwise; the table is kept. */
    method Connect(reachable: bool) returns (ok: bool)
      modifies this
      ensures ok == reachable
      ensures connected == (reachable || old(connected))
      ensures rows == old(rows) && nextId == old(nextId)
    {
      if !reachable {
        return false;
      }
      connected := true;
      return true;
    }

    /** `disconnect`: closes an open connection; with none, it does nothing. */
    method Disconnect()
      modifies this
      ensures !connected
      ensures rows == old(rows) && nextId == old(nextId)
    {
      if connected {
        connected := false;
      }
    }

    /**
     * `update_user`: with no argument given, nothing happens; otherwise the row for
     * `chatId` (if any) takes the given values and nothing else changes. Without a
     * connection the statement raises (`ok == false`) and nothing changes.
     */
    method UpdateUser(chatId: string, p: Patch) returns (ok: bool, query: Option<string>, values: seq<SqlValue>)
      requires Valid()
      modifies this
      ensures Valid()
      ensures Provided(p) == [] ==> ok && query == None && rows == old(rows)
      ensures Provided(p) != [] && !connected ==> !ok && rows == old(rows)
      ensures Provided(p) != [] && connected ==> ok && rows == UpdateRows(old(rows), chatId, p)
      ensures Provided(p) != [] && connected && chatId in old(Users()) ==> Users() == old(Users())[chatId := Apply(old(Users())[chatId], p)]
      ensures Provided(p) != [] && connected && chatId !in old(Users()) ==> Users() == old(Users())
      ensures query.Some? ==> query.value == Query(Clauses(Provided(p)))
      ensures query.Some? ==> values == Values(p, Provided(p)) + [Text(chatId)]
      ensures query.None? <==> Provided(p) == []
      ensures connected == old(connected) && nextId == old(nextId)
    {
      var fields, vals := BuildUpdate(p);
      if fields == [] {
        return true, None, [];
      }
      query := Some(Query(fields));
      values := vals + [Text(chatId)];
      if !connected {
        return false, query, values;
      }
      UpdateUsersView(rows, chatId, p);
      rows := UpdateRows(rows, chatId, p);
      return true, query, values;
    }

    /** `get_user`: the row for `chatId`, or `None` when there is none or no connection. */
    method GetUser(chatId: string) returns (user: Option<Row>)
      ensures !connected ==> user == None
      ensures connected ==> user == (if chatId in Users() then Some(Users()[chatId]) else None)
    {
      if !connected {
        return None;
      }
      if chatId in Users() {
        return Some(Users()[chatId]);
      }
      return None;
    }

    /**
     * `add_user`: `INSERT ... ON CONFLICT (chat_id) DO NOTHING`. A new `chat_id` gets a
     * row with the next serial id at the end of the table; an existing row is left as it
     * is. The serial advances either way.
     */
    method AddUser(chatId: string, keywords: Option<string>, mailingKwork: bool, mailingFl: bool, mailingFreelancer: bool)
      returns (ok: bool)
      requires Valid()
      modifies this
      ensures Valid()
      ensures ok == old(connected) && connected == old(connected)
      ensures !ok ==> rows == old(rows) && nextId == old(nextId)
      ensures ok && chatId in old(Users()) ==> rows == old(rows)
      ensures ok && chatId !in old(Users()) ==> rows == old(rows) + [Row(old(nextId), chatId, keywords, mailingKwork, mailingFl, mailingFreelancer)]
      ensures ok && chatId !in old(Users()) ==> Users() == old(Users())[chatId := Row(old(nextId), chatId, keywords, mailingKwork, mailingFl, mailingFreelancer)]
      ensures ok ==> nextId == old(nextId) + 1
    {
      if !connected {
        return false;
      }
      if chatId !in Users() {
        var row := Row(nextId, chatId, keywords, mailingKwork, mailingFl, mailingFreelancer);
        InsertKeepsValid(rows, nextId, row);
        UsersOfSnoc(rows, row);
        rows := rows + [row];
      }
      nextId := nextId + 1;
      return true;
    }

    /** `get_users_for_kwork`. */
    method GetUsersForKwork() returns (users: seq<Row>)
      ensures users == (if connected then Subscribers(rows, KworkService) else [])
    {
      if !connected {
        return [];
      }
      users := Subscribers(rows, KworkService);
    }

    /** `get_users_for_fl`. */
    method GetUsersForFl() returns (users: seq<Row>)
      ensures users == (if connected then Subscribers(rows, FlService) else [])
    {
      if !connected {
        return [];
      }
      users := Subscribers(rows, FlService);
    }

    /** `get_users_for_freelancer`. */
    method GetUsersForFreelancer() returns (users: seq<Row>)
      ensures users == (if connected then Subscribers(rows, FreelancerService) else [])
    {
      if !connected {
        return [];
      }
      users := Subscribers(rows, FreelancerService);
    }
  }

  /** Inserting a row with a new `chat_id` and the next serial id keeps the table valid. */
  lemma InsertKeepsValid(rows: seq<Row>, nextId: int, row: Row)
    requires ValidTable(rows, nextId)
    requires row.chatId !in UsersOf(rows) && row.id == nextId
    ensures ValidTable(rows + [row], nextId + 1)
  {
    UsersOfKeys(rows, row.chatId);
    var rows' := rows + [row];
    assert forall i :: 0 <= i < |rows| ==> rows'[i] == rows[i];
  }

  /** On the map view, appending a row adds its entry. */
  lemma UsersOfSnoc(rows: seq<Row>, row: Row)
    ensures UsersOf(rows + [row]) == UsersOf(rows)[row.chatId := row]
  {
    assert (rows + [row])[..|rows|] == rows;
  }

  /** An update changes only the row for `chatId`, and in it only the given columns. */
  lemma UpdateOnlyTarget(rows: seq<Row>, chatId: string, p: Patch, i: nat)
    requires i < |rows|
    ensures rows[i].chatId != chatId ==> UpdateRows(rows, chatId, p)[i] == rows[i]
    ensures rows[i].chatId == chatId ==> UpdateRows(rows, chatId, p)[i] == Apply(rows[i], p)
    ensures |UpdateRows(rows, chatId, p)| == |rows|
  {
  }

  /** An update keeps the table valid. */
  lemma UpdateKeepsValid(rows: seq<Row>, nextId: int, chatId: string, p: Patch)
    requires ValidTable(rows, nextId)
    ensures ValidTable(UpdateRows(rows, chatId, p), nextId)
  {
    var rows' := UpdateRows(rows, chatId, p);
    assert forall i :: 0 <= i < |rows| ==> rows'[i].chatId == rows[i].chatId && rows'[i].id == rows[i].id;
  }

  lemma UpdateRowsSnoc(rows: seq<Row>, chatId: string, p: Patch)
    requires rows != []
    ensures UpdateRows(rows, chatId, p)[..|rows| - 1] == UpdateRows(rows[..|rows| - 1], chatId, p)
  {
  }

  /** On the map view, an update is a point update of the row for `chatId`, if there is one. */
  lemma {:induction false} UpdateUsersView(rows: seq<Row>, chatId: string, p: Patch)
    ensures var m := UsersOf(rows);
      UsersOf(UpdateRows(rows, chatId, p)) == if chatId in m then m[chatId := Apply(m[chatId], p)] else m
    decreases |rows|
  {
    if rows != [] {
      UpdateRowsSnoc(rows, chatId, p);
      UpdateUsersView(rows[..|rows| - 1], chatId, p);
    }
  }
}
