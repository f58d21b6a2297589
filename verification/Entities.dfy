/** The entity objects that queries return, and the trees they stand for. A world names the tree of
    every object in it; it is closed when every object's fields agree with its tree. */
module Entities {
  import opened Wrappers
  import opened Relational
  import opened Schema
  import opened Cells
  import opened Queries

  datatype EdgeError = NotLoaded(edge: string) | NotFound(entity: string)

  /** A group or a proxy. */
  class Leaf {
    const row: LeafRow

    constructor (row: LeafRow)
      ensures this.row == row
    {
      this.row := row;
    }
  }

  /** What an account holds that queries write. */
  datatype Fields = Fields(
    row: AccountRow,
    loaded: Loaded,
    groups: seq<Leaf>,
    proxy: Leaf?,
    parent: Account?,
    children: seq<Account>,
    accountGroups: seq<AccountGroup>)

  datatype JoinFields = JoinFields(row: JoinTableRow, loaded: JoinLoaded, account: Account?, group: Leaf?)

  class Account {
    var id: int
    var proxyID: Option<int>
    var parentAccountID: Option<int>
    var attrs: map<AccountColumn, Value>
    var selectValues: map<AccountColumn, Cell>

    // edges
    var groups: seq<Leaf>
    var proxy: Leaf?
    var parent: Account?
    var children: seq<Account>
    var accountGroups: seq<AccountGroup>
    var loaded: Loaded

    constructor (loaded: Loaded)
      ensures Row() == ZERO_ACCOUNT && this.loaded == loaded && selectValues == map[]
      ensures groups == [] && proxy == null && parent == null && children == [] && accountGroups == []
    {
      id, proxyID, parentAccountID, attrs, selectValues := 0, None, None, map[], map[];
      groups, proxy, parent, children, accountGroups := [], null, null, [], [];
      this.loaded := loaded;
    }

    function Row(): AccountRow
      reads this
    {
      AccountRow(id, proxyID, parentAccountID, attrs)
    }

    function Contents(): Fields
      reads this
    {
      Fields(Row(), loaded, groups, proxy, parent, children, accountGroups)
    }

    function Scan(): AccountScan
      reads this
    {
      AccountScan(Row(), selectValues)
    }

    /** Allocates one destination for each column. */
    static method ScanValues(columns: seq<AccountColumn>) returns (values: array<Cell>)
      ensures fresh(values) && values.Length == |columns|
      ensures forall i | 0 <= i < |columns| :: values[i] == NewCell(AccountKind(columns[i]))
    {
      values := new Cell[|columns|](_ => NullInt64(false, 0));
      for i := 0 to |columns|
        invariant forall j | 0 <= j < i :: values[j] == NewCell(AccountKind(columns[j]))
      {
        values[i] := NewCell(AccountKind(columns[i]));
      }
    }

    method AssignValue(column: AccountColumn, v: Cell)
      requires OfKind(AccountKind(column), v)
      modifies this`id, this`proxyID, this`parentAccountID, this`attrs, this`selectValues
      ensures Scan() == AssignAccount(old(Scan()), column, v)
    {
      if column.ID? {
        id := v.int64;
      } else if column.ProxyID? {
        if v.valid { proxyID := Some(v.int64); }
      } else if column.ParentAccountID? {
        if v.valid { parentAccountID := Some(v.int64); }
      } else if column.OtherColumn? {
        selectValues := selectValues[column := v];
      } else if Held(v).Some? {
        attrs := attrs[column := Held(v).value];
      }
    }

    /** Assigns scanned values to fields until one is of an unexpected type. */
    method AssignValues(columns: seq<AccountColumn>, values: seq<Cell>) returns (err: Option<Error>)
      modifies this`id, this`proxyID, this`parentAccountID, this`attrs, this`selectValues
      ensures |values| < |columns| ==> err == Some(ValueMismatch) && Scan() == old(Scan())
      ensures |columns| <= |values| ==>
        var at := FirstMismatch(AccountKinds(columns), values);
        && err == (if at < |columns| then Some(UnexpectedType) else None)
        && (forall i | 0 <= i < at :: OfKind(AccountKind(columns[i]), values[i]))
        && Scan() == AssignAccountAll(old(Scan()), columns[..at], values)
    {
      if |values| < |columns| { return Some(ValueMismatch); }
      ghost var at := FirstMismatch(AccountKinds(columns), values);
      assert forall i | 0 <= i < at :: OfKind(AccountKinds(columns)[i], values[i]);
      for i := 0 to |columns|
        invariant i <= at
        invariant Scan() == AssignAccountAll(old(Scan()), columns[..i], values)
      {
        assert AccountKinds(columns)[i] == AccountKind(columns[i]);
        if !OfKind(AccountKind(columns[i]), values[i]) { return Some(UnexpectedType); }
        assert i < at;
        assert columns[..i + 1][..i] == columns[..i];
        AssignValue(columns[i], values[i]);
      }
      return None;
    }

    // ----- edges -----

    function GroupsOrErr(): Result<seq<Leaf>, EdgeError>
      reads this
    {
      if loaded.groups then Success(groups) else Failure(NotLoaded("groups"))
    }

    function ChildrenOrErr(): Result<seq<Account>, EdgeError>
      reads this
    {
      if loaded.children then Success(children) else Failure(NotLoaded("children"))
    }

    function AccountGroupsOrErr(): Result<seq<AccountGroup>, EdgeError>
      reads this
    {
      if loaded.accountGroups then Success(accountGroups) else Failure(NotLoaded("account_groups"))
    }

    function ProxyOrErr(): Result<Leaf, EdgeError>
      reads this
    {
      if proxy != null then Success(proxy)
      else if loaded.proxy then Failure(NotFound("proxy"))
      else Failure(NotLoaded("proxy"))
    }

    function ParentOrErr(): Result<Account, EdgeError>
      reads this
    {
      if parent != null then Success(parent)
      else if loaded.parent then Failure(NotFound("account"))
      else Failure(NotLoaded("parent"))
    }
  }

  /** A row of the join table as an entity with edges of its own. */
  class AccountGroup {
    var accountID: int
    var groupID: int
    var priority: int
    var createdAt: int
    var selectValues: map<JoinColumn, Cell>

    var account: Account?
    var group: Leaf?
    var loaded: JoinLoaded

    constructor (loaded: JoinLoaded)
      ensures Row() == ZERO_JOIN && this.loaded == loaded && selectValues == map[]
      ensures account == null && group == null
    {
      accountID, groupID, priority, createdAt, selectValues := 0, 0, 0, 0, map[];
      account, group := null, null;
      this.loaded := loaded;
    }

    function Row(): JoinTableRow
      reads this
    {
      JoinTableRow(accountID, groupID, priority, createdAt)
    }

    function Contents(): JoinFields
      reads this
    {
      JoinFields(Row(), loaded, account, group)
    }

    function Scan(): JoinScan
      reads this
    {
      JoinScan(Row(), selectValues)
    }

    static method ScanValues(columns: seq<JoinColumn>) returns (values: array<Cell>)
      ensures fresh(values) && values.Length == |columns|
      ensures forall i | 0 <= i < |columns| :: values[i] == NewCell(JoinKind(columns[i]))
    {
      values := new Cell[|columns|](_ => NullInt64(false, 0));
      for i := 0 to |columns|
        invariant forall j | 0 <= j < i :: values[j] == NewCell(JoinKind(columns[j]))
      {
        values[i] := NewCell(JoinKind(columns[i]));
      }
    }

    method AssignValues(columns: seq<JoinColumn>, values: seq<Cell>) returns (err: Option<Error>)
      modifies this`accountID, this`groupID, this`priority, this`createdAt, this`selectValues
      ensures |values| < |columns| ==> err == Some(ValueMismatch) && Scan() == old(Scan())
      ensures |columns| <= |values| ==>
        var at := FirstMismatch(JoinKinds(columns), values);
        && err == (if at < |columns| then Some(UnexpectedType) else None)
        && (forall i | 0 <= i < at :: OfKind(JoinKind(columns[i]), values[i]))
        && Scan() == AssignJoinAll(old(Scan()), columns[..at], values)
    {
      if |values| < |columns| { return Some(ValueMismatch); }
      ghost var at := FirstMismatch(JoinKinds(columns), values);
      assert forall i | 0 <= i < at :: OfKind(JoinKinds(columns)[i], values[i]);
      for i := 0 to |columns|
        invariant i <= at
        invariant Scan() == AssignJoinAll(old(Scan()), columns[..i], values)
      {
        assert JoinKinds(columns)[i] == JoinKind(columns[i]);
        if !OfKind(JoinKind(columns[i]), values[i]) { return Some(UnexpectedType); }
        assert i < at;
        assert columns[..i + 1][..i] == columns[..i];
        var v := values[i];
        match columns[i] {
          case AccountIDColumn => if v.valid { accountID := v.int64; }
          case GroupIDColumn => if v.valid { groupID := v.int64; }
          case JoinPriority => if v.valid { priority := v.int64; }
          case JoinCreatedAt => if v.valid { createdAt := v.time; }
          case OtherJoinColumn(_) => selectValues := selectValues[columns[i] := v];
        }
      }
      return None;
    }

    function AccountOrErr(): Result<Account, EdgeError>
      reads this
    {
      if account != null then Success(account)
      else if loaded.account then Failure(NotFound("account"))
      else Failure(NotLoaded("account"))
    }

    function GroupOrErr(): Result<Leaf, EdgeError>
      reads this
    {
      if group != null then Success(group)
      else if loaded.group then Failure(NotFound("group"))
      else Failure(NotLoaded("group"))
    }
  }

  // ----- objects and trees -----

  ghost predicate LeafIs(leaf: Leaf?, row: Option<LeafRow>) {
    if leaf == null then row == None else row == Some(leaf.row)
  }

  ghost predicate LeavesAre(leaves: seq<Leaf>, rows: seq<LeafRow>) {
    |leaves| == |rows| && forall i | 0 <= i < |rows| :: leaves[i].row == rows[i]
  }

  /** The trees of finished objects. */
  datatype World = World(accounts: map<Account, AccountTree>, joins: map<AccountGroup, JoinTree>)

  ghost const EMPTY := World(map[], map[])

  ghost predicate AccountIs(a: Account?, tree: Option<AccountTree>, w: World) {
    if a == null then tree == None else a in w.accounts && tree == Some(w.accounts[a])
  }

  ghost predicate AccountsAre(accounts: seq<Account>, trees: seq<AccountTree>, w: World) {
    && |accounts| == |trees|
    && forall i | 0 <= i < |trees| :: accounts[i] in w.accounts && w.accounts[accounts[i]] == trees[i]
  }

  ghost predicate JoinsAre(joins: seq<AccountGroup>, trees: seq<JoinTree>, w: World) {
    && |joins| == |trees|
    && forall i | 0 <= i < |trees| :: joins[i] in w.joins && w.joins[joins[i]] == trees[i]
  }

  /** The fields of an account agree with a tree, and its edges lead into a world. */
  ghost predicate FieldsOK(f: Fields, tree: AccountTree, w: World) {
    && tree.row == f.row && tree.loaded == f.loaded
    && LeavesAre(f.groups, tree.groups)
    && LeafIs(f.proxy, tree.proxy)
    && AccountIs(f.parent, tree.parent, w)
    && AccountsAre(f.children, tree.children, w)
    && JoinsAre(f.accountGroups, tree.accountGroups, w)
  }

  ghost predicate AccountOK(a: Account, tree: AccountTree, w: World)
    reads a
  {
    FieldsOK(a.Contents(), tree, w)
  }

  ghost predicate JoinFieldsOK(f: JoinFields, tree: JoinTree, w: World) {
    && tree.row == f.row && tree.loaded == f.loaded
    && AccountIs(f.account, tree.account, w)
    && LeafIs(f.group, tree.group)
  }

  ghost predicate JoinOK(j: AccountGroup, tree: JoinTree, w: World)
    reads j
  {
    JoinFieldsOK(j.Contents(), tree, w)
  }

  /** Every object of the world agrees with its tree and its edges stay inside the world. A tree is
      finite, so no chain of edges through a closed world runs longer than the tree is deep. */
  ghost predicate Closed(w: World)
    reads w.accounts.Keys, w.joins.Keys
  {
    && (forall a | a in w.accounts :: AccountOK(a, w.accounts[a], w))
    && (forall j | j in w.joins :: JoinOK(j, w.joins[j], w))
  }

  ghost predicate Apart(w: World, v: World) {
    w.accounts.Keys !! v.accounts.Keys && w.joins.Keys !! v.joins.Keys
  }

  ghost predicate Within(w: World, v: World) {
    && (forall a | a in w.accounts :: a in v.accounts && v.accounts[a] == w.accounts[a])
    && (forall j | j in w.joins :: j in v.joins && v.joins[j] == w.joins[j])
  }

  ghost function Union(w: World, v: World): (u: World)
    ensures Within(v, u) && (Apart(w, v) ==> Within(w, u))
  {
    World(w.accounts + v.accounts, w.joins + v.joins)
  }

  lemma UnionEmpty(v: World)
    ensures Union(EMPTY, v) == v
  {
  }

  lemma LessNothing(v: World)
    ensures v.accounts.Keys - EMPTY.accounts.Keys == v.accounts.Keys && v.joins.Keys - EMPTY.joins.Keys == v.joins.Keys
  {
  }

  lemma FieldsOKGrows(f: Fields, tree: AccountTree, w: World, v: World)
    requires FieldsOK(f, tree, w) && Within(w, v)
    ensures FieldsOK(f, tree, v)
  {
  }

  lemma JoinFieldsOKGrows(f: JoinFields, tree: JoinTree, w: World, v: World)
    requires JoinFieldsOK(f, tree, w) && Within(w, v)
    ensures JoinFieldsOK(f, tree, v)
  {
  }

  lemma ClosedUnion(w: World, v: World)
    requires Closed(w) && Closed(v) && Apart(w, v)
    ensures Closed(Union(w, v))
  {
    var u := Union(w, v);
    forall a | a in u.accounts ensures AccountOK(a, u.accounts[a], u) {
      if a in v.accounts {
        FieldsOKGrows(a.Contents(), v.accounts[a], v, u);
      } else {
        FieldsOKGrows(a.Contents(), w.accounts[a], w, u);
      }
    }
    forall j | j in u.joins ensures JoinOK(j, u.joins[j], u) {
      if j in v.joins {
        JoinFieldsOKGrows(j.Contents(), v.joins[j], v, u);
      } else {
        JoinFieldsOKGrows(j.Contents(), w.joins[j], w, u);
      }
    }
  }
}
