/**
 * The azuread_user table: turning the planner's qualifiers into one OData
 * `$filter` expression (OData v4.01 Part 2, section 5.1.1.1, operators `eq`
 * and `and`), choosing the `memberOf` expansion, and streaming the users of
 * the single list request.
 */
module UserTable {
  import opened Wrappers
  import opened Strings
  import opened Plugin

  /** A user as the directory returns it; the table treats it as opaque. */
  datatype User = User(id: Option<string>, displayName: Option<string>, userPrincipalName: Option<string>)

  /** The `$expand` option: a relationship and the fields selected from it. */
  datatype Expand = Expand(relationship: string, select: seq<string>)

  /**
   * The list request's query options. `expand` is None when no expansion is
   * set; `filter` is "" when no `$filter` is sent.
   */
  datatype ODataQuery = ODataQuery(expand: Option<Expand>, filter: string)

  /** The `$expand` sent when the `member_of` column is requested. */
  const MemberOfExpand := Expand("memberOf", ["id", "displayName"])

  /** String columns whose equality qualifiers are pushed down, in emission order. */
  const FilterColumns: seq<string> := ["user_principal_name", "user_type", "id", "display_name", "surname"]

  /** The remote field name of a filter column (camel case of the column name). */
  function ToCamel(column: string): (field: string)
    requires column in FilterColumns
  {
    if column == "user_principal_name" then "userPrincipalName"
    else if column == "user_type" then "userType"
    else if column == "id" then "id"
    else if column == "display_name" then "displayName"
    else "surname"
  }

  /** Go's `%t` rendering of a boolean. */
  function BoolText(b: bool): string
  {
    if b then "true" else "false"
  }

  /** The clause `accountEnabled eq <b>`. */
  function AccountEnabledClause(b: bool): string
  {
    "accountEnabled eq " + BoolText(b)
  }

  /** The clause `<field> eq '<value>'`; the value is inserted unescaped. */
  function EqualsClause(column: string, v: QualValue): string
    requires column in FilterColumns
  {
    ToCamel(column) + " eq '" + v.GetStringValue() + "'"
  }

  /** Clauses for the present equality qualifiers among the first `n` filter columns. */
  function ColumnClauses(equalQuals: EqualsQualMap, n: nat): seq<string>
    requires n <= |FilterColumns|
  {
    if n == 0 then []
    else
      var column := FilterColumns[n - 1];
      ColumnClauses(equalQuals, n - 1)
      + (if column in equalQuals then [EqualsClause(column, equalQuals[column])] else [])
  }

  /** The clause list built from the equality qualifiers alone. */
  function QueryFilter(equalQuals: EqualsQualMap): seq<string>
  {
    (if "account_enabled" in equalQuals
     then [AccountEnabledClause(equalQuals["account_enabled"].GetBoolValue())]
     else [])
    + ColumnClauses(equalQuals, |FilterColumns|)
  }

  /**
   * The rewrite of the first `<>` qualifier on account_enabled into the
   * negated `eq` clause (the remote API has no `ne` for it); None when there is none.
   */
  function NotEqualRewrite(qs: seq<Qual>): Option<string>
  {
    if |qs| == 0 then None
    else if qs[0].operator == "<>" then Some(AccountEnabledClause(!qs[0].value.GetBoolValue()))
    else NotEqualRewrite(qs[1..])
  }

  /** All derived clauses: the equality clauses, then the `<>` rewrite if any. */
  function DerivedClauses(equalQuals: EqualsQualMap, quals: QualMap): seq<string>
  {
    QueryFilter(equalQuals)
    + (if "account_enabled" in quals && NotEqualRewrite(quals["account_enabled"]).Some?
       then [NotEqualRewrite(quals["account_enabled"]).value]
       else [])
  }

  /** The raw `filter` qualifier, or "" when it is absent. */
  function RawFilter(equalQuals: EqualsQualMap): string
  {
    if "filter" in equalQuals then equalQuals["filter"].GetStringValue() else ""
  }

  /** The `$filter` sent: the raw filter if non-empty, else the joined clauses, else "". */
  function FilterExpression(equalQuals: EqualsQualMap, quals: QualMap): string
  {
    var clauses := DerivedClauses(equalQuals, quals);
    if RawFilter(equalQuals) != "" then RawFilter(equalQuals)
    else if |clauses| > 0 then Join(clauses, " and ")
    else ""
  }

  /** The query options of the user list request. */
  function UserQuery(columns: seq<string>, equalQuals: EqualsQualMap, quals: QualMap): ODataQuery
  {
    ODataQuery(if "member_of" in columns then Some(MemberOfExpand) else None,
               FilterExpression(equalQuals, quals))
  }

  /** The five filter columns are pairwise distinct. */
  lemma FilterColumnsDistinct()
    ensures forall i, j | 0 <= i < j < |FilterColumns| :: FilterColumns[i] != FilterColumns[j]
  {
  }

  /** The prefix clause list has one clause per present qualifier among the first `n` columns. */
  lemma {:induction false} ColumnClausesCount(equalQuals: EqualsQualMap, n: nat)
    requires n <= |FilterColumns|
    ensures |ColumnClauses(equalQuals, n)| == |set c | c in FilterColumns[..n] && c in equalQuals|
  {
    if n == 0 {
      assert (set c | c in FilterColumns[..0] && c in equalQuals) == {};
    } else {
      ColumnClausesCount(equalQuals, n - 1);
      var column := FilterColumns[n - 1];
      var before := set c | c in FilterColumns[..n - 1] && c in equalQuals;
      var after := set c | c in FilterColumns[..n] && c in equalQuals;
      assert FilterColumns[..n] == FilterColumns[..n - 1] + [column];
      FilterColumnsDistinct();
      assert column !in before;
      if column in equalQuals {
        assert after == before + {column};
      } else {
        assert after == before;
      }
    }
  }

  /**
   * One clause per present qualifier among account_enabled and the five filter
   * columns; no other qualifier contributes.
   */
  lemma QueryFilterCount(equalQuals: EqualsQualMap)
    ensures |QueryFilter(equalQuals)|
            == (if "account_enabled" in equalQuals then 1 else 0)
               + |set c | c in FilterColumns && c in equalQuals|
  {
    ColumnClausesCount(equalQuals, |FilterColumns|);
    assert FilterColumns[..|FilterColumns|] == FilterColumns;
  }

  /** Every prefix clause comes from a present qualifier on one of the first `n` columns, and each such qualifier has its clause. */
  lemma {:induction false} ColumnClausesMembers(equalQuals: EqualsQualMap, n: nat)
    requires n <= |FilterColumns|
    ensures forall clause | clause in ColumnClauses(equalQuals, n) ::
              exists k | 0 <= k < n :: FilterColumns[k] in equalQuals
                                       && clause == EqualsClause(FilterColumns[k], equalQuals[FilterColumns[k]])
    ensures forall k | 0 <= k < n && FilterColumns[k] in equalQuals ::
              EqualsClause(FilterColumns[k], equalQuals[FilterColumns[k]]) in ColumnClauses(equalQuals, n)
  {
    if n > 0 {
      ColumnClausesMembers(equalQuals, n - 1);
    }
  }

  /**
   * Every clause of the list is the account_enabled clause or the clause of a
   * present filter column; every present one has its clause in the list.
   */
  lemma QueryFilterMembers(equalQuals: EqualsQualMap)
    ensures forall clause | clause in QueryFilter(equalQuals) ::
              ("account_enabled" in equalQuals
               && clause == AccountEnabledClause(equalQuals["account_enabled"].GetBoolValue()))
              || (exists c | c in FilterColumns && c in equalQuals :: clause == EqualsClause(c, equalQuals[c]))
    ensures forall c | c in FilterColumns && c in equalQuals :: EqualsClause(c, equalQuals[c]) in QueryFilter(equalQuals)
  {
    ColumnClausesMembers(equalQuals, |FilterColumns|);
  }

  /** Present columns k1 < k2 have their clauses in that order among the first `n` columns' clauses. */
  lemma {:induction false} ColumnClausesOrdered(equalQuals: EqualsQualMap, n: nat, k1: nat, k2: nat)
    requires k1 < k2 < n <= |FilterColumns|
    requires FilterColumns[k1] in equalQuals && FilterColumns[k2] in equalQuals
    ensures exists p, q | 0 <= p < q < |ColumnClauses(equalQuals, n)| ::
              ColumnClauses(equalQuals, n)[p] == EqualsClause(FilterColumns[k1], equalQuals[FilterColumns[k1]])
              && ColumnClauses(equalQuals, n)[q] == EqualsClause(FilterColumns[k2], equalQuals[FilterColumns[k2]])
  {
    var first := EqualsClause(FilterColumns[k1], equalQuals[FilterColumns[k1]]);
    var second := EqualsClause(FilterColumns[k2], equalQuals[FilterColumns[k2]]);
    var before := ColumnClauses(equalQuals, n - 1);
    if k2 == n - 1 {
      ColumnClausesMembers(equalQuals, n - 1);
      assert first in before;
      var p :| 0 <= p < |before| && before[p] == first;
      assert ColumnClauses(equalQuals, n) == before + [second];
      assert ColumnClauses(equalQuals, n)[p] == first && ColumnClauses(equalQuals, n)[|before|] == second;
    } else {
      ColumnClausesOrdered(equalQuals, n - 1, k1, k2);
      var p, q :| 0 <= p < q < |before| && before[p] == first && before[q] == second;
      assert ColumnClauses(equalQuals, n)[p] == first && ColumnClauses(equalQuals, n)[q] == second;
    }
  }

  /**
   * String equality clauses follow the fixed column order (user_principal_name,
   * user_type, id, display_name, surname), whatever order the qualifiers came in.
   */
  lemma QueryFilterFollowsColumnOrder(equalQuals: EqualsQualMap, k1: nat, k2: nat)
    requires k1 < k2 < |FilterColumns|
    requires FilterColumns[k1] in equalQuals && FilterColumns[k2] in equalQuals
    ensures exists p, q | 0 <= p < q < |QueryFilter(equalQuals)| ::
              QueryFilter(equalQuals)[p] == EqualsClause(FilterColumns[k1], equalQuals[FilterColumns[k1]])
              && QueryFilter(equalQuals)[q] == EqualsClause(FilterColumns[k2], equalQuals[FilterColumns[k2]])
  {
    ColumnClausesOrdered(equalQuals, |FilterColumns|, k1, k2);
    var cs := ColumnClauses(equalQuals, |FilterColumns|);
    var p, q :| 0 <= p < q < |cs|
                && cs[p] == EqualsClause(FilterColumns[k1], equalQuals[FilterColumns[k1]])
                && cs[q] == EqualsClause(FilterColumns[k2], equalQuals[FilterColumns[k2]]);
    var offset := |QueryFilter(equalQuals)| - |cs|;
    assert QueryFilter(equalQuals)[offset + p] == cs[p] && QueryFilter(equalQuals)[offset + q] == cs[q];
  }

  /** A qualifier on a column outside the filter columns leaves the prefix clauses unchanged. */
  lemma {:induction false} ColumnClausesIgnoreOtherColumn(equalQuals: EqualsQualMap, other: EqualsQualMap, n: nat)
    requires n <= |FilterColumns|
    requires forall c | c in FilterColumns :: (c in equalQuals <==> c in other)
    requires forall c | c in FilterColumns && c in equalQuals :: equalQuals[c] == other[c]
    ensures ColumnClauses(equalQuals, n) == ColumnClauses(other, n)
  {
    if n > 0 {
      ColumnClausesIgnoreOtherColumn(equalQuals, other, n - 1);
    }
  }

  /**
   * Adding or removing an equality qualifier on any column other than
   * account_enabled and the five filter columns (the raw `filter` column
   * included) does not change the clause list.
   */
  lemma QueryFilterIgnoresOtherQuals(equalQuals: EqualsQualMap, column: string, v: QualValue)
    requires column != "account_enabled" && column !in FilterColumns
    ensures QueryFilter(equalQuals[column := v]) == QueryFilter(equalQuals)
    ensures QueryFilter(equalQuals - {column}) == QueryFilter(equalQuals)
  {
    ColumnClausesIgnoreOtherColumn(equalQuals[column := v], equalQuals, |FilterColumns|);
    ColumnClausesIgnoreOtherColumn(equalQuals - {column}, equalQuals, |FilterColumns|);
  }

  /** Without any `<>` qualifier the rewrite adds nothing. */
  lemma {:induction false} NotEqualRewriteNone(qs: seq<Qual>)
    ensures NotEqualRewrite(qs).None? <==> forall i | 0 <= i < |qs| :: qs[i].operator != "<>"
  {
    if |qs| > 0 {
      NotEqualRewriteNone(qs[1..]);
      assert forall i | 1 <= i < |qs| :: qs[i] == qs[1..][i - 1];
    }
  }

  /**
   * Only the first `<>` qualifier counts: `<> true` gives `accountEnabled eq
   * false` and `<> false` gives `accountEnabled eq true`.
   */
  lemma {:induction false} NotEqualRewriteFirst(qs: seq<Qual>, i: nat)
    requires i < |qs| && qs[i].operator == "<>"
    requires forall j | 0 <= j < i :: qs[j].operator != "<>"
    ensures NotEqualRewrite(qs) == Some(AccountEnabledClause(!qs[i].value.GetBoolValue()))
    ensures NotEqualRewrite(qs) == Some(if qs[i].value.GetBoolValue() then "accountEnabled eq false" else "accountEnabled eq true")
  {
    assert AccountEnabledClause(false) == "accountEnabled eq false";
    assert AccountEnabledClause(true) == "accountEnabled eq true";
    if i > 0 {
      assert qs[1..][i - 1] == qs[i];
      NotEqualRewriteFirst(qs[1..], i - 1);
    }
  }

  /** A non-empty raw `filter` qualifier is sent verbatim, whatever the derived clauses are. */
  lemma RawFilterOverrides(columns: seq<string>, equalQuals: EqualsQualMap, quals: QualMap)
    requires "filter" in equalQuals && equalQuals["filter"].GetStringValue() != ""
    ensures UserQuery(columns, equalQuals, quals).filter == equalQuals["filter"].GetStringValue()
  {
  }

  /** No `$filter` is sent exactly when the raw filter is empty and no clause was derived. */
  lemma NoFilterWithoutClauses(columns: seq<string>, equalQuals: EqualsQualMap, quals: QualMap)
    ensures UserQuery(columns, equalQuals, quals).filter == ""
            <==> RawFilter(equalQuals) == "" && DerivedClauses(equalQuals, quals) == []
  {
    var clauses := DerivedClauses(equalQuals, quals);
    if RawFilter(equalQuals) == "" && |clauses| > 0 {
      assert clauses[0] <= Join(clauses, " and ");
      if "account_enabled" in equalQuals {
        assert |clauses[0]| > 0;
      } else if |ColumnClauses(equalQuals, |FilterColumns|)| > 0 {
        ColumnClausesMembers(equalQuals, |FilterColumns|);
        assert clauses[0] in ColumnClauses(equalQuals, |FilterColumns|);
      } else {
        assert clauses[0] == NotEqualRewrite(quals["account_enabled"]).value;
        assert |clauses[0]| > 0 by {
          NotEqualRewriteNonEmpty(quals["account_enabled"]);
        }
      }
    }
  }

  /** A rewrite, when there is one, is an `accountEnabled eq` clause. */
  lemma {:induction false} NotEqualRewriteNonEmpty(qs: seq<Qual>)
    ensures NotEqualRewrite(qs).Some? ==>
              NotEqualRewrite(qs).value in {AccountEnabledClause(true), AccountEnabledClause(false)}
  {
    if |qs| > 0 && qs[0].operator != "<>" {
      NotEqualRewriteNonEmpty(qs[1..]);
    }
  }

  /**
   * With an equality qualifier on account_enabled and no raw filter, the
   * filter starts with `accountEnabled eq true` or `accountEnabled eq false`.
   */
  lemma FilterStartsWithAccountEnabled(columns: seq<string>, equalQuals: EqualsQualMap, quals: QualMap)
    requires RawFilter(equalQuals) == "" && "account_enabled" in equalQuals
    ensures AccountEnabledClause(equalQuals["account_enabled"].GetBoolValue())
            <= UserQuery(columns, equalQuals, quals).filter
    ensures "accountEnabled eq true" <= UserQuery(columns, equalQuals, quals).filter
            || "accountEnabled eq false" <= UserQuery(columns, equalQuals, quals).filter
  {
  }

  /**
   * The `<>` rewrite is appended after all equality clauses: with no raw
   * filter it ends the filter, joined by " and " when other clauses precede it.
   */
  lemma NotEqualClauseComesLast(columns: seq<string>, equalQuals: EqualsQualMap, quals: QualMap)
    requires RawFilter(equalQuals) == ""
    requires "account_enabled" in quals && NotEqualRewrite(quals["account_enabled"]).Some?
    ensures var clause := NotEqualRewrite(quals["account_enabled"]).value;
            UserQuery(columns, equalQuals, quals).filter
            == if QueryFilter(equalQuals) == [] then clause
               else Join(QueryFilter(equalQuals), " and ") + " and " + clause
  {
    var clause := NotEqualRewrite(quals["account_enabled"]).value;
    if QueryFilter(equalQuals) != [] {
      JoinSnoc(QueryFilter(equalQuals), clause, " and ");
    } else {
      assert DerivedClauses(equalQuals, quals) == [clause];
    }
  }

  /** The clause list for `display_name = 'Alice'`: the one string clause. */
  lemma DisplayNameExampleClauses()
    ensures QueryFilter(map["display_name" := StringValue("Alice")]) == ["displayName eq 'Alice'"]
  {
    var equalQuals := map["display_name" := StringValue("Alice")];
    assert ColumnClauses(equalQuals, 1) == [] by {
      assert |FilterColumns[0]| == 19;
    }
    assert ColumnClauses(equalQuals, 2) == [] by {
      assert |FilterColumns[1]| == 9;
    }
    assert ColumnClauses(equalQuals, 3) == [] by {
      assert |FilterColumns[2]| == 2;
    }
    assert ColumnClauses(equalQuals, 4) == [EqualsClause("display_name", StringValue("Alice"))];
    assert ColumnClauses(equalQuals, 5) == ColumnClauses(equalQuals, 4) by {
      assert |FilterColumns[4]| == 7;
    }
    assert EqualsClause("display_name", StringValue("Alice")) == "displayName eq 'Alice'";
  }

  /** `display_name = 'Alice'` and `account_enabled <> true` give the expected filter. */
  lemma DisplayNameAndNotEnabledExample()
    ensures UserQuery([], map["display_name" := StringValue("Alice")],
                      map["account_enabled" := [Qual("<>", BoolValue(true))]]).filter
            == "displayName eq 'Alice' and accountEnabled eq false"
  {
    var equalQuals := map["display_name" := StringValue("Alice")];
    var quals := map["account_enabled" := [Qual("<>", BoolValue(true))]];
    DisplayNameExampleClauses();
    NotEqualRewriteFirst(quals["account_enabled"], 0);
    var clauses := ["displayName eq 'Alice'", "accountEnabled eq false"];
    assert DerivedClauses(equalQuals, quals) == clauses;
    assert RawFilter(equalQuals) == "";
    assert Join(clauses, " and ") == clauses[0] + " and " + Join(clauses[1..], " and ");
  }

  /** Builds the clause list from the equality qualifiers. */
  method BuildQueryFilter(equalQuals: EqualsQualMap) returns (filters: seq<string>)
    ensures filters == QueryFilter(equalQuals)
    ensures "account_enabled" in equalQuals ==>
              |filters| > 0 && filters[0] == AccountEnabledClause(equalQuals["account_enabled"].GetBoolValue())
    ensures "account_enabled" !in equalQuals ==> |filters| <= |FilterColumns|
  {
    filters := [];
    if "account_enabled" in equalQuals {
      filters := filters + [AccountEnabledClause(equalQuals["account_enabled"].GetBoolValue())];
    }
    ghost var head := filters;
    for i := 0 to |FilterColumns|
      invariant filters == head + ColumnClauses(equalQuals, i)
      invariant |ColumnClauses(equalQuals, i)| <= i
    {
      var qual := FilterColumns[i];
      if qual in equalQuals {
        filters := filters + [EqualsClause(qual, equalQuals[qual])];
      }
    }
  }

  /** Builds the query options: the expansion, the clause list, the `<>` rewrite and the filter. */
  method BuildUserQuery(columns: seq<string>, equalQuals: EqualsQualMap, quals: QualMap) returns (input: ODataQuery)
    ensures input == UserQuery(columns, equalQuals, quals)
    ensures input.expand.Some? <==> "member_of" in columns
    ensures input.expand.Some? ==> input.expand.value == Expand("memberOf", ["id", "displayName"])
  {
    input := ODataQuery(None, "");
    if "member_of" in columns {
      input := input.(expand := Some(MemberOfExpand));
    }

    var queryFilter := "";
    var filter := BuildQueryFilter(equalQuals);

    if "account_enabled" in quals {
      var qs := quals["account_enabled"];
      var i := 0;
      while i < |qs|
        invariant 0 <= i <= |qs|
        invariant NotEqualRewrite(qs[i..]) == NotEqualRewrite(qs)
        invariant filter == QueryFilter(equalQuals)
      {
        var value := qs[i].value.GetBoolValue();
        if qs[i].operator == "<>" {
          assert NotEqualRewrite(qs) == Some(AccountEnabledClause(!value));
          assert AccountEnabledClause(false) == "accountEnabled eq false";
          assert AccountEnabledClause(true) == "accountEnabled eq true";
          if value {
            filter := filter + ["accountEnabled eq false"];
          } else {
            filter := filter + ["accountEnabled eq true"];
          }
          assert filter == DerivedClauses(equalQuals, quals);
          break;
        }
        assert qs[i..][1..] == qs[i + 1..];
        i := i + 1;
      }
      assert i == |qs| ==> NotEqualRewrite(qs) == NotEqualRewrite(qs[i..]) == None;
    }
    assert filter == DerivedClauses(equalQuals, quals);

    if "filter" in equalQuals {
      queryFilter := equalQuals["filter"].GetStringValue();
    }

    if queryFilter != "" {
      input := input.(filter := queryFilter);
    } else if |filter| > 0 {
      input := input.(filter := Join(filter, " and "));
    }
  }

  /** The users endpoint: `respond` is what the directory answers, `requests` logs each call. */
  class UsersClient {
    const respond: ODataQuery -> Result<seq<User>, Error>
    var requests: seq<ODataQuery>

    constructor (respond: ODataQuery -> Result<seq<User>, Error>)
      ensures this.respond == respond && requests == []
    {
      this.respond := respond;
      requests := [];
    }

    /** One list request with the given query options. */
    method List(input: ODataQuery) returns (users: Result<seq<User>, Error>)
      modifies this
      ensures requests == old(requests) + [input]
      ensures users == respond(input)
    {
      requests := requests + [input];
      users := respond(input);
    }
  }

  /**
   * Lists users: one request with the built query options; on success every
   * user is streamed in order, with no row-budget check.
   */
  method ListAdUsers(d: QueryData<User>, client: UsersClient, columns: seq<string>,
                     equalQuals: EqualsQualMap, quals: QualMap) returns (err: Option<Error>)
    modifies d, client
    ensures client.requests == old(client.requests) + [UserQuery(columns, equalQuals, quals)]
    ensures client.respond(UserQuery(columns, equalQuals, quals)).Failure? ==>
              err == Some(client.respond(UserQuery(columns, equalQuals, quals)).error)
              && d.rows == old(d.rows) && d.remaining == old(d.remaining)
    ensures client.respond(UserQuery(columns, equalQuals, quals)).Success? ==>
              var users := client.respond(UserQuery(columns, equalQuals, quals)).value;
              err == None && d.rows == old(d.rows) + users
              && d.remaining == RemainingAfter(old(d.remaining), |users|)
  {
    var input := BuildUserQuery(columns, equalQuals, quals);

    var pagesLeft := true;
    while pagesLeft
      invariant pagesLeft ==> client.requests == old(client.requests)
                              && d.rows == old(d.rows) && d.remaining == old(d.remaining)
      invariant !pagesLeft ==> client.requests == old(client.requests) + [input]
                               && client.respond(input).Success?
                               && d.rows == old(d.rows) + client.respond(input).value
                               && d.remaining == RemainingAfter(old(d.remaining), |client.respond(input).value|)
      decreases if pagesLeft then 1 else 0
    {
      var users := client.List(input);
      if users.Failure? {
        return Some(users.error);
      }

      var page := users.value;
      for k := 0 to |page|
        invariant client.requests == old(client.requests) + [input] && users == client.respond(input)
        invariant d.rows == old(d.rows) + page[..k]
        invariant d.remaining == RemainingAfter(old(d.remaining), k)
      {
        d.StreamListItem(page[k]);
        assert page[..k + 1] == page[..k] + [page[k]];
      }
      assert page[..|page|] == page;
      pagesLeft := false;
    }
    return None;
  }
}
