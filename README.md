# Azure AD tables: filter push-down, budgeted streaming and member paging

This project models two tables of the Azure AD plugin for the Steampipe query engine.

- `azuread_user` listing. The planner's qualifiers become one OData `$filter` expression. The operators are `eq` and `and`, as in OData v4.01 Part 2, section 5.1.1.1. Equality on `account_enabled` gives `accountEnabled eq true|false`. Equality on `user_principal_name`, `user_type`, `id`, `display_name` and `surname` gives `<field> eq '<value>'`. These clauses come in that fixed column order, and the value is not escaped. `account_enabled <> b` is rewritten as `accountEnabled eq !b`, because the remote API has no `ne` for that field. A non-empty raw `filter` qualifier replaces everything. Otherwise the clauses are joined with `" and "`. The `memberOf` expansion is set only when `member_of` is requested. Exactly one list request is made, and every returned user is streamed in order.
- `azuread_directory_role`. Roles are listed with one request and streamed in order. The row budget is checked after each streamed row. A get takes the `id` qualifier: an empty id gives no row and makes no request. Otherwise the id is sent verbatim as the `$filter` and the first role returned is the answer. A role's member ids are collected across all member pages. The title column is the display name, falling back to the id.

Files:

- `wrappers.dfy`: `Option` and `Result`.
- `strings.dfy`: `Join`, which is Go's `strings.Join`.
- `plugin.dfy`: the host side. It holds qualifier values with their protobuf getters, where a getter returns `""` or `false` for a value of another kind. It also holds `QueryData`, the row sink with its row budget.
- `user_table.dfy`: the user table.
- `directory_role_table.dfy`: the directory role table.

Remote endpoints are classes. Each has a constant `respond` function, which is what the directory answers. The users and role-list endpoints also keep a `requests` log, so the contracts can say how many requests are made and with which options. `QueryData.remaining` is the row budget. `StreamListItem` appends the row and lowers the budget by one, stopping at zero. `RowsRemaining()` reads the budget.

## Model

| member | source | states |
|---|---|---|
| `UserTable.BuildQueryFilter` | azuread/table_azuread_user.go:173-195 | The result is the clause list: the account_enabled clause first when that qualifier is present, then one `eq` clause per present filter column. It has at most five clauses when account_enabled is absent. |
| `UserTable.QueryFilterCount` | azuread/table_azuread_user.go:173-194 | The list has exactly one clause per present qualifier among account_enabled and the five filter columns. |
| `UserTable.QueryFilterMembers` | azuread/table_azuread_user.go:184-192 | Every clause is the account_enabled clause or `<camelName> eq '<value>'` for a present filter column. Every present filter column has its clause in the list. |
| `UserTable.QueryFilterFollowsColumnOrder` | azuread/table_azuread_user.go:176-192 | For any two present filter columns, their clauses appear in the fixed order user_principal_name, user_type, id, display_name, surname. |
| `UserTable.QueryFilterIgnoresOtherQuals` | azuread/table_azuread_user.go:184-192 | Adding or removing an equality qualifier on any other column leaves the clause list unchanged. This includes the raw `filter` column. |
| `UserTable.DisplayNameExampleClauses` | azuread/table_azuread_user.go:188-192 | `display_name = 'Alice'` alone gives the single clause `displayName eq 'Alice'`. |
| `UserTable.NotEqualRewriteNone` | azuread/table_azuread_user.go:117-130 | The `<>` rewrite adds a clause if and only if some account_enabled qualifier uses `<>`. |
| `UserTable.NotEqualRewriteFirst` | azuread/table_azuread_user.go:119-128 | Only the first `<>` qualifier counts. `<> true` gives `accountEnabled eq false` and `<> false` gives `accountEnabled eq true`. |
| `UserTable.BuildUserQuery` | azuread/table_azuread_user.go:103-140 | The query options are exactly `UserQuery`. The `memberOf` expansion, selecting `id` and `displayName`, is set if and only if `member_of` is requested. |
| `UserTable.RawFilterOverrides` | azuread/table_azuread_user.go:132-137 | A non-empty raw `filter` qualifier is the `$filter` verbatim, whatever the other qualifiers are. |
| `UserTable.NoFilterWithoutClauses` | azuread/table_azuread_user.go:136-140 | The `$filter` stays unset if and only if the raw filter is empty and no clause was derived. |
| `UserTable.FilterStartsWithAccountEnabled` | azuread/table_azuread_user.go:184-186 | With an account_enabled equality and no raw filter, the `$filter` begins with `accountEnabled eq true` or `accountEnabled eq false`. |
| `UserTable.NotEqualClauseComesLast` | azuread/table_azuread_user.go:115-139 | With no raw filter, the `<>` rewrite is the last clause of the `$filter`. It follows the equality clauses after `" and "`, or stands alone when there are none. |
| `UserTable.DisplayNameAndNotEnabledExample` | azuread/table_azuread_user.go:115-140 | `display_name = 'Alice'` with `account_enabled <> true` gives `displayName eq 'Alice' and accountEnabled eq false`. |
| `UserTable.UsersClient.List` | azuread/table_azuread_user.go:148 | One list request is logged and answered by the directory. |
| `UserTable.ListAdUsers` | azuread/table_azuread_user.go:146-159 | Exactly one list request is made, with the built query options. On success every user is streamed in order and no error is returned; the row budget is charged but never stops the stream. On failure the error is returned and nothing is streamed. |
| `Strings.Join` | azuread/table_azuread_user.go:139 | The joined string begins with the first clause. Its length is the clause lengths plus one separator between each pair of neighbours. |
| `Strings.JoinSnoc` | azuread/table_azuread_user.go:139 | Joining one more clause appends the separator and that clause. |
| `Plugin.QueryData.StreamListItem` | azuread/table_azuread_directory_role.go:73 | The row is appended to the rows streamed so far, and the budget drops by one, stopping at zero. |
| `DirectoryRoleTable.DirectoryRolesClient.Get` | azuread/table_azuread_directory_role.go:99-103 | One role-list request, with its optional `$filter`, is logged and answered by the directory. |
| `DirectoryRoleTable.ListAdDirectoryRoles` | azuread/table_azuread_directory_role.go:65-81 | One unfiltered request is made. On failure the error is returned and no row is streamed. On success the first `EmittedCount(N, K)` roles are streamed in order, and the budget is charged for them. |
| `DirectoryRoleTable.EmittedCountIsMin` | azuread/table_azuread_directory_role.go:72-79 | Because the check follows each row, a budget K >= 1 over N roles streams exactly min(K, N) rows. With K = 0 the model's budget, which never goes below zero, also stops after the first row. |
| `DirectoryRoleTable.BudgetTwoOfFourExample` | azuread/table_azuread_directory_role.go:72-79 | A budget of 2 over 4 roles streams exactly the first two. |
| `DirectoryRoleTable.GetAdDirectoryRole` | azuread/table_azuread_directory_role.go:86-111 | An empty or missing id returns no item and no error, and makes no request. Any other id makes one request, with the id verbatim as the `$filter`, and returns that response's error or its first role. |
| `DirectoryRoleTable.FirstRole` | azuread/table_azuread_directory_role.go:104-110 | An error passes through. A successful, non-empty response gives its first role. |
| `DirectoryRoleTable.ShouldIgnoreGetError` | azuread/table_azuread_directory_role.go:24-26 | A get error is dropped if and only if it matches `Request_ResourceNotFound` or `Invalid object identifier`. |
| `DirectoryRoleTable.GetDirectoryRoleMembers` | azuread/table_azuread_directory_role.go:137-161 | The result is `MemberIds` of the role's member pages. It is either the error of the first failed fetch, or every member id of every page in iteration order. |
| `DirectoryRoleTable.MemberIdsOutcome` | azuread/table_azuread_directory_role.go:137-161 | The id list fails if and only if the first fetch or a later page fails, and no partial list is returned. On success it holds one id per member, starting with the first page's ids. |
| `DirectoryRoleTable.FirstErrorIsFirstFailure` | azuread/table_azuread_directory_role.go:151-160 | The paging error reported is the earliest failing page fetch. There is none if and only if every fetch succeeded. |
| `DirectoryRoleTable.DirectoryRoleTitle` | azuread/table_azuread_directory_role.go:166-178 | No item gives no title. Otherwise the title is the display name when it is set, else the id. It is nil exactly when both are nil. |

## Left out

- Session and client construction: `GetNewSession`, `GetGraphClient` and the authorizer wiring. Their connection errors are not modelled; the models start after a client exists.
- The Graph SDK calls. `client.List`, `DirectoryRoles().Get` and `Members().Get` are modelled as the `respond` and `members` functions of the client classes. The page iterator is a finite list of page fetches: the first response, then each page reached through a next link. A next-link chain that never ends is therefore not modelled.
- `NewPageIterator` failing to construct (azuread/table_azuread_directory_role.go:145-149) is not modelled, because the SDK's conditions for it are not part of this model.
- The `ConsistencyLevel: eventual` header and the `$count` parameter of the members request. These are transport detail.
- `getErrorObject` is not part of this model. Errors are returned as the fetch reported them.
- `ShouldIgnoreGetError`: how a pattern is matched against an error is a parameter. The matching in `isIgnorableErrorPredicate` is not part of this model. How the host applies the ignore rule to the get result is also left out.
- Context cancellation and logging. `RowsRemaining` in the model reads only the row budget. It does not report zero on a cancelled context.
- `StreamListItem` assumes the host's remaining-row count drops by exactly one per streamed row and never goes below zero. The host's counter is not part of this model. If it is signed and can go negative, the result would differ.
- `EmittedCountIsMin`: its K = 0 clause (one row streamed, then stop) holds only under that zero-clamped budget. If the host's count went below zero, the `== 0` test would never fire and every role would be streamed. Its K >= 1 clause does not depend on this.
- A query with no row limit is modelled by a budget at least as large as the number of rows.
- Table and column declarations and the `transform` bindings. The host's column-driven hydrate dispatch is left out too, because it belongs to the plugin host. For example, `member_ids` is fetched only when requested.
- `getTenantId` and `getTenant`. They only read session state.
- `strcase.ToCamel` is replaced by a fixed table for the five filter columns.
- `GetAdDirectoryRole` requires a successful response to hold at least one role. The source indexes `[0]` without a check, so an empty response panics.
- `GetDirectoryRoleMembers` requires the role to have an id. The source dereferences it without a check.
- Users and roles are opaque records carrying only the fields the tables read.
