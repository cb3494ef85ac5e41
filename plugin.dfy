/**
 * The part of the table plugin host that the tables use: qualifier values
 * handed down by the query planner, and the query's row sink with its row
 * budget.
 */
module Plugin {

  /** A qualifier value. Only the kinds the tables read are told apart. */
  datatype QualValue = StringValue(str: string) | BoolValue(flag: bool) | OtherValue
  {
    /** The string it holds, or "" when it holds another kind (protobuf getter). */
    function GetStringValue(): string
    {
      if StringValue? then str else ""
    }

    /** The boolean it holds, or false when it holds another kind (protobuf getter). */
    function GetBoolValue(): bool
    {
      if BoolValue? then flag else false
    }
  }

  /** One qualifier on a column: an operator such as "=" or "<>" and its value. */
  datatype Qual = Qual(operator: string, value: QualValue)

  /** Equality qualifiers by column name; a missing key is a nil entry. */
  type EqualsQualMap = map<string, QualValue>

  /** All qualifiers by column name, in the order the planner supplied them. */
  type QualMap = map<string, seq<Qual>>

  /** An error returned by a remote call. */
  datatype Error = Error(message: string)

  /** Budget left after `n` rows are streamed against `budget`; it stops at zero. */
  function RemainingAfter(budget: nat, n: nat): nat
  {
    if n <= budget then budget - n else 0
  }

  /**
   * The query's row sink. `rows` is everything streamed so far, in order;
   * `remaining` is how many more rows the caller wants.
   */
  class QueryData<R> {
    var rows: seq<R>
    var remaining: nat

    constructor (budget: nat)
      ensures rows == [] && remaining == budget
    {
      rows := [];
      remaining := budget;
    }

    /** Hands one row to the caller and charges it to the budget. */
    method StreamListItem(item: R)
      modifies this
      ensures rows == old(rows) + [item]
      ensures remaining == RemainingAfter(old(remaining), 1)
    {
      rows := rows + [item];
      remaining := RemainingAfter(remaining, 1);
    }

    /** Rows the caller still wants; zero means stop. */
    function RowsRemaining(): nat
      reads this
    {
      remaining
    }
  }
}
