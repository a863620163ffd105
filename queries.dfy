/**
 * The whitelisted query templates of src/queries/templates.js, the filter
 * injection of `getTemplate`, and the query collaborator of
 * src/queries/executor.js reduced to its contract: the template is resolved
 * (which can fail), then the database is asked, and either rows or a failure
 * come back. The database, its connection pool and the timeout race are the
 * parameter `db`.
 */
module Queries {
  import opened Wrappers
  import opened Strings
  import opened Js
  import Window

  /** An equality filter `{ column, value }`. */
  datatype Filter = Filter(column: string, value: Value)

  /** `/^[a-zA-Z0-9_]+$/`. */
  predicate ValidColumn(column: string) {
    |column| > 0 && forall i :: 0 <= i < |column| ==> IsWordChar(column[i])
  }

  /** The first filter whose column fails the whitelist, if any (`map` throws at it). */
  function FirstInvalidColumn(filters: seq<Filter>): (r: Option<string>)
    ensures r.None? <==> forall i :: 0 <= i < |filters| ==> ValidColumn(filters[i].column)
    ensures r.Some? ==> !ValidColumn(r.value)
  {
    if filters == [] then None
    else if !ValidColumn(filters[0].column) then Some(filters[0].column)
    else
      var rest := FirstInvalidColumn(filters[1..]);
      assert forall i :: 1 <= i < |filters| ==> filters[i] == filters[1..][i - 1];
      rest
  }

  /** `AND col = ?` for one filter. */
  function Condition(f: Filter): string {
    "AND " + f.column + " = ?"
  }

  /** The conditions of all filters, space-joined, in filter order. */
  function Clause(filters: seq<Filter>): string {
    if |filters| == 0 then ""
    else if |filters| == 1 then Condition(filters[0])
    else Condition(filters[0]) + " " + Clause(filters[1..])
  }

  /** Where the clause goes: before the first "GROUP BY", else before the first "ORDER BY". */
  function InsertionPoint(sql: string): (r: Option<nat>)
    ensures Contains(sql, "GROUP BY") ==> r == IndexOf(sql, "GROUP BY")
    ensures !Contains(sql, "GROUP BY") ==> r == IndexOf(sql, "ORDER BY")
    ensures r.Some? ==> r.value <= |sql|
  {
    if Contains(sql, "GROUP BY") then IndexOf(sql, "GROUP BY") else IndexOf(sql, "ORDER BY")
  }

  /**
   * The text substitution of `getTemplate`: `sql.replace('GROUP BY', clause + ' GROUP BY')`,
   * else the same for "ORDER BY", else `sql + ' ' + clause`.
   */
  function InjectClause(sql: string, clause: string): (r: string)
    ensures InsertionPoint(sql).Some? ==>
              var i := InsertionPoint(sql).value; r == sql[..i] + clause + " " + sql[i..]
    ensures InsertionPoint(sql).None? ==> r == sql + " " + clause
  {
    match InsertionPoint(sql)
    case None => sql + " " + clause
    case Some(i) =>
      var marker := if Contains(sql, "GROUP BY") then "GROUP BY" else "ORDER BY";
      ReplaceAt(sql, i, marker, clause);
      sql[..i] + (clause + " " + marker) + sql[i + |marker|..]
  }

  /** Replacing an occurrence of `w` by `clause + " " + w` inserts `clause + " "` in front of it. */
  lemma ReplaceAt(sql: string, i: nat, w: string, clause: string)
    requires OccursAt(sql, w, i)
    ensures sql[..i] + (clause + " " + w) + sql[i + |w|..] == sql[..i] + clause + " " + sql[i..]
  {
    assert sql[i..] == w + sql[i + |w|..];
  }

  /** The names the template table knows. */
  predicate IsTemplateName(name: string) {
    name == "OVERALL_SUMMARY" || name == "PAYMENT_GATEWAY_DISTRIBUTION" || name == "PAYMENT_GATEWAY_PENDING_RATE"
    || name == "DISCOUNT_USAGE_DISTRIBUTION" || name == "DISCOUNT_CODE_BREAKDOWN" || name == "PRODUCT_CONVERSION_CONTRIBUTION"
    || name == "PRODUCT_PRICE_BUCKET_DISTRIBUTION" || name == "AOV_DISTRIBUTION" || name == "NEW_VS_RETURNING_CUSTOMERS"
    || name == "ORDER_FAILURE_TIME_CLUSTER"
  }

  /** The SQL text of each whitelisted template. */
  function TemplateSql(name: string): string
    requires IsTemplateName(name)
  {
    if name == "OVERALL_SUMMARY" then @"
    SELECT 
      SUM(total_sessions) AS sessions,
      SUM(total_orders) AS orders,
      SUM(total_sales) AS gmv,
      (SUM(total_orders) / NULLIF(SUM(total_sessions), 0)) * 100 AS cvr
    FROM overall_summary
    -- Note: Schema provided only showed 'date'. Assuming 'created_at' or 'date' handles time filtering 
    -- or utilizing 'date' range for approximating granular windows if strict timestamp missing.
    -- For now, keeping logic generic to time filtering.
    WHERE date >= ? AND date < ?
  "
    else if name == "PAYMENT_GATEWAY_DISTRIBUTION" then @"
    SELECT
      payment_gateway_names AS gateway,
      COUNT(*) AS order_count
    FROM shopify_orders
    WHERE created_at >= ? AND created_at < ?
    GROUP BY payment_gateway_names
    ORDER BY order_count DESC
  "
    else if name == "PAYMENT_GATEWAY_PENDING_RATE" then @"
    SELECT
      payment_gateway_names AS gateway,
      SUM(financial_status = 'pending') AS pending_orders,
      COUNT(*) AS total_orders,
      (SUM(financial_status = 'pending') / NULLIF(COUNT(*), 0)) * 100 AS pending_rate
    FROM shopify_orders
    WHERE created_at >= ? AND created_at < ?
    GROUP BY payment_gateway_names
  "
    else if name == "DISCOUNT_USAGE_DISTRIBUTION" then @"
    SELECT
      IF(discount_codes IS NULL OR discount_codes = '', 'no_discount', 'discounted') AS discount_flag,
      COUNT(*) AS order_count
    FROM shopify_orders
    WHERE created_at >= ? AND created_at < ?
    GROUP BY discount_flag
  "
    else if name == "DISCOUNT_CODE_BREAKDOWN" then @"
    SELECT
      discount_codes,
      COUNT(*) AS order_count
    FROM shopify_orders
    WHERE created_at >= ? AND created_at < ?
      AND discount_codes IS NOT NULL
    GROUP BY discount_codes
    ORDER BY order_count DESC
  "
    else if name == "PRODUCT_CONVERSION_CONTRIBUTION" then @"
    SELECT
      _ITEM1_name AS product_name, 
      COUNT(*) AS order_count
    FROM shopify_orders
    WHERE created_at >= ? AND created_at < ?
    GROUP BY _ITEM1_name
    ORDER BY order_count DESC
    LIMIT 20
  "
    else if name == "PRODUCT_PRICE_BUCKET_DISTRIBUTION" then @"
    SELECT
      CASE
        WHEN line_item_price < 500 THEN '<500'
        WHEN line_item_price BETWEEN 500 AND 1000 THEN '500-1000'
        WHEN line_item_price BETWEEN 1000 AND 3000 THEN '1000-3000'
        ELSE '>3000'
      END AS price_bucket,
      COUNT(*) AS order_count
    FROM shopify_orders
    WHERE created_at >= ? AND created_at < ?
    GROUP BY price_bucket
    ORDER BY order_count DESC
  "
    else if name == "AOV_DISTRIBUTION" then @"
    SELECT
      CASE
        WHEN total_price < 500 THEN '<500'
        WHEN total_price BETWEEN 500 AND 1000 THEN '500-1000'
        WHEN total_price BETWEEN 1000 AND 3000 THEN '1000-3000'
        ELSE '>3000'
      END AS aov_bucket,
      COUNT(*) AS order_count
    FROM shopify_orders
    WHERE created_at >= ? AND created_at < ?
    GROUP BY aov_bucket
  "
    else if name == "NEW_VS_RETURNING_CUSTOMERS" then @"
    SELECT
      CASE
        WHEN customer_id IS NULL THEN 'guest'
        ELSE 'returning'
      END AS customer_type,
      COUNT(*) AS order_count
    FROM shopify_orders
    WHERE created_at >= ? AND created_at < ?
    GROUP BY customer_type
  "
    else @"
    SELECT
      DATE_FORMAT(created_at, '%Y-%m-%d %H:00:00') AS hour,
      COUNT(*) AS order_count
    FROM shopify_orders
    WHERE created_at >= ? AND created_at < ?
      AND financial_status = 'pending'
    GROUP BY 1
    ORDER BY 1
  "
  }

  /** A query that passed the whitelists: a known template and filters with safe columns. */
  datatype Statement = Statement(template: string, filters: seq<Filter>)

  /** The error `getTemplate` throws for a name outside the table. */
  function UnknownTemplate(name: string): string {
    "Query template \"" + name + "\" not found or not allowed."
  }

  /**
   * The checks of `getTemplate`, in its order: the name must be in the table,
   * then (when there are filters) every column must be a plain identifier.
   */
  function Resolve(name: string, filters: seq<Filter>): (r: Result<Statement>)
    ensures r.Ok? <==> IsTemplateName(name) && FirstInvalidColumn(filters).None?
    ensures r.Ok? ==> r.value == Statement(name, filters)
    ensures !IsTemplateName(name) ==> r == Err(UnknownTemplate(name))
    ensures IsTemplateName(name) && FirstInvalidColumn(filters).Some? ==>
              r == Err("Invalid filter column: " + FirstInvalidColumn(filters).value)
  {
    if !IsTemplateName(name) then Err(UnknownTemplate(name))
    else if filters == [] then Ok(Statement(name, filters))
    else match FirstInvalidColumn(filters)
      case Some(column) => Err("Invalid filter column: " + column)
      case None => Ok(Statement(name, filters))
  }

  /** The SQL text of a resolved statement: the template, with the filter clause injected when there are filters. */
  function Sql(st: Statement): (sql: string)
    requires IsTemplateName(st.template)
    ensures st.filters == [] ==> sql == TemplateSql(st.template)
    ensures st.filters != [] ==> sql == InjectClause(TemplateSql(st.template), Clause(st.filters))
  {
    var template := TemplateSql(st.template);
    if st.filters == [] then template else InjectClause(template, Clause(st.filters))
  }

  /** `getTemplate(name, filters)`: the SQL text, or the error it throws. */
  function GetTemplate(name: string, filters: seq<Filter>): (r: Result<string>)
    ensures r.Err? <==> Resolve(name, filters).Err?
    ensures r.Err? ==> r.message == Resolve(name, filters).message
  {
    match Resolve(name, filters)
    case Err(message) => Err(message)
    case Ok(st) => Ok(Sql(st))
  }

  /**
   * What `getTemplate` returns, case by case: an unknown name fails, no
   * filters give the template untouched, an unsafe column fails, and otherwise
   * the clause is injected into the template.
   */
  lemma GetTemplateCases(name: string, filters: seq<Filter>)
    ensures !IsTemplateName(name) ==> GetTemplate(name, filters) == Err(UnknownTemplate(name))
    ensures IsTemplateName(name) && filters == [] ==> GetTemplate(name, filters) == Ok(TemplateSql(name))
    ensures IsTemplateName(name) && filters != [] && FirstInvalidColumn(filters).Some? ==>
              GetTemplate(name, filters) == Err("Invalid filter column: " + FirstInvalidColumn(filters).value)
    ensures IsTemplateName(name) && filters != [] && FirstInvalidColumn(filters).None? ==>
              GetTemplate(name, filters) == Ok(InjectClause(TemplateSql(name), Clause(filters)))
  {
  }

  /**
   * Deleting the inserted clause and the space after it (or, when appended,
   * the space before it) recovers the template exactly.
   */
  lemma RemovingClauseRecoversTemplate(sql: string, clause: string)
    ensures InsertionPoint(sql).Some? ==>
              var i := InsertionPoint(sql).value;
              var r := InjectClause(sql, clause);
              r[..i] + r[i + |clause| + 1..] == sql
    ensures InsertionPoint(sql).None? ==> InjectClause(sql, clause)[..|sql|] == sql
  {
    var r := InjectClause(sql, clause);
    if InsertionPoint(sql).Some? {
      var i := InsertionPoint(sql).value;
      assert r[..i] == sql[..i];
      assert r[i + |clause| + 1..] == sql[i..];
    } else {
      assert r[..|sql|] == sql;
    }
  }

  /** The clause adds exactly one placeholder per filter. */
  lemma {:induction false} ClausePlaceholders(filters: seq<Filter>)
    requires forall i :: 0 <= i < |filters| ==> ValidColumn(filters[i].column)
    ensures CountChar(Clause(filters), '?') == |filters|
  {
    if |filters| >= 1 {
      var f := filters[0];
      assert ValidColumn(f.column);
      assert CountChar(f.column, '?') == 0 by { NoPlaceholderInColumn(f.column); }
      CountCharAppend("AND ", f.column, '?');
      CountCharAppend("AND " + f.column, " = ?", '?');
      assert CountChar(" = ?", '?') == 1 by {
        assert " = ?"[1..] == "= ?" && "= ?"[1..] == " ?" && " ?"[1..] == "?" && "?"[1..] == "";
      }
      assert CountChar("AND ", '?') == 0 by {
        assert "AND "[1..] == "ND " && "ND "[1..] == "D " && "D "[1..] == " " && " "[1..] == "";
      }
      if |filters| > 1 {
        assert forall i :: 0 <= i < |filters[1..]| ==> filters[1..][i] == filters[i + 1];
        ClausePlaceholders(filters[1..]);
        CountCharAppend(Condition(f), " ", '?');
        CountCharAppend(Condition(f) + " ", Clause(filters[1..]), '?');
        assert CountChar(" ", '?') == 0 by { assert " "[1..] == ""; }
      }
    }
  }

  lemma {:induction false} NoPlaceholderInColumn(column: string)
    requires forall i :: 0 <= i < |column| ==> IsWordChar(column[i])
    ensures CountChar(column, '?') == 0
  {
    if column != [] {
      assert IsWordChar(column[0]);
      assert forall i :: 0 <= i < |column[1..]| ==> column[1..][i] == column[i + 1];
      NoPlaceholderInColumn(column[1..]);
    }
  }

  /** A database row: its column names in order (`Object.keys`) and its cells. */
  datatype Row = Row(columns: seq<string>, cells: map<string, Value>)

  /** `row[column]`. */
  function Cell(row: Row, column: string): Value {
    if column in row.cells then row.cells[column] else Undef
  }

  /** A positional query parameter: an instant or a text (a dimension name). */
  datatype Param = Time(t: Window.Instant) | Text(s: string)

  /**
   * The database: tenant, statement and positional parameters to rows, or a
   * failure message. The SQL text the database receives is `Sql(statement)`.
   */
  type Db = (int, Statement, seq<Param>) -> Result<seq<Row>>

  /**
   * `executeTemplate(brandId, templateName, params, filters)`: the template is
   * resolved with the filters injected, and the database is then called with
   * `params` alone; the filter values are not passed on.
   */
  function ExecuteTemplate(db: Db, brandId: int, name: string, params: seq<Param>, filters: seq<Filter>): (r: Result<seq<Row>>)
    ensures Resolve(name, filters).Err? ==> r == Err(Resolve(name, filters).message)
    ensures Resolve(name, filters).Ok? ==> r == db(brandId, Statement(name, filters), params)
  {
    match Resolve(name, filters)
    case Err(message) => Err(message)
    case Ok(st) => db(brandId, st, params)
  }

  /**
   * The query fails with exactly the error `getTemplate` throws, and otherwise
   * reaches the database with the statement whose text `getTemplate` returns.
   */
  lemma ExecuteTemplateAfterGetTemplate(db: Db, brandId: int, name: string, params: seq<Param>, filters: seq<Filter>)
    ensures GetTemplate(name, filters).Err? ==>
              ExecuteTemplate(db, brandId, name, params, filters) == Err(GetTemplate(name, filters).message)
    ensures GetTemplate(name, filters).Ok? ==>
              GetTemplate(name, filters).value == Sql(Statement(name, filters)) &&
              ExecuteTemplate(db, brandId, name, params, filters) == db(brandId, Statement(name, filters), params)
  {
  }
}
