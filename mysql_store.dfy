/**
 * The string-building helpers of `AbstractMysqlStore` (pbu/mysql_store.py): the statement templates, Python's
 * `str.format` as the store applies it to them, the field list of the store's object class, the SELECT query
 * builder and the choice of date format in `parse_to_date`.
 */
module MysqlStore {
  import opened Results
  import opened Values

  const DeleteStatement: string := "delete from {} where {}=%s"
  const SelectStatement: string := "select {} from {}"
  /** Built at import time as `"{} where {}".format(SelectStatement, "{}")`; see `WhereStatementBuilt`. */
  const WhereStatement: string := "select {} from {} where {}"
  const UpdateStatement: string := "update {} set {} where {}"

  const DateFormat: string := "%Y-%m-%d"
  const DatetimeFormat: string := "%Y-%m-%d %H:%M:%S"

  /**
   * `template.format(*args)` for a template of plain text and `{}` fields: each field takes the next argument,
   * unused arguments are ignored and a field with no argument left raises IndexError.
   */
  function Format(template: string, args: seq<string>): Result<string>
    decreases |template|
  {
    if |template| == 0 then Ok("")
    else if |template| >= 2 && template[0] == '{' && template[1] == '}' then
      if |args| == 0 then Err(IndexError)
      else
        var rest :- Format(template[2..], args[1..]);
        Ok(args[0] + rest)
    else
      var rest :- Format(template[1..], args);
      Ok([template[0]] + rest)
  }

  /** The number of `{}` fields `Format` finds in `template`. */
  function Fields(template: string): nat
    decreases |template|
  {
    if |template| == 0 then 0
    else if |template| >= 2 && template[0] == '{' && template[1] == '}' then 1 + Fields(template[2..])
    else Fields(template[1..])
  }

  /** `prefix` placed before a formatted string, an error passing through. */
  function Prefixed(prefix: string, r: Result<string>): Result<string> {
    if r.Err? then r else Ok(prefix + r.value)
  }

  /** Formatting fails, with IndexError, exactly when the template has more fields than arguments. */
  lemma {:induction false} FormatArity(template: string, args: seq<string>)
    ensures Format(template, args).Ok? <==> Fields(template) <= |args|
    ensures Format(template, args).Err? ==> Format(template, args).error == IndexError
    decreases |template|
  {
    if |template| >= 2 && template[0] == '{' && template[1] == '}' {
      if |args| > 0 {
        FormatArity(template[2..], args[1..]);
      }
    } else if |template| > 0 {
      FormatArity(template[1..], args);
    }
  }

  /** Two prefixes in a row are their concatenation. */
  lemma PrefixedTwice(p: string, q: string, r: Result<string>)
    ensures Prefixed(p, Prefixed(q, r)) == Prefixed(p + q, r)
  {
    if r.Ok? {
      assert p + (q + r.value) == (p + q) + r.value;
    }
  }

  /** A character other than an opening brace is copied. */
  lemma FormatChar(template: string, args: seq<string>)
    requires |template| > 0 && template[0] != '{'
    ensures Format(template, args) == Prefixed([template[0]], Format(template[1..], args))
  {
  }

  /** Text without an opening brace is copied as it is. */
  lemma {:induction false} FormatText(text: string, rest: string, args: seq<string>)
    requires '{' !in text
    ensures Format(text + rest, args) == Prefixed(text, Format(rest, args))
    decreases |text|
  {
    if |text| > 0 {
      var t := text + rest;
      assert t[1..] == text[1..] + rest;
      assert t[0] == text[0];
      FormatChar(t, args);
      FormatText(text[1..], rest, args);
      PrefixedTwice([text[0]], text[1..], Format(rest, args));
      assert [text[0]] + text[1..] == text;
    } else {
      assert text + rest == rest;
      if Format(rest, args).Ok? {
        assert text + Format(rest, args).value == Format(rest, args).value;
      }
    }
  }

  /** A leading field takes the first argument. */
  lemma FormatField(rest: string, arg: string, args: seq<string>)
    ensures Format("{}" + rest, [arg] + args) == Prefixed(arg, Format(rest, args))
  {
    var t := "{}" + rest;
    assert t[0] == '{' && t[1] == '}';
    assert t[2..] == rest;
    assert ([arg] + args)[1..] == args;
  }

  /** A template of two fields between brace-free texts takes the two arguments in order. */
  lemma FormatTwo(a: string, b: string, c: string, x: string, y: string)
    requires '{' !in a && '{' !in b && '{' !in c
    ensures Format(a + ("{}" + (b + ("{}" + c))), [x, y]) == Ok(a + x + b + y + c)
  {
    var r0 := Format(c, []);
    FormatText(c, "", []);
    assert c + "" == c;
    assert Format("", []) == Ok("");
    assert r0 == Ok(c);
    FormatField(c, y, []);
    assert [y] + [] == [y];
    var r1 := Format("{}" + c, [y]);
    assert r1 == Ok(y + c);
    FormatText(b, "{}" + c, [y]);
    var r2 := Format(b + ("{}" + c), [y]);
    assert r2 == Ok(b + (y + c));
    FormatField(b + ("{}" + c), x, [y]);
    assert [x] + [y] == [x, y];
    var r3 := Format("{}" + (b + ("{}" + c)), [x, y]);
    assert r3 == Ok(x + (b + (y + c)));
    FormatText(a, "{}" + (b + ("{}" + c)), [x, y]);
    assert a + (x + (b + (y + c))) == a + x + b + y + c;
  }

  /** A template of three fields between brace-free texts takes the three arguments in order. */
  lemma FormatThree(a: string, b: string, c: string, d: string, x: string, y: string, z: string)
    requires '{' !in a && '{' !in b && '{' !in c && '{' !in d
    ensures Format(a + ("{}" + (b + ("{}" + (c + ("{}" + d))))), [x, y, z]) == Ok(a + x + b + y + c + z + d)
  {
    var tail := b + ("{}" + (c + ("{}" + d)));
    FormatTwo(b, c, d, y, z);
    assert Format(tail, [y, z]) == Ok(b + y + c + z + d);
    FormatField(tail, x, [y, z]);
    assert [x] + [y, z] == [x, y, z];
    assert Format("{}" + tail, [x, y, z]) == Ok(x + (b + y + c + z + d));
    FormatText(a, "{}" + tail, [x, y, z]);
    assert a + (x + (b + y + c + z + d)) == a + x + b + y + c + z + d;
  }

  /** The delete statement `delete` runs for a table and an id column. */
  lemma DeleteStatementFormatted(table: string, idField: string)
    ensures Format(DeleteStatement, [table, idField]) == Ok("delete from " + table + " where " + idField + "=%s")
  {
    assert DeleteStatement == "delete from " + ("{}" + (" where " + ("{}" + "=%s")));
    FormatTwo("delete from ", " where ", "=%s", table, idField);
  }

  /** The SELECT statement with its fields and table filled in. */
  lemma SelectStatementFormatted(fields: string, table: string)
    ensures Format(SelectStatement, [fields, table]) == Ok("select " + fields + " from " + table)
  {
    assert SelectStatement == "select " + ("{}" + (" from " + ("{}" + "")));
    FormatTwo("select ", " from ", "", fields, table);
    assert "select " + fields + " from " + table + "" == "select " + fields + " from " + table;
  }

  /** The SELECT statement with a where clause, with its fields, table and condition filled in. */
  lemma WhereStatementFormatted(fields: string, table: string, condition: string)
    ensures Format(WhereStatement, [fields, table, condition]) ==
      Ok("select " + fields + " from " + table + " where " + condition)
  {
    var args := [fields, table, condition];
    var r := "select " + fields + " from " + table + " where " + condition;
    FormatThree("select ", " from ", " where ", "", fields, table, condition);
    assert r + "" == r;
    assert Format("select " + ("{}" + (" from " + ("{}" + (" where " + ("{}" + ""))))), args) == Ok(r);
    assert "select " + ("{}" + (" from " + ("{}" + (" where " + ("{}" + ""))))) == WhereStatement;
  }

  /** The UPDATE statement with its table, assignments and condition filled in. */
  lemma UpdateStatementFormatted(table: string, assignments: string, condition: string)
    ensures Format(UpdateStatement, [table, assignments, condition]) ==
      Ok("update " + table + " set " + assignments + " where " + condition)
  {
    var args := [table, assignments, condition];
    var r := "update " + table + " set " + assignments + " where " + condition;
    FormatThree("update ", " set ", " where ", "", table, assignments, condition);
    assert r + "" == r;
    assert Format("update " + ("{}" + (" set " + ("{}" + (" where " + ("{}" + ""))))), args) == Ok(r);
    assert "update " + ("{}" + (" set " + ("{}" + (" where " + ("{}" + ""))))) == UpdateStatement;
  }

  /** The where template is what formatting the select template into `"{} where {}"` gives. */
  lemma WhereStatementBuilt()
    ensures Format("{} where {}", [SelectStatement, "{}"]) == Ok(WhereStatement)
  {
    assert "{} where {}" == "" + ("{}" + (" where " + ("{}" + "")));
    FormatTwo("", " where ", "", SelectStatement, "{}");
    assert "" + SelectStatement + " where " + "{}" + "" == WhereStatement;
  }

  /** What the object class's `get_fields()` returns. */
  datatype FieldsAnswer = FieldList(fields: seq<string>) | NotList

  /**
   * `get_field_list`: AttributeError without an object class, ValueError when `get_fields()` does not return a
   * list, and that list unchanged otherwise.
   */
  function GetFieldList(objectClass: Option<FieldsAnswer>): (r: Result<seq<string>>)
    ensures r == Err(AttributeError) <==> objectClass.None?
    ensures r == Err(ValueError) <==> objectClass == Some(NotList)
    ensures r.Ok? ==> objectClass == Some(FieldList(r.value))
  {
    match objectClass
    case None => Err(AttributeError)
    case Some(NotList) => Err(ValueError)
    case Some(FieldList(fields)) => Ok(fields)
  }

  /** `create_select_query(where_clause)` for a store on `table`. */
  function CreateSelectQuery(objectClass: Option<FieldsAnswer>, table: string, whereClause: Option<string>)
    : Result<string>
  {
    var fields :- GetFieldList(objectClass);
    match whereClause
    case None => Format(SelectStatement, [Join(", ", fields), table])
    case Some(condition) => Format(WhereStatement, [Join(", ", fields), table, condition])
  }

  /** Without a usable field list no query is built: the field list's error passes through. */
  lemma SelectQueryFails(objectClass: Option<FieldsAnswer>, table: string, whereClause: Option<string>)
    requires GetFieldList(objectClass).Err?
    ensures CreateSelectQuery(objectClass, table, whereClause) == Err(GetFieldList(objectClass).error)
    ensures CreateSelectQuery(objectClass, table, whereClause).error ==
      (if objectClass.None? then AttributeError else ValueError)
  {
  }

  /** Without a where clause the query selects the object class's fields, comma-separated in their order. */
  lemma SelectQuery(fields: seq<string>, table: string)
    ensures CreateSelectQuery(Some(FieldList(fields)), table, None) ==
      Ok("select " + Join(", ", fields) + " from " + table)
  {
    var columns := Join(", ", fields);
    assert CreateSelectQuery(Some(FieldList(fields)), table, None) == Format(SelectStatement, [columns, table]);
    SelectStatementFormatted(columns, table);
  }

  /** With a where clause the same query is followed by `" where "` and the clause. */
  lemma SelectQueryWhere(fields: seq<string>, table: string, condition: string)
    ensures CreateSelectQuery(Some(FieldList(fields)), table, Some(condition)) ==
      Ok("select " + Join(", ", fields) + " from " + table + " where " + condition)
  {
    var columns := Join(", ", fields);
    assert CreateSelectQuery(Some(FieldList(fields)), table, Some(condition)) ==
      Format(WhereStatement, [columns, table, condition]);
    WhereStatementFormatted(columns, table, condition);
  }

  /** The format `parse_to_date` picks by length; any other length leaves `dt` unbound. */
  function ParseFormat(dateString: string): (r: Result<string>)
    ensures r.Ok? <==> |dateString| == 10 || |dateString| == 19
    ensures r.Err? ==> r.error == UnboundLocalError
    ensures r == Ok(DateFormat) <==> |dateString| == 10
    ensures r == Ok(DatetimeFormat) <==> |dateString| == 19
  {
    if |dateString| == 10 then Ok(DateFormat)
    else if |dateString| == 19 then Ok(DatetimeFormat)
    else Err(UnboundLocalError)
  }

  /**
   * `parse_to_date`: parses with the format chosen by length and localises the result; `strptime` and the local
   * time zone are parameters.
   */
  function ParseToDate<D>(dateString: string, strptime: (string, string) -> Result<D>, localise: D -> D)
    : (r: Result<D>)
    ensures ParseFormat(dateString).Err? ==> r == Err(UnboundLocalError)
    ensures ParseFormat(dateString).Ok? && strptime(dateString, ParseFormat(dateString).value).Ok? ==>
      r == Ok(localise(strptime(dateString, ParseFormat(dateString).value).value))
  {
    var format :- ParseFormat(dateString);
    var dt :- strptime(dateString, format);
    Ok(localise(dt))
  }
}
