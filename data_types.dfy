/** The type mapper: Spark type names to the Entity Data Model type names that the
    Power BI push-dataset API accepts (notebooks/pbiDatasetAPI.py, getPBIDataType). */
module DataTypes {
  import opened Wrappers
  import opened Text

  /** The Spark names mapped one-to-one, in lower case, with their Entity Data Model names. */
  const ExactTypes: map<string, string> := map[
    "byte" := "Byte",
    "shortint" := "Int16", "short" := "Int16",
    "int" := "Int32", "integer" := "Int32",
    "bigint" := "Int64", "long" := "Int64",
    "float" := "Float",
    "double" := "Double",
    "string" := "String",
    "binary" := "Binary",
    "boolean" := "Boolean",
    "timestamp" := "DateTime",
    "date" := "DateTime"
  ]

  /** The Entity Data Model names the mapper can produce apart from the decimal family. */
  const EdmNames: set<string> :=
    {"Byte", "Int16", "Int32", "Int64", "Float", "Double", "String", "Binary", "Boolean", "DateTime"}

  /** `sparkType[:7] == "decimal"` on the lower-cased name. */
  predicate IsDecimalType(t: string)
  {
    Take(t, 7) == "decimal"
  }

  /** One test of getPBIDataType's chain: a tuple of exact names with the Entity Data Model name
      they map to, or the decimal family, which keeps its precision/scale suffix. */
  datatype Rule = Exact(names: seq<string>, edm: string) | DecimalFamily

  /** getPBIDataType's tests, in the order the chain tries them. */
  const Chain: seq<Rule> := [
    Exact(["byte"], "Byte"),
    Exact(["shortint", "short"], "Int16"),
    Exact(["int", "integer"], "Int32"),
    Exact(["bigint", "long"], "Int64"),
    Exact(["float"], "Float"),
    Exact(["double"], "Double"),
    DecimalFamily,
    Exact(["string"], "String"),
    Exact(["binary"], "Binary"),
    Exact(["boolean"], "Boolean"),
    Exact(["timestamp"], "DateTime"),
    Exact(["date"], "DateTime")
  ]

  /** What one test answers for the lower-cased name `t`, or `None` when `t` fails it. */
  function Answer(rule: Rule, t: string): Option<string>
  {
    match rule
    case Exact(names, edm) => if t in names then Some(edm) else None
    case DecimalFamily => if IsDecimalType(t) then Some("Decimal" + Drop(t, 7)) else None
  }

  /** The answer of the first test from position `k` of the chain on that `t` passes; `None`
      when it passes none of them. */
  function FirstMatch(k: nat, t: string): Option<string>
    decreases |Chain| - k
  {
    if k >= |Chain| then None
    else if Answer(Chain[k], t).Some? then Answer(Chain[k], t)
    else FirstMatch(k + 1, t)
  }

  /** getPBIDataType: lower-case the name, then try each test of the chain in turn; anything
      that passes none is `None`. */
  function PbiDataType(sparkType: string): Option<string>
  {
    FirstMatch(0, ToLower(sparkType))
  }

  /** The tests after the decimal family, one `elif` each. */
  lemma LateTests(t: string)
    ensures FirstMatch(7, t) ==
      if t == "string" then Some("String")
      else if t == "binary" then Some("Binary")
      else if t == "boolean" then Some("Boolean")
      else if t == "timestamp" then Some("DateTime")
      else if t == "date" then Some("DateTime")
      else None
  {
    assert FirstMatch(12, t) == None;
    assert FirstMatch(11, t) == if t == "date" then Some("DateTime") else None;
    assert FirstMatch(10, t) == if t == "timestamp" then Some("DateTime") else FirstMatch(11, t);
    assert FirstMatch(9, t) == if t == "boolean" then Some("Boolean") else FirstMatch(10, t);
    assert FirstMatch(8, t) == if t == "binary" then Some("Binary") else FirstMatch(9, t);
  }

  /** The tests up to the decimal family, one `if`/`elif` each. */
  lemma EarlyTests(t: string)
    ensures FirstMatch(0, t) ==
      if t == "byte" then Some("Byte")
      else if t == "shortint" || t == "short" then Some("Int16")
      else if t == "int" || t == "integer" then Some("Int32")
      else if t == "bigint" || t == "long" then Some("Int64")
      else if t == "float" then Some("Float")
      else if t == "double" then Some("Double")
      else if IsDecimalType(t) then Some("Decimal" + Drop(t, 7))
      else FirstMatch(7, t)
  {
    assert FirstMatch(6, t) == if IsDecimalType(t) then Some("Decimal" + Drop(t, 7)) else FirstMatch(7, t);
    assert FirstMatch(5, t) == if t == "double" then Some("Double") else FirstMatch(6, t);
    assert FirstMatch(4, t) == if t == "float" then Some("Float") else FirstMatch(5, t);
    assert FirstMatch(3, t) == if t == "bigint" || t == "long" then Some("Int64") else FirstMatch(4, t);
    assert FirstMatch(2, t) == if t == "int" || t == "integer" then Some("Int32") else FirstMatch(3, t);
    assert FirstMatch(1, t) == if t == "shortint" || t == "short" then Some("Int16") else FirstMatch(2, t);
  }

  /** The chain of tests is getPBIDataType's `if`/`elif` chain on the lower-cased name. */
  lemma ChainAsWritten(sparkType: string)
    ensures var t := ToLower(sparkType);
      PbiDataType(sparkType) ==
        if t == "byte" then Some("Byte")
        else if t == "shortint" || t == "short" then Some("Int16")
        else if t == "int" || t == "integer" then Some("Int32")
        else if t == "bigint" || t == "long" then Some("Int64")
        else if t == "float" then Some("Float")
        else if t == "double" then Some("Double")
        else if IsDecimalType(t) then Some("Decimal" + Drop(t, 7))
        else if t == "string" then Some("String")
        else if t == "binary" then Some("Binary")
        else if t == "boolean" then Some("Boolean")
        else if t == "timestamp" then Some("DateTime")
        else if t == "date" then Some("DateTime")
        else None
  {
    EarlyTests(ToLower(sparkType));
    LateTests(ToLower(sparkType));
  }

  /** Every mapped name is one of the ten Entity Data Model names or starts with "Decimal". */
  lemma MappedNames(sparkType: string)
    ensures PbiDataType(sparkType).Some? ==>
      PbiDataType(sparkType).value in EdmNames || HasPrefix(PbiDataType(sparkType).value, "Decimal")
  {
    var t := ToLower(sparkType);
    ChainAsWritten(sparkType);
    if IsDecimalType(t) && PbiDataType(sparkType) == Some("Decimal" + Drop(t, 7)) {
      assert ("Decimal" + Drop(t, 7))[..7] == "Decimal";
    }
  }

  /** The mapper agrees with the table: decimal names keep their suffix, the listed names map
      to their table entry, and every other name maps to `None` (never an error). */
  lemma MatchesTable(sparkType: string)
    ensures var t := ToLower(sparkType);
      PbiDataType(sparkType) ==
        if IsDecimalType(t) then Some("Decimal" + t[7..])
        else if t in ExactTypes then Some(ExactTypes[t])
        else None
  {
    ChainAsWritten(sparkType);
    var t := ToLower(sparkType);
    if IsDecimalType(t) {
      DecimalTests(t);
    } else {
      ListedTests(t);
    }
  }

  /** A decimal name passes none of the exact tests before the decimal family. */
  lemma DecimalTests(t: string)
    requires IsDecimalType(t)
    ensures (
        if t == "byte" then Some("Byte")
        else if t == "shortint" || t == "short" then Some("Int16")
        else if t == "int" || t == "integer" then Some("Int32")
        else if t == "bigint" || t == "long" then Some("Int64")
        else if t == "float" then Some("Float")
        else if t == "double" then Some("Double")
        else if IsDecimalType(t) then Some("Decimal" + Drop(t, 7))
        else if t == "string" then Some("String")
        else if t == "binary" then Some("Binary")
        else if t == "boolean" then Some("Boolean")
        else if t == "timestamp" then Some("DateTime")
        else if t == "date" then Some("DateTime")
        else None) == Some("Decimal" + t[7..])
  {
    assert t[..7] == "decimal";
    assert t[0] == 'd' && t[1] == 'e';
  }

  /** The exact tests are the table's entries. */
  lemma ListedTests(t: string)
    ensures (
        if t == "byte" then Some("Byte")
        else if t == "shortint" || t == "short" then Some("Int16")
        else if t == "int" || t == "integer" then Some("Int32")
        else if t == "bigint" || t == "long" then Some("Int64")
        else if t == "float" then Some("Float")
        else if t == "double" then Some("Double")
        else if t == "string" then Some("String")
        else if t == "binary" then Some("Binary")
        else if t == "boolean" then Some("Boolean")
        else if t == "timestamp" then Some("DateTime")
        else if t == "date" then Some("DateTime")
        else None) == if t in ExactTypes then Some(ExactTypes[t]) else None
  {
  }

  /** An unmapped name exactly when it is neither listed nor a decimal name. */
  lemma NoneExactlyWhenUnlisted(sparkType: string)
    ensures PbiDataType(sparkType).None? <==>
      ToLower(sparkType) !in ExactTypes && !IsDecimalType(ToLower(sparkType))
  {
    MatchesTable(sparkType);
  }

  /** The result depends only on the lower-cased name. */
  lemma CaseInsensitive(sparkType: string)
    ensures PbiDataType(sparkType) == PbiDataType(ToLower(sparkType))
  {
    LowerIsLower(sparkType);
  }

  /** Two names with the same lower case map to the same type. */
  lemma SameLowerSameType(a: string, b: string)
    requires ToLower(a) == ToLower(b)
    ensures PbiDataType(a) == PbiDataType(b)
  {
  }

  /** Both integer spellings, in any case, map to Int32. */
  lemma IntegerExamples()
    ensures PbiDataType("Integer") == Some("Int32") && PbiDataType("int") == Some("Int32")
  {
    assert ToLower("Integer") == "integer" && ToLower("int") == "int";
    assert FirstMatch(0, "integer") == Some("Int32");
    assert FirstMatch(0, "int") == Some("Int32");
  }

  /** Both date/time names map to DateTime. */
  lemma DateTimeExamples()
    ensures PbiDataType("TIMESTAMP") == Some("DateTime") && PbiDataType("date") == Some("DateTime")
  {
    assert ToLower("TIMESTAMP") == "timestamp" && ToLower("date") == "date";
    assert Take("timestamp", 7) == "timesta" && Take("date", 7) == "date";
    assert FirstMatch(0, "timestamp") == Some("DateTime");
    assert FirstMatch(0, "date") == Some("DateTime");
  }

  /** A decimal name keeps its precision and scale verbatim. */
  lemma DecimalExample()
    ensures PbiDataType("DECIMAL(10,2)") == Some("Decimal(10,2)")
  {
    var t := ToLower("DECIMAL(10,2)");
    assert t == "decimal(10,2)";
    assert Take(t, 7) == "decimal";
    assert Drop(t, 7) == "(10,2)";
    assert "Decimal" + Drop(t, 7) == "Decimal(10,2)";
    assert FirstMatch(0, "decimal(10,2)") == Some("Decimal(10,2)");
  }

  /** A complex Spark type is not mapped. */
  lemma ComplexTypeExample()
    ensures PbiDataType("array<int>") == None
  {
    assert ToLower("array<int>") == "array<int>" && Take("array<int>", 7) == "array<i";
    assert FirstMatch(0, "array<int>") == None;
  }
}
