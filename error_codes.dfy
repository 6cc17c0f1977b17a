/**
 * get_error_code of mathesar/rpc/exceptions/error_codes.py: an exception's
 * class module and class name are mapped to the RPC error code sent with a
 * failed call. The module picks one of seven categories by its prefix, and
 * the class name is looked up in that category's table.
 */
module ErrorCodes {
  import opened CodeTable

  /** The code sections of the module docstring, one block of codes each. */
  datatype Category = Builtin | Psycopg | Django | Mathesar | DbLib | SqlAlchemy | Other

  // ----- Step 1: the category of a module -----

  /** The category get_error_code picks for a class defined in `errModule`. */
  function CategoryOf(errModule: string): (c: Category)
    ensures c == Other ==> forall i :: 0 <= i < |Rules| ==> !(Rules[i].0 <= errModule)
    ensures c != Other ==> exists i :: 0 <= i < |Rules| && Rules[i].0 <= errModule && Rules[i].1 == c
  {
    if "builtin" <= errModule then assert Rules[0] == ("builtin", Builtin); Builtin
    else if "psycopg" <= errModule then assert Rules[1] == ("psycopg", Psycopg); Psycopg
    else if "django" <= errModule then assert Rules[2] == ("django", Django); Django
    else if "mathesar" <= errModule then assert Rules[3] == ("mathesar", Mathesar); Mathesar
    else if "db." <= errModule then assert Rules[4] == ("db.", DbLib); DbLib
    else if "sqlalchemy" <= errModule then assert Rules[5] == ("sqlalchemy", SqlAlchemy); SqlAlchemy
    else Other
  }

  /** The prefix tests of get_error_code, in the order it makes them. */
  const Rules: seq<(string, Category)> := [
    ("builtin", Builtin),
    ("psycopg", Psycopg),
    ("django", Django),
    ("mathesar", Mathesar),
    ("db.", DbLib),
    ("sqlalchemy", SqlAlchemy)
  ]

  /** Reference dispatch: the category of the first rule whose prefix starts the module, Other when none does. */
  function FirstMatch(rules: seq<(string, Category)>, errModule: string): Category
    decreases |rules|
  {
    if |rules| == 0 then Other
    else if rules[0].0 <= errModule then rules[0].1
    else FirstMatch(rules[1..], errModule)
  }

  /** The if/elif chain is the first-match rule over Rules. */
  lemma CategoryOfIsFirstMatch(errModule: string)
    ensures CategoryOf(errModule) == FirstMatch(Rules, errModule)
  {
  }

  /** Two prefixes of one string agree wherever both are defined. */
  lemma PrefixesAgree(p: string, q: string, s: string, k: nat)
    requires p <= s && q <= s && k < |p| && k < |q|
    ensures p[k] == q[k]
  {
    assert p[k] == s[k] && q[k] == s[k];
  }

  /** No module starts with two different prefixes of Rules, so the order of the tests never matters. */
  lemma RulesExclusive(errModule: string, i: nat, j: nat)
    requires i < |Rules| && j < |Rules| && i != j
    ensures !(Rules[i].0 <= errModule && Rules[j].0 <= errModule)
  {
    if Rules[i].0 <= errModule && Rules[j].0 <= errModule {
      var p, q := Rules[i].0, Rules[j].0;
      PrefixesAgree(p, q, errModule, 0);
      PrefixesAgree(p, q, errModule, 1);
      assert false;
    }
  }

  /** A module lands in the category of rule i exactly when it starts with that rule's prefix. */
  lemma CategoryOfPrefix(errModule: string, i: nat)
    requires i < |Rules|
    ensures CategoryOf(errModule) == Rules[i].1 <==> Rules[i].0 <= errModule
  {
    // no earlier test succeeds on a module that starts with rule i's prefix
    if i > 0 { RulesExclusive(errModule, i, 0); }
    if i > 1 { RulesExclusive(errModule, i, 1); }
    if i > 2 { RulesExclusive(errModule, i, 2); }
    if i > 3 { RulesExclusive(errModule, i, 3); }
    if i > 4 { RulesExclusive(errModule, i, 4); }
    assert i == 0 || i == 1 || i == 2 || i == 3 || i == 4 || i == 5;
  }

  /** A module lands in Other exactly when it starts with none of the six prefixes. */
  lemma CategoryOfOther(errModule: string)
    ensures CategoryOf(errModule) == Other <==> forall i :: 0 <= i < |Rules| ==> !(Rules[i].0 <= errModule)
  {
    forall i | 0 <= i < |Rules|
      ensures CategoryOf(errModule) == Other ==> !(Rules[i].0 <= errModule)
    {
      assert i == 0 || i == 1 || i == 2 || i == 3 || i == 4 || i == 5;
    }
    if CategoryOf(errModule) != Other {
      var i := if "builtin" <= errModule then 0
        else if "psycopg" <= errModule then 1
        else if "django" <= errModule then 2
        else if "mathesar" <= errModule then 3
        else if "db." <= errModule then 4
        else 5;
      assert Rules[i].0 <= errModule;
    }
  }

  /** Both psycopg and psycopg2 modules reach the driver table. */
  lemma PsycopgModules()
    ensures CategoryOf("psycopg.errors") == Psycopg && CategoryOf("psycopg2.errors") == Psycopg
  {
    assert Rules[1].0 <= "psycopg.errors" && Rules[1].0 <= "psycopg2.errors";
    CategoryOfPrefix("psycopg.errors", 1);
    CategoryOfPrefix("psycopg2.errors", 1);
  }

  /** The db prefix includes its dot: db.tables.operations is db's, but db and dbutils are not. */
  lemma DbModules()
    ensures CategoryOf("db.tables.operations") == DbLib
    ensures CategoryOf("db") == Other && CategoryOf("dbutils") == Other
  {
    assert Rules[4].0 <= "db.tables.operations";
    CategoryOfPrefix("db.tables.operations", 4);
    assert "dbutils"[2] != "db."[2];
  }

  /** The module of Python's built-in exceptions, builtins, starts with "builtin". */
  lemma BuiltinsModule()
    ensures CategoryOf("builtins") == Builtin
  {
    assert "builtin" <= "builtins";
  }

  // ----- Step 2: the lookup -----

  /** The seven frozendicts get_error_code reads, one per category. */
  datatype ErrorMaps = ErrorMaps(
    builtin: Table,
    psycopg: Table,
    django: Table,
    mathesar: Table,
    dblib: Table,
    sqlalch: Table,
    other: Table)

  /** The table the source reads for a category. */
  function TableOf(maps: ErrorMaps, c: Category): Table {
    match c
    case Builtin => maps.builtin
    case Psycopg => maps.psycopg
    case Django => maps.django
    case Mathesar => maps.mathesar
    case DbLib => maps.dblib
    case SqlAlchemy => maps.sqlalch
    case Other => maps.other
  }

  /** table.get(err_name, table["UNKNOWN"]): a miss falls back to the table's UNKNOWN entry. */
  function LookupOrUnknown(t: Table, errName: string): (code: int)
    ensures errName in Dict(t) ==> code == Dict(t)[errName]
    ensures errName !in Dict(t) ==> code == Dict(t)[UNKNOWN_KEY]
    ensures errName !in Dict(t) && UNKNOWN_KEY !in t.names ==> code == t.floor
  {
    UnknownEntry(t);
    GetOr(Dict(t), errName, Dict(t)[UNKNOWN_KEY])
  }

  /**
   * get_error_code(err) for a class named `errName` defined in module
   * `errModule`, reading the tables in `maps`. None is Python's None. The
   * six prefix tests are CategoryOf; the seven branches differ only in the
   * table they read and in whether they pass table["UNKNOWN"] as default.
   */
  function GetErrorCode(maps: ErrorMaps, errModule: string, errName: string): (r: Option<int>)
    ensures r.None? <==> CategoryOf(errModule) == Other && errName !in Dict(maps.other)
    ensures var t := TableOf(maps, CategoryOf(errModule));
      errName in Dict(t) ==> r == Some(Dict(t)[errName])
    ensures var t := TableOf(maps, CategoryOf(errModule));
      CategoryOf(errModule) != Other && errName !in Dict(t) ==> r == Some(Dict(t)[UNKNOWN_KEY])
  {
    var c := CategoryOf(errModule);
    if c == Other then Get(Dict(maps.other), errName)
    else Some(LookupOrUnknown(TableOf(maps, c), errName))
  }

  // ----- The documented blocks -----

  /** The round-number code of each block (module docstring, and the UNKNOWN entry of each table). */
  function Floor(c: Category): (code: int)
    ensures code % 1000 == 0 && -31000 <= code <= -25000
  {
    match c
    case Builtin => -31000
    case Psycopg => -30000
    case Django => -29000
    case Mathesar => -28000
    case DbLib => -27000
    case SqlAlchemy => -26000
    case Other => -25000
  }

  /** How many class names each table of the source registers after its UNKNOWN entry. */
  function Size(c: Category): nat {
    match c
    case Builtin => 59
    case Psycopg => 268
    case Django => 110
    case Mathesar => 34
    case DbLib => 25
    case SqlAlchemy => 49
    case Other => 378
  }

  /** The table of category c has the floor and size of the source, and does not repeat its UNKNOWN key. */
  predicate ShapedFor(maps: ErrorMaps, c: Category) {
    Shaped(TableOf(maps, c), Floor(c), Size(c))
  }

  /** The block a code belongs to: the xxx-range below a floor, as the docstring lists them. */
  function BlockOf(code: int): (c: Option<Category>)
    ensures c.Some? ==> Floor(c.value) - 1000 < code <= Floor(c.value)
    ensures c.None? ==> forall d: Category :: !(Floor(d) - 1000 < code <= Floor(d))
  {
    if -32000 < code <= -31000 then Some(Builtin)
    else if -31000 < code <= -30000 then Some(Psycopg)
    else if -30000 < code <= -29000 then Some(Django)
    else if -29000 < code <= -28000 then Some(Mathesar)
    else if -28000 < code <= -27000 then Some(DbLib)
    else if -27000 < code <= -26000 then Some(SqlAlchemy)
    else if -26000 < code <= -25000 then Some(Other)
    else None
  }

  // ----- Properties of get_error_code -----

  /** Exact hit: the name at position i of the category's table, when not repeated later, gets floor - (i + 1). */
  lemma ExactHit(maps: ErrorMaps, errModule: string, errName: string, i: nat)
    requires var t := TableOf(maps, CategoryOf(errModule));
      LastAt(t.names, i) && t.names[i] == errName
    ensures GetErrorCode(maps, errModule, errName) == Some(TableOf(maps, CategoryOf(errModule)).floor - (i + 1))
  {
    DictAt(TableOf(maps, CategoryOf(errModule)), i);
  }

  /** Per-category fallback: outside Other, an unregistered name gets the round-number code of its block. */
  lemma Fallback(maps: ErrorMaps, errModule: string, errName: string)
    requires CategoryOf(errModule) != Other && ShapedFor(maps, CategoryOf(errModule))
    requires errName !in TableOf(maps, CategoryOf(errModule)).names
    ensures GetErrorCode(maps, errModule, errName) == Some(Floor(CategoryOf(errModule)))
  {
    var t := TableOf(maps, CategoryOf(errModule));
    DictKeys(t, errName);
    UnknownEntry(t);
  }

  /** Outside Other the result is the round-number code exactly when the name is UNKNOWN or unregistered. */
  lemma FloorMeansUnregistered(maps: ErrorMaps, errModule: string, errName: string)
    requires CategoryOf(errModule) != Other && ShapedFor(maps, CategoryOf(errModule))
    ensures GetErrorCode(maps, errModule, errName) == Some(Floor(CategoryOf(errModule))) <==>
      errName == UNKNOWN_KEY || errName !in TableOf(maps, CategoryOf(errModule)).names
  {
    var t := TableOf(maps, CategoryOf(errModule));
    DictKeys(t, errName);
    UnknownEntry(t);
    if errName in Dict(t) && errName != UNKNOWN_KEY {
      DictNameBelowFloor(t, errName);
    }
  }

  /** The Other branch has no fallback: an unregistered name gives None. */
  lemma OtherMissIsNone(maps: ErrorMaps, errModule: string, errName: string)
    requires CategoryOf(errModule) == Other && errName != UNKNOWN_KEY && errName !in maps.other.names
    ensures GetErrorCode(maps, errModule, errName) == None
  {
    DictKeys(maps.other, errName);
  }

  /** ... yet a class literally named UNKNOWN in an unclassified module gets other's round-number code. */
  lemma OtherUnknownName(maps: ErrorMaps, errModule: string)
    requires CategoryOf(errModule) == Other && UNKNOWN_KEY !in maps.other.names
    ensures GetErrorCode(maps, errModule, UNKNOWN_KEY) == Some(maps.other.floor)
  {
    UnknownEntry(maps.other);
  }

  /** Range: every code lies in its category's block, and all of them in [-31059, -25000]. */
  lemma CodeInBlock(maps: ErrorMaps, errModule: string, errName: string)
    requires ShapedFor(maps, CategoryOf(errModule))
    ensures var r := GetErrorCode(maps, errModule, errName); var c := CategoryOf(errModule);
      r.Some? ==> Floor(c) - Size(c) <= r.value <= Floor(c) && -31059 <= r.value <= -25000
  {
    var t := TableOf(maps, CategoryOf(errModule));
    UnknownEntry(t);
    if errName in Dict(t) {
      DictRange(t, errName);
    } else {
      DictRange(t, UNKNOWN_KEY);
    }
  }

  /** Disjoint blocks: a returned code names the category it came from. */
  lemma CodeIdentifiesCategory(maps: ErrorMaps, errModule: string, errName: string)
    requires ShapedFor(maps, CategoryOf(errModule)) && GetErrorCode(maps, errModule, errName).Some?
    ensures BlockOf(GetErrorCode(maps, errModule, errName).value) == Some(CategoryOf(errModule))
  {
    CodeInBlock(maps, errModule, errName);
  }

  /** So the same class name gets different codes in modules of different categories. */
  lemma CategoriesNeverShareCodes(maps: ErrorMaps, module1: string, name1: string, module2: string, name2: string)
    requires ShapedFor(maps, CategoryOf(module1)) && ShapedFor(maps, CategoryOf(module2))
    requires CategoryOf(module1) != CategoryOf(module2)
    requires GetErrorCode(maps, module1, name1).Some? && GetErrorCode(maps, module2, name2).Some?
    ensures GetErrorCode(maps, module1, name1) != GetErrorCode(maps, module2, name2)
  {
    CodeIdentifiesCategory(maps, module1, name1);
    CodeIdentifiesCategory(maps, module2, name2);
  }

  /** Injectivity: within one category, two registered names never share a code. */
  lemma RegisteredNamesDistinct(maps: ErrorMaps, errModule: string, name1: string, name2: string)
    requires var t := TableOf(maps, CategoryOf(errModule)); name1 in Dict(t) && name2 in Dict(t) && name1 != name2
    ensures GetErrorCode(maps, errModule, name1) != GetErrorCode(maps, errModule, name2)
  {
    DictInjective(TableOf(maps, CategoryOf(errModule)), name1, name2);
  }
}
