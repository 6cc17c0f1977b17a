# Mathesar RPC error codes

A Dafny model of `get_error_code` in `mathesar/rpc/exceptions/error_codes.py`.
Every exception raised while serving an RPC call is given a negative integer
code that goes into the error response. The module path of the exception's
class selects one of seven code sections by string prefix. The tests run in
this order: `builtin`, `psycopg`, `django`, `mathesar`, `db.`, `sqlalchemy`,
and everything else is "other". The class name is then looked up in that
section's `frozendict`. Each table starts with `UNKNOWN_KEY` at a round-number
floor (-31000, -30000, ..., -25000), and its class names follow with codes
that run down from the floor one at a time.

Files:

- `code_table.dfy` (module `CodeTable`): a table is a floor plus its list of
  names. `Dict` gives the mapping that the table's dict display evaluates to.
  The module proves what that mapping holds and how its codes are laid out:
  position, range and injectivity. `Get` and `GetOr` are `frozendict.get`
  without and with a default.
- `error_codes.dfy` (module `ErrorCodes`): the categories, the prefix dispatch
  `CategoryOf`, and `GetErrorCode` over any seven tables. It also holds the
  properties of `GetErrorCode`: first-match dispatch, exact hits, the
  per-category fallback, the missing fallback for "other", block bounds,
  disjoint blocks and injectivity.
- `error_tables.dfy` (module `ErrorTables`): the seven tables of the source,
  entry for entry and in source order. The names are split into blocks of at
  most twenty. Each table is proved to have the documented size and to write
  `UNKNOWN_KEY` only once. The code of every entry of the two smallest tables
  is proved, and so are the codes of the cited example entries.
- `source_codes.dfy` (module `SourceCodes`): `GetErrorCode` over the source's
  own tables. For each category it proves the range of the result and when the
  floor is returned. It proves totality and range over all seven tables, and
  the worked examples (`KeyError`, `UniqueViolation`, `DataError` in four
  modules).

The "other" branch (line 43) calls `other_error_map.get(err_name)` with no
default. So the model's `GetErrorCode` returns `Option<int>`, and an
unregistered class from an unclassified module gives `None`. The module
docstring (lines 17-18) says that unknown errors get a round-number code.
The code keeps that promise in six sections and not in the seventh, and the
model follows the code. A class that is literally named `UNKNOWN` in an
unclassified module does get -25000, because the key is present in the table.

In the code, `mathesar` is tested before `db.`. The two prefixes cannot both
start one module, so the order of the two tests does not change any result
(`RulesExclusive`).

## Model

| member | source | states |
|---|---|---|
| `CodeTable.UNKNOWN_KEY` | mathesar/rpc/exceptions/error_codes.py:24 | the key `"UNKNOWN"` of the fallback entry that heads every table |
| `CodeTable.Keys` | mathesar/rpc/exceptions/error_codes.py:46-48 | the keys of a table's display in written order: `UNKNOWN_KEY` first, then the class names |
| `CodeTable.Display` | mathesar/rpc/exceptions/error_codes.py:46-107 | the mapping a dict display evaluates to, inserting keys left to right with codes start, start - 1, ...; the last key written gets the last code |
| `CodeTable.Dict` | mathesar/rpc/exceptions/error_codes.py:46-107 | the frozendict a table denotes: it always holds `UNKNOWN_KEY`, and its last name gets the lowest code, floor - number of names |
| `CodeTable.Get` | mathesar/rpc/exceptions/error_codes.py:43 | `frozendict.get(key)` gives `Some` exactly when the key is present, and then the stored code |
| `CodeTable.GetOr` | mathesar/rpc/exceptions/error_codes.py:31 | `frozendict.get(key, default)` gives the stored code when the key is present, and the default otherwise |
| `CodeTable.DisplayKeys` | mathesar/rpc/exceptions/error_codes.py:46-107 | a dict display holds exactly the keys written in it |
| `CodeTable.DisplayLast` | mathesar/rpc/exceptions/error_codes.py:46-107 | the key written last at position i gets the i-th code, start - i |
| `CodeTable.DisplayRange` | mathesar/rpc/exceptions/error_codes.py:46-107 | every code of a display lies in (start - number of keys, start] |
| `CodeTable.DisplayInjective` | mathesar/rpc/exceptions/error_codes.py:46-107 | two different keys of a display never share a code |
| `CodeTable.DisplayValueAt` | mathesar/rpc/exceptions/error_codes.py:46-107 | every code of a display is start - i for a position i that holds its key |
| `CodeTable.UnknownEntry` | mathesar/rpc/exceptions/error_codes.py:17-18 | every table holds `UNKNOWN_KEY`, and its code is the floor when no later name repeats the key |
| `CodeTable.DictKeys` | mathesar/rpc/exceptions/error_codes.py:46-48 | a table's keys are `UNKNOWN_KEY` and its class names, and nothing else |
| `CodeTable.DictAt` | mathesar/rpc/exceptions/error_codes.py:46-49 | the class name at position i gets floor - (i + 1), when the name is not written again later in the table |
| `CodeTable.DictRange` | mathesar/rpc/exceptions/error_codes.py:9-15 | every code of a table lies in [floor - number of names, floor] |
| `CodeTable.DictInjective` | mathesar/rpc/exceptions/error_codes.py:1-3 | no two keys of one table share a code |
| `CodeTable.DictNameBelowFloor` | mathesar/rpc/exceptions/error_codes.py:17-18 | a registered class name never gets the round-number floor |
| `ErrorCodes.CategoryOf` | mathesar/rpc/exceptions/error_codes.py:30-42 | the category of the first of the six prefix tests that succeeds, else Other: Other only when no prefix of `Rules` starts the module, and otherwise a rule whose prefix starts it names the category |
| `ErrorCodes.CategoryOfIsFirstMatch` | mathesar/rpc/exceptions/error_codes.py:30-43 | the if/elif chain picks the category of the first prefix in `Rules` that starts the module, and "other" when none does |
| `ErrorCodes.RulesExclusive` | mathesar/rpc/exceptions/error_codes.py:30-41 | no module starts with two of the six prefixes |
| `ErrorCodes.CategoryOfPrefix` | mathesar/rpc/exceptions/error_codes.py:30-41 | a module lands in a prefix's category if and only if it starts with that prefix |
| `ErrorCodes.CategoryOfOther` | mathesar/rpc/exceptions/error_codes.py:42-43 | a module lands in "other" if and only if it starts with none of the six prefixes |
| `ErrorCodes.PsycopgModules` | mathesar/rpc/exceptions/error_codes.py:10 | modules of both `psycopg` and `psycopg2` reach the driver table |
| `ErrorCodes.DbModules` | mathesar/rpc/exceptions/error_codes.py:38-43 | `db.tables.operations` reaches the db table, while `db` and `dbutils` fall to "other" |
| `ErrorCodes.BuiltinsModule` | mathesar/rpc/exceptions/error_codes.py:30 | the module `builtins` reaches the built-in table |
| `ErrorCodes.TableOf` | mathesar/rpc/exceptions/error_codes.py:31-43 | the table each branch of the chain reads: `builtin_error_map` for Builtin, ..., `other_error_map` for Other |
| `ErrorCodes.LookupOrUnknown` | mathesar/rpc/exceptions/error_codes.py:31 | a registered name gets its code, and a miss gets `table["UNKNOWN"]`, which is the floor when the table writes `UNKNOWN_KEY` once |
| `ErrorCodes.GetErrorCode` | mathesar/rpc/exceptions/error_codes.py:27-43 | the result is `None` if and only if the module is unclassified and the name is not in `other_error_map`; a name present in the category's table gets its recorded code; outside Other a miss gets that table's `UNKNOWN` code |
| `ErrorCodes.Floor` | mathesar/rpc/exceptions/error_codes.py:9-18 | the round-number code of each category's block, -31000 for builtins down to -25000 for other: a multiple of 1000 in [-31000, -25000] |
| `ErrorCodes.BlockOf` | mathesar/rpc/exceptions/error_codes.py:9-15 | the category whose -NNxxx block holds a code, or none if no block holds it |
| `ErrorCodes.ExactHit` | mathesar/rpc/exceptions/error_codes.py:27-43 | the name at position i of the category's table gets exactly floor - (i + 1), when the name is not written again later in that table |
| `ErrorCodes.Fallback` | mathesar/rpc/exceptions/error_codes.py:31-41 | outside "other", an unregistered name gets its category's round-number code |
| `ErrorCodes.FloorMeansUnregistered` | mathesar/rpc/exceptions/error_codes.py:17-18 | outside "other", the round-number code is returned if and only if the name is unregistered or is `UNKNOWN` |
| `ErrorCodes.OtherMissIsNone` | mathesar/rpc/exceptions/error_codes.py:43 | in "other", an unregistered name gives `None`, with no fallback |
| `ErrorCodes.OtherUnknownName` | mathesar/rpc/exceptions/error_codes.py:617 | in "other", a class literally named `UNKNOWN` gets -25000 |
| `ErrorCodes.CodeInBlock` | mathesar/rpc/exceptions/error_codes.py:9-15 | every returned code lies in its category's used block, and all of them lie in [-31059, -25000] |
| `ErrorCodes.CodeIdentifiesCategory` | mathesar/rpc/exceptions/error_codes.py:9-15 | the block of a returned code is the category of the module |
| `ErrorCodes.CategoriesNeverShareCodes` | mathesar/rpc/exceptions/error_codes.py:9-15 | modules of different categories never receive the same code |
| `ErrorCodes.RegisteredNamesDistinct` | mathesar/rpc/exceptions/error_codes.py:46-996 | within one category, two registered names never receive the same code |
| `ErrorTables.BuiltinErrorMap` | mathesar/rpc/exceptions/error_codes.py:46-107 | `builtin_error_map`: its floor and its class names, in the order the display writes them |
| `ErrorTables.PsycopgErrorMap` | mathesar/rpc/exceptions/error_codes.py:109-379 | `psycopg_error_map`: its floor and its class names, in the order the display writes them |
| `ErrorTables.DjangoErrorMap` | mathesar/rpc/exceptions/error_codes.py:382-494 | `django_error_map`: its floor and its class names, in the order the display writes them |
| `ErrorTables.MathesarErrorMap` | mathesar/rpc/exceptions/error_codes.py:496-532 | `mathesar_error_map`: its floor and its class names, in the order the display writes them |
| `ErrorTables.DbLibErrorMap` | mathesar/rpc/exceptions/error_codes.py:534-561 | `dblib_error_map`: its floor and its class names, in the order the display writes them |
| `ErrorTables.SqlAlchemyErrorMap` | mathesar/rpc/exceptions/error_codes.py:563-614 | `sqlalch_error_map`: its floor and its class names, in the order the display writes them |
| `ErrorTables.OtherErrorMap` | mathesar/rpc/exceptions/error_codes.py:616-996 | `other_error_map`: its floor and its class names, in the order the display writes them |
| `ErrorTables.BuiltinErrorMapShape` | mathesar/rpc/exceptions/error_codes.py:46-107 | `builtin_error_map` has floor -31000 and 59 names, and writes `UNKNOWN_KEY` once |
| `ErrorTables.PsycopgErrorMapShape` | mathesar/rpc/exceptions/error_codes.py:109-379 | `psycopg_error_map` has floor -30000 and 268 names, and writes `UNKNOWN_KEY` once |
| `ErrorTables.DjangoErrorMapShape` | mathesar/rpc/exceptions/error_codes.py:382-494 | `django_error_map` has floor -29000 and 110 names, and writes `UNKNOWN_KEY` once |
| `ErrorTables.MathesarErrorMapShape` | mathesar/rpc/exceptions/error_codes.py:496-532 | `mathesar_error_map` has floor -28000 and 34 names, and writes `UNKNOWN_KEY` once |
| `ErrorTables.DbLibErrorMapShape` | mathesar/rpc/exceptions/error_codes.py:534-561 | `dblib_error_map` has floor -27000 and 25 names, and writes `UNKNOWN_KEY` once |
| `ErrorTables.SqlAlchemyErrorMapShape` | mathesar/rpc/exceptions/error_codes.py:563-614 | `sqlalch_error_map` has floor -26000 and 49 names, and writes `UNKNOWN_KEY` once |
| `ErrorTables.OtherErrorMapShape` | mathesar/rpc/exceptions/error_codes.py:616-996 | `other_error_map` has floor -25000 and 378 names, and writes `UNKNOWN_KEY` once |
| `ErrorTables.BuiltinKeyErrorCode` | mathesar/rpc/exceptions/error_codes.py:72 | `builtin_error_map["KeyError"]` is -31025 |
| `ErrorTables.PsycopgUniqueViolationCode` | mathesar/rpc/exceptions/error_codes.py:370 | `psycopg_error_map["UniqueViolation"]` is -30260 |
| `ErrorTables.PsycopgDataErrorCode` | mathesar/rpc/exceptions/error_codes.py:138 | `psycopg_error_map["DataError"]` is -30028 |
| `ErrorTables.DjangoDataErrorCode` | mathesar/rpc/exceptions/error_codes.py:398 | `django_error_map["DataError"]` is -29015 |
| `ErrorTables.SqlAlchemyDataErrorCode` | mathesar/rpc/exceptions/error_codes.py:571 | `sqlalch_error_map["DataError"]` is -26007 |
| `ErrorTables.OtherDataErrorCode` | mathesar/rpc/exceptions/error_codes.py:681 | `other_error_map["DataError"]` is -25064 |
| `ErrorTables.MathesarEveryEntry` | mathesar/rpc/exceptions/error_codes.py:498-531 | `mathesar_error_map` writes no name twice, and its name at position i gets -28000 - (i + 1) |
| `ErrorTables.DbLibEveryEntry` | mathesar/rpc/exceptions/error_codes.py:536-560 | `dblib_error_map` writes no name twice, and its name at position i gets -27000 - (i + 1) |
| `SourceCodes.BuiltinCodes` | mathesar/rpc/exceptions/error_codes.py:30-31 | a `builtin` module always gets a code in [-31059, -31000], and gets -31000 if and only if the name is unregistered or is `UNKNOWN` |
| `SourceCodes.PsycopgCodes` | mathesar/rpc/exceptions/error_codes.py:32-33 | a `psycopg` module always gets a code in [-30268, -30000], and gets -30000 if and only if the name is unregistered or is `UNKNOWN` |
| `SourceCodes.DjangoCodes` | mathesar/rpc/exceptions/error_codes.py:34-35 | a `django` module always gets a code in [-29110, -29000], and gets -29000 if and only if the name is unregistered or is `UNKNOWN` |
| `SourceCodes.MathesarCodes` | mathesar/rpc/exceptions/error_codes.py:36-37 | a `mathesar` module always gets a code in [-28034, -28000], and gets -28000 if and only if the name is unregistered or is `UNKNOWN` |
| `SourceCodes.DbLibCodes` | mathesar/rpc/exceptions/error_codes.py:38-39 | a `db.` module always gets a code in [-27025, -27000], and gets -27000 if and only if the name is unregistered or is `UNKNOWN` |
| `SourceCodes.SqlAlchemyCodes` | mathesar/rpc/exceptions/error_codes.py:40-41 | a `sqlalchemy` module always gets a code in [-26049, -26000], and gets -26000 if and only if the name is unregistered or is `UNKNOWN` |
| `SourceCodes.OtherCodes` | mathesar/rpc/exceptions/error_codes.py:42-43 | an unclassified module gets a code in [-25378, -25000] or `None`. `None` comes if and only if the name is neither registered nor `UNKNOWN` |
| `SourceCodes.BuiltinKeyErrorHit` | mathesar/rpc/exceptions/error_codes.py:72 | a built-in `KeyError` gets -31025 |
| `SourceCodes.PsycopgUniqueViolationHit` | mathesar/rpc/exceptions/error_codes.py:370 | a driver `UniqueViolation` gets -30260 |
| `SourceCodes.PsycopgDataErrorHit` | mathesar/rpc/exceptions/error_codes.py:138 | a driver `DataError` gets -30028 |
| `SourceCodes.DjangoDataErrorHit` | mathesar/rpc/exceptions/error_codes.py:398 | a Django `DataError` gets -29015 |
| `SourceCodes.SqlAlchemyDataErrorHit` | mathesar/rpc/exceptions/error_codes.py:571 | a SQLAlchemy `DataError` gets -26007 |
| `SourceCodes.OtherDataErrorHit` | mathesar/rpc/exceptions/error_codes.py:681 | an unclassified `DataError` gets -25064 |
| `SourceCodes.SourceMaps` | mathesar/rpc/exceptions/error_codes.py:31-43 | the seven tables `get_error_code` reads, one per branch: `builtin_error_map`, `psycopg_error_map`, `django_error_map`, `mathesar_error_map`, `dblib_error_map`, `sqlalch_error_map`, `other_error_map` |
| `SourceCodes.SourceMapsShaped` | mathesar/rpc/exceptions/error_codes.py:46-996 | each of the seven source tables has its documented floor and size, and writes `UNKNOWN_KEY` once |
| `SourceCodes.SourceTotalRange` | mathesar/rpc/exceptions/error_codes.py:27-43 | over the source's tables the result is a code in [-31059, -25000] in the block of the module's category, or `None`, and `None` comes only from "other" |
| `SourceCodes.SourceBuiltinKeyError` | mathesar/rpc/exceptions/error_codes.py:72 | `KeyError` from module `builtins` gets -31025 |
| `SourceCodes.BuiltinNoSuchErrorAbsent` | mathesar/rpc/exceptions/error_codes.py:46-107 | `builtin_error_map` does not register `NoSuchError` |
| `SourceCodes.SourceBuiltinFallback` | mathesar/rpc/exceptions/error_codes.py:31 | an unregistered name from module `builtins` gets -31000 |
| `SourceCodes.SourceUniqueViolation` | mathesar/rpc/exceptions/error_codes.py:370 | `UniqueViolation` gets -30260 from both `psycopg.errors` and `psycopg2.errors` |
| `SourceCodes.SourcePsycopgDataError` | mathesar/rpc/exceptions/error_codes.py:138 | `DataError` from `psycopg.errors` gets -30028 |
| `SourceCodes.SourceDjangoDataError` | mathesar/rpc/exceptions/error_codes.py:398 | `DataError` from `django.db.utils` gets -29015 |
| `SourceCodes.SourceSqlAlchemyDataError` | mathesar/rpc/exceptions/error_codes.py:571 | `DataError` from `sqlalchemy.exc` gets -26007 |
| `SourceCodes.SourceOtherDataError` | mathesar/rpc/exceptions/error_codes.py:681 | `DataError` from `pandas.errors` gets -25064 |

## Left out

- How Python finds `err.__class__.__module__` and `err.__class__.__name__` (lines 28-29). The model takes the module path and the class name as two strings.
- Exceptions whose class lacks `__module__` or `__name__`. Every Python class has both, so the model does not need a failure path for them.
- The other functions of the repository: the table RPC methods of `mathesar/rpc/tables/base.py`, the linter configuration and the metadata migration. They only pass data to the database library and the ORM, and have no logic of their own to model.
- `ErrorCodes.GetErrorCode`: its own contract states the `None` condition, exact hits and the `UNKNOWN` default. That the default is the round-number floor, and the ranges, are stated by separate lemmas (`Fallback`, `CodeInBlock`, `SourceTotalRange`). Those lemmas need the tables to be well shaped, which `SourceMapsShaped` proves for the source.
- Exact hits are proved for every entry of `mathesar_error_map` and `dblib_error_map` (`MathesarEveryEntry`, `DbLibEveryEntry`) and for the cited example entries of the other tables (`KeyError`, `UniqueViolation` and the four `DataError`s). For any other entry, `ExactHit` gives floor - (i + 1) only under the further condition that the name at position i is not written again later in its table (`LastAt`). No name is repeated in the source tables, but that is not proved for the five larger tables.
