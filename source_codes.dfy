/**
 * get_error_code read with the seven tables of
 * mathesar/rpc/exceptions/error_codes.py. Each lemma fixes only the tables it
 * is about to the source's, and leaves the others free; a proof that sees all
 * seven tables at once is beyond what the verifier can handle in one step.
 */
module SourceCodes {
  import opened CodeTable
  import opened ErrorCodes
  import opened ErrorTables

  /** The tables get_error_code reads in the source. */
  const SourceMaps: ErrorMaps := ErrorMaps(
    BuiltinErrorMap,
    PsycopgErrorMap,
    DjangoErrorMap,
    MathesarErrorMap,
    DbLibErrorMap,
    SqlAlchemyErrorMap,
    OtherErrorMap)

  // ----- Block bounds and fallback, category by category -----

  /**
   * A module starting with "builtin": the code lies in [-31059, -31000], and it is the
   * round-number code -31000 exactly when the name is not registered (or is UNKNOWN).
   */
  lemma BuiltinCodes(maps: ErrorMaps, errModule: string, errName: string)
    requires maps.builtin == BuiltinErrorMap && CategoryOf(errModule) == Builtin
    ensures var r := GetErrorCode(maps, errModule, errName); r.Some? && -31059 <= r.value <= -31000
    ensures GetErrorCode(maps, errModule, errName) == Some(-31000) <==>
      errName == UNKNOWN_KEY || errName !in BuiltinErrorMap.names
  {
    BuiltinErrorMapShape();
    CodeInBlock(maps, errModule, errName);
    FloorMeansUnregistered(maps, errModule, errName);
  }

  /**
   * A module starting with "psycopg": the code lies in [-30268, -30000], and it is the
   * round-number code -30000 exactly when the name is not registered (or is UNKNOWN).
   */
  lemma PsycopgCodes(maps: ErrorMaps, errModule: string, errName: string)
    requires maps.psycopg == PsycopgErrorMap && CategoryOf(errModule) == Psycopg
    ensures var r := GetErrorCode(maps, errModule, errName); r.Some? && -30268 <= r.value <= -30000
    ensures GetErrorCode(maps, errModule, errName) == Some(-30000) <==>
      errName == UNKNOWN_KEY || errName !in PsycopgErrorMap.names
  {
    PsycopgErrorMapShape();
    CodeInBlock(maps, errModule, errName);
    FloorMeansUnregistered(maps, errModule, errName);
  }

  /**
   * A module starting with "django": the code lies in [-29110, -29000], and it is the
   * round-number code -29000 exactly when the name is not registered (or is UNKNOWN).
   */
  lemma DjangoCodes(maps: ErrorMaps, errModule: string, errName: string)
    requires maps.django == DjangoErrorMap && CategoryOf(errModule) == Django
    ensures var r := GetErrorCode(maps, errModule, errName); r.Some? && -29110 <= r.value <= -29000
    ensures GetErrorCode(maps, errModule, errName) == Some(-29000) <==>
      errName == UNKNOWN_KEY || errName !in DjangoErrorMap.names
  {
    DjangoErrorMapShape();
    CodeInBlock(maps, errModule, errName);
    FloorMeansUnregistered(maps, errModule, errName);
  }

  /**
   * A module starting with "mathesar": the code lies in [-28034, -28000], and it is the
   * round-number code -28000 exactly when the name is not registered (or is UNKNOWN).
   */
  lemma MathesarCodes(maps: ErrorMaps, errModule: string, errName: string)
    requires maps.mathesar == MathesarErrorMap && CategoryOf(errModule) == Mathesar
    ensures var r := GetErrorCode(maps, errModule, errName); r.Some? && -28034 <= r.value <= -28000
    ensures GetErrorCode(maps, errModule, errName) == Some(-28000) <==>
      errName == UNKNOWN_KEY || errName !in MathesarErrorMap.names
  {
    MathesarErrorMapShape();
    CodeInBlock(maps, errModule, errName);
    FloorMeansUnregistered(maps, errModule, errName);
  }

  /**
   * A module starting with "db.": the code lies in [-27025, -27000], and it is the
   * round-number code -27000 exactly when the name is not registered (or is UNKNOWN).
   */
  lemma DbLibCodes(maps: ErrorMaps, errModule: string, errName: string)
    requires maps.dblib == DbLibErrorMap && CategoryOf(errModule) == DbLib
    ensures var r := GetErrorCode(maps, errModule, errName); r.Some? && -27025 <= r.value <= -27000
    ensures GetErrorCode(maps, errModule, errName) == Some(-27000) <==>
      errName == UNKNOWN_KEY || errName !in DbLibErrorMap.names
  {
    DbLibErrorMapShape();
    CodeInBlock(maps, errModule, errName);
    FloorMeansUnregistered(maps, errModule, errName);
  }

  /**
   * A module starting with "sqlalchemy": the code lies in [-26049, -26000], and it is the
   * round-number code -26000 exactly when the name is not registered (or is UNKNOWN).
   */
  lemma SqlAlchemyCodes(maps: ErrorMaps, errModule: string, errName: string)
    requires maps.sqlalch == SqlAlchemyErrorMap && CategoryOf(errModule) == SqlAlchemy
    ensures var r := GetErrorCode(maps, errModule, errName); r.Some? && -26049 <= r.value <= -26000
    ensures GetErrorCode(maps, errModule, errName) == Some(-26000) <==>
      errName == UNKNOWN_KEY || errName !in SqlAlchemyErrorMap.names
  {
    SqlAlchemyErrorMapShape();
    CodeInBlock(maps, errModule, errName);
    FloorMeansUnregistered(maps, errModule, errName);
  }

  /**
   * A module matching none of the prefixes: a registered name gets a code in
   * [-25378, -25000]; any other name gets None, apart from a class named
   * UNKNOWN, which gets -25000.
   */
  lemma OtherCodes(maps: ErrorMaps, errModule: string, errName: string)
    requires maps.other == OtherErrorMap && CategoryOf(errModule) == Other
    ensures var r := GetErrorCode(maps, errModule, errName); r.Some? ==> -25378 <= r.value <= -25000
    ensures GetErrorCode(maps, errModule, errName).None? <==>
      errName != UNKNOWN_KEY && errName !in OtherErrorMap.names
    ensures errName == UNKNOWN_KEY ==> GetErrorCode(maps, errModule, errName) == Some(-25000)
  {
    OtherErrorMapShape();
    CodeInBlock(maps, errModule, errName);
    DictKeys(OtherErrorMap, errName);
    if errName == UNKNOWN_KEY {
      OtherUnknownName(maps, errModule);
    }
  }

  // ----- Exact hits -----

  /** builtin_error_map, line 72: KeyError is -31025. */
  lemma BuiltinKeyErrorHit(maps: ErrorMaps, errModule: string)
    requires maps.builtin == BuiltinErrorMap && CategoryOf(errModule) == Builtin
    ensures GetErrorCode(maps, errModule, "KeyError") == Some(-31025)
  {
    BuiltinKeyErrorCode();
  }

  /** psycopg_error_map, line 370: UniqueViolation is -30260. */
  lemma PsycopgUniqueViolationHit(maps: ErrorMaps, errModule: string)
    requires maps.psycopg == PsycopgErrorMap && CategoryOf(errModule) == Psycopg
    ensures GetErrorCode(maps, errModule, "UniqueViolation") == Some(-30260)
  {
    PsycopgUniqueViolationCode();
  }

  /** psycopg_error_map, line 138: DataError is -30028. */
  lemma PsycopgDataErrorHit(maps: ErrorMaps, errModule: string)
    requires maps.psycopg == PsycopgErrorMap && CategoryOf(errModule) == Psycopg
    ensures GetErrorCode(maps, errModule, "DataError") == Some(-30028)
  {
    PsycopgDataErrorCode();
  }

  /** django_error_map, line 398: DataError is -29015. */
  lemma DjangoDataErrorHit(maps: ErrorMaps, errModule: string)
    requires maps.django == DjangoErrorMap && CategoryOf(errModule) == Django
    ensures GetErrorCode(maps, errModule, "DataError") == Some(-29015)
  {
    DjangoDataErrorCode();
  }

  /** sqlalch_error_map, line 571: DataError is -26007. */
  lemma SqlAlchemyDataErrorHit(maps: ErrorMaps, errModule: string)
    requires maps.sqlalch == SqlAlchemyErrorMap && CategoryOf(errModule) == SqlAlchemy
    ensures GetErrorCode(maps, errModule, "DataError") == Some(-26007)
  {
    SqlAlchemyDataErrorCode();
  }

  /** other_error_map, line 681: DataError is -25064. */
  lemma OtherDataErrorHit(maps: ErrorMaps, errModule: string)
    requires maps.other == OtherErrorMap && CategoryOf(errModule) == Other
    ensures GetErrorCode(maps, errModule, "DataError") == Some(-25064)
  {
    OtherDataErrorCode();
  }


  // ----- Totality and range over all seven tables -----

  /** Every table of the source has its documented floor and size and writes UNKNOWN_KEY only once. */
  lemma SourceMapsShaped(c: Category)
    ensures ShapedFor(SourceMaps, c)
  {
    match c
    case Builtin => BuiltinErrorMapShape();
    case Psycopg => PsycopgErrorMapShape();
    case Django => DjangoErrorMapShape();
    case Mathesar => MathesarErrorMapShape();
    case DbLib => DbLibErrorMapShape();
    case SqlAlchemy => SqlAlchemyErrorMapShape();
    case Other => OtherErrorMapShape();
  }

  /**
   * get_error_code never fails: its result is a code in [-31059, -25000] that
   * lies in the block of the module's category, or None, and None comes only
   * from the Other branch.
   */
  lemma SourceTotalRange(errModule: string, errName: string)
    ensures var r := GetErrorCode(SourceMaps, errModule, errName);
      r.Some? ==> -31059 <= r.value <= -25000 && BlockOf(r.value) == Some(CategoryOf(errModule))
    ensures GetErrorCode(SourceMaps, errModule, errName).None? ==> CategoryOf(errModule) == Other
  {
    SourceMapsShaped(CategoryOf(errModule));
    CodeInBlock(SourceMaps, errModule, errName);
    if GetErrorCode(SourceMaps, errModule, errName).Some? {
      CodeIdentifiesCategory(SourceMaps, errModule, errName);
    }
  }

  // ----- Worked cases over the source's tables -----

  /** A built-in KeyError is -31025. */
  lemma SourceBuiltinKeyError()
    ensures GetErrorCode(SourceMaps, "builtins", "KeyError") == Some(-31025)
  {
    BuiltinsModule();
    BuiltinKeyErrorHit(SourceMaps, "builtins");
  }

  /** builtin_error_map does not register a class named NoSuchError. */
  lemma BuiltinNoSuchErrorAbsent()
    ensures "NoSuchError" !in BuiltinErrorMap.names
  {
    assert "NoSuchError" !in BuiltinNames00;
    assert "NoSuchError" !in BuiltinNames01;
    assert "NoSuchError" !in BuiltinNames02;
  }

  /** An unregistered built-in name falls back to -31000. */
  lemma SourceBuiltinFallback()
    ensures GetErrorCode(SourceMaps, "builtins", "NoSuchError") == Some(-31000)
  {
    BuiltinsModule();
    BuiltinNoSuchErrorAbsent();
    BuiltinCodes(SourceMaps, "builtins", "NoSuchError");
  }

  /** UniqueViolation is -30260 whether the driver is psycopg or psycopg2. */
  lemma SourceUniqueViolation()
    ensures GetErrorCode(SourceMaps, "psycopg.errors", "UniqueViolation") == Some(-30260)
    ensures GetErrorCode(SourceMaps, "psycopg2.errors", "UniqueViolation") == Some(-30260)
  {
    PsycopgModules();
    PsycopgUniqueViolationHit(SourceMaps, "psycopg.errors");
    PsycopgUniqueViolationHit(SourceMaps, "psycopg2.errors");
  }

  /** DataError from the driver is -30028. */
  lemma SourcePsycopgDataError()
    ensures GetErrorCode(SourceMaps, "psycopg.errors", "DataError") == Some(-30028)
  {
    PsycopgModules();
    PsycopgDataErrorHit(SourceMaps, "psycopg.errors");
  }

  /** DataError from Django is -29015. */
  lemma SourceDjangoDataError()
    ensures GetErrorCode(SourceMaps, "django.db.utils", "DataError") == Some(-29015)
  {
    assert Rules[2].0 <= "django.db.utils";
    CategoryOfPrefix("django.db.utils", 2);
    DjangoDataErrorHit(SourceMaps, "django.db.utils");
  }

  /** DataError from SQLAlchemy is -26007. */
  lemma SourceSqlAlchemyDataError()
    ensures GetErrorCode(SourceMaps, "sqlalchemy.exc", "DataError") == Some(-26007)
  {
    assert Rules[5].0 <= "sqlalchemy.exc";
    CategoryOfPrefix("sqlalchemy.exc", 5);
    SqlAlchemyDataErrorHit(SourceMaps, "sqlalchemy.exc");
  }

  /** DataError from an unclassified package such as pandas is -25064. */
  lemma SourceOtherDataError()
    ensures GetErrorCode(SourceMaps, "pandas.errors", "DataError") == Some(-25064)
  {
    assert "pandas.errors"[0] == 'p' && "pandas.errors"[1] == 'a';
    OtherDataErrorHit(SourceMaps, "pandas.errors");
  }
}
