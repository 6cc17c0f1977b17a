/**
 * The seven frozendicts of mathesar/rpc/exceptions/error_codes.py, entry for
 * entry. Each table keeps the order of its display; the code of names[i] is
 * floor - (i + 1), which is how every entry of the source is written. The
 * names are split into blocks of at most 20 so that each block can be reasoned
 * about on its own.
 */
module ErrorTables {
  import opened CodeTable

  // ----- builtin_error_map, error_codes.py lines 46-107 -----

  /** Lines 48-67, codes -31001 to -31020. */
  const BuiltinNames00: seq<string> := [
    "ArithmeticError",
    "AssertionError",
    "AttributeError",
    "BlockingIOError",
    "BrokenPipeError",
    "BufferError",
    "BytesWarning",
    "ChildProcessError",
    "ConnectionAbortedError",
    "ConnectionError",
    "ConnectionRefusedError",
    "ConnectionResetError",
    "DeprecationWarning",
    "EOFError",
    "FileExistsError",
    "FileNotFoundError",
    "FloatingPointError",
    "FutureWarning",
    "ImportError",
    "ImportWarning"
  ]

  lemma BuiltinNames00Facts()
    ensures |BuiltinNames00| == 20 && UNKNOWN_KEY !in BuiltinNames00
  {
  }

  /** Lines 68-87, codes -31021 to -31040. */
  const BuiltinNames01: seq<string> := [
    "IndentationError",
    "IndexError",
    "InterruptedError",
    "IsADirectoryError",
    "KeyError",
    "LookupError",
    "MemoryError",
    "ModuleNotFoundError",
    "NameError",
    "NotADirectoryError",
    "NotImplementedError",
    "OSError",
    "OverflowError",
    "PendingDeprecationWarning",
    "PermissionError",
    "ProcessLookupError",
    "RecursionError",
    "ReferenceError",
    "ResourceWarning",
    "RuntimeError"
  ]

  lemma BuiltinNames01Facts()
    ensures |BuiltinNames01| == 20 && UNKNOWN_KEY !in BuiltinNames01
  {
  }

  /** Lines 88-106, codes -31041 to -31059. */
  const BuiltinNames02: seq<string> := [
    "RuntimeWarning",
    "StopAsyncIteration",
    "StopIteration",
    "SyntaxError",
    "SyntaxWarning",
    "SystemError",
    "TabError",
    "TimeoutError",
    "TypeError",
    "UnboundLocalError",
    "UnicodeDecodeError",
    "UnicodeEncodeError",
    "UnicodeError",
    "UnicodeTranslateError",
    "UnicodeWarning",
    "UserWarning",
    "ValueError",
    "Warning",
    "ZeroDivisionError"
  ]

  lemma BuiltinNames02Facts()
    ensures |BuiltinNames02| == 19 && UNKNOWN_KEY !in BuiltinNames02
  {
  }

  /** builtin_error_map: UNKNOWN_KEY at line 47, then 59 names. */
  const BuiltinErrorMap: Table := Table(-31000, BuiltinNames00 + BuiltinNames01 + BuiltinNames02)

  // ----- psycopg_error_map, error_codes.py lines 109-379 -----

  /** Lines 111-130, codes -30001 to -30020. */
  const PsycopgNames00: seq<string> := [
    "ActiveSqlTransaction",
    "AdminShutdown",
    "AmbiguousAlias",
    "AmbiguousColumn",
    "AmbiguousFunction",
    "AmbiguousParameter",
    "ArraySubscriptError",
    "AssertFailure",
    "BadCopyFileFormat",
    "BranchTransactionAlreadyActive",
    "CannotCoerce",
    "CannotConnectNow",
    "CantChangeRuntimeParam",
    "CardinalityViolation",
    "CaseNotFound",
    "CharacterNotInRepertoire",
    "CheckViolation",
    "CollationMismatch",
    "ConfigFileError",
    "ConfigurationLimitExceeded"
  ]

  lemma PsycopgNames00Facts()
    ensures |PsycopgNames00| == 20 && UNKNOWN_KEY !in PsycopgNames00
  {
  }

  /** Lines 131-150, codes -30021 to -30040. */
  const PsycopgNames01: seq<string> := [
    "ConnectionDoesNotExist",
    "ConnectionException",
    "ConnectionFailure",
    "ConnectionTimeout",
    "ContainingSqlNotPermitted",
    "CrashShutdown",
    "DataCorrupted",
    "DataError",
    "DataException",
    "DatabaseDropped",
    "DatabaseError",
    "DatatypeMismatch",
    "DatetimeFieldOverflow",
    "DeadlockDetected",
    "DependentObjectsStillExist",
    "DependentPrivilegeDescriptorsStillExist",
    "DiagnosticsException",
    "DiskFull",
    "DivisionByZero",
    "DuplicateAlias"
  ]

  lemma PsycopgNames01Facts()
    ensures |PsycopgNames01| == 20 && UNKNOWN_KEY !in PsycopgNames01
  {
  }

  /** Lines 151-170, codes -30041 to -30060. */
  const PsycopgNames02: seq<string> := [
    "DuplicateColumn",
    "DuplicateCursor",
    "DuplicateDatabase",
    "DuplicateFile",
    "DuplicateFunction",
    "DuplicateJsonObjectKeyValue",
    "DuplicateObject",
    "DuplicatePreparedStatement",
    "DuplicateSchema",
    "DuplicateTable",
    "Error",
    "ErrorInAssignment",
    "EscapeCharacterConflict",
    "EventTriggerProtocolViolated",
    "ExclusionViolation",
    "ExternalRoutineException",
    "ExternalRoutineInvocationException",
    "FdwColumnNameNotFound",
    "FdwDynamicParameterValueNeeded",
    "FdwError"
  ]

  lemma PsycopgNames02Facts()
    ensures |PsycopgNames02| == 20 && UNKNOWN_KEY !in PsycopgNames02
  {
  }

  /** Lines 171-190, codes -30061 to -30080. */
  const PsycopgNames03: seq<string> := [
    "FdwFunctionSequenceError",
    "FdwInconsistentDescriptorInformation",
    "FdwInvalidAttributeValue",
    "FdwInvalidColumnName",
    "FdwInvalidColumnNumber",
    "FdwInvalidDataType",
    "FdwInvalidDataTypeDescriptors",
    "FdwInvalidDescriptorFieldIdentifier",
    "FdwInvalidHandle",
    "FdwInvalidOptionIndex",
    "FdwInvalidOptionName",
    "FdwInvalidStringFormat",
    "FdwInvalidStringLengthOrBufferLength",
    "FdwInvalidUseOfNullPointer",
    "FdwNoSchemas",
    "FdwOptionNameNotFound",
    "FdwOutOfMemory",
    "FdwReplyHandle",
    "FdwSchemaNotFound",
    "FdwTableNotFound"
  ]

  lemma PsycopgNames03Facts()
    ensures |PsycopgNames03| == 20 && UNKNOWN_KEY !in PsycopgNames03
  {
  }

  /** Lines 191-210, codes -30081 to -30100. */
  const PsycopgNames04: seq<string> := [
    "FdwTooManyHandles",
    "FdwUnableToCreateExecution",
    "FdwUnableToCreateReply",
    "FdwUnableToEstablishConnection",
    "FeatureNotSupported",
    "FloatingPointException",
    "ForeignKeyViolation",
    "FunctionExecutedNoReturnStatement",
    "GeneratedAlways",
    "GroupingError",
    "HeldCursorRequiresSameIsolationLevel",
    "IdleInTransactionSessionTimeout",
    "IdleSessionTimeout",
    "InFailedSqlTransaction",
    "InappropriateAccessModeForBranchTransaction",
    "InappropriateIsolationLevelForBranchTransaction",
    "IndeterminateCollation",
    "IndeterminateDatatype",
    "IndexCorrupted",
    "IndicatorOverflow"
  ]

  lemma PsycopgNames04Facts()
    ensures |PsycopgNames04| == 20 && UNKNOWN_KEY !in PsycopgNames04
  {
  }

  /** Lines 211-230, codes -30101 to -30120. */
  const PsycopgNames05: seq<string> := [
    "InsufficientPrivilege",
    "InsufficientResources",
    "IntegrityConstraintViolation",
    "IntegrityError",
    "InterfaceError",
    "InternalError",
    "InternalError_",
    "IntervalFieldOverflow",
    "InvalidArgumentForLogarithm",
    "InvalidArgumentForNthValueFunction",
    "InvalidArgumentForNtileFunction",
    "InvalidArgumentForPowerFunction",
    "InvalidArgumentForSqlJsonDatetimeFunction",
    "InvalidArgumentForWidthBucketFunction",
    "InvalidAuthorizationSpecification",
    "InvalidBinaryRepresentation",
    "InvalidCatalogName",
    "InvalidCharacterValueForCast",
    "InvalidColumnDefinition",
    "InvalidColumnReference"
  ]

  lemma PsycopgNames05Facts()
    ensures |PsycopgNames05| == 20 && UNKNOWN_KEY !in PsycopgNames05
  {
  }

  /** Lines 231-250, codes -30121 to -30140. */
  const PsycopgNames06: seq<string> := [
    "InvalidCursorDefinition",
    "InvalidCursorName",
    "InvalidCursorState",
    "InvalidDatabaseDefinition",
    "InvalidDatetimeFormat",
    "InvalidEscapeCharacter",
    "InvalidEscapeOctet",
    "InvalidEscapeSequence",
    "InvalidForeignKey",
    "InvalidFunctionDefinition",
    "InvalidGrantOperation",
    "InvalidGrantor",
    "InvalidIndicatorParameterValue",
    "InvalidJsonText",
    "InvalidLocatorSpecification",
    "InvalidName",
    "InvalidObjectDefinition",
    "InvalidParameterValue",
    "InvalidPassword",
    "InvalidPrecedingOrFollowingSize"
  ]

  lemma PsycopgNames06Facts()
    ensures |PsycopgNames06| == 20 && UNKNOWN_KEY !in PsycopgNames06
  {
  }

  /** Lines 251-270, codes -30141 to -30160. */
  const PsycopgNames07: seq<string> := [
    "InvalidPreparedStatementDefinition",
    "InvalidRecursion",
    "InvalidRegularExpression",
    "InvalidRoleSpecification",
    "InvalidRowCountInLimitClause",
    "InvalidRowCountInResultOffsetClause",
    "InvalidSavepointSpecification",
    "InvalidSchemaDefinition",
    "InvalidSchemaName",
    "InvalidSqlJsonSubscript",
    "InvalidSqlStatementName",
    "InvalidSqlstateReturned",
    "InvalidTableDefinition",
    "InvalidTablesampleArgument",
    "InvalidTablesampleRepeat",
    "InvalidTextRepresentation",
    "InvalidTimeZoneDisplacementValue",
    "InvalidTransactionInitiation",
    "InvalidTransactionState",
    "InvalidTransactionTermination"
  ]

  lemma PsycopgNames07Facts()
    ensures |PsycopgNames07| == 20 && UNKNOWN_KEY !in PsycopgNames07
  {
  }

  /** Lines 271-290, codes -30161 to -30180. */
  const PsycopgNames08: seq<string> := [
    "InvalidUseOfEscapeCharacter",
    "InvalidXmlComment",
    "InvalidXmlContent",
    "InvalidXmlDocument",
    "InvalidXmlProcessingInstruction",
    "IoError",
    "LocatorException",
    "LockFileExists",
    "LockNotAvailable",
    "ModifyingSqlDataNotPermitted",
    "ModifyingSqlDataNotPermittedExt",
    "MoreThanOneSqlJsonItem",
    "MostSpecificTypeMismatch",
    "NameTooLong",
    "NoActiveSqlTransaction",
    "NoActiveSqlTransactionForBranchTransaction",
    "NoAdditionalDynamicResultSetsReturned",
    "NoData",
    "NoDataFound",
    "NoSqlJsonItem"
  ]

  lemma PsycopgNames08Facts()
    ensures |PsycopgNames08| == 20 && UNKNOWN_KEY !in PsycopgNames08
  {
  }

  /** Lines 291-310, codes -30181 to -30200. */
  const PsycopgNames09: seq<string> := [
    "NonNumericSqlJsonItem",
    "NonUniqueKeysInAJsonObject",
    "NonstandardUseOfEscapeCharacter",
    "NotAnXmlDocument",
    "NotNullViolation",
    "NotSupportedError",
    "NullValueNoIndicatorParameter",
    "NullValueNotAllowed",
    "NullValueNotAllowedExt",
    "NumericValueOutOfRange",
    "ObjectInUse",
    "ObjectNotInPrerequisiteState",
    "OperationalError",
    "OperatorIntervention",
    "OutOfMemory",
    "OutOfOrderTransactionNesting",
    "PipelineAborted",
    "PlpgsqlError",
    "ProgramLimitExceeded",
    "ProgrammingError"
  ]

  lemma PsycopgNames09Facts()
    ensures |PsycopgNames09| == 20 && UNKNOWN_KEY !in PsycopgNames09
  {
  }

  /** Lines 311-330, codes -30201 to -30220. */
  const PsycopgNames10: seq<string> := [
    "ProhibitedSqlStatementAttempted",
    "ProhibitedSqlStatementAttemptedExt",
    "ProtocolViolation",
    "QueryCanceled",
    "QueryCanceledError",
    "RaiseException",
    "ReadOnlySqlTransaction",
    "ReadingSqlDataNotPermitted",
    "ReadingSqlDataNotPermittedExt",
    "ReservedName",
    "RestrictViolation",
    "Rollback",
    "SavepointException",
    "SchemaAndDataStatementMixingNotSupported",
    "SequenceGeneratorLimitExceeded",
    "SerializationFailure",
    "SingletonSqlJsonItemRequired",
    "SnapshotTooOld",
    "SqlJsonArrayNotFound",
    "SqlJsonItemCannotBeCastToTargetType"
  ]

  lemma PsycopgNames10Facts()
    ensures |PsycopgNames10| == 20 && UNKNOWN_KEY !in PsycopgNames10
  {
  }

  /** Lines 331-350, codes -30221 to -30240. */
  const PsycopgNames11: seq<string> := [
    "SqlJsonMemberNotFound",
    "SqlJsonNumberNotFound",
    "SqlJsonObjectNotFound",
    "SqlJsonScalarRequired",
    "SqlRoutineException",
    "SqlStatementNotYetComplete",
    "SqlclientUnableToEstablishSqlconnection",
    "SqlserverRejectedEstablishmentOfSqlconnection",
    "SrfProtocolViolated",
    "StackedDiagnosticsAccessedWithoutActiveHandler",
    "StatementCompletionUnknown",
    "StatementTooComplex",
    "StopReplication",
    "StringDataLengthMismatch",
    "StringDataRightTruncation",
    "SubstringError",
    "SyntaxError",
    "SyntaxErrorOrAccessRuleViolation",
    "SystemError",
    "TooManyArguments"
  ]

  lemma PsycopgNames11Facts()
    ensures |PsycopgNames11| == 20 && UNKNOWN_KEY !in PsycopgNames11
  {
  }

  /** Lines 351-370, codes -30241 to -30260. */
  const PsycopgNames12: seq<string> := [
    "TooManyColumns",
    "TooManyConnections",
    "TooManyJsonArrayElements",
    "TooManyJsonObjectMembers",
    "TooManyRows",
    "TransactionIntegrityConstraintViolation",
    "TransactionResolutionUnknown",
    "TransactionRollback",
    "TransactionRollbackError",
    "TriggerProtocolViolated",
    "TriggeredActionException",
    "TriggeredDataChangeViolation",
    "TrimError",
    "UndefinedColumn",
    "UndefinedFile",
    "UndefinedFunction",
    "UndefinedObject",
    "UndefinedParameter",
    "UndefinedTable",
    "UniqueViolation"
  ]

  lemma PsycopgNames12Facts()
    ensures |PsycopgNames12| == 20 && UNKNOWN_KEY !in PsycopgNames12
  {
  }

  /** Lines 371-378, codes -30261 to -30268. */
  const PsycopgNames13: seq<string> := [
    "UnsafeNewEnumValueUsage",
    "UnterminatedCString",
    "UntranslatableCharacter",
    "Warning",
    "WindowingError",
    "WithCheckOptionViolation",
    "WrongObjectType",
    "ZeroLengthCharacterString"
  ]

  lemma PsycopgNames13Facts()
    ensures |PsycopgNames13| == 8 && UNKNOWN_KEY !in PsycopgNames13
  {
  }

  /** psycopg_error_map: UNKNOWN_KEY at line 110, then 268 names. */
  const PsycopgErrorMap: Table := Table(-30000, PsycopgNames00 + PsycopgNames01 + PsycopgNames02 + PsycopgNames03 + PsycopgNames04 + PsycopgNames05 + PsycopgNames06 + PsycopgNames07 + PsycopgNames08 + PsycopgNames09 + PsycopgNames10 + PsycopgNames11 + PsycopgNames12 + PsycopgNames13)

  // ----- django_error_map, error_codes.py lines 382-494 -----

  /** Lines 384-403, codes -29001 to -29020. */
  const DjangoNames00: seq<string> := [
    "AlreadyRegistered",
    "AmbiguityError",
    "AppRegistryNotReady",
    "BadHeaderError",
    "BadMigrationError",
    "BadRequest",
    "BadSignature",
    "CacheKeyWarning",
    "CircularDependencyError",
    "CommandError",
    "ConnectionDoesNotExist",
    "ContentNotRenderedError",
    "ContextPopException",
    "CyclicDependencyError",
    "DataError",
    "DatabaseError",
    "DatabaseOperationForbidden",
    "DeleteViewCustomDeleteWarning",
    "DeserializationError",
    "DisallowedHost"
  ]

  lemma DjangoNames00Facts()
    ensures |DjangoNames00| == 20 && UNKNOWN_KEY !in DjangoNames00
  {
  }

  /** Lines 404-423, codes -29021 to -29040. */
  const DjangoNames01: seq<string> := [
    "DisallowedModelAdminLookup",
    "DisallowedModelAdminToField",
    "DisallowedRedirect",
    "DjangoUnicodeDecodeError",
    "DoesNotExist",
    "EmptyPage",
    "EmptyResultSet",
    "Error",
    "ExceptionCycleWarning",
    "FieldDoesNotExist",
    "FieldError",
    "FieldIsAForeignKeyColumnName",
    "FieldLookupError",
    "FullResultSet",
    "GenericViewError",
    "HTMLParseError",
    "Http404",
    "ImproperlyConfigured",
    "InconsistentMigrationHistory",
    "IncorrectLookupParameters"
  ]

  lemma DjangoNames01Facts()
    ensures |DjangoNames01| == 20 && UNKNOWN_KEY !in DjangoNames01
  {
  }

  /** Lines 424-443, codes -29041 to -29060. */
  const DjangoNames02: seq<string> := [
    "InputStreamExhausted",
    "IntegrityError",
    "InterfaceError",
    "InternalError",
    "InvalidAlgorithm",
    "InvalidBasesError",
    "InvalidCacheBackendError",
    "InvalidCacheKey",
    "InvalidMigrationPlan",
    "InvalidPage",
    "InvalidStorageError",
    "InvalidTemplateEngineError",
    "InvalidTemplateLibrary",
    "InvalidTokenFormat",
    "IrreversibleError",
    "M2MDeserializationError",
    "MediaOrderConflictWarning",
    "MessageFailure",
    "MiddlewareNotUsed",
    "MigrationNotice"
  ]

  lemma DjangoNames02Facts()
    ensures |DjangoNames02| == 20 && UNKNOWN_KEY !in DjangoNames02
  {
  }

  /** Lines 444-463, codes -29061 to -29080. */
  const DjangoNames03: seq<string> := [
    "MigrationSchemaMissing",
    "MultiJoin",
    "MultiPartParserError",
    "MultiValueDictKeyError",
    "MultipleObjectsReturned",
    "NoReverseMatch",
    "NodeNotFoundError",
    "NotRegistered",
    "NotRelationField",
    "NotSupportedError",
    "ObjectDoesNotExist",
    "OperationalError",
    "PageNotAnInteger",
    "PermissionDenied",
    "ProgrammingError",
    "ProtectedError",
    "RawPostDataException",
    "RedirectCycleError",
    "RejectRequest",
    "RemovedInDjango50Warning"
  ]

  lemma DjangoNames03Facts()
    ensures |DjangoNames03| == 20 && UNKNOWN_KEY !in DjangoNames03
  {
  }

  /** Lines 464-483, codes -29081 to -29100. */
  const DjangoNames04: seq<string> := [
    "RemovedInDjango51Warning",
    "RemovedInDjangoFilter25Warning",
    "RequestAborted",
    "RequestDataTooBig",
    "Resolver404",
    "RestrictedError",
    "SerializationError",
    "SerializerDoesNotExist",
    "SignatureExpired",
    "SkipFile",
    "StopFutureHandlers",
    "StopUpload",
    "SuspiciousFileOperation",
    "SuspiciousMultipartForm",
    "SuspiciousOperation",
    "SynchronousOnlyOperation",
    "SystemCheckError",
    "TemplateDoesNotExist",
    "TemplateSyntaxError",
    "TooManyFieldsSent"
  ]

  lemma DjangoNames04Facts()
    ensures |DjangoNames04| == 20 && UNKNOWN_KEY !in DjangoNames04
  {
  }

  /** Lines 484-493, codes -29101 to -29110. */
  const DjangoNames05: seq<string> := [
    "TooManyFilesSent",
    "TransactionManagementError",
    "TranslatorCommentWarning",
    "UnorderedObjectListWarning",
    "UnreadablePostError",
    "UploadFileException",
    "ValidationError",
    "VariableDoesNotExist",
    "ViewDoesNotExist",
    "WatchmanUnavailable"
  ]

  lemma DjangoNames05Facts()
    ensures |DjangoNames05| == 10 && UNKNOWN_KEY !in DjangoNames05
  {
  }

  /** django_error_map: UNKNOWN_KEY at line 383, then 110 names. */
  const DjangoErrorMap: Table := Table(-29000, DjangoNames00 + DjangoNames01 + DjangoNames02 + DjangoNames03 + DjangoNames04 + DjangoNames05)

  // ----- mathesar_error_map, error_codes.py lines 496-532 -----

  /** Lines 498-517, codes -28001 to -28020. */
  const MathesarNames00: seq<string> := [
    "BadDBCredentials",
    "ColumnSizeMismatchAPIException",
    "ConstraintColumnEmptyAPIException",
    "DeletedColumnAccess",
    "DeletedColumnAccessAPIException",
    "DictHasBadKeys",
    "DistinctColumnRequiredAPIException",
    "DoesNotExist",
    "DuplicateUIQueryInSchemaAPIException",
    "EditingPublicSchemaIsDisallowed",
    "GenericAPIException",
    "IncompatibleFractionDigitValuesAPIException",
    "IncorrectOldPassword",
    "IntegrityAPIException",
    "InvalidColumnOrder",
    "InvalidDBConnection",
    "InvalidLinkChoiceAPIException",
    "InvalidPrefetch",
    "InvalidTableName",
    "InvalidValueType"
  ]

  lemma MathesarNames00Facts()
    ensures |MathesarNames00| == 20 && UNKNOWN_KEY !in MathesarNames00
  {
  }

  /** Lines 518-531, codes -28021 to -28034. */
  const MathesarNames01: seq<string> := [
    "MathesarAPIException",
    "MathesarValidationException",
    "MethodNotAllowedAPIException",
    "MoneyDisplayOptionValueConflictAPIException",
    "MultipleDataFileAPIException",
    "MultipleObjectsReturned",
    "NetworkException",
    "NotFoundAPIException",
    "ProgrammingAPIException",
    "TypeErrorAPIException",
    "UnknownDatabaseTypeIdentifier",
    "UnsupportedConstraintAPIException",
    "UnsupportedInstallationDatabase",
    "ValueAPIException"
  ]

  lemma MathesarNames01Facts()
    ensures |MathesarNames01| == 14 && UNKNOWN_KEY !in MathesarNames01
  {
  }

  /** mathesar_error_map: UNKNOWN_KEY at line 497, then 34 names. */
  const MathesarErrorMap: Table := Table(-28000, MathesarNames00 + MathesarNames01)

  // ----- dblib_error_map, error_codes.py lines 534-561 -----

  /** Lines 536-555, codes -27001 to -27020. */
  const DbLibNames00: seq<string> := [
    "BadDBFunctionFormat",
    "BadGroupFormat",
    "BadSortFormat",
    "ColumnMappingsNotFound",
    "DBFunctionException",
    "DagCycleError",
    "DynamicDefaultWarning",
    "ExclusionError",
    "ForeignKeyError",
    "GroupFieldNotFound",
    "InvalidDate",
    "InvalidDateFormat",
    "InvalidDefaultError",
    "InvalidGroupType",
    "InvalidTypeError",
    "InvalidTypeOptionError",
    "InvalidTypeParameters",
    "NotNullError",
    "ReferencedColumnsDontExist",
    "SortFieldNotFound"
  ]

  lemma DbLibNames00Facts()
    ensures |DbLibNames00| == 20 && UNKNOWN_KEY !in DbLibNames00
  {
  }

  /** Lines 556-560, codes -27021 to -27025. */
  const DbLibNames01: seq<string> := [
    "TypeMismatchError",
    "UndefinedFunction",
    "UniqueValueError",
    "UnknownDBFunctionID",
    "UnsupportedTypeException"
  ]

  lemma DbLibNames01Facts()
    ensures |DbLibNames01| == 5 && UNKNOWN_KEY !in DbLibNames01
  {
  }

  /** dblib_error_map: UNKNOWN_KEY at line 535, then 25 names. */
  const DbLibErrorMap: Table := Table(-27000, DbLibNames00 + DbLibNames01)

  // ----- sqlalch_error_map, error_codes.py lines 563-614 -----

  /** Lines 565-584, codes -26001 to -26020. */
  const SqlAlchemyNames00: seq<string> := [
    "AmbiguousForeignKeysError",
    "ArgumentError",
    "AwaitRequired",
    "CircularDependencyError",
    "CompileError",
    "DBAPIError",
    "DataError",
    "DatabaseError",
    "DisconnectionError",
    "Empty",
    "Error",
    "Full",
    "IdentifierError",
    "IntegrityError",
    "InterfaceError",
    "InternalError",
    "InternalServerError",
    "InvalidCachedStatementError",
    "InvalidRequestError",
    "InvalidatePoolError"
  ]

  lemma SqlAlchemyNames00Facts()
    ensures |SqlAlchemyNames00| == 20 && UNKNOWN_KEY !in SqlAlchemyNames00
  {
  }

  /** Lines 585-604, codes -26021 to -26040. */
  const SqlAlchemyNames01: seq<string> := [
    "MissingGreenlet",
    "MovedIn20Warning",
    "MultipleResultsFound",
    "NoForeignKeysError",
    "NoInspectionAvailable",
    "NoReferenceError",
    "NoReferencedColumnError",
    "NoReferencedTableError",
    "NoResultFound",
    "NoSuchColumnError",
    "NoSuchModuleError",
    "NoSuchTableError",
    "NotSupportedError",
    "ObjectNotExecutableError",
    "OperationalError",
    "PendingRollbackError",
    "ProgrammingError",
    "RemovedIn20Warning",
    "ResourceClosedError",
    "SADeprecationWarning"
  ]

  lemma SqlAlchemyNames01Facts()
    ensures |SqlAlchemyNames01| == 20 && UNKNOWN_KEY !in SqlAlchemyNames01
  {
  }

  /** Lines 605-613, codes -26041 to -26049. */
  const SqlAlchemyNames02: seq<string> := [
    "SAPendingDeprecationWarning",
    "SAWarning",
    "SQLAlchemyError",
    "StatementError",
    "TimeoutError",
    "UnboundExecutionError",
    "UnreflectableTableError",
    "UnsupportedCompilationError",
    "Warning"
  ]

  lemma SqlAlchemyNames02Facts()
    ensures |SqlAlchemyNames02| == 9 && UNKNOWN_KEY !in SqlAlchemyNames02
  {
  }

  /** sqlalch_error_map: UNKNOWN_KEY at line 564, then 49 names. */
  const SqlAlchemyErrorMap: Table := Table(-26000, SqlAlchemyNames00 + SqlAlchemyNames01 + SqlAlchemyNames02)

  // ----- other_error_map, error_codes.py lines 616-996 -----

  /** Lines 618-637, codes -25001 to -25020. */
  const OtherNames00: seq<string> := [
    "APIException",
    "AbsoluteLinkError",
    "AbsolutePathError",
    "AbstractMethodError",
    "AccessorRegistrationWarning",
    "AddressValueError",
    "AlreadyFinalized",
    "AlreadyUpdated",
    "AmbiguousTimeError",
    "ApplyTypeError",
    "ArgumentError",
    "ArgumentTypeError",
    "AttributeConflictWarning",
    "AuthenticationFailed",
    "AxisError",
    "BadGzipFile",
    "BadStatusLine",
    "BadZipFile",
    "BidictException",
    "BodyNotHttplibCompatible"
  ]

  lemma OtherNames00Facts()
    ensures |OtherNames00| == 20 && UNKNOWN_KEY !in OtherNames00
  {
  }

  /** Lines 638-657, codes -25021 to -25040. */
  const OtherNames01: seq<string> := [
    "BoundaryError",
    "BrokenBarrierError",
    "BrokenExecutor",
    "BrokenThreadPool",
    "BuiltinSignatureError",
    "CCompilerError",
    "CSSWarning",
    "CalledProcessError",
    "CancelledError",
    "CannotSendHeader",
    "CannotSendRequest",
    "CategoricalConversionWarning",
    "CertificateError",
    "ChainedAssignmentError",
    "CharsetError",
    "ChunkedEncodingError",
    "Clamped",
    "ClassFoundException",
    "CloseBoundaryNotFoundDefect",
    "ClosedFileError"
  ]

  lemma OtherNames01Facts()
    ensures |OtherNames01| == 20 && UNKNOWN_KEY !in OtherNames01
  {
  }

  /** Lines 658-677, codes -25041 to -25060. */
  const OtherNames02: seq<string> := [
    "ClosedPoolError",
    "CodecRegistryError",
    "CommandError",
    "CompileError",
    "CompileException",
    "ComplexWarning",
    "ComposerError",
    "CompressionError",
    "ConnectTimeout",
    "ConnectTimeoutError",
    "ConnectionError",
    "ConstructorError",
    "ContentDecodingError",
    "ContentTooShortError",
    "ConversionSyntax",
    "ConversionWarning",
    "ConverterError",
    "ConverterLockError",
    "CookieConflictError",
    "CookieError"
  ]

  lemma OtherNames02Facts()
    ensures |OtherNames02| == 20 && UNKNOWN_KEY !in OtherNames02
  {
  }

  /** Lines 678-697, codes -25061 to -25080. */
  const OtherNames03: seq<string> := [
    "CryptographyDeprecationWarning",
    "DOMException",
    "DTypePromotionError",
    "DataError",
    "DatabaseError",
    "DateParseError",
    "DecimalException",
    "DecodeError",
    "DependencyWarning",
    "DeprecatedTzFormatWarning",
    "DistutilsArgError",
    "DistutilsByteCompileError",
    "DistutilsClassError",
    "DistutilsError",
    "DistutilsExecError",
    "DistutilsFileError",
    "DistutilsGetoptError",
    "DistutilsInternalError",
    "DistutilsModuleError",
    "DistutilsOptionError"
  ]

  lemma OtherNames03Facts()
    ensures |OtherNames03| == 20 && UNKNOWN_KEY !in OtherNames03
  {
  }

  /** Lines 698-717, codes -25081 to -25100. */
  const OtherNames04: seq<string> := [
    "DistutilsPlatformError",
    "DistutilsSetupError",
    "DistutilsTemplateError",
    "DivisionByZero",
    "DivisionImpossible",
    "DivisionUndefined",
    "DomstringSizeErr",
    "DtypeWarning",
    "DuplicateLabelError",
    "DuplicateOptionError",
    "DuplicateSectionError",
    "DuplicationError",
    "EOFHeaderError",
    "EmitterError",
    "Empty",
    "EmptyDataError",
    "EmptyHeaderError",
    "EmptyPoolError",
    "EndOfBlock",
    "Error"
  ]

  lemma OtherNames04Facts()
    ensures |OtherNames04| == 20 && UNKNOWN_KEY !in OtherNames04
  {
  }

  /** Lines 718-737, codes -25101 to -25120. */
  const OtherNames05: seq<string> := [
    "ExecError",
    "ExtractError",
    "FileModeWarning",
    "FilterError",
    "FirstHeaderLineIsContinuationDefect",
    "FloatOperation",
    "FrozenInstanceError",
    "Full",
    "FullPoolError",
    "GetPassWarning",
    "HTTPError",
    "HTTPException",
    "HTTPWarning",
    "HeaderDefect",
    "HeaderError",
    "HeaderMissingRequiredValue",
    "HeaderParseError",
    "HeaderParsingError",
    "HierarchyRequestErr",
    "HostChangedError"
  ]

  lemma OtherNames05Facts()
    ensures |OtherNames05| == 20 && UNKNOWN_KEY !in OtherNames05
  {
  }

  /** Lines 738-757, codes -25121 to -25140. */
  const OtherNames06: seq<string> := [
    "IDNABidiError",
    "IDNAError",
    "IllegalMonthError",
    "IllegalWeekdayError",
    "ImproperConnectionState",
    "IncompatibilityWarning",
    "IncompatibleFrequency",
    "Incomplete",
    "IncompleteRead",
    "IncompleteReadError",
    "IndexSizeErr",
    "IndexingError",
    "Inexact",
    "InsecurePlatformWarning",
    "InsecureRequestWarning",
    "IntCastingNaNError",
    "IntegrityError",
    "InterfaceError",
    "InterfaceNotImplemented",
    "InternalError"
  ]

  lemma OtherNames06Facts()
    ensures |OtherNames06| == 20 && UNKNOWN_KEY !in OtherNames06
  {
  }

  /** Lines 758-777, codes -25141 to -25160. */
  const OtherNames07: seq<string> := [
    "InterpolationDepthError",
    "InterpolationError",
    "InterpolationMissingOptionError",
    "InterpolationSyntaxError",
    "InuseAttributeErr",
    "InvalidAccessErr",
    "InvalidBase64CharactersDefect",
    "InvalidBase64LengthDefect",
    "InvalidBase64PaddingDefect",
    "InvalidCharacterErr",
    "InvalidChunkLength",
    "InvalidCodepoint",
    "InvalidCodepointContext",
    "InvalidColumnName",
    "InvalidComparison",
    "InvalidContext",
    "InvalidHeader",
    "InvalidHeaderDefect",
    "InvalidHeaderError",
    "InvalidIndexError"
  ]

  lemma OtherNames07Facts()
    ensures |OtherNames07| == 20 && UNKNOWN_KEY !in OtherNames07
  {
  }

  /** Lines 778-797, codes -25161 to -25180. */
  const OtherNames08: seq<string> := [
    "InvalidJSONError",
    "InvalidKey",
    "InvalidModificationErr",
    "InvalidMultipartContentTransferEncodingDefect",
    "InvalidOperation",
    "InvalidProxyURL",
    "InvalidSchema",
    "InvalidSignature",
    "InvalidStateErr",
    "InvalidStateError",
    "InvalidTZPathWarning",
    "InvalidTag",
    "InvalidTimeError",
    "InvalidToken",
    "InvalidURL",
    "InvalidVersion",
    "IsDirectoryError",
    "ItimerError",
    "JSONDecodeError",
    "KeyAndValueDuplicationError"
  ]

  lemma OtherNames08Facts()
    ensures |OtherNames08| == 20 && UNKNOWN_KEY !in OtherNames08
  {
  }

  /** Lines 798-817, codes -25181 to -25200. */
  const OtherNames09: seq<string> := [
    "KeyDuplicationError",
    "LZMAError",
    "LargeZipFile",
    "LibError",
    "LimitOverrunError",
    "LinAlgError",
    "LineTooLong",
    "LinkError",
    "LinkOutsideDestinationError",
    "LoadError",
    "LocationParseError",
    "LocationValueError",
    "LossySetitemError",
    "MAError",
    "MakoException",
    "MarkedYAMLError",
    "MaskError",
    "MaskedArrayFutureWarning",
    "MaxRetryError",
    "MemoryError"
  ]

  lemma OtherNames09Facts()
    ensures |OtherNames09| == 20 && UNKNOWN_KEY !in OtherNames09
  {
  }

  /** Lines 818-837, codes -25201 to -25220. */
  const OtherNames10: seq<string> := [
    "MergeError",
    "MessageDefect",
    "MessageError",
    "MessageParseError",
    "MethodNotAllowed",
    "MisplacedEnvelopeHeaderDefect",
    "MissingFileError",
    "MissingHeaderBodySeparatorDefect",
    "MissingSchema",
    "MissingSectionHeaderError",
    "ModuleDeprecationWarning",
    "MultipartConversionError",
    "MultipartInvariantViolationDefect",
    "NameConflictError",
    "NameResolutionError",
    "NamespaceErr",
    "NetmaskValueError",
    "NewConnectionError",
    "NoBoundaryInMultipartDefect",
    "NoBufferPresent"
  ]

  lemma OtherNames10Facts()
    ensures |OtherNames10| == 20 && UNKNOWN_KEY !in OtherNames10
  {
  }

  /** Lines 838-857, codes -25221 to -25240. */
  const OtherNames11: seq<string> := [
    "NoDataAllowedErr",
    "NoModificationAllowedErr",
    "NoOptionError",
    "NoSectionError",
    "NonASCIILocalPartDefect",
    "NonExistentTimeError",
    "NonPrintableDefect",
    "NotARegularFileError",
    "NotAcceptable",
    "NotAuthenticated",
    "NotConnected",
    "NotFound",
    "NotFoundErr",
    "NotOpenSSLWarning",
    "NotSupportedErr",
    "NotSupportedError",
    "NotYetFinalized",
    "NullFrequencyError",
    "NumExprClobberingError",
    "NumbaUtilError"
  ]

  lemma OtherNames11Facts()
    ensures |OtherNames11| == 20 && UNKNOWN_KEY !in OtherNames11
  {
  }

  /** Lines 858-877, codes -25241 to -25260. */
  const OtherNames12: seq<string> := [
    "ObjectTypeError",
    "ObjectValueError",
    "ObsoleteHeaderDefect",
    "OperationalError",
    "OptionError",
    "OutOfBoundsDatetime",
    "OutOfBoundsTimedelta",
    "OutsideDestinationError",
    "Overflow",
    "PackageNotFoundError",
    "ParseError",
    "ParserError",
    "ParserWarning",
    "ParsingError",
    "PerformanceWarning",
    "PermissionDenied",
    "PickleError",
    "PicklingError",
    "PoolError",
    "PossibleDataLossError"
  ]

  lemma OtherNames12Facts()
    ensures |OtherNames12| == 20 && UNKNOWN_KEY !in OtherNames12
  {
  }

  /** Lines 878-897, codes -25261 to -25280. */
  const OtherNames13: seq<string> := [
    "PossiblePrecisionLoss",
    "PreprocessError",
    "ProgrammingError",
    "ProtocolError",
    "ProxyError",
    "ProxySchemeUnknown",
    "ProxySchemeUnsupported",
    "PyperclipException",
    "PyperclipWindowsException",
    "QueueEmpty",
    "QueueFull",
    "RankWarning",
    "ReadError",
    "ReadTimeout",
    "ReadTimeoutError",
    "ReaderError",
    "RegistryError",
    "RemoteDisconnected",
    "RemovedInDRF315Warning",
    "RepresenterError"
  ]

  lemma OtherNames13Facts()
    ensures |OtherNames13| == 20 && UNKNOWN_KEY !in OtherNames13
  {
  }

  /** Lines 898-917, codes -25281 to -25300. */
  const OtherNames14: seq<string> := [
    "RequestError",
    "RequestException",
    "RequestsDependencyWarning",
    "RequestsWarning",
    "ResolverError",
    "ResponseError",
    "ResponseNotChunked",
    "ResponseNotReady",
    "RetryError",
    "Rounded",
    "RuntimeException",
    "SQLParseError",
    "SSLCertVerificationError",
    "SSLEOFError",
    "SSLError",
    "SSLSyscallError",
    "SSLWantReadError",
    "SSLWantWriteError",
    "SSLZeroReturnError",
    "SameFileError"
  ]

  lemma OtherNames14Facts()
    ensures |OtherNames14| == 20 && UNKNOWN_KEY !in OtherNames14
  {
  }

  /** Lines 918-937, codes -25301 to -25320. */
  const OtherNames15: seq<string> := [
    "ScannerError",
    "SecurityWarning",
    "SendfileNotAvailableError",
    "SerializerError",
    "SettingWithCopyError",
    "SettingWithCopyWarning",
    "SkipField",
    "SkipTest",
    "SpecialFileError",
    "SpecificationError",
    "StartBoundaryNotFoundDefect",
    "StopTokenizing",
    "StreamConsumedError",
    "StreamError",
    "Subnormal",
    "SubprocessError",
    "SubsequentHeaderError",
    "SyntaxErr",
    "SyntaxException",
    "SystemTimeWarning"
  ]

  lemma OtherNames15Facts()
    ensures |OtherNames15| == 20 && UNKNOWN_KEY !in OtherNames15
  {
  }

  /** Lines 938-957, codes -25321 to -25340. */
  const OtherNames16: seq<string> := [
    "TarError",
    "TemplateLookupException",
    "Throttled",
    "Timeout",
    "TimeoutError",
    "TimeoutExpired",
    "TimeoutStateError",
    "TokenError",
    "TooHardError",
    "TooManyRedirects",
    "TopLevelLookupException",
    "TruncatedHeaderError",
    "UFuncTypeError",
    "URLError",
    "URLRequired",
    "URLSchemeUnknown",
    "UndecodableBytesDefect",
    "UndefinedValueError",
    "UndefinedVariableError",
    "Underflow"
  ]

  lemma OtherNames16Facts()
    ensures |OtherNames16| == 20 && UNKNOWN_KEY !in OtherNames16
  {
  }

  /** Lines 958-977, codes -25341 to -25360. */
  const OtherNames17: seq<string> := [
    "UnimplementedFileMode",
    "UnknownFileError",
    "UnknownProtocol",
    "UnknownTimeZoneError",
    "UnknownTimezoneWarning",
    "UnknownTransferEncoding",
    "UnpicklingError",
    "UnrewindableBodyError",
    "UnsortedIndexError",
    "UnsupportedAlgorithm",
    "UnsupportedError",
    "UnsupportedFunctionCall",
    "UnsupportedMediaType",
    "UnsupportedOperation",
    "ValidationErr",
    "ValidationError",
    "ValueDuplicationError",
    "ValueLabelTypeMismatch",
    "Verbose",
    "VerificationError"
  ]

  lemma OtherNames17Facts()
    ensures |OtherNames17| == 20 && UNKNOWN_KEY !in OtherNames17
  {
  }

  /** Lines 978-995, codes -25361 to -25378. */
  const OtherNames18: seq<string> := [
    "VisibleDeprecationWarning",
    "Warning",
    "WrongDocumentErr",
    "YAMLError",
    "ZipImportError",
    "ZoneInfoNotFoundError",
    "_DeadlockError",
    "_GiveupOnFastCopy",
    "_GiveupOnSendfile",
    "_InvalidEwError",
    "_OptionError",
    "_ShouldStop",
    "_Stop",
    "_UnexpectedSuccess",
    "error",
    "gaierror",
    "herror",
    "timeout"
  ]

  lemma OtherNames18Facts()
    ensures |OtherNames18| == 18 && UNKNOWN_KEY !in OtherNames18
  {
  }

  /** other_error_map: UNKNOWN_KEY at line 617, then 378 names. */
  const OtherErrorMap: Table := Table(-25000, OtherNames00 + OtherNames01 + OtherNames02 + OtherNames03 + OtherNames04 + OtherNames05 + OtherNames06 + OtherNames07 + OtherNames08 + OtherNames09 + OtherNames10 + OtherNames11 + OtherNames12 + OtherNames13 + OtherNames14 + OtherNames15 + OtherNames16 + OtherNames17 + OtherNames18)

  lemma BuiltinNamesThrough01()
    ensures |BuiltinNames00 + BuiltinNames01| == 40 && UNKNOWN_KEY !in BuiltinNames00 + BuiltinNames01
  {
    BuiltinNames00Facts();
    BuiltinNames01Facts();
  }

  lemma BuiltinNamesThrough02()
    ensures |BuiltinNames00 + BuiltinNames01 + BuiltinNames02| == 59 && UNKNOWN_KEY !in BuiltinNames00 + BuiltinNames01 + BuiltinNames02
  {
    BuiltinNamesThrough01();
    BuiltinNames02Facts();
  }

  /** builtin_error_map has 59 names after UNKNOWN_KEY and none of them is UNKNOWN_KEY again. */
  lemma BuiltinErrorMapShape()
    ensures Shaped(BuiltinErrorMap, -31000, 59)
  {
    BuiltinNamesThrough02();
  }

  lemma PsycopgNamesThrough01()
    ensures |PsycopgNames00 + PsycopgNames01| == 40 && UNKNOWN_KEY !in PsycopgNames00 + PsycopgNames01
  {
    PsycopgNames00Facts();
    PsycopgNames01Facts();
  }

  lemma PsycopgNamesThrough02()
    ensures |PsycopgNames00 + PsycopgNames01 + PsycopgNames02| == 60 && UNKNOWN_KEY !in PsycopgNames00 + PsycopgNames01 + PsycopgNames02
  {
    PsycopgNamesThrough01();
    PsycopgNames02Facts();
  }

  lemma PsycopgNamesThrough03()
    ensures |PsycopgNames00 + PsycopgNames01 + PsycopgNames02 + PsycopgNames03| == 80 && UNKNOWN_KEY !in PsycopgNames00 + PsycopgNames01 + PsycopgNames02 + PsycopgNames03
  {
    PsycopgNamesThrough02();
    PsycopgNames03Facts();
  }

  lemma PsycopgNamesThrough04()
    ensures |PsycopgNames00 + PsycopgNames01 + PsycopgNames02 + PsycopgNames03 + PsycopgNames04| == 100 && UNKNOWN_KEY !in PsycopgNames00 + PsycopgNames01 + PsycopgNames02 + PsycopgNames03 + PsycopgNames04
  {
    PsycopgNamesThrough03();
    PsycopgNames04Facts();
  }

  lemma PsycopgNamesThrough05()
    ensures |PsycopgNames00 + PsycopgNames01 + PsycopgNames02 + PsycopgNames03 + PsycopgNames04 + PsycopgNames05| == 120 && UNKNOWN_KEY !in PsycopgNames00 + PsycopgNames01 + PsycopgNames02 + PsycopgNames03 + PsycopgNames04 + PsycopgNames05
  {
    PsycopgNamesThrough04();
    PsycopgNames05Facts();
  }

  lemma PsycopgNamesThrough06()
    ensures |PsycopgNames00 + PsycopgNames01 + PsycopgNames02 + PsycopgNames03 + PsycopgNames04 + PsycopgNames05 + PsycopgNames06| == 140 && UNKNOWN_KEY !in PsycopgNames00 + PsycopgNames01 + PsycopgNames02 + PsycopgNames03 + PsycopgNames04 + PsycopgNames05 + PsycopgNames06
  {
    PsycopgNamesThrough05();
    PsycopgNames06Facts();
  }

  lemma PsycopgNamesThrough07()
    ensures |PsycopgNames00 + PsycopgNames01 + PsycopgNames02 + PsycopgNames03 + PsycopgNames04 + PsycopgNames05 + PsycopgNames06 + PsycopgNames07| == 160 && UNKNOWN_KEY !in PsycopgNames00 + PsycopgNames01 + PsycopgNames02 + PsycopgNames03 + PsycopgNames04 + PsycopgNames05 + PsycopgNames06 + PsycopgNames07
  {
    PsycopgNamesThrough06();
    PsycopgNames07Facts();
  }

  lemma PsycopgNamesThrough08()
    ensures |PsycopgNames00 + PsycopgNames01 + PsycopgNames02 + PsycopgNames03 + PsycopgNames04 + PsycopgNames05 + PsycopgNames06 + PsycopgNames07 + PsycopgNames08| == 180 && UNKNOWN_KEY !in PsycopgNames00 + PsycopgNames01 + PsycopgNames02 + PsycopgNames03 + PsycopgNames04 + PsycopgNames05 + PsycopgNames06 + PsycopgNames07 + PsycopgNames08
  {
    PsycopgNamesThrough07();
    PsycopgNames08Facts();
  }

  lemma PsycopgNamesThrough09()
    ensures |PsycopgNames00 + PsycopgNames01 + PsycopgNames02 + PsycopgNames03 + PsycopgNames04 + PsycopgNames05 + PsycopgNames06 + PsycopgNames07 + PsycopgNames08 + PsycopgNames09| == 200 && UNKNOWN_KEY !in PsycopgNames00 + PsycopgNames01 + PsycopgNames02 + PsycopgNames03 + PsycopgNames04 + PsycopgNames05 + PsycopgNames06 + PsycopgNames07 + PsycopgNames08 + PsycopgNames09
  {
    PsycopgNamesThrough08();
    PsycopgNames09Facts();
  }

  lemma PsycopgNamesThrough10()
    ensures |PsycopgNames00 + PsycopgNames01 + PsycopgNames02 + PsycopgNames03 + PsycopgNames04 + PsycopgNames05 + PsycopgNames06 + PsycopgNames07 + PsycopgNames08 + PsycopgNames09 + PsycopgNames10| == 220 && UNKNOWN_KEY !in PsycopgNames00 + PsycopgNames01 + PsycopgNames02 + PsycopgNames03 + PsycopgNames04 + PsycopgNames05 + PsycopgNames06 + PsycopgNames07 + PsycopgNames08 + PsycopgNames09 + PsycopgNames10
  {
    PsycopgNamesThrough09();
    PsycopgNames10Facts();
  }

  lemma PsycopgNamesThrough11()
    ensures |PsycopgNames00 + PsycopgNames01 + PsycopgNames02 + PsycopgNames03 + PsycopgNames04 + PsycopgNames05 + PsycopgNames06 + PsycopgNames07 + PsycopgNames08 + PsycopgNames09 + PsycopgNames10 + PsycopgNames11| == 240 && UNKNOWN_KEY !in PsycopgNames00 + PsycopgNames01 + PsycopgNames02 + PsycopgNames03 + PsycopgNames04 + PsycopgNames05 + PsycopgNames06 + PsycopgNames07 + PsycopgNames08 + PsycopgNames09 + PsycopgNames10 + PsycopgNames11
  {
    PsycopgNamesThrough10();
    PsycopgNames11Facts();
  }

  lemma PsycopgNamesThrough12()
    ensures |PsycopgNames00 + PsycopgNames01 + PsycopgNames02 + PsycopgNames03 + PsycopgNames04 + PsycopgNames05 + PsycopgNames06 + PsycopgNames07 + PsycopgNames08 + PsycopgNames09 + PsycopgNames10 + PsycopgNames11 + PsycopgNames12| == 260 && UNKNOWN_KEY !in PsycopgNames00 + PsycopgNames01 + PsycopgNames02 + PsycopgNames03 + PsycopgNames04 + PsycopgNames05 + PsycopgNames06 + PsycopgNames07 + PsycopgNames08 + PsycopgNames09 + PsycopgNames10 + PsycopgNames11 + PsycopgNames12
  {
    PsycopgNamesThrough11();
    PsycopgNames12Facts();
  }

  lemma PsycopgNamesThrough13()
    ensures |PsycopgNames00 + PsycopgNames01 + PsycopgNames02 + PsycopgNames03 + PsycopgNames04 + PsycopgNames05 + PsycopgNames06 + PsycopgNames07 + PsycopgNames08 + PsycopgNames09 + PsycopgNames10 + PsycopgNames11 + PsycopgNames12 + PsycopgNames13| == 268 && UNKNOWN_KEY !in PsycopgNames00 + PsycopgNames01 + PsycopgNames02 + PsycopgNames03 + PsycopgNames04 + PsycopgNames05 + PsycopgNames06 + PsycopgNames07 + PsycopgNames08 + PsycopgNames09 + PsycopgNames10 + PsycopgNames11 + PsycopgNames12 + PsycopgNames13
  {
    PsycopgNamesThrough12();
    PsycopgNames13Facts();
  }

  /** psycopg_error_map has 268 names after UNKNOWN_KEY and none of them is UNKNOWN_KEY again. */
  lemma PsycopgErrorMapShape()
    ensures Shaped(PsycopgErrorMap, -30000, 268)
  {
    PsycopgNamesThrough13();
  }

  lemma DjangoNamesThrough01()
    ensures |DjangoNames00 + DjangoNames01| == 40 && UNKNOWN_KEY !in DjangoNames00 + DjangoNames01
  {
    DjangoNames00Facts();
    DjangoNames01Facts();
  }

  lemma DjangoNamesThrough02()
    ensures |DjangoNames00 + DjangoNames01 + DjangoNames02| == 60 && UNKNOWN_KEY !in DjangoNames00 + DjangoNames01 + DjangoNames02
  {
    DjangoNamesThrough01();
    DjangoNames02Facts();
  }

  lemma DjangoNamesThrough03()
    ensures |DjangoNames00 + DjangoNames01 + DjangoNames02 + DjangoNames03| == 80 && UNKNOWN_KEY !in DjangoNames00 + DjangoNames01 + DjangoNames02 + DjangoNames03
  {
    DjangoNamesThrough02();
    DjangoNames03Facts();
  }

  lemma DjangoNamesThrough04()
    ensures |DjangoNames00 + DjangoNames01 + DjangoNames02 + DjangoNames03 + DjangoNames04| == 100 && UNKNOWN_KEY !in DjangoNames00 + DjangoNames01 + DjangoNames02 + DjangoNames03 + DjangoNames04
  {
    DjangoNamesThrough03();
    DjangoNames04Facts();
  }

  lemma DjangoNamesThrough05()
    ensures |DjangoNames00 + DjangoNames01 + DjangoNames02 + DjangoNames03 + DjangoNames04 + DjangoNames05| == 110 && UNKNOWN_KEY !in DjangoNames00 + DjangoNames01 + DjangoNames02 + DjangoNames03 + DjangoNames04 + DjangoNames05
  {
    DjangoNamesThrough04();
    DjangoNames05Facts();
  }

  /** django_error_map has 110 names after UNKNOWN_KEY and none of them is UNKNOWN_KEY again. */
  lemma DjangoErrorMapShape()
    ensures Shaped(DjangoErrorMap, -29000, 110)
  {
    DjangoNamesThrough05();
  }

  lemma MathesarNamesThrough01()
    ensures |MathesarNames00 + MathesarNames01| == 34 && UNKNOWN_KEY !in MathesarNames00 + MathesarNames01
  {
    MathesarNames00Facts();
    MathesarNames01Facts();
  }

  /** mathesar_error_map has 34 names after UNKNOWN_KEY and none of them is UNKNOWN_KEY again. */
  lemma MathesarErrorMapShape()
    ensures Shaped(MathesarErrorMap, -28000, 34)
  {
    MathesarNamesThrough01();
  }

  lemma DbLibNamesThrough01()
    ensures |DbLibNames00 + DbLibNames01| == 25 && UNKNOWN_KEY !in DbLibNames00 + DbLibNames01
  {
    DbLibNames00Facts();
    DbLibNames01Facts();
  }

  /** dblib_error_map has 25 names after UNKNOWN_KEY and none of them is UNKNOWN_KEY again. */
  lemma DbLibErrorMapShape()
    ensures Shaped(DbLibErrorMap, -27000, 25)
  {
    DbLibNamesThrough01();
  }

  lemma SqlAlchemyNamesThrough01()
    ensures |SqlAlchemyNames00 + SqlAlchemyNames01| == 40 && UNKNOWN_KEY !in SqlAlchemyNames00 + SqlAlchemyNames01
  {
    SqlAlchemyNames00Facts();
    SqlAlchemyNames01Facts();
  }

  lemma SqlAlchemyNamesThrough02()
    ensures |SqlAlchemyNames00 + SqlAlchemyNames01 + SqlAlchemyNames02| == 49 && UNKNOWN_KEY !in SqlAlchemyNames00 + SqlAlchemyNames01 + SqlAlchemyNames02
  {
    SqlAlchemyNamesThrough01();
    SqlAlchemyNames02Facts();
  }

  /** sqlalch_error_map has 49 names after UNKNOWN_KEY and none of them is UNKNOWN_KEY again. */
  lemma SqlAlchemyErrorMapShape()
    ensures Shaped(SqlAlchemyErrorMap, -26000, 49)
  {
    SqlAlchemyNamesThrough02();
  }

  lemma OtherNamesThrough01()
    ensures |OtherNames00 + OtherNames01| == 40 && UNKNOWN_KEY !in OtherNames00 + OtherNames01
  {
    OtherNames00Facts();
    OtherNames01Facts();
  }

  lemma OtherNamesThrough02()
    ensures |OtherNames00 + OtherNames01 + OtherNames02| == 60 && UNKNOWN_KEY !in OtherNames00 + OtherNames01 + OtherNames02
  {
    OtherNamesThrough01();
    OtherNames02Facts();
  }

  lemma OtherNamesThrough03()
    ensures |OtherNames00 + OtherNames01 + OtherNames02 + OtherNames03| == 80 && UNKNOWN_KEY !in OtherNames00 + OtherNames01 + OtherNames02 + OtherNames03
  {
    OtherNamesThrough02();
    OtherNames03Facts();
  }

  lemma OtherNamesThrough04()
    ensures |OtherNames00 + OtherNames01 + OtherNames02 + OtherNames03 + OtherNames04| == 100 && UNKNOWN_KEY !in OtherNames00 + OtherNames01 + OtherNames02 + OtherNames03 + OtherNames04
  {
    OtherNamesThrough03();
    OtherNames04Facts();
  }

  lemma OtherNamesThrough05()
    ensures |OtherNames00 + OtherNames01 + OtherNames02 + OtherNames03 + OtherNames04 + OtherNames05| == 120 && UNKNOWN_KEY !in OtherNames00 + OtherNames01 + OtherNames02 + OtherNames03 + OtherNames04 + OtherNames05
  {
    OtherNamesThrough04();
    OtherNames05Facts();
  }

  lemma OtherNamesThrough06()
    ensures |OtherNames00 + OtherNames01 + OtherNames02 + OtherNames03 + OtherNames04 + OtherNames05 + OtherNames06| == 140 && UNKNOWN_KEY !in OtherNames00 + OtherNames01 + OtherNames02 + OtherNames03 + OtherNames04 + OtherNames05 + OtherNames06
  {
    OtherNamesThrough05();
    OtherNames06Facts();
  }

  lemma OtherNamesThrough07()
    ensures |OtherNames00 + OtherNames01 + OtherNames02 + OtherNames03 + OtherNames04 + OtherNames05 + OtherNames06 + OtherNames07| == 160 && UNKNOWN_KEY !in OtherNames00 + OtherNames01 + OtherNames02 + OtherNames03 + OtherNames04 + OtherNames05 + OtherNames06 + OtherNames07
  {
    OtherNamesThrough06();
    OtherNames07Facts();
  }

  lemma OtherNamesThrough08()
    ensures |OtherNames00 + OtherNames01 + OtherNames02 + OtherNames03 + OtherNames04 + OtherNames05 + OtherNames06 + OtherNames07 + OtherNames08| == 180 && UNKNOWN_KEY !in OtherNames00 + OtherNames01 + OtherNames02 + OtherNames03 + OtherNames04 + OtherNames05 + OtherNames06 + OtherNames07 + OtherNames08
  {
    OtherNamesThrough07();
    OtherNames08Facts();
  }

  lemma OtherNamesThrough09()
    ensures |OtherNames00 + OtherNames01 + OtherNames02 + OtherNames03 + OtherNames04 + OtherNames05 + OtherNames06 + OtherNames07 + OtherNames08 + OtherNames09| == 200 && UNKNOWN_KEY !in OtherNames00 + OtherNames01 + OtherNames02 + OtherNames03 + OtherNames04 + OtherNames05 + OtherNames06 + OtherNames07 + OtherNames08 + OtherNames09
  {
    OtherNamesThrough08();
    OtherNames09Facts();
  }

  lemma OtherNamesThrough10()
    ensures |OtherNames00 + OtherNames01 + OtherNames02 + OtherNames03 + OtherNames04 + OtherNames05 + OtherNames06 + OtherNames07 + OtherNames08 + OtherNames09 + OtherNames10| == 220 && UNKNOWN_KEY !in OtherNames00 + OtherNames01 + OtherNames02 + OtherNames03 + OtherNames04 + OtherNames05 + OtherNames06 + OtherNames07 + OtherNames08 + OtherNames09 + OtherNames10
  {
    OtherNamesThrough09();
    OtherNames10Facts();
  }

  lemma OtherNamesThrough11()
    ensures |OtherNames00 + OtherNames01 + OtherNames02 + OtherNames03 + OtherNames04 + OtherNames05 + OtherNames06 + OtherNames07 + OtherNames08 + OtherNames09 + OtherNames10 + OtherNames11| == 240 && UNKNOWN_KEY !in OtherNames00 + OtherNames01 + OtherNames02 + OtherNames03 + OtherNames04 + OtherNames05 + OtherNames06 + OtherNames07 + OtherNames08 + OtherNames09 + OtherNames10 + OtherNames11
  {
    OtherNamesThrough10();
    OtherNames11Facts();
  }

  lemma OtherNamesThrough12()
    ensures |OtherNames00 + OtherNames01 + OtherNames02 + OtherNames03 + OtherNames04 + OtherNames05 + OtherNames06 + OtherNames07 + OtherNames08 + OtherNames09 + OtherNames10 + OtherNames11 + OtherNames12| == 260 && UNKNOWN_KEY !in OtherNames00 + OtherNames01 + OtherNames02 + OtherNames03 + OtherNames04 + OtherNames05 + OtherNames06 + OtherNames07 + OtherNames08 + OtherNames09 + OtherNames10 + OtherNames11 + OtherNames12
  {
    OtherNamesThrough11();
    OtherNames12Facts();
  }

  lemma OtherNamesThrough13()
    ensures |OtherNames00 + OtherNames01 + OtherNames02 + OtherNames03 + OtherNames04 + OtherNames05 + OtherNames06 + OtherNames07 + OtherNames08 + OtherNames09 + OtherNames10 + OtherNames11 + OtherNames12 + OtherNames13| == 280 && UNKNOWN_KEY !in OtherNames00 + OtherNames01 + OtherNames02 + OtherNames03 + OtherNames04 + OtherNames05 + OtherNames06 + OtherNames07 + OtherNames08 + OtherNames09 + OtherNames10 + OtherNames11 + OtherNames12 + OtherNames13
  {
    OtherNamesThrough12();
    OtherNames13Facts();
  }

  lemma OtherNamesThrough14()
    ensures |OtherNames00 + OtherNames01 + OtherNames02 + OtherNames03 + OtherNames04 + OtherNames05 + OtherNames06 + OtherNames07 + OtherNames08 + OtherNames09 + OtherNames10 + OtherNames11 + OtherNames12 + OtherNames13 + OtherNames14| == 300 && UNKNOWN_KEY !in OtherNames00 + OtherNames01 + OtherNames02 + OtherNames03 + OtherNames04 + OtherNames05 + OtherNames06 + OtherNames07 + OtherNames08 + OtherNames09 + OtherNames10 + OtherNames11 + OtherNames12 + OtherNames13 + OtherNames14
  {
    OtherNamesThrough13();
    OtherNames14Facts();
  }

  lemma OtherNamesThrough15()
    ensures |OtherNames00 + OtherNames01 + OtherNames02 + OtherNames03 + OtherNames04 + OtherNames05 + OtherNames06 + OtherNames07 + OtherNames08 + OtherNames09 + OtherNames10 + OtherNames11 + OtherNames12 + OtherNames13 + OtherNames14 + OtherNames15| == 320 && UNKNOWN_KEY !in OtherNames00 + OtherNames01 + OtherNames02 + OtherNames03 + OtherNames04 + OtherNames05 + OtherNames06 + OtherNames07 + OtherNames08 + OtherNames09 + OtherNames10 + OtherNames11 + OtherNames12 + OtherNames13 + OtherNames14 + OtherNames15
  {
    OtherNamesThrough14();
    OtherNames15Facts();
  }

  lemma OtherNamesThrough16()
    ensures |OtherNames00 + OtherNames01 + OtherNames02 + OtherNames03 + OtherNames04 + OtherNames05 + OtherNames06 + OtherNames07 + OtherNames08 + OtherNames09 + OtherNames10 + OtherNames11 + OtherNames12 + OtherNames13 + OtherNames14 + OtherNames15 + OtherNames16| == 340 && UNKNOWN_KEY !in OtherNames00 + OtherNames01 + OtherNames02 + OtherNames03 + OtherNames04 + OtherNames05 + OtherNames06 + OtherNames07 + OtherNames08 + OtherNames09 + OtherNames10 + OtherNames11 + OtherNames12 + OtherNames13 + OtherNames14 + OtherNames15 + OtherNames16
  {
    OtherNamesThrough15();
    OtherNames16Facts();
  }

  lemma OtherNamesThrough17()
    ensures |OtherNames00 + OtherNames01 + OtherNames02 + OtherNames03 + OtherNames04 + OtherNames05 + OtherNames06 + OtherNames07 + OtherNames08 + OtherNames09 + OtherNames10 + OtherNames11 + OtherNames12 + OtherNames13 + OtherNames14 + OtherNames15 + OtherNames16 + OtherNames17| == 360 && UNKNOWN_KEY !in OtherNames00 + OtherNames01 + OtherNames02 + OtherNames03 + OtherNames04 + OtherNames05 + OtherNames06 + OtherNames07 + OtherNames08 + OtherNames09 + OtherNames10 + OtherNames11 + OtherNames12 + OtherNames13 + OtherNames14 + OtherNames15 + OtherNames16 + OtherNames17
  {
    OtherNamesThrough16();
    OtherNames17Facts();
  }

  lemma OtherNamesThrough18()
    ensures |OtherNames00 + OtherNames01 + OtherNames02 + OtherNames03 + OtherNames04 + OtherNames05 + OtherNames06 + OtherNames07 + OtherNames08 + OtherNames09 + OtherNames10 + OtherNames11 + OtherNames12 + OtherNames13 + OtherNames14 + OtherNames15 + OtherNames16 + OtherNames17 + OtherNames18| == 378 && UNKNOWN_KEY !in OtherNames00 + OtherNames01 + OtherNames02 + OtherNames03 + OtherNames04 + OtherNames05 + OtherNames06 + OtherNames07 + OtherNames08 + OtherNames09 + OtherNames10 + OtherNames11 + OtherNames12 + OtherNames13 + OtherNames14 + OtherNames15 + OtherNames16 + OtherNames17 + OtherNames18
  {
    OtherNamesThrough17();
    OtherNames18Facts();
  }

  /** other_error_map has 378 names after UNKNOWN_KEY and none of them is UNKNOWN_KEY again. */
  lemma OtherErrorMapShape()
    ensures Shaped(OtherErrorMap, -25000, 378)
  {
    OtherNamesThrough18();
  }

  lemma BuiltinKeyErrorNotIn02()
    ensures "KeyError" !in BuiltinNames02
  {
  }

  lemma BuiltinKeyErrorInBlock()
    ensures BuiltinNames01[4] == "KeyError" && LastAt(BuiltinNames01, 4)
  {
  }

  lemma BuiltinKeyErrorLastThrough01()
    ensures var s := BuiltinNames00 + BuiltinNames01; s[24] == "KeyError" && LastAt(s, 24)
  {
    BuiltinKeyErrorInBlock();
    BuiltinNames00Facts();
    LastAfterFront(BuiltinNames00, BuiltinNames01, 4);
  }

  lemma BuiltinKeyErrorLastThrough02()
    ensures var s := BuiltinNames00 + BuiltinNames01 + BuiltinNames02; s[24] == "KeyError" && LastAt(s, 24)
  {
    BuiltinKeyErrorLastThrough01();
    BuiltinKeyErrorNotIn02();
    LastBeforeBack(BuiltinNames00 + BuiltinNames01, BuiltinNames02, 24);
  }

  /** builtin_error_map, line 72: "KeyError" maps to -31025. */
  lemma BuiltinKeyErrorCode()
    ensures "KeyError" in Dict(BuiltinErrorMap) && Dict(BuiltinErrorMap)["KeyError"] == -31025
  {
    BuiltinKeyErrorLastThrough02();
    DictAt(BuiltinErrorMap, 24);
  }

  lemma PsycopgUniqueViolationNotIn13()
    ensures "UniqueViolation" !in PsycopgNames13
  {
  }

  lemma PsycopgUniqueViolationInBlock()
    ensures PsycopgNames12[19] == "UniqueViolation" && LastAt(PsycopgNames12, 19)
  {
  }

  lemma PsycopgUniqueViolationLastThrough12()
    ensures var s := PsycopgNames00 + PsycopgNames01 + PsycopgNames02 + PsycopgNames03 + PsycopgNames04 + PsycopgNames05 + PsycopgNames06 + PsycopgNames07 + PsycopgNames08 + PsycopgNames09 + PsycopgNames10 + PsycopgNames11 + PsycopgNames12; s[259] == "UniqueViolation" && LastAt(s, 259)
  {
    PsycopgUniqueViolationInBlock();
    PsycopgNamesThrough11();
    LastAfterFront(PsycopgNames00 + PsycopgNames01 + PsycopgNames02 + PsycopgNames03 + PsycopgNames04 + PsycopgNames05 + PsycopgNames06 + PsycopgNames07 + PsycopgNames08 + PsycopgNames09 + PsycopgNames10 + PsycopgNames11, PsycopgNames12, 19);
  }

  lemma PsycopgUniqueViolationLastThrough13()
    ensures var s := PsycopgNames00 + PsycopgNames01 + PsycopgNames02 + PsycopgNames03 + PsycopgNames04 + PsycopgNames05 + PsycopgNames06 + PsycopgNames07 + PsycopgNames08 + PsycopgNames09 + PsycopgNames10 + PsycopgNames11 + PsycopgNames12 + PsycopgNames13; s[259] == "UniqueViolation" && LastAt(s, 259)
  {
    PsycopgUniqueViolationLastThrough12();
    PsycopgUniqueViolationNotIn13();
    LastBeforeBack(PsycopgNames00 + PsycopgNames01 + PsycopgNames02 + PsycopgNames03 + PsycopgNames04 + PsycopgNames05 + PsycopgNames06 + PsycopgNames07 + PsycopgNames08 + PsycopgNames09 + PsycopgNames10 + PsycopgNames11 + PsycopgNames12, PsycopgNames13, 259);
  }

  /** psycopg_error_map, line 370: "UniqueViolation" maps to -30260. */
  lemma PsycopgUniqueViolationCode()
    ensures "UniqueViolation" in Dict(PsycopgErrorMap) && Dict(PsycopgErrorMap)["UniqueViolation"] == -30260
  {
    PsycopgUniqueViolationLastThrough13();
    DictAt(PsycopgErrorMap, 259);
  }

  lemma PsycopgDataErrorNotIn02()
    ensures "DataError" !in PsycopgNames02
  {
  }

  lemma PsycopgDataErrorNotIn03()
    ensures "DataError" !in PsycopgNames03
  {
  }

  lemma PsycopgDataErrorNotIn04()
    ensures "DataError" !in PsycopgNames04
  {
  }

  lemma PsycopgDataErrorNotIn05()
    ensures "DataError" !in PsycopgNames05
  {
  }

  lemma PsycopgDataErrorNotIn06()
    ensures "DataError" !in PsycopgNames06
  {
  }

  lemma PsycopgDataErrorNotIn07()
    ensures "DataError" !in PsycopgNames07
  {
  }

  lemma PsycopgDataErrorNotIn08()
    ensures "DataError" !in PsycopgNames08
  {
  }

  lemma PsycopgDataErrorNotIn09()
    ensures "DataError" !in PsycopgNames09
  {
  }

  lemma PsycopgDataErrorNotIn10()
    ensures "DataError" !in PsycopgNames10
  {
  }

  lemma PsycopgDataErrorNotIn11()
    ensures "DataError" !in PsycopgNames11
  {
  }

  lemma PsycopgDataErrorNotIn12()
    ensures "DataError" !in PsycopgNames12
  {
  }

  lemma PsycopgDataErrorNotIn13()
    ensures "DataError" !in PsycopgNames13
  {
  }

  lemma PsycopgDataErrorInBlock()
    ensures PsycopgNames01[7] == "DataError" && LastAt(PsycopgNames01, 7)
  {
  }

  lemma PsycopgDataErrorLastThrough01()
    ensures var s := PsycopgNames00 + PsycopgNames01; s[27] == "DataError" && LastAt(s, 27)
  {
    PsycopgDataErrorInBlock();
    PsycopgNames00Facts();
    LastAfterFront(PsycopgNames00, PsycopgNames01, 7);
  }

  lemma PsycopgDataErrorLastThrough02()
    ensures var s := PsycopgNames00 + PsycopgNames01 + PsycopgNames02; s[27] == "DataError" && LastAt(s, 27)
  {
    PsycopgDataErrorLastThrough01();
    PsycopgDataErrorNotIn02();
    LastBeforeBack(PsycopgNames00 + PsycopgNames01, PsycopgNames02, 27);
  }

  lemma PsycopgDataErrorLastThrough03()
    ensures var s := PsycopgNames00 + PsycopgNames01 + PsycopgNames02 + PsycopgNames03; s[27] == "DataError" && LastAt(s, 27)
  {
    PsycopgDataErrorLastThrough02();
    PsycopgDataErrorNotIn03();
    LastBeforeBack(PsycopgNames00 + PsycopgNames01 + PsycopgNames02, PsycopgNames03, 27);
  }

  lemma PsycopgDataErrorLastThrough04()
    ensures var s := PsycopgNames00 + PsycopgNames01 + PsycopgNames02 + PsycopgNames03 + PsycopgNames04; s[27] == "DataError" && LastAt(s, 27)
  {
    PsycopgDataErrorLastThrough03();
    PsycopgDataErrorNotIn04();
    LastBeforeBack(PsycopgNames00 + PsycopgNames01 + PsycopgNames02 + PsycopgNames03, PsycopgNames04, 27);
  }

  lemma PsycopgDataErrorLastThrough05()
    ensures var s := PsycopgNames00 + PsycopgNames01 + PsycopgNames02 + PsycopgNames03 + PsycopgNames04 + PsycopgNames05; s[27] == "DataError" && LastAt(s, 27)
  {
    PsycopgDataErrorLastThrough04();
    PsycopgDataErrorNotIn05();
    LastBeforeBack(PsycopgNames00 + PsycopgNames01 + PsycopgNames02 + PsycopgNames03 + PsycopgNames04, PsycopgNames05, 27);
  }

  lemma PsycopgDataErrorLastThrough06()
    ensures var s := PsycopgNames00 + PsycopgNames01 + PsycopgNames02 + PsycopgNames03 + PsycopgNames04 + PsycopgNames05 + PsycopgNames06; s[27] == "DataError" && LastAt(s, 27)
  {
    PsycopgDataErrorLastThrough05();
    PsycopgDataErrorNotIn06();
    LastBeforeBack(PsycopgNames00 + PsycopgNames01 + PsycopgNames02 + PsycopgNames03 + PsycopgNames04 + PsycopgNames05, PsycopgNames06, 27);
  }

  lemma PsycopgDataErrorLastThrough07()
    ensures var s := PsycopgNames00 + PsycopgNames01 + PsycopgNames02 + PsycopgNames03 + PsycopgNames04 + PsycopgNames05 + PsycopgNames06 + PsycopgNames07; s[27] == "DataError" && LastAt(s, 27)
  {
    PsycopgDataErrorLastThrough06();
    PsycopgDataErrorNotIn07();
    LastBeforeBack(PsycopgNames00 + PsycopgNames01 + PsycopgNames02 + PsycopgNames03 + PsycopgNames04 + PsycopgNames05 + PsycopgNames06, PsycopgNames07, 27);
  }

  lemma PsycopgDataErrorLastThrough08()
    ensures var s := PsycopgNames00 + PsycopgNames01 + PsycopgNames02 + PsycopgNames03 + PsycopgNames04 + PsycopgNames05 + PsycopgNames06 + PsycopgNames07 + PsycopgNames08; s[27] == "DataError" && LastAt(s, 27)
  {
    PsycopgDataErrorLastThrough07();
    PsycopgDataErrorNotIn08();
    LastBeforeBack(PsycopgNames00 + PsycopgNames01 + PsycopgNames02 + PsycopgNames03 + PsycopgNames04 + PsycopgNames05 + PsycopgNames06 + PsycopgNames07, PsycopgNames08, 27);
  }

  lemma PsycopgDataErrorLastThrough09()
    ensures var s := PsycopgNames00 + PsycopgNames01 + PsycopgNames02 + PsycopgNames03 + PsycopgNames04 + PsycopgNames05 + PsycopgNames06 + PsycopgNames07 + PsycopgNames08 + PsycopgNames09; s[27] == "DataError" && LastAt(s, 27)
  {
    PsycopgDataErrorLastThrough08();
    PsycopgDataErrorNotIn09();
    LastBeforeBack(PsycopgNames00 + PsycopgNames01 + PsycopgNames02 + PsycopgNames03 + PsycopgNames04 + PsycopgNames05 + PsycopgNames06 + PsycopgNames07 + PsycopgNames08, PsycopgNames09, 27);
  }

  lemma PsycopgDataErrorLastThrough10()
    ensures var s := PsycopgNames00 + PsycopgNames01 + PsycopgNames02 + PsycopgNames03 + PsycopgNames04 + PsycopgNames05 + PsycopgNames06 + PsycopgNames07 + PsycopgNames08 + PsycopgNames09 + PsycopgNames10; s[27] == "DataError" && LastAt(s, 27)
  {
    PsycopgDataErrorLastThrough09();
    PsycopgDataErrorNotIn10();
    LastBeforeBack(PsycopgNames00 + PsycopgNames01 + PsycopgNames02 + PsycopgNames03 + PsycopgNames04 + PsycopgNames05 + PsycopgNames06 + PsycopgNames07 + PsycopgNames08 + PsycopgNames09, PsycopgNames10, 27);
  }

  lemma PsycopgDataErrorLastThrough11()
    ensures var s := PsycopgNames00 + PsycopgNames01 + PsycopgNames02 + PsycopgNames03 + PsycopgNames04 + PsycopgNames05 + PsycopgNames06 + PsycopgNames07 + PsycopgNames08 + PsycopgNames09 + PsycopgNames10 + PsycopgNames11; s[27] == "DataError" && LastAt(s, 27)
  {
    PsycopgDataErrorLastThrough10();
    PsycopgDataErrorNotIn11();
    LastBeforeBack(PsycopgNames00 + PsycopgNames01 + PsycopgNames02 + PsycopgNames03 + PsycopgNames04 + PsycopgNames05 + PsycopgNames06 + PsycopgNames07 + PsycopgNames08 + PsycopgNames09 + PsycopgNames10, PsycopgNames11, 27);
  }

  lemma PsycopgDataErrorLastThrough12()
    ensures var s := PsycopgNames00 + PsycopgNames01 + PsycopgNames02 + PsycopgNames03 + PsycopgNames04 + PsycopgNames05 + PsycopgNames06 + PsycopgNames07 + PsycopgNames08 + PsycopgNames09 + PsycopgNames10 + PsycopgNames11 + PsycopgNames12; s[27] == "DataError" && LastAt(s, 27)
  {
    PsycopgDataErrorLastThrough11();
    PsycopgDataErrorNotIn12();
    LastBeforeBack(PsycopgNames00 + PsycopgNames01 + PsycopgNames02 + PsycopgNames03 + PsycopgNames04 + PsycopgNames05 + PsycopgNames06 + PsycopgNames07 + PsycopgNames08 + PsycopgNames09 + PsycopgNames10 + PsycopgNames11, PsycopgNames12, 27);
  }

  lemma PsycopgDataErrorLastThrough13()
    ensures var s := PsycopgNames00 + PsycopgNames01 + PsycopgNames02 + PsycopgNames03 + PsycopgNames04 + PsycopgNames05 + PsycopgNames06 + PsycopgNames07 + PsycopgNames08 + PsycopgNames09 + PsycopgNames10 + PsycopgNames11 + PsycopgNames12 + PsycopgNames13; s[27] == "DataError" && LastAt(s, 27)
  {
    PsycopgDataErrorLastThrough12();
    PsycopgDataErrorNotIn13();
    LastBeforeBack(PsycopgNames00 + PsycopgNames01 + PsycopgNames02 + PsycopgNames03 + PsycopgNames04 + PsycopgNames05 + PsycopgNames06 + PsycopgNames07 + PsycopgNames08 + PsycopgNames09 + PsycopgNames10 + PsycopgNames11 + PsycopgNames12, PsycopgNames13, 27);
  }

  /** psycopg_error_map, line 138: "DataError" maps to -30028. */
  lemma PsycopgDataErrorCode()
    ensures "DataError" in Dict(PsycopgErrorMap) && Dict(PsycopgErrorMap)["DataError"] == -30028
  {
    PsycopgDataErrorLastThrough13();
    DictAt(PsycopgErrorMap, 27);
  }

  lemma DjangoDataErrorNotIn01()
    ensures "DataError" !in DjangoNames01
  {
  }

  lemma DjangoDataErrorNotIn02()
    ensures "DataError" !in DjangoNames02
  {
  }

  lemma DjangoDataErrorNotIn03()
    ensures "DataError" !in DjangoNames03
  {
  }

  lemma DjangoDataErrorNotIn04()
    ensures "DataError" !in DjangoNames04
  {
  }

  lemma DjangoDataErrorNotIn05()
    ensures "DataError" !in DjangoNames05
  {
  }

  lemma DjangoDataErrorInBlock()
    ensures DjangoNames00[14] == "DataError" && LastAt(DjangoNames00, 14)
  {
  }

  lemma DjangoDataErrorLastThrough00()
    ensures var s := DjangoNames00; s[14] == "DataError" && LastAt(s, 14)
  {
    DjangoDataErrorInBlock();
  }

  lemma DjangoDataErrorLastThrough01()
    ensures var s := DjangoNames00 + DjangoNames01; s[14] == "DataError" && LastAt(s, 14)
  {
    DjangoDataErrorLastThrough00();
    DjangoDataErrorNotIn01();
    LastBeforeBack(DjangoNames00, DjangoNames01, 14);
  }

  lemma DjangoDataErrorLastThrough02()
    ensures var s := DjangoNames00 + DjangoNames01 + DjangoNames02; s[14] == "DataError" && LastAt(s, 14)
  {
    DjangoDataErrorLastThrough01();
    DjangoDataErrorNotIn02();
    LastBeforeBack(DjangoNames00 + DjangoNames01, DjangoNames02, 14);
  }

  lemma DjangoDataErrorLastThrough03()
    ensures var s := DjangoNames00 + DjangoNames01 + DjangoNames02 + DjangoNames03; s[14] == "DataError" && LastAt(s, 14)
  {
    DjangoDataErrorLastThrough02();
    DjangoDataErrorNotIn03();
    LastBeforeBack(DjangoNames00 + DjangoNames01 + DjangoNames02, DjangoNames03, 14);
  }

  lemma DjangoDataErrorLastThrough04()
    ensures var s := DjangoNames00 + DjangoNames01 + DjangoNames02 + DjangoNames03 + DjangoNames04; s[14] == "DataError" && LastAt(s, 14)
  {
    DjangoDataErrorLastThrough03();
    DjangoDataErrorNotIn04();
    LastBeforeBack(DjangoNames00 + DjangoNames01 + DjangoNames02 + DjangoNames03, DjangoNames04, 14);
  }

  lemma DjangoDataErrorLastThrough05()
    ensures var s := DjangoNames00 + DjangoNames01 + DjangoNames02 + DjangoNames03 + DjangoNames04 + DjangoNames05; s[14] == "DataError" && LastAt(s, 14)
  {
    DjangoDataErrorLastThrough04();
    DjangoDataErrorNotIn05();
    LastBeforeBack(DjangoNames00 + DjangoNames01 + DjangoNames02 + DjangoNames03 + DjangoNames04, DjangoNames05, 14);
  }

  /** django_error_map, line 398: "DataError" maps to -29015. */
  lemma DjangoDataErrorCode()
    ensures "DataError" in Dict(DjangoErrorMap) && Dict(DjangoErrorMap)["DataError"] == -29015
  {
    DjangoDataErrorLastThrough05();
    DictAt(DjangoErrorMap, 14);
  }

  lemma SqlAlchemyDataErrorNotIn01()
    ensures "DataError" !in SqlAlchemyNames01
  {
  }

  lemma SqlAlchemyDataErrorNotIn02()
    ensures "DataError" !in SqlAlchemyNames02
  {
  }

  lemma SqlAlchemyDataErrorInBlock()
    ensures SqlAlchemyNames00[6] == "DataError" && LastAt(SqlAlchemyNames00, 6)
  {
  }

  lemma SqlAlchemyDataErrorLastThrough00()
    ensures var s := SqlAlchemyNames00; s[6] == "DataError" && LastAt(s, 6)
  {
    SqlAlchemyDataErrorInBlock();
  }

  lemma SqlAlchemyDataErrorLastThrough01()
    ensures var s := SqlAlchemyNames00 + SqlAlchemyNames01; s[6] == "DataError" && LastAt(s, 6)
  {
    SqlAlchemyDataErrorLastThrough00();
    SqlAlchemyDataErrorNotIn01();
    LastBeforeBack(SqlAlchemyNames00, SqlAlchemyNames01, 6);
  }

  lemma SqlAlchemyDataErrorLastThrough02()
    ensures var s := SqlAlchemyNames00 + SqlAlchemyNames01 + SqlAlchemyNames02; s[6] == "DataError" && LastAt(s, 6)
  {
    SqlAlchemyDataErrorLastThrough01();
    SqlAlchemyDataErrorNotIn02();
    LastBeforeBack(SqlAlchemyNames00 + SqlAlchemyNames01, SqlAlchemyNames02, 6);
  }

  /** sqlalch_error_map, line 571: "DataError" maps to -26007. */
  lemma SqlAlchemyDataErrorCode()
    ensures "DataError" in Dict(SqlAlchemyErrorMap) && Dict(SqlAlchemyErrorMap)["DataError"] == -26007
  {
    SqlAlchemyDataErrorLastThrough02();
    DictAt(SqlAlchemyErrorMap, 6);
  }

  lemma OtherDataErrorNotIn04()
    ensures "DataError" !in OtherNames04
  {
  }

  lemma OtherDataErrorNotIn05()
    ensures "DataError" !in OtherNames05
  {
  }

  lemma OtherDataErrorNotIn06()
    ensures "DataError" !in OtherNames06
  {
  }

  lemma OtherDataErrorNotIn07()
    ensures "DataError" !in OtherNames07
  {
  }

  lemma OtherDataErrorNotIn08()
    ensures "DataError" !in OtherNames08
  {
  }

  lemma OtherDataErrorNotIn09()
    ensures "DataError" !in OtherNames09
  {
  }

  lemma OtherDataErrorNotIn10()
    ensures "DataError" !in OtherNames10
  {
  }

  lemma OtherDataErrorNotIn11()
    ensures "DataError" !in OtherNames11
  {
  }

  lemma OtherDataErrorNotIn12()
    ensures "DataError" !in OtherNames12
  {
  }

  lemma OtherDataErrorNotIn13()
    ensures "DataError" !in OtherNames13
  {
  }

  lemma OtherDataErrorNotIn14()
    ensures "DataError" !in OtherNames14
  {
  }

  lemma OtherDataErrorNotIn15()
    ensures "DataError" !in OtherNames15
  {
  }

  lemma OtherDataErrorNotIn16()
    ensures "DataError" !in OtherNames16
  {
  }

  lemma OtherDataErrorNotIn17()
    ensures "DataError" !in OtherNames17
  {
  }

  lemma OtherDataErrorNotIn18()
    ensures "DataError" !in OtherNames18
  {
  }

  lemma OtherDataErrorInBlock()
    ensures OtherNames03[3] == "DataError" && LastAt(OtherNames03, 3)
  {
  }

  lemma OtherDataErrorLastThrough03()
    ensures var s := OtherNames00 + OtherNames01 + OtherNames02 + OtherNames03; s[63] == "DataError" && LastAt(s, 63)
  {
    OtherDataErrorInBlock();
    OtherNamesThrough02();
    LastAfterFront(OtherNames00 + OtherNames01 + OtherNames02, OtherNames03, 3);
  }

  lemma OtherDataErrorLastThrough04()
    ensures var s := OtherNames00 + OtherNames01 + OtherNames02 + OtherNames03 + OtherNames04; s[63] == "DataError" && LastAt(s, 63)
  {
    OtherDataErrorLastThrough03();
    OtherDataErrorNotIn04();
    LastBeforeBack(OtherNames00 + OtherNames01 + OtherNames02 + OtherNames03, OtherNames04, 63);
  }

  lemma OtherDataErrorLastThrough05()
    ensures var s := OtherNames00 + OtherNames01 + OtherNames02 + OtherNames03 + OtherNames04 + OtherNames05; s[63] == "DataError" && LastAt(s, 63)
  {
    OtherDataErrorLastThrough04();
    OtherDataErrorNotIn05();
    LastBeforeBack(OtherNames00 + OtherNames01 + OtherNames02 + OtherNames03 + OtherNames04, OtherNames05, 63);
  }

  lemma OtherDataErrorLastThrough06()
    ensures var s := OtherNames00 + OtherNames01 + OtherNames02 + OtherNames03 + OtherNames04 + OtherNames05 + OtherNames06; s[63] == "DataError" && LastAt(s, 63)
  {
    OtherDataErrorLastThrough05();
    OtherDataErrorNotIn06();
    LastBeforeBack(OtherNames00 + OtherNames01 + OtherNames02 + OtherNames03 + OtherNames04 + OtherNames05, OtherNames06, 63);
  }

  lemma OtherDataErrorLastThrough07()
    ensures var s := OtherNames00 + OtherNames01 + OtherNames02 + OtherNames03 + OtherNames04 + OtherNames05 + OtherNames06 + OtherNames07; s[63] == "DataError" && LastAt(s, 63)
  {
    OtherDataErrorLastThrough06();
    OtherDataErrorNotIn07();
    LastBeforeBack(OtherNames00 + OtherNames01 + OtherNames02 + OtherNames03 + OtherNames04 + OtherNames05 + OtherNames06, OtherNames07, 63);
  }

  lemma OtherDataErrorLastThrough08()
    ensures var s := OtherNames00 + OtherNames01 + OtherNames02 + OtherNames03 + OtherNames04 + OtherNames05 + OtherNames06 + OtherNames07 + OtherNames08; s[63] == "DataError" && LastAt(s, 63)
  {
    OtherDataErrorLastThrough07();
    OtherDataErrorNotIn08();
    LastBeforeBack(OtherNames00 + OtherNames01 + OtherNames02 + OtherNames03 + OtherNames04 + OtherNames05 + OtherNames06 + OtherNames07, OtherNames08, 63);
  }

  lemma OtherDataErrorLastThrough09()
    ensures var s := OtherNames00 + OtherNames01 + OtherNames02 + OtherNames03 + OtherNames04 + OtherNames05 + OtherNames06 + OtherNames07 + OtherNames08 + OtherNames09; s[63] == "DataError" && LastAt(s, 63)
  {
    OtherDataErrorLastThrough08();
    OtherDataErrorNotIn09();
    LastBeforeBack(OtherNames00 + OtherNames01 + OtherNames02 + OtherNames03 + OtherNames04 + OtherNames05 + OtherNames06 + OtherNames07 + OtherNames08, OtherNames09, 63);
  }

  lemma OtherDataErrorLastThrough10()
    ensures var s := OtherNames00 + OtherNames01 + OtherNames02 + OtherNames03 + OtherNames04 + OtherNames05 + OtherNames06 + OtherNames07 + OtherNames08 + OtherNames09 + OtherNames10; s[63] == "DataError" && LastAt(s, 63)
  {
    OtherDataErrorLastThrough09();
    OtherDataErrorNotIn10();
    LastBeforeBack(OtherNames00 + OtherNames01 + OtherNames02 + OtherNames03 + OtherNames04 + OtherNames05 + OtherNames06 + OtherNames07 + OtherNames08 + OtherNames09, OtherNames10, 63);
  }

  lemma OtherDataErrorLastThrough11()
    ensures var s := OtherNames00 + OtherNames01 + OtherNames02 + OtherNames03 + OtherNames04 + OtherNames05 + OtherNames06 + OtherNames07 + OtherNames08 + OtherNames09 + OtherNames10 + OtherNames11; s[63] == "DataError" && LastAt(s, 63)
  {
    OtherDataErrorLastThrough10();
    OtherDataErrorNotIn11();
    LastBeforeBack(OtherNames00 + OtherNames01 + OtherNames02 + OtherNames03 + OtherNames04 + OtherNames05 + OtherNames06 + OtherNames07 + OtherNames08 + OtherNames09 + OtherNames10, OtherNames11, 63);
  }

  lemma OtherDataErrorLastThrough12()
    ensures var s := OtherNames00 + OtherNames01 + OtherNames02 + OtherNames03 + OtherNames04 + OtherNames05 + OtherNames06 + OtherNames07 + OtherNames08 + OtherNames09 + OtherNames10 + OtherNames11 + OtherNames12; s[63] == "DataError" && LastAt(s, 63)
  {
    OtherDataErrorLastThrough11();
    OtherDataErrorNotIn12();
    LastBeforeBack(OtherNames00 + OtherNames01 + OtherNames02 + OtherNames03 + OtherNames04 + OtherNames05 + OtherNames06 + OtherNames07 + OtherNames08 + OtherNames09 + OtherNames10 + OtherNames11, OtherNames12, 63);
  }

  lemma OtherDataErrorLastThrough13()
    ensures var s := OtherNames00 + OtherNames01 + OtherNames02 + OtherNames03 + OtherNames04 + OtherNames05 + OtherNames06 + OtherNames07 + OtherNames08 + OtherNames09 + OtherNames10 + OtherNames11 + OtherNames12 + OtherNames13; s[63] == "DataError" && LastAt(s, 63)
  {
    OtherDataErrorLastThrough12();
    OtherDataErrorNotIn13();
    LastBeforeBack(OtherNames00 + OtherNames01 + OtherNames02 + OtherNames03 + OtherNames04 + OtherNames05 + OtherNames06 + OtherNames07 + OtherNames08 + OtherNames09 + OtherNames10 + OtherNames11 + OtherNames12, OtherNames13, 63);
  }

  lemma OtherDataErrorLastThrough14()
    ensures var s := OtherNames00 + OtherNames01 + OtherNames02 + OtherNames03 + OtherNames04 + OtherNames05 + OtherNames06 + OtherNames07 + OtherNames08 + OtherNames09 + OtherNames10 + OtherNames11 + OtherNames12 + OtherNames13 + OtherNames14; s[63] == "DataError" && LastAt(s, 63)
  {
    OtherDataErrorLastThrough13();
    OtherDataErrorNotIn14();
    LastBeforeBack(OtherNames00 + OtherNames01 + OtherNames02 + OtherNames03 + OtherNames04 + OtherNames05 + OtherNames06 + OtherNames07 + OtherNames08 + OtherNames09 + OtherNames10 + OtherNames11 + OtherNames12 + OtherNames13, OtherNames14, 63);
  }

  lemma OtherDataErrorLastThrough15()
    ensures var s := OtherNames00 + OtherNames01 + OtherNames02 + OtherNames03 + OtherNames04 + OtherNames05 + OtherNames06 + OtherNames07 + OtherNames08 + OtherNames09 + OtherNames10 + OtherNames11 + OtherNames12 + OtherNames13 + OtherNames14 + OtherNames15; s[63] == "DataError" && LastAt(s, 63)
  {
    OtherDataErrorLastThrough14();
    OtherDataErrorNotIn15();
    LastBeforeBack(OtherNames00 + OtherNames01 + OtherNames02 + OtherNames03 + OtherNames04 + OtherNames05 + OtherNames06 + OtherNames07 + OtherNames08 + OtherNames09 + OtherNames10 + OtherNames11 + OtherNames12 + OtherNames13 + OtherNames14, OtherNames15, 63);
  }

  lemma OtherDataErrorLastThrough16()
    ensures var s := OtherNames00 + OtherNames01 + OtherNames02 + OtherNames03 + OtherNames04 + OtherNames05 + OtherNames06 + OtherNames07 + OtherNames08 + OtherNames09 + OtherNames10 + OtherNames11 + OtherNames12 + OtherNames13 + OtherNames14 + OtherNames15 + OtherNames16; s[63] == "DataError" && LastAt(s, 63)
  {
    OtherDataErrorLastThrough15();
    OtherDataErrorNotIn16();
    LastBeforeBack(OtherNames00 + OtherNames01 + OtherNames02 + OtherNames03 + OtherNames04 + OtherNames05 + OtherNames06 + OtherNames07 + OtherNames08 + OtherNames09 + OtherNames10 + OtherNames11 + OtherNames12 + OtherNames13 + OtherNames14 + OtherNames15, OtherNames16, 63);
  }

  lemma OtherDataErrorLastThrough17()
    ensures var s := OtherNames00 + OtherNames01 + OtherNames02 + OtherNames03 + OtherNames04 + OtherNames05 + OtherNames06 + OtherNames07 + OtherNames08 + OtherNames09 + OtherNames10 + OtherNames11 + OtherNames12 + OtherNames13 + OtherNames14 + OtherNames15 + OtherNames16 + OtherNames17; s[63] == "DataError" && LastAt(s, 63)
  {
    OtherDataErrorLastThrough16();
    OtherDataErrorNotIn17();
    LastBeforeBack(OtherNames00 + OtherNames01 + OtherNames02 + OtherNames03 + OtherNames04 + OtherNames05 + OtherNames06 + OtherNames07 + OtherNames08 + OtherNames09 + OtherNames10 + OtherNames11 + OtherNames12 + OtherNames13 + OtherNames14 + OtherNames15 + OtherNames16, OtherNames17, 63);
  }

  lemma OtherDataErrorLastThrough18()
    ensures var s := OtherNames00 + OtherNames01 + OtherNames02 + OtherNames03 + OtherNames04 + OtherNames05 + OtherNames06 + OtherNames07 + OtherNames08 + OtherNames09 + OtherNames10 + OtherNames11 + OtherNames12 + OtherNames13 + OtherNames14 + OtherNames15 + OtherNames16 + OtherNames17 + OtherNames18; s[63] == "DataError" && LastAt(s, 63)
  {
    OtherDataErrorLastThrough17();
    OtherDataErrorNotIn18();
    LastBeforeBack(OtherNames00 + OtherNames01 + OtherNames02 + OtherNames03 + OtherNames04 + OtherNames05 + OtherNames06 + OtherNames07 + OtherNames08 + OtherNames09 + OtherNames10 + OtherNames11 + OtherNames12 + OtherNames13 + OtherNames14 + OtherNames15 + OtherNames16 + OtherNames17, OtherNames18, 63);
  }

  /** other_error_map, line 681: "DataError" maps to -25064. */
  lemma OtherDataErrorCode()
    ensures "DataError" in Dict(OtherErrorMap) && Dict(OtherErrorMap)["DataError"] == -25064
  {
    OtherDataErrorLastThrough18();
    DictAt(OtherErrorMap, 63);
  }

  // ----- Every entry of the smaller tables -----

  lemma MathesarNames00Last(i: nat)
    requires i < 20
    ensures LastAt(MathesarNames00, i)
  {
  }

  lemma MathesarNames01Last(k: nat)
    requires k < 14
    ensures LastAt(MathesarNames01, k)
  {
  }

  lemma MathesarNamesApart()
    ensures forall x :: x in MathesarNames00 ==> x !in MathesarNames01
  {
  }

  /** mathesar_error_map, lines 498-531: no name is written twice, so the name at position i gets -28000 - (i + 1). */
  lemma MathesarEveryEntry(i: nat)
    requires i < |MathesarErrorMap.names|
    ensures LastAt(MathesarErrorMap.names, i)
    ensures MathesarErrorMap.names[i] in Dict(MathesarErrorMap) && Dict(MathesarErrorMap)[MathesarErrorMap.names[i]] == -28000 - (i + 1)
  {
    MathesarNames00Facts();
    MathesarNames01Facts();
    if i < 20 {
      MathesarNames00Last(i);
      MathesarNamesApart();
      LastBeforeBack(MathesarNames00, MathesarNames01, i);
    } else {
      MathesarNames01Last(i - 20);
      LastAfterFront(MathesarNames00, MathesarNames01, i - 20);
    }
    DictAt(MathesarErrorMap, i);
  }

  lemma DbLibNames00Last(i: nat)
    requires i < 20
    ensures LastAt(DbLibNames00, i)
  {
  }

  lemma DbLibNames01Last(k: nat)
    requires k < 5
    ensures LastAt(DbLibNames01, k)
  {
  }

  lemma DbLibNamesApart()
    ensures forall x :: x in DbLibNames00 ==> x !in DbLibNames01
  {
  }

  /** dblib_error_map, lines 536-560: no name is written twice, so the name at position i gets -27000 - (i + 1). */
  lemma DbLibEveryEntry(i: nat)
    requires i < |DbLibErrorMap.names|
    ensures LastAt(DbLibErrorMap.names, i)
    ensures DbLibErrorMap.names[i] in Dict(DbLibErrorMap) && Dict(DbLibErrorMap)[DbLibErrorMap.names[i]] == -27000 - (i + 1)
  {
    DbLibNames00Facts();
    DbLibNames01Facts();
    if i < 20 {
      DbLibNames00Last(i);
      DbLibNamesApart();
      LastBeforeBack(DbLibNames00, DbLibNames01, i);
    } else {
      DbLibNames01Last(i - 20);
      LastAfterFront(DbLibNames00, DbLibNames01, i - 20);
    }
    DictAt(DbLibErrorMap, i);
  }
}
