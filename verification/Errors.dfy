/** The library's error classes, one constructor per place that raises. */
module Errors {
  datatype Error =
    // ValidationError
    | BadValue              // a value its field does not accept
    | UndeclaredField
    | BadIdentifier
    | BadDeclaration
    | BadArgument           // a bound, flag or collection argument out of range
    | BadPredicate
    | BadOrder
    | BadCursor
    | UnknownToken          // prepared token unknown, altered or foreign
    | TokenOfOtherSchema
    | ImmutableField
    | OtherRoot             // the row belongs to another storage root
    // SchemaConflictError
    | UndeclaredSchema      // not installed, or its definition differs
    | ReadOnlySchema        // an older version of an evolved schema
    | SchemaConflict
    | NotEnrolled           // no publication guard, or not enrolled for lifecycle operations
    // ConflictError
    | RevokedToken
    | TokenBound
    | TokenRetired
    | IdTaken
    | RetiredId
    | StaleVersion
    | MigrationRunning
    | UnpublishedBlobs
    | BehindCheckpoint
    | LiveReference
    | ProtectedObject
    | UnfinishedWork
    // NotFoundError, IntegrityError, ConstraintError, StorageError
    | NoSuchBlob
    | NoSuchMigration
    | MissingAssociation
    | MissingMetadata
    | VersionMismatch
    | MissingDeclaration
    | CorruptObject
    | Refused               // a trigger, key, foreign key or application constraint
    | StorageFailure
}
