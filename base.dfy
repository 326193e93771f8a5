/** The model mix-ins: timestamp columns mirrored as Unix seconds, a UUID primary
    key filled in on create, an auto-increment key mirrored as decimal text, and
    the composites that forward their hooks to the mix-ins they embed. Every hook
    returns a nil error. */
module Base {
  import opened Outcomes
  import opened Text

  const NanosPerSecond := 1_000_000_000

  /** A point in time, as nanoseconds since the Unix epoch. */
  datatype Instant = Instant(unixNanos: int)

  /** `Time.Unix`: whole seconds since the epoch, rounded down (also before it). */
  function Unix(t: Instant): (r: int)
    ensures r * NanosPerSecond <= t.unixNanos < (r + 1) * NanosPerSecond
  {
    t.unixNanos / NanosPerSecond
  }

  /** `gorm.DeletedAt`: a nullable time. */
  datatype NullTime = NullTime(time: Instant, valid: bool)

  class CreatedAt {
    var createdAt: Instant
    var createdAtTs: int

    constructor (createdAt: Instant)
      ensures this.createdAt == createdAt && createdAtTs == 0
    {
      this.createdAt := createdAt;
      createdAtTs := 0;
    }

    /** Mirrors the creation time as Unix seconds. */
    method AfterSave() returns (err: Option<string>)
      modifies this
      ensures createdAt == old(createdAt) && createdAtTs == Unix(createdAt)
      ensures err.None?
    {
      createdAtTs := Unix(createdAt);
      err := None;
    }

    method AfterFind() returns (err: Option<string>)
      modifies this
      ensures createdAt == old(createdAt) && createdAtTs == Unix(createdAt)
      ensures err.None?
    {
      createdAtTs := Unix(createdAt);
      err := None;
    }
  }

  class UpdatedAt {
    var updatedAt: Instant
    var updatedAtTs: int

    constructor (updatedAt: Instant)
      ensures this.updatedAt == updatedAt && updatedAtTs == 0
    {
      this.updatedAt := updatedAt;
      updatedAtTs := 0;
    }

    /** Mirrors the update time as Unix seconds. */
    method AfterSave() returns (err: Option<string>)
      modifies this
      ensures updatedAt == old(updatedAt) && updatedAtTs == Unix(updatedAt)
      ensures err.None?
    {
      updatedAtTs := Unix(updatedAt);
      err := None;
    }

    method AfterFind() returns (err: Option<string>)
      modifies this
      ensures updatedAt == old(updatedAt) && updatedAtTs == Unix(updatedAt)
      ensures err.None?
    {
      updatedAtTs := Unix(updatedAt);
      err := None;
    }
  }

  class DeletedAt {
    var deletedAt: NullTime
    /** `None` stands for the nil pointer, which the JSON form omits. */
    var deletedAtTs: Option<int>

    constructor (deletedAt: NullTime)
      ensures this.deletedAt == deletedAt && deletedAtTs.None?
    {
      this.deletedAt := deletedAt;
      deletedAtTs := None;
    }

    /** Mirrors a valid deletion time as Unix seconds; when the deletion time is
        null the mirror keeps whatever it held, it is not reset. */
    method AfterSave() returns (err: Option<string>)
      modifies this
      ensures deletedAt == old(deletedAt)
      ensures deletedAt.valid ==> deletedAtTs == Some(Unix(deletedAt.time))
      ensures !deletedAt.valid ==> deletedAtTs == old(deletedAtTs)
      ensures err.None?
    {
      if deletedAt.valid {
        deletedAtTs := Some(Unix(deletedAt.time));
      }
      err := None;
    }

    method AfterFind() returns (err: Option<string>)
      modifies this
      ensures deletedAt == old(deletedAt)
      ensures deletedAt.valid ==> deletedAtTs == Some(Unix(deletedAt.time))
      ensures !deletedAt.valid ==> deletedAtTs == old(deletedAtTs)
      ensures err.None?
    {
      if deletedAt.valid {
        deletedAtTs := Some(Unix(deletedAt.time));
      }
      err := None;
    }
  }

  class UuidPrimaryKey {
    var id: string

    constructor (id: string)
      ensures this.id == id
    {
      this.id := id;
    }

    /** Fills an empty key with the upper-cased `generated` UUID; a key the caller
        set is kept. */
    method BeforeCreate(generated: string) returns (err: Option<string>)
      modifies this
      ensures old(id) != "" ==> id == old(id)
      ensures old(id) == "" ==> id == ToUpper(generated)
      ensures old(id) == "" ==> forall i :: 0 <= i < |id| ==> !IsLower(id[i])
      ensures err.None?
    {
      if |id| == 0 {
        id := ToUpper(generated);
      }
      err := None;
    }
  }

  class Int64PrimaryKey {
    var id: int
    var idStr: string

    constructor (id: int)
      ensures this.id == id && idStr == ""
    {
      this.id := id;
      idStr := "";
    }

    /** Mirrors the key as decimal text, which reads back as exactly the key. */
    method AfterSave() returns (err: Option<string>)
      modifies this
      ensures id == old(id) && idStr == FormatInt(id)
      ensures ParseInt(idStr) == Some(id)
      ensures err.None?
    {
      idStr := FormatInt(id);
      FormatIntRoundTrip(id);
      err := None;
    }

    method AfterFind() returns (err: Option<string>)
      modifies this
      ensures id == old(id) && idStr == FormatInt(id)
      ensures ParseInt(idStr) == Some(id)
      ensures err.None?
    {
      idStr := FormatInt(id);
      FormatIntRoundTrip(id);
      err := None;
    }
  }

  // ---------------------------------------------------------------- composites

  /** A UUID key and a creation time. `BeforeCreate` is the embedded key's. */
  class UuidPriWithCreateAtBase {
    const key: UuidPrimaryKey
    const created: CreatedAt

    constructor (id: string, createdAt: Instant)
      ensures fresh(key) && fresh(created)
      ensures key.id == id && created.createdAt == createdAt && created.createdAtTs == 0
    {
      key := new UuidPrimaryKey(id);
      created := new CreatedAt(createdAt);
    }

    method BeforeCreate(generated: string) returns (err: Option<string>)
      modifies key
      ensures old(key.id) != "" ==> key.id == old(key.id)
      ensures old(key.id) == "" ==> key.id == ToUpper(generated)
      ensures err.None?
    {
      err := key.BeforeCreate(generated);
    }

    method AfterSave() returns (err: Option<string>)
      modifies created
      ensures created.createdAt == old(created.createdAt) && created.createdAtTs == Unix(created.createdAt)
      ensures err.None?
    {
      var _ := created.AfterSave();
      err := None;
    }

    method AfterFind() returns (err: Option<string>)
      modifies created
      ensures created.createdAt == old(created.createdAt) && created.createdAtTs == Unix(created.createdAt)
      ensures err.None?
    {
      var _ := created.AfterFind();
      err := None;
    }
  }

  /** A UUID key, a creation time and a deletion time. */
  class UuidPriWithCreateDelAtBase {
    const key: UuidPrimaryKey
    const created: CreatedAt
    const deleted: DeletedAt

    constructor (id: string, createdAt: Instant, deletedAt: NullTime)
      ensures fresh(key) && fresh(created) && fresh(deleted)
      ensures key.id == id && created.createdAt == createdAt && created.createdAtTs == 0
      ensures deleted.deletedAt == deletedAt && deleted.deletedAtTs.None?
    {
      key := new UuidPrimaryKey(id);
      created := new CreatedAt(createdAt);
      deleted := new DeletedAt(deletedAt);
    }

    method BeforeCreate(generated: string) returns (err: Option<string>)
      modifies key
      ensures old(key.id) != "" ==> key.id == old(key.id)
      ensures old(key.id) == "" ==> key.id == ToUpper(generated)
      ensures err.None?
    {
      err := key.BeforeCreate(generated);
    }

    method AfterSave() returns (err: Option<string>)
      modifies created, deleted
      ensures created.createdAt == old(created.createdAt) && created.createdAtTs == Unix(created.createdAt)
      ensures deleted.deletedAt == old(deleted.deletedAt)
      ensures deleted.deletedAt.valid ==> deleted.deletedAtTs == Some(Unix(deleted.deletedAt.time))
      ensures !deleted.deletedAt.valid ==> deleted.deletedAtTs == old(deleted.deletedAtTs)
      ensures err.None?
    {
      var _ := created.AfterSave();
      var _ := deleted.AfterSave();
      err := None;
    }

    method AfterFind() returns (err: Option<string>)
      modifies created, deleted
      ensures created.createdAt == old(created.createdAt) && created.createdAtTs == Unix(created.createdAt)
      ensures deleted.deletedAt == old(deleted.deletedAt)
      ensures deleted.deletedAt.valid ==> deleted.deletedAtTs == Some(Unix(deleted.deletedAt.time))
      ensures !deleted.deletedAt.valid ==> deleted.deletedAtTs == old(deleted.deletedAtTs)
      ensures err.None?
    {
      var _ := created.AfterFind();
      var _ := deleted.AfterFind();
      err := None;
    }
  }

  /** An auto-increment key and a creation time. */
  class Int64PriWithCreateAtBase {
    const key: Int64PrimaryKey
    const created: CreatedAt

    constructor (id: int, createdAt: Instant)
      ensures fresh(key) && fresh(created)
      ensures key.id == id && key.idStr == "" && created.createdAt == createdAt && created.createdAtTs == 0
    {
      key := new Int64PrimaryKey(id);
      created := new CreatedAt(createdAt);
    }

    method AfterSave() returns (err: Option<string>)
      modifies key, created
      ensures key.id == old(key.id) && key.idStr == FormatInt(key.id) && ParseInt(key.idStr) == Some(key.id)
      ensures created.createdAt == old(created.createdAt) && created.createdAtTs == Unix(created.createdAt)
      ensures err.None?
    {
      var _ := key.AfterSave();
      var _ := created.AfterSave();
      err := None;
    }

    method AfterFind() returns (err: Option<string>)
      modifies key, created
      ensures key.id == old(key.id) && key.idStr == FormatInt(key.id) && ParseInt(key.idStr) == Some(key.id)
      ensures created.createdAt == old(created.createdAt) && created.createdAtTs == Unix(created.createdAt)
      ensures err.None?
    {
      var _ := key.AfterFind();
      var _ := created.AfterFind();
      err := None;
    }
  }

  /** An auto-increment key, a creation time and a deletion time. */
  class Int64PriWithCreateDelAtBase {
    const key: Int64PrimaryKey
    const created: CreatedAt
    const deleted: DeletedAt

    constructor (id: int, createdAt: Instant, deletedAt: NullTime)
      ensures fresh(key) && fresh(created) && fresh(deleted)
      ensures key.id == id && key.idStr == "" && created.createdAt == createdAt && created.createdAtTs == 0
      ensures deleted.deletedAt == deletedAt && deleted.deletedAtTs.None?
    {
      key := new Int64PrimaryKey(id);
      created := new CreatedAt(createdAt);
      deleted := new DeletedAt(deletedAt);
    }

    method AfterSave() returns (err: Option<string>)
      modifies key, created, deleted
      ensures key.id == old(key.id) && key.idStr == FormatInt(key.id) && ParseInt(key.idStr) == Some(key.id)
      ensures created.createdAt == old(created.createdAt) && created.createdAtTs == Unix(created.createdAt)
      ensures deleted.deletedAt == old(deleted.deletedAt)
      ensures deleted.deletedAt.valid ==> deleted.deletedAtTs == Some(Unix(deleted.deletedAt.time))
      ensures !deleted.deletedAt.valid ==> deleted.deletedAtTs == old(deleted.deletedAtTs)
      ensures err.None?
    {
      var _ := key.AfterSave();
      var _ := created.AfterSave();
      var _ := deleted.AfterSave();
      err := None;
    }

    method AfterFind() returns (err: Option<string>)
      modifies key, created, deleted
      ensures key.id == old(key.id) && key.idStr == FormatInt(key.id) && ParseInt(key.idStr) == Some(key.id)
      ensures created.createdAt == old(created.createdAt) && created.createdAtTs == Unix(created.createdAt)
      ensures deleted.deletedAt == old(deleted.deletedAt)
      ensures deleted.deletedAt.valid ==> deleted.deletedAtTs == Some(Unix(deleted.deletedAt.time))
      ensures !deleted.deletedAt.valid ==> deleted.deletedAtTs == old(deleted.deletedAtTs)
      ensures err.None?
    {
      var _ := key.AfterFind();
      var _ := created.AfterFind();
      var _ := deleted.AfterFind();
      err := None;
    }
  }
}
