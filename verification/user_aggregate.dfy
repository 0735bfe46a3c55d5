/** The user aggregate of the user service and its factory. Java's nullable fields are
    `Option`s where the code leaves them unset (the id before the first save, timestamps). */
module UserAggregates {
  import opened Wrappers

  /** A `java.util.UUID`, kept abstract. */
  type Uuid = string

  /** A `java.time.LocalDateTime` reading, kept abstract. */
  type DateTime = int

  const ActiveStatus := "ACTIVE"

  datatype UserAggregate = UserAggregate(
    id: Option<Uuid>,
    name: string,
    email: string,
    phone: string,
    status: string,
    createdAt: Option<DateTime>,
    updatedAt: Option<DateTime>)

  /** `UserAggregate.create`: an ACTIVE user without an id, with the given contact data and one
      clock reading for each timestamp. */
  function Create(name: string, email: string, phone: string, createdAt: DateTime, updatedAt: DateTime): (u: UserAggregate)
    ensures u.id == None && u.status == ActiveStatus
    ensures u.name == name && u.email == email && u.phone == phone
    ensures u.createdAt == Some(createdAt) && u.updatedAt == Some(updatedAt)
  {
    UserAggregate(None, name, email, phone, ActiveStatus, Some(createdAt), Some(updatedAt))
  }
}
