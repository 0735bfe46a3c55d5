/** The user domain service: creating a user refuses an e-mail that is already registered;
    reads are handed to the repository unchanged. The controller also calls `updateUser` and
    `deleteUser`, which the service as shown does not declare; they are modelled here as the
    plainest operations on the store (see the README). */
module UserDomainServices {
  import opened Wrappers
  import opened Seqs
  import opened UserAggregates
  import opened UserRepositories

  /** The `IllegalArgumentException`s on the service's paths: the duplicate e-mail refusal of
      `createUser` (thrown with "El email ya está registrado"), and an update or delete of a user
      that is not stored. */
  datatype DomainError = EmailAlreadyRegistered | UserNotFound

  class UserDomainService {
    const repository: UserRepository
    /** The ids `deleteUser` has been called with, oldest first. */
    ghost var deleteCalls: seq<Option<Uuid>>

    constructor(repository: UserRepository)
      ensures this.repository == repository && deleteCalls == []
    {
      this.repository := repository;
      deleteCalls := [];
    }

    /** A registered e-mail is refused and nothing is saved; otherwise the user is saved once and
        the repository's answer returned. Either way distinct e-mails stay distinct. */
    method CreateUser(user: UserAggregate, freshId: Uuid) returns (r: Result<UserAggregate, DomainError>)
      requires repository.Valid()
      requires user.id.None? ==> freshId !in repository.rows
      modifies repository
      ensures repository.Valid()
      ensures old(repository.ExistsByEmail(user.email)) ==>
        && r == Failure(EmailAlreadyRegistered)
        && repository.rows == old(repository.rows) && repository.order == old(repository.order)
      ensures !old(repository.ExistsByEmail(user.email)) ==>
        && r == Success(user.(id := Some(if user.id.Some? then user.id.value else freshId)))
        && repository.rows == old(repository.rows)[r.value.id.value := ToEntity(r.value)]
        && repository.order ==
             if r.value.id.value in old(repository.rows) then old(repository.order) else old(repository.order) + [r.value.id.value]
      ensures EmailsDistinct(old(repository.rows)) ==> EmailsDistinct(repository.rows)
    {
      if repository.ExistsByEmail(user.email) {
        return Failure(EmailAlreadyRegistered);
      }
      ghost var before := repository.rows;
      var saved := repository.Save(user, freshId);
      if EmailsDistinct(before) {
        StoringAnUnusedEmailKeepsEmailsDistinct(before, saved.id.value, ToEntity(saved));
      }
      r := Success(saved);
    }

    method GetAllUsers() returns (users: seq<UserAggregate>)
      requires repository.Valid()
      ensures users == repository.FindAll()
    {
      users := repository.FindAll();
    }

    method GetUserById(id: Uuid) returns (user: Option<UserAggregate>)
      ensures user == repository.FindById(id)
    {
      user := repository.FindById(id);
    }

    /** Saves a user that is already stored; a missing or unknown id is refused. No e-mail check
        is made, as none is made anywhere on the update path. */
    method UpdateUser(user: UserAggregate) returns (r: Result<UserAggregate, DomainError>)
      requires repository.Valid()
      modifies repository
      ensures repository.Valid()
      ensures user.id.None? || user.id.value !in old(repository.rows) ==>
        r == Failure(UserNotFound) && repository.rows == old(repository.rows) && repository.order == old(repository.order)
      ensures user.id.Some? && user.id.value in old(repository.rows) ==>
        && r == Success(user)
        && repository.rows == old(repository.rows)[user.id.value := ToEntity(user)]
        && repository.order == old(repository.order)
    {
      if user.id.None? || user.id.value !in repository.rows {
        return Failure(UserNotFound);
      }
      var saved := repository.Save(user, user.id.value);
      r := Success(saved);
    }

    /** Deletes a stored user; a null or unknown id is refused with an `IllegalArgumentException`. */
    method DeleteUser(id: Option<Uuid>) returns (r: Result<(), DomainError>)
      requires repository.Valid()
      modifies repository, this`deleteCalls
      ensures repository.Valid()
      ensures deleteCalls == old(deleteCalls) + [id]
      ensures id.None? || id.value !in old(repository.rows) ==>
        r == Failure(UserNotFound) && repository.rows == old(repository.rows) && repository.order == old(repository.order)
      ensures id.Some? && id.value in old(repository.rows) ==>
        r == Success(()) && repository.rows == old(repository.rows) - {id.value}
        && repository.order == Without(old(repository.order), id.value)
    {
      deleteCalls := deleteCalls + [id];
      if id.None? || !repository.ExistsById(id.value) {
        return Failure(UserNotFound);
      }
      repository.DeleteById(id.value);
      r := Success(());
    }
  }
}
