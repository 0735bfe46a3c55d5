/** The REST controller of the user service. Requests and responses are values; a
    `ResponseEntity` is a status and an optional body. An exception the controller does not
    catch is a `Failure` of the handler's result. */
module UserControllers {
  import opened Wrappers
  import opened Seqs
  import opened UserAggregates
  import opened UserRepositories
  import opened UserDomainServices

  datatype CreateUserRequest = CreateUserRequest(name: string, email: string, phone: string)

  datatype UpdateUserRequest = UpdateUserRequest(name: string, email: string, phone: string)

  datatype UserResponse = UserResponse(
    id: Option<Uuid>,
    name: string,
    email: string,
    phone: string,
    status: string,
    createdAt: Option<DateTime>,
    updatedAt: Option<DateTime>)

  datatype ResponseEntity<T> = ResponseEntity(status: int, body: Option<T>)

  /** `toResponse`: all seven fields copied, so no two users give the same response. */
  function ToResponse(u: UserAggregate): (r: UserResponse)
    ensures r.id == u.id && r.name == u.name && r.email == u.email && r.phone == u.phone
    ensures r.status == u.status && r.createdAt == u.createdAt && r.updatedAt == u.updatedAt
  {
    UserResponse(u.id, u.name, u.email, u.phone, u.status, u.createdAt, u.updatedAt)
  }

  lemma ToResponseInjective(u1: UserAggregate, u2: UserAggregate)
    ensures ToResponse(u1) == ToResponse(u2) ==> u1 == u2
  {
  }

  function ToResponses(users: seq<UserAggregate>): (rs: seq<UserResponse>)
    ensures |rs| == |users|
    ensures forall i :: 0 <= i < |users| ==> rs[i] == ToResponse(users[i])
  {
    if users == [] then [] else [ToResponse(users[0])] + ToResponses(users[1..])
  }

  /** The user `updateUser` hands to the service: identity, status and both timestamps from the
      stored user (`updatedAt` is not refreshed), contact data from the request. */
  function MergeUpdate(existing: UserAggregate, request: UpdateUserRequest): (u: UserAggregate)
    ensures u.id == existing.id && u.status == existing.status
    ensures u.createdAt == existing.createdAt && u.updatedAt == existing.updatedAt
    ensures u.name == request.name && u.email == request.email && u.phone == request.phone
  {
    UserAggregate(existing.id, request.name, request.email, request.phone, existing.status, existing.createdAt, existing.updatedAt)
  }

  /** Sending back a user's own contact data changes nothing, and merging the same request
      twice is the same as merging it once. */
  lemma MergeUpdateLaws(existing: UserAggregate, request: UpdateUserRequest)
    ensures MergeUpdate(existing, UpdateUserRequest(existing.name, existing.email, existing.phone)) == existing
    ensures MergeUpdate(MergeUpdate(existing, request), request) == MergeUpdate(existing, request)
  {
  }

  /** The ids of `users`, in order: the arguments `deleteAllUsers` hands to `deleteUser`. */
  function IdsOf(users: seq<UserAggregate>): seq<Option<Uuid>>
  {
    if users == [] then [] else IdsOf(users[..|users| - 1]) + [users[|users| - 1].id]
  }

  /** One more loop step appends one more id. */
  lemma IdsOfStep(before: seq<Option<Uuid>>, users: seq<UserAggregate>, i: int)
    requires 0 <= i < |users|
    ensures before + IdsOf(users[..i]) + [users[i].id] == before + IdsOf(users[..i + 1])
  {
    assert users[..i + 1][..i] == users[..i];
  }

  class UserController {
    const service: UserDomainService

    constructor(service: UserDomainService)
      ensures this.service == service
    {
      this.service := service;
    }

    /** POST: a new ACTIVE user; a registered e-mail escapes as an exception and nothing is stored. */
    method CreateUser(request: CreateUserRequest, createdAt: DateTime, updatedAt: DateTime, freshId: Uuid)
      returns (r: Result<ResponseEntity<UserResponse>, DomainError>)
      requires service.repository.Valid()
      requires freshId !in service.repository.rows
      modifies service.repository
      ensures service.repository.Valid()
      ensures old(service.repository.ExistsByEmail(request.email)) ==>
        && r == Failure(EmailAlreadyRegistered)
        && service.repository.rows == old(service.repository.rows)
        && service.repository.order == old(service.repository.order)
      ensures !old(service.repository.ExistsByEmail(request.email)) ==>
        var created := Create(request.name, request.email, request.phone, createdAt, updatedAt).(id := Some(freshId));
        && r == Success(ResponseEntity(200, Some(ToResponse(created))))
        && service.repository.rows == old(service.repository.rows)[freshId := ToEntity(created)]
        && service.repository.order == old(service.repository.order) + [freshId]
      ensures EmailsDistinct(old(service.repository.rows)) ==> EmailsDistinct(service.repository.rows)
    {
      var user := Create(request.name, request.email, request.phone, createdAt, updatedAt);
      var created := service.CreateUser(user, freshId);
      if created.Failure? {
        return Failure(created.error);
      }
      r := Success(ResponseEntity(200, Some(ToResponse(created.value))));
    }

    /** PUT /{id}: 404 and no update for an unknown id; otherwise the merged user is saved and
        answered. */
    method UpdateUser(id: Uuid, request: UpdateUserRequest) returns (response: ResponseEntity<UserResponse>)
      requires service.repository.Valid()
      modifies service.repository
      ensures service.repository.Valid() && service.repository.order == old(service.repository.order)
      ensures id !in old(service.repository.rows) ==>
        response == ResponseEntity(404, None) && service.repository.rows == old(service.repository.rows)
      ensures id in old(service.repository.rows) ==>
        var updated := MergeUpdate(ToAggregate(old(service.repository.rows)[id]), request);
        && response == ResponseEntity(200, Some(ToResponse(updated)))
        && service.repository.rows == old(service.repository.rows)[id := ToEntity(updated)]
    {
      var existing := service.GetUserById(id);
      if existing.None? {
        return ResponseEntity(404, None);
      }
      var merged := MergeUpdate(existing.value, request);
      var updated := service.UpdateUser(merged);
      response := ResponseEntity(200, Some(ToResponse(updated.value)));
    }

    /** DELETE /{id}: 200 once deleted, 404 when the service refuses the id. */
    method DeleteUserById(id: Uuid) returns (response: ResponseEntity<()>)
      requires service.repository.Valid()
      modifies service.repository, service`deleteCalls
      ensures service.repository.Valid()
      ensures service.deleteCalls == old(service.deleteCalls) + [Some(id)]
      ensures id in old(service.repository.rows) ==>
        && response == ResponseEntity(200, None)
        && service.repository.rows == old(service.repository.rows) - {id}
        && service.repository.order == Without(old(service.repository.order), id)
      ensures id !in old(service.repository.rows) ==>
        && response == ResponseEntity(404, None)
        && service.repository.rows == old(service.repository.rows)
        && service.repository.order == old(service.repository.order)
    {
      var deleted := service.DeleteUser(Some(id));
      response := if deleted.Success? then ResponseEntity(200, None) else ResponseEntity(404, None);
    }

    /** DELETE: deletes every listed user, one `deleteUser` call each in list order; an exception
        would stop the loop and answer 500, but none can arise, so the store ends empty. */
    method DeleteAllUsers() returns (response: ResponseEntity<()>)
      requires service.repository.Valid()
      modifies service.repository, service`deleteCalls
      ensures service.repository.Valid()
      ensures service.deleteCalls == old(service.deleteCalls) + IdsOf(old(service.repository.FindAll()))
      ensures response == ResponseEntity(200, None)
      ensures service.repository.rows == map[] && service.repository.order == []
    {
      var users := service.GetAllUsers();
      ghost var ids := service.repository.order;
      ghost var calls0 := service.deleteCalls;
      assert ids == old(service.repository.order) && users == old(service.repository.FindAll());
      var i := 0;
      var failed := false;
      while i < |users| && !failed
        invariant 0 <= i <= |users| == |ids|
        invariant !failed
        invariant service.repository.Valid()
        invariant forall k :: 0 <= k < |ids| ==> users[k].id == Some(ids[k])
        invariant service.repository.order == ids[i..]
        invariant service.deleteCalls == calls0 + IdsOf(users[..i])
      {
        service.repository.OldestIsStored();
        assert ids[i..][1..] == ids[i + 1..];
        var deleted := service.DeleteUser(users[i].id);
        failed := deleted.Failure?;
        IdsOfStep(calls0, users, i);
        i := i + 1;
      }
      response := if failed then ResponseEntity(500, None) else ResponseEntity(200, None);
      assert i == |users| && users[..i] == users;
      service.repository.EmptyOrderMeansEmpty();
    }

    /** GET: every stored user, in insertion order. */
    method GetAllUsers() returns (response: ResponseEntity<seq<UserResponse>>)
      requires service.repository.Valid()
      ensures response.status == 200 && response.body.Some?
      ensures |response.body.value| == |service.repository.order|
      ensures forall i :: 0 <= i < |service.repository.order| ==>
        response.body.value[i] == ToResponse(ToAggregate(service.repository.rows[service.repository.order[i]]))
    {
      var users := service.GetAllUsers();
      response := ResponseEntity(200, Some(ToResponses(users)));
    }

    /** GET /{id}: 404 when no user has the id, otherwise 200 with it. */
    method GetUserById(id: Uuid) returns (response: ResponseEntity<UserResponse>)
      ensures id !in service.repository.rows ==> response == ResponseEntity(404, None)
      ensures id in service.repository.rows ==>
        response == ResponseEntity(200, Some(ToResponse(ToAggregate(service.repository.rows[id]))))
    {
      var found := service.GetUserById(id);
      response := if found.Some? then ResponseEntity(200, Some(ToResponse(found.value))) else ResponseEntity(404, None);
    }
  }
}
