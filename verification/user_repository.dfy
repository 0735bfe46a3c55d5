/** The user repository adapter: it maps aggregates to persistence entities and back around a
    JPA table. The table is modelled as a map from id to entity plus the order in which ids were
    first inserted (the order `findAll` lists them in). */
module UserRepositories {
  import opened Wrappers
  import opened Seqs
  import opened UserAggregates

  /** The persistence entity: the same seven fields as the aggregate. */
  datatype UserEntity = UserEntity(
    id: Option<Uuid>,
    name: string,
    email: string,
    phone: string,
    status: string,
    createdAt: Option<DateTime>,
    updatedAt: Option<DateTime>)

  /** `toEntity`: every field copied as it is. */
  function ToEntity(a: UserAggregate): (e: UserEntity)
    ensures e.id == a.id && e.name == a.name && e.email == a.email && e.phone == a.phone
    ensures e.status == a.status && e.createdAt == a.createdAt && e.updatedAt == a.updatedAt
  {
    UserEntity(a.id, a.name, a.email, a.phone, a.status, a.createdAt, a.updatedAt)
  }

  /** `toAggregate`: every field copied as it is. */
  function ToAggregate(e: UserEntity): (a: UserAggregate)
    ensures a.id == e.id && a.name == e.name && a.email == e.email && a.phone == e.phone
    ensures a.status == e.status && a.createdAt == e.createdAt && a.updatedAt == e.updatedAt
  {
    UserAggregate(e.id, e.name, e.email, e.phone, e.status, e.createdAt, e.updatedAt)
  }

  /** The two mappings are inverse to each other: nothing is lost on the way to the table and back. */
  lemma MappingRoundTrips(a: UserAggregate, e: UserEntity)
    ensures ToAggregate(ToEntity(a)) == a
    ensures ToEntity(ToAggregate(e)) == e
  {
  }

  /** No two stored users share an e-mail address. */
  ghost predicate EmailsDistinct(rows: map<Uuid, UserEntity>)
  {
    forall a, b :: a in rows && b in rows && a != b ==> rows[a].email != rows[b].email
  }

  /** Storing a user whose e-mail no stored user has keeps e-mails distinct, whichever key it goes under. */
  lemma StoringAnUnusedEmailKeepsEmailsDistinct(rows: map<Uuid, UserEntity>, key: Uuid, e: UserEntity)
    requires EmailsDistinct(rows)
    requires forall k :: k in rows ==> rows[k].email != e.email
    ensures EmailsDistinct(rows[key := e])
  {
  }

  /** The aggregates of the entities stored under `ids`, in that order. */
  function AggregatesOf(rows: map<Uuid, UserEntity>, ids: seq<Uuid>): (users: seq<UserAggregate>)
    requires forall k :: k in ids ==> k in rows
    ensures |users| == |ids|
    ensures forall i :: 0 <= i < |ids| ==> users[i] == ToAggregate(rows[ids[i]])
  {
    if ids == [] then [] else [ToAggregate(rows[ids[0]])] + AggregatesOf(rows, ids[1..])
  }

  /** The first of `ids` whose entity has e-mail `email`. */
  function FirstWithEmail(rows: map<Uuid, UserEntity>, ids: seq<Uuid>, email: string): (r: Option<Uuid>)
    requires forall k :: k in ids ==> k in rows
    ensures r.Some? ==> r.value in ids && rows[r.value].email == email
    ensures r.None? ==> forall k :: k in ids ==> rows[k].email != email
  {
    if ids == [] then None
    else if rows[ids[0]].email == email then Some(ids[0])
    else FirstWithEmail(rows, ids[1..], email)
  }

  class UserRepository {
    var rows: map<Uuid, UserEntity>
    var order: seq<Uuid>

    /** Each entity is stored under its own id, and `order` lists every stored id once. */
    ghost predicate Valid()
      reads this
    {
      && Distinct(order)
      && (forall k :: k in rows <==> k in order)
      && (forall k :: k in rows ==> rows[k].id == Some(k))
    }

    constructor()
      ensures Valid()
      ensures rows == map[] && order == []
    {
      rows := map[];
      order := [];
    }

    /** Stores the entity form of `user` and answers the aggregate form of what was stored. An
        entity without an id gets `freshId` (the id generator's next value, which is unused);
        one with an id is stored under it, replacing what was there. */
    method Save(user: UserAggregate, freshId: Uuid) returns (saved: UserAggregate)
      requires Valid()
      requires user.id.None? ==> freshId !in rows
      modifies this
      ensures Valid()
      ensures saved == user.(id := Some(if user.id.Some? then user.id.value else freshId))
      ensures rows == old(rows)[saved.id.value := ToEntity(saved)]
      ensures order == if saved.id.value in old(rows) then old(order) else old(order) + [saved.id.value]
    {
      var entity := ToEntity(user);
      var key := if entity.id.Some? then entity.id.value else freshId;
      entity := entity.(id := Some(key));
      if key !in rows {
        DistinctAppend(order, key);
        order := order + [key];
      }
      rows := rows[key := entity];
      saved := ToAggregate(entity);
    }

    /** Empty exactly when no user has this id; otherwise the stored user. */
    function FindById(id: Uuid): (r: Option<UserAggregate>)
      reads this
      ensures r.None? <==> id !in rows
      ensures r.Some? ==> ToEntity(r.value) == rows[id]
    {
      if id in rows then Some(ToAggregate(rows[id])) else None
    }

    /** One aggregate per stored entity, in insertion order. */
    function FindAll(): (users: seq<UserAggregate>)
      reads this
      requires Valid()
      ensures |users| == |order|
      ensures forall i :: 0 <= i < |order| ==> ToEntity(users[i]) == rows[order[i]]
      ensures forall i :: 0 <= i < |order| ==> users[i].id == Some(order[i])
      ensures forall u :: u in users ==> u.id.Some? && u.id.value in rows
    {
      AggregatesOf(rows, order)
    }

    function ExistsByEmail(email: string): (b: bool)
      reads this
      ensures b <==> exists k :: k in rows && rows[k].email == email
    {
      exists k | k in rows :: rows[k].email == email
    }

    function ExistsById(id: Uuid): (b: bool)
      reads this
      ensures b <==> FindById(id).Some?
    {
      id in rows
    }

    /** A stored user with this e-mail, if there is one (the first in insertion order). */
    function FindByEmail(email: string): (r: Option<UserAggregate>)
      reads this
      requires Valid()
      ensures r.Some? <==> ExistsByEmail(email)
      ensures r.Some? ==> r.value.email == email && r.value.id.Some? && FindById(r.value.id.value) == r
    {
      match FirstWithEmail(rows, order, email)
      case None => None
      case Some(k) => Some(ToAggregate(rows[k]))
    }

    /** When e-mails are distinct, the user found by e-mail is the only one with it. */
    lemma FindByEmailIsUnique(email: string, k: Uuid)
      requires Valid() && EmailsDistinct(rows)
      requires k in rows && rows[k].email == email
      ensures FindByEmail(email) == Some(ToAggregate(rows[k]))
    {
    }

    /** With no id left in the insertion order, the store is empty. */
    lemma EmptyOrderMeansEmpty()
      requires Valid() && order == []
      ensures rows == map[]
    {
    }

    /** The oldest stored id is stored, and deleting it leaves the rest of the order. */
    lemma OldestIsStored()
      requires Valid() && order != []
      ensures order[0] in rows && Without(order, order[0]) == order[1..]
    {
      WithoutHead(order);
    }

    /** Removes the entity with this id, if any. */
    method DeleteById(id: Uuid)
      requires Valid()
      modifies this
      ensures Valid()
      ensures rows == old(rows) - {id}
      ensures order == Without(old(order), id)
    {
      rows := rows - {id};
      WithoutRemovesExactly(order, id);
      order := Without(order, id);
    }
  }
}
