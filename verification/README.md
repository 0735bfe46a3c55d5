# Shipping and user services of the correo microservices proof of concept, modelled in Dafny

This project models the request-handling core of two small services.

The **shipping service** (TypeScript, Express) has these parts:

- a `Shipment` record with a five-valued status enumeration, and a `ShipmentService` that creates shipments, marks them as being processed, and otherwise hands requests to a shipment repository.
- a reference `ShipmentRepository`, which sends saved shipments to an SQS queue and stubs every other operation.
- an HTTP controller that turns each service outcome into one response.
- two authentication middlewares. One verifies a JWT, the other verifies through Cognito. Both take the bearer token out of the `Authorization` header.
- a login handler with a single hard-coded account.
- SNS notification builders.
- a configuration object built from the process environment.

The **user service** (Java, Spring) has a `UserAggregate` factory, a domain service that refuses a second user with an e-mail that is already registered, a repository adapter that maps aggregates to persistence entities and back, and a REST controller.

How the model is laid out:

- One Dafny module per source file, plus three helper modules: `Wrappers` (Option and Result), `Seqs` (duplicate-free sequences) and `HttpResponses` (status and JSON body).
- Records become datatypes. Objects whose state changes become classes.
- The shipment repository interface becomes `ShipmentStores.ShipmentStore`. It is a map from id to record, plus insertion order, plus a ghost log of the calls made on it. The log lets service contracts say which repository operation ran, how often, and with which arguments.
- The SQS queue and the SNS topic are append-only logs of accepted messages.
- The JPA table is a map from id to entity, plus insertion order.
- Outside libraries are parameters: `jwt.sign`, `jwt.verify`, the Cognito verifier, the clock, the UUID generator, and the success of a queue or topic send.
- A thrown exception is the `Failure` arm of a `Result`.

Facts about the code that the model keeps:

- **Timestamps.** `createShipment` reads the clock twice, so `createdAt` and `updatedAt` are two independent parameters and need not be equal.
- **Status changes.** `updateShipmentStatus` accepts any status. No order between statuses is enforced, and no transition is ever refused.
- **Validation.** No weight or dimension is validated.
- **Queue traffic.** Status updates send no queue message, and there is no queue consumer.

## Model

| member | source | states |
|---|---|---|
| ShipmentEntities.StatusWire | shipping-service/src/domain/entities/Shipment.ts:13-19 | each status is written as its upper-case member name, which is non-empty and starts with a capital letter |
| ShipmentEntities.ParseStatus | shipping-service/src/domain/entities/Shipment.ts:14-18 | reading a string back gives a status only when that status prints as this string; it gives nothing exactly when no status prints as it |
| ShipmentEntities.StatusesAreFive | shipping-service/src/domain/entities/Shipment.ts:13-19 | there are exactly five statuses: every status is in the list of five, and the list has no repeats |
| ShipmentEntities.StatusWireInjective | shipping-service/src/domain/entities/Shipment.ts:14-18 | two statuses with the same string are the same status |
| ShipmentEntities.StatusWireRoundTrip | shipping-service/src/domain/entities/Shipment.ts:14-18 | parsing a status's string gives back that status |
| ShipmentStores.ShipmentStore.Save | shipping-service/src/domain/repositories/IShipmentRepository.ts:4 | stores the record under its id, replacing any old one, and returns it; logs one save call |
| ShipmentStores.ShipmentStore.FindById | shipping-service/src/domain/repositories/IShipmentRepository.ts:5 | gives the stored record, or nothing exactly when the id is unknown; changes no record |
| ShipmentStores.ShipmentStore.FindByUserId | shipping-service/src/domain/repositories/IShipmentRepository.ts:6 | gives exactly the stored shipments owned by the user, in save order |
| ShipmentStores.ShipmentStore.UpdateStatus | shipping-service/src/domain/repositories/IShipmentRepository.ts:7 | on a known id, sets the status and `updatedAt` and keeps every other field; on an unknown id, fails and changes nothing |
| ShipmentStores.ShipmentStore.Delete | shipping-service/src/domain/repositories/IShipmentRepository.ts:8 | removes the id, keeps the store consistent, and never fails |
| ShipmentRepositories.ShipmentRepository.constructor | shipping-service/src/infrastructure/repositories/ShipmentRepository.ts:9-17 | targets the configured queue URL and starts with no messages sent |
| ShipmentRepositories.ShipmentRepository.Save | shipping-service/src/infrastructure/repositories/ShipmentRepository.ts:19-27 | appends exactly one message carrying the shipment to the queue log and returns the same shipment; a rejected send propagates and appends nothing |
| ShipmentRepositories.ShipmentRepository.FindById | shipping-service/src/infrastructure/repositories/ShipmentRepository.ts:29-33 | finds nothing, for every id |
| ShipmentRepositories.ShipmentRepository.FindByUserId | shipping-service/src/infrastructure/repositories/ShipmentRepository.ts:35-38 | lists nothing, for every user |
| ShipmentRepositories.ShipmentRepository.UpdateStatus | shipping-service/src/infrastructure/repositories/ShipmentRepository.ts:40-53 | answers a record with exactly the requested id and status, an empty user and empty addresses, zero weight and dimensions, and two clock readings |
| ShipmentRepositories.ShipmentRepository.Delete | shipping-service/src/infrastructure/repositories/ShipmentRepository.ts:55-57 | always succeeds and cannot touch the queue log |
| Configuration.Setting | shipping-service/src/config/index.ts:7-17 | a setting is the variable's value when that is non-empty, and the default otherwise |
| Configuration.LoadConfig | shipping-service/src/config/index.ts:5-19 | each of the nine settings is its variable's value when that is non-empty, and its own default otherwise: us-east-1 for the region, development for the environment, the empty string for the credentials, queue URL, topic ARN and Cognito ids; the port is the variable's text, or the number 8082 |
| Configuration.EmptyEnvironmentGivesDefaults | shipping-service/src/config/index.ts:7-17 | with nothing set: us-east-1, 8082 and development, and empty credentials, queue URL, topic ARN and Cognito ids |
| Configuration.SetVariablesWin | shipping-service/src/config/index.ts:7-17 | when all nine variables are non-empty, each setting is its variable's value |
| Configuration.OnlyNamedVariablesMatter | shipping-service/src/config/index.ts:7-17 | environments that agree on the nine variables, counting unset as empty, give the same configuration |
| Configuration.EmptyIsUnset | shipping-service/src/config/index.ts:7-17 | setting a variable to the empty string gives the same configuration as leaving it unset |
| ShipmentServices.NewShipment | shipping-service/src/domain/services/ShipmentService.ts:9-16 | the new record has the fresh id and status CREATED; it copies user, addresses, weight and dimensions and takes one clock reading per timestamp |
| ShipmentServices.NewShipmentIgnoresRequestedStatus | shipping-service/src/domain/services/ShipmentService.ts:10-13 | whatever status the caller sends, the created record is the same |
| ShipmentServices.MarkProcessing | shipping-service/src/domain/services/ShipmentService.ts:27-28 | the status becomes PROCESSING and `updatedAt` becomes now; every other field is unchanged |
| ShipmentServices.ShipmentService.CreateShipment | shipping-service/src/domain/services/ShipmentService.ts:9-19 | saves the new record exactly once (one logged call) and returns what the save returned; a new id goes to the end of the save order |
| ShipmentServices.ShipmentService.ProcessShipment | shipping-service/src/domain/services/ShipmentService.ts:21-30 | an unknown id is rejected with the service's not-found error (`ShipmentNotFound`) after one lookup and no save; a known id gets exactly one lookup and one save of the record marked PROCESSING |
| ShipmentServices.ShipmentService.GetShipment | shipping-service/src/domain/services/ShipmentService.ts:32-38 | returns the stored record unchanged, or the service's not-found error (`ShipmentNotFound`) |
| ShipmentServices.ShipmentService.GetUserShipments | shipping-service/src/domain/services/ShipmentService.ts:40-42 | makes one `findByUserId` call with the same user id and returns that call's list itself: the user's stored shipments, in save order |
| ShipmentServices.ShipmentService.UpdateShipmentStatus | shipping-service/src/domain/services/ShipmentService.ts:44-46 | passes any status, with no transition check, to one `updateStatus` call with the same arguments; the save order is unchanged |
| ShipmentServices.ShipmentService.DeleteShipment | shipping-service/src/domain/services/ShipmentService.ts:48-50 | makes one `delete` call with the same id, and removes exactly that id from the record map and from the save order |
| ShipmentControllers.CreateShipmentResponse | shipping-service/src/application/controllers/ShipmentController.ts:8-15 | success gives 201 with the shipment; any failure gives 400 "Error creating shipment"; a 2xx status means success and nothing else |
| ShipmentControllers.GetShipmentResponse | shipping-service/src/application/controllers/ShipmentController.ts:17-24 | success gives 200 with the shipment; any failure gives 404 "Shipment not found" |
| ShipmentControllers.GetUserShipmentsResponse | shipping-service/src/application/controllers/ShipmentController.ts:26-33 | success gives 200 with the list; any failure gives 400 "Error fetching shipments" |
| ShipmentControllers.UpdateShipmentStatusResponse | shipping-service/src/application/controllers/ShipmentController.ts:35-45 | success gives 200 with the shipment; any failure gives 400 "Error updating shipment status" |
| ShipmentControllers.DeleteShipmentResponse | shipping-service/src/application/controllers/ShipmentController.ts:47-54 | success gives 204 with no body; any failure gives 400 "Error deleting shipment" |
| ShipmentControllers.ShipmentController.CreateShipment | shipping-service/src/application/controllers/ShipmentController.ts:8-15 | answers 201 with the created shipment, which was saved exactly once |
| ShipmentControllers.ShipmentController.GetShipment | shipping-service/src/application/controllers/ShipmentController.ts:17-24 | answers 200 with the stored record, or 404 when the id is unknown |
| ShipmentControllers.ShipmentController.GetUserShipments | shipping-service/src/application/controllers/ShipmentController.ts:26-33 | answers 200 with exactly the service's list: the user's stored shipments, in save order |
| ShipmentControllers.ShipmentController.UpdateShipmentStatus | shipping-service/src/application/controllers/ShipmentController.ts:35-45 | forwards the path id and the body status unchanged; answers 200 with the updated record, or 400 on an unknown id |
| ShipmentControllers.ShipmentController.DeleteShipment | shipping-service/src/application/controllers/ShipmentController.ts:47-54 | answers 204 with no body and removes the id from the record map and from the save order |
| BearerTokens.Split | shipping-service/src/infrastructure/middleware/auth.ts:22 | splitting on a character gives at least one piece; no piece contains the separator; joining the pieces gives back the input |
| BearerTokens.SplitWithoutSeparator | shipping-service/src/infrastructure/middleware/auth.ts:22 | a string without the separator splits into itself alone |
| BearerTokens.SplitAtFirstSeparator | shipping-service/src/infrastructure/middleware/auth.ts:22 | the text before the first separator is the first piece, and the rest splits on its own |
| BearerTokens.SplitJoin | shipping-service/src/infrastructure/middleware/auth.ts:22 | splitting undoes joining pieces that contain no separator |
| BearerTokens.ExtractToken | shipping-service/src/infrastructure/middleware/auth.ts:22-24 | a token, when there is one, is non-empty and has no space |
| BearerTokens.TokenOfBearerHeader | shipping-service/src/infrastructure/middleware/auth.ts:22 | a header of the form "scheme token" or "scheme token more" yields exactly that token |
| BearerTokens.TokenIsSecondWord | shipping-service/src/infrastructure/middleware/auth.ts:22 | conversely, every extracted token is the second space-separated word of the header |
| JwtAuth.AuthenticateToken | shipping-service/src/infrastructure/middleware/auth.ts:16-43 | no token gives 401 "Token no proporcionado"; a rejected token gives 403 "Token inválido"; the request proceeds exactly when the verifier accepts the token, and it proceeds as the decoded user |
| JwtAuth.NoTokenIgnoresVerifier | shipping-service/src/infrastructure/middleware/auth.ts:22-27 | without a token the outcome does not depend on the verifier |
| JwtAuth.BearerHeaderAuthenticates | shipping-service/src/infrastructure/middleware/auth.ts:22-39 | "Bearer &lt;token&gt;" proceeds with the decoded user when the verifier accepts the token, and gives 403 otherwise |
| CognitoAuth.AuthenticateToken | shipping-service/src/middleware/auth.ts:13-28 | no token gives 401 `{error}`; a rejected token gives 403 `{error}`; the request proceeds exactly when the verifier accepts, with its payload |
| CognitoAuth.NoTokenIgnoresVerifier | shipping-service/src/middleware/auth.ts:16-20 | without a token the Cognito verifier is not consulted |
| CognitoAuth.VariantsAgree | shipping-service/src/middleware/auth.ts:13-28 | with verifiers that accept the same tokens, both middlewares let the same requests through with the same status codes and the same text; only the JSON key differs |
| AuthControllers.Login | shipping-service/src/application/controllers/AuthController.ts:6-31 | only the exact pair test@ejemplo.com / test123 is accepted; the token is signed over `{id:'1', email}` with the shared secret and "1h"; other credentials give 401 "Credenciales inválidas"; a signing error gives 500 "Error en la autenticación" |
| AuthControllers.OnlyTheTestAccountGetsAToken | shipping-service/src/application/controllers/AuthController.ts:13-26 | a 200 answer means the hard-coded credentials were sent |
| AuthControllers.IssuedTokenAuthenticates | shipping-service/src/application/controllers/AuthController.ts:15-22 | a token issued by login, sent back as a bearer header, authenticates as user "1" with the test e-mail, given a verifier that accepts what the signer signs |
| Notifications.ErrorNotification | shipping-service/src/services/notificationService.ts:60-67 | status ERROR; the message is "Error en el envío: " followed by exactly the error text |
| Notifications.CreatedNotification | shipping-service/src/services/notificationService.ts:42-49 | the message carries the shipment id and the timestamp, status CREATED and the text "Envío creado exitosamente" |
| Notifications.ProcessedNotification | shipping-service/src/services/notificationService.ts:51-58 | the message carries the shipment id and the timestamp, status PROCESSED and the text "Envío procesado exitosamente" |
| Notifications.HelpersNeverCollide | shipping-service/src/services/notificationService.ts:42-67 | messages built by two different helpers are never equal, for any arguments, so a published request shows which helper built it |
| Notifications.NotificationsDetermineTheirArguments | shipping-service/src/services/notificationService.ts:42-67 | a helper's message determines the shipment id and timestamp it was built from, and the error text as well for an error message |
| Notifications.ErrorTextInjective | shipping-service/src/services/notificationService.ts:60-67 | two error notifications with the same message come from the same error |
| Notifications.NotificationService.constructor | shipping-service/src/services/notificationService.ts:5-24 | publishes to the topic ARN of the configuration, and has published nothing yet |
| Notifications.NotificationService.SendNotification | shipping-service/src/services/notificationService.ts:21-40 | publishes exactly one request with the message and the attribute event_type = SHIPMENT_STATUS_UPDATE; a publish failure is re-thrown and publishes nothing |
| Notifications.NotificationService.NotifyShipmentCreated | shipping-service/src/services/notificationService.ts:42-49 | publishes one message for the id with status CREATED and "Envío creado exitosamente" |
| Notifications.NotificationService.NotifyShipmentProcessed | shipping-service/src/services/notificationService.ts:51-58 | publishes one message for the id with status PROCESSED and "Envío procesado exitosamente" |
| Notifications.NotificationService.NotifyShipmentError | shipping-service/src/services/notificationService.ts:60-67 | publishes one error message carrying the error text |
| UserAggregates.Create | user-service/src/main/java/com/correo/user/domain/aggregate/UserAggregate.java:23-32 | the new user has no id and status ACTIVE, copies name, e-mail and phone, and takes one clock reading per timestamp |
| UserRepositories.ToEntity | user-service/src/main/java/com/correo/user/infrastructure/repository/UserRepository.java:60-70 | copies all seven fields unchanged |
| UserRepositories.ToAggregate | user-service/src/main/java/com/correo/user/infrastructure/repository/UserRepository.java:72-82 | copies all seven fields unchanged |
| UserRepositories.MappingRoundTrips | user-service/src/main/java/com/correo/user/infrastructure/repository/UserRepository.java:60-82 | the two mappings are inverses in both directions |
| UserRepositories.StoringAnUnusedEmailKeepsEmailsDistinct | user-service/src/main/java/com/correo/user/domain/service/impl/UserDomainServiceImpl.java:19-22 | storing a user whose e-mail is unused keeps stored e-mails pairwise distinct |
| UserRepositories.UserRepository.Save | user-service/src/main/java/com/correo/user/infrastructure/repository/UserRepository.java:20-24 | stores the entity form under the user's id, or under a fresh id when the user has none, and returns the aggregate form of what was stored |
| UserRepositories.UserRepository.FindById | user-service/src/main/java/com/correo/user/infrastructure/repository/UserRepository.java:27-30 | empty exactly when the id is not stored; otherwise the mapped aggregate |
| UserRepositories.UserRepository.FindAll | user-service/src/main/java/com/correo/user/infrastructure/repository/UserRepository.java:33-37 | one aggregate per stored entity, in insertion order, each carrying its own id |
| UserRepositories.UserRepository.ExistsByEmail | user-service/src/main/java/com/correo/user/infrastructure/repository/UserRepository.java:40-42 | true exactly when some stored user has the e-mail |
| UserRepositories.UserRepository.ExistsById | user-service/src/main/java/com/correo/user/infrastructure/repository/UserRepository.java:45-47 | true exactly when `findById` finds the id |
| UserRepositories.UserRepository.FindByEmail | user-service/src/main/java/com/correo/user/infrastructure/repository/UserRepository.java:50-53 | finds a user exactly when the e-mail exists; the user found has that e-mail and is what `findById` gives for its id |
| UserRepositories.UserRepository.FindByEmailIsUnique | user-service/src/main/java/com/correo/user/infrastructure/repository/UserRepository.java:50-53 | when e-mails are distinct, the user found is the only one with that e-mail |
| UserRepositories.UserRepository.DeleteById | user-service/src/main/java/com/correo/user/infrastructure/repository/UserRepository.java:56-58 | removes the id and nothing else |
| UserDomainServices.UserDomainService.CreateUser | user-service/src/main/java/com/correo/user/domain/service/impl/UserDomainServiceImpl.java:18-23 | a registered e-mail is refused (`EmailAlreadyRegistered`) and nothing is saved; otherwise the user is saved once and the repository's answer is returned; distinct e-mails stay distinct |
| UserDomainServices.UserDomainService.GetAllUsers | user-service/src/main/java/com/correo/user/domain/service/impl/UserDomainServiceImpl.java:26-28 | returns `findAll` unchanged and modifies nothing |
| UserDomainServices.UserDomainService.GetUserById | user-service/src/main/java/com/correo/user/domain/service/impl/UserDomainServiceImpl.java:31-33 | returns `findById` unchanged and modifies nothing |
| UserDomainServices.UserDomainService.UpdateUser | user-service/src/main/java/com/correo/user/application/controller/UserController.java:55 | an id that is missing or not stored is refused; otherwise the user is stored under its id and the insertion order is kept |
| UserDomainServices.UserDomainService.DeleteUser | user-service/src/main/java/com/correo/user/application/controller/UserController.java:68 | logs the call; an id that is missing or not stored is refused and nothing changes; otherwise exactly that user is removed |
| UserControllers.ToResponse | user-service/src/main/java/com/correo/user/application/controller/UserController.java:112-122 | copies all seven fields unchanged |
| UserControllers.ToResponseInjective | user-service/src/main/java/com/correo/user/application/controller/UserController.java:112-122 | different users give different responses |
| UserControllers.ToResponses | user-service/src/main/java/com/correo/user/application/controller/UserController.java:94-96 | one response per user, in the same order |
| UserControllers.MergeUpdate | user-service/src/main/java/com/correo/user/application/controller/UserController.java:45-53 | keeps id, status, `createdAt` and `updatedAt` from the stored user; takes name, e-mail and phone from the request |
| UserControllers.MergeUpdateLaws | user-service/src/main/java/com/correo/user/application/controller/UserController.java:45-53 | sending back a user's own contact data changes nothing, and merging the same request twice equals merging it once |
| UserControllers.UserController.CreateUser | user-service/src/main/java/com/correo/user/application/controller/UserController.java:24-35 | answers 200 with the new ACTIVE user under a fresh id; a registered e-mail escapes as the service's exception and nothing is stored |
| UserControllers.UserController.UpdateUser | user-service/src/main/java/com/correo/user/application/controller/UserController.java:37-62 | an absent id gives 404 and no update; otherwise the merged user is stored and answered with 200 |
| UserControllers.UserController.DeleteUserById | user-service/src/main/java/com/correo/user/application/controller/UserController.java:64-74 | makes one `deleteUser` call; answers 200 and removes the user when it exists, 404 otherwise |
| UserControllers.UserController.DeleteAllUsers | user-service/src/main/java/com/correo/user/application/controller/UserController.java:76-89 | calls `deleteUser` once per listed user, in list order, with that user's id; never reaches the 500 branch; answers 200 and leaves the store empty |
| UserControllers.UserController.GetAllUsers | user-service/src/main/java/com/correo/user/application/controller/UserController.java:91-98 | answers 200 with one response per stored user, in insertion order |
| UserControllers.UserController.GetUserById | user-service/src/main/java/com/correo/user/application/controller/UserController.java:100-110 | 404 when no user has the id; otherwise 200 with that user's response |

`UserDomainService.java` and `UserDomainServiceImpl.java` contain the same three methods with the same bodies, so one class models both. The table cites the implementation.

## Left out

- JSON is not modelled, in either direction. That covers `express.json()` parsing of request bodies and `JSON.stringify` of queue and topic messages. Messages carry the record value itself.
- Outside code is passed in as parameters:
  - The AWS SDK is not modelled. The success of an SQS or SNS send is a `delivered` parameter, and client configuration (region, credentials) is not modelled.
  - `jwt.sign`, `jwt.verify` and the Cognito verifier are function parameters. So are the clock and the UUID generator.
- Floating point: weight and dimensions are exact reals. No arithmetic is done on them.
- Logging and `console` output are not modelled.
- The Express wiring is not modelled: `index.ts`, the route files, helmet, cors, the rate limiter, the health check and the process-level error handlers.
- `infrastructure/services/NotificationService.ts` (a pass-through SNS wrapper) is not part of this model.
- The infrastructure-as-code files are not part of this model.
- `UserEntity.java`, `CreateUserRequest.java` and `UpdateUserRequest.java` are not part of this model. The entity is taken to hold the seven fields that the mapping copies. The two requests are taken to hold name, e-mail and phone.
- The `@JsonFormat` date pattern of `UserResponse` is not modelled.
- ShipmentServices.ShipmentService.CreateShipment: takes a request with exactly the six shipment fields. Extra fields that the object spread of a request body would also copy into the record are not modelled.
- ShipmentControllers.ShipmentController.UpdateShipmentStatus: takes one of the five statuses. A body whose `status` is some other string would be stored as given, and that is not modelled.
- Insertion order is a choice of this model. Neither `IShipmentRepository.findByUserId` nor JPA's `findAll` promises any order. The model lists shipments in the order they were first saved, and users in the order they were first stored. Every service and controller method states how it changes that order.
- ShipmentStores.ShipmentStore: the repository interface only declares signatures. The store's meaning is chosen here:
  - `updateStatus` stamps `updatedAt` and fails on an unknown id.
  - `delete` never fails.
- The shipment service is modelled over that store, not over the reference SQS repository. Wired to the reference repository, `findById` always answers nothing, so `getShipment` and `processShipment` always fail. Each repository is modelled on its own.
- JwtAuth.AuthenticateToken: the outer `catch` of the JWT middleware is not modelled. With a string header nothing before the inner `try` can throw, so it cannot be reached. Its answer would be the same 403.
- UserDomainServices.UserDomainService.UpdateUser: the service as shown does not declare `updateUser`. Its meaning is chosen here: refuse an id that is missing or unknown, otherwise save. `updatedAt` is not refreshed.
- UserDomainServices.UserDomainService.DeleteUser: the service as shown does not declare `deleteUser`. Its meaning is chosen here: an `IllegalArgumentException` for an id that is missing or unknown (which the controller turns into 404), otherwise delete.
- UserRepositories.UserRepository.FindByEmail: `JpaUserRepository` declares `existsByEmail` but not `findByEmail`. The model takes the first stored user with the e-mail, in insertion order. That order is a choice of this model. A Spring Data derived query with an `Optional` result would throw `IncorrectResultSizeDataAccessException` when several users share the e-mail, and the model does not capture that exception. The two agree whenever e-mails are distinct, which `createUser` keeps but `updateUser` can break.
- UserRepositories.UserRepository.Save: new ids come from a generator that is taken to produce unused ids. Saving a user that already has an id replaces the stored entity.
- UserControllers.UserController.CreateUser: an exception that escapes a Spring handler becomes Spring's default error response. That response is not modelled; the handler's result is a `Failure`.
- Concurrency: every handler is modelled as running alone, from start to finish.
