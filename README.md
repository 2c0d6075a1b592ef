# MyApiRest: product catalogue and user accounts, modelled in Dafny

MyApiRest is a small ASP.NET REST API. It offers user registration and login, which issues a JSON Web Token. It also offers create, read, update and delete on a product catalogue. This project models the decision logic of that API and proves what each operation does:

- `base.dfy`: `Option` (C#'s nullable references and `??`), `Int32` (C#'s `int`), and `FirstIndex`, the first-match search behind LINQ's `FirstOrDefault`.
- `models.dfy` covers the `Product`, `User` and `LoginRequest` records. It states their data-annotation constraints as the predicates `ValidProduct`, `ValidUser` and `ValidLogin`. `[Required]` on a string means "not empty once trimmed of white space", and white space is `char.IsWhiteSpace`'s code-point list. The price is a `decimal` in the source and a `real` here.
- `product_service.dfy` covers the in-memory `ProductService`. It is a class whose `products: seq<Product>` field its methods reassign. The class has the service's id allocation (largest id plus one, or 1 for an empty list), first-match lookup, update in place and removal of the first match. Its invariant is that ids are distinct and positive.
- `product_controller.dfy` covers `ProductController`. The `Products` table is a `map<Int32, Product>` keyed by id. The store-assigned id of a new row is a parameter of `Create`, and it must not already be a key. Each action returns its HTTP result as a `ProductResponse`.
- `auth_controller.dfy` covers `AuthController`. The `Users` table is a `seq<User>` in insertion order. The hashing library is a `Hasher`, a pair of functions: `hash(password, salt)` and `verify(password, digest)`. The one assumption about it, `Sound`, is that a password verifies against its own hash. The random salt, the clock (`now`, in seconds) and the token id (`jti`) are parameters. `GenerateToken` builds the token's content: issuer, audience, the `sub`/`jti`/name claims, the expiry and the signing key. It does not build the signed string.

The rules the model follows come from the code. A product's price must be at least 0.01, not merely positive. The update endpoint validates the body before it looks up the id. Login looks up the first user with the given username.

Client methods (`CreateThenGet`, `UpdateThenGet`, `DeleteThenGet`, `RegisterThenLogin`) show what a caller can prove from the contracts alone. For example: a created product reads back with identical fields; a freshly registered user can log in and is the token's subject.

Allocating "largest id plus one" does not always give back a deleted id. Delete the product with the largest id `m`, then add one: the new id is never above `m`. It equals `m` exactly when `m - 1` is still in use, or when the list became empty and `m` was 1. Example: with ids 1 and 5, deleting 5 makes the next id 2. `NextIdAfterDeletingMax` proves this statement. `ConsecutiveIdsNext` proves that if the ids are 1..n, the next id is n + 1. `AddKeepsConsecutive` proves that appending under that id gives ids 1..n+1. So a service that starts empty and only ever adds numbers its products 1, 2, 3, …; `Update` keeps ids as they are. In that case, deleting the last product and adding a new one reuses its id.

## Model

| member | source | states |
|---|---|---|
| `Models.IsWhiteSpace` | MyApiRest/Models/Product.cs:9 | the white space that `[Required]` trims is `char.IsWhiteSpace`'s code-point list; among ASCII characters it is exactly the space and tab through carriage return |
| `Models.Required` | MyApiRest/Models/Product.cs:9 | `[Required]` on a string: a string passes only if it is non-empty, and it fails exactly when every character is white space |
| `Models.ValidProduct` | MyApiRest/Models/Product.cs:9-17 | product validation. A valid product has a name of 1 to 100 characters, a price of at least 0.01 (so positive) and a non-negative stock |
| `Models.NonPositivePriceInvalid` | MyApiRest/Models/Product.cs:13-14 | a product priced zero or below is invalid |
| `Models.BlankNameInvalid` | MyApiRest/Models/Product.cs:9-11 | a product whose name is empty or only white space is invalid |
| `Models.DefaultProductInvalid` | MyApiRest/Models/Product.cs:11-14 | a default-constructed product (empty name, price 0) is invalid |
| `Models.ValidUser` | MyApiRest/Models/User.cs:7-17 | user validation. A valid user has a username of 1 to 50 characters, a non-empty email accepted by the email-format check, and a password of 6 to 100 characters |
| `Models.ValidLogin` | MyApiRest/Models/LoginRequest.cs:5-9 | login validation. A valid request has a non-empty username and a non-empty password |
| `Models.DefaultUserInvalid` | MyApiRest/Models/User.cs:7-17 | a default-constructed user (all strings empty) is invalid |
| `Models.WithEditableFields` | MyApiRest/Controllers/ProductController.cs:66-68 | the record an update leaves: the stored id is kept, and it is valid whenever the body is valid |
| `Models.ValidUserCanLogIn` | MyApiRest/Models/LoginRequest.cs:5-9 | a user body that passes validation yields a login request (same username and password) that passes validation |
| `Base.FirstIndex` | MyApiRest/Services/ProductService.cs:11 | the first-match search both `FirstOrDefault` calls perform: it finds nothing exactly when no element matches, otherwise the first matching position |
| `ProductServices.IndexOfId` | MyApiRest/Services/ProductService.cs:11 | the lookup finds a position exactly when some product has the id, and the position it finds is the first one with that id |
| `ProductServices.MaxId` | MyApiRest/Services/ProductService.cs:15 | the maximum id is at least every id in the list and is one of them |
| `ProductServices.NextId` | MyApiRest/Services/ProductService.cs:15 | the allocated id exceeds every id present; it is 1 for an empty list and otherwise directly follows an id present, so it is the maximum plus one |
| `ProductServices.RemoveAt` | MyApiRest/Services/ProductService.cs:35 | removing one position shortens the list by one and keeps the other elements in order |
| `ProductServices.AddKeepsIdsDistinct` | MyApiRest/Services/ProductService.cs:15-16 | appending a product under the allocated id keeps all ids distinct |
| `ProductServices.RemoveAtKeepsIdsDistinct` | MyApiRest/Services/ProductService.cs:30-37 | removing a product keeps all ids distinct |
| `ProductServices.NextIdAfterDeletingMax` | MyApiRest/Services/ProductService.cs:13-37 | after deleting the product with the largest id m, the next allocated id is at most m; it is m exactly when m - 1 is still present or the list became empty with m = 1 |
| `ProductServices.ConsecutiveIdsNext` | MyApiRest/Services/ProductService.cs:15 | when the ids are 1, 2, …, n in order, the next allocated id is n + 1 |
| `ProductServices.AddKeepsConsecutive` | MyApiRest/Services/ProductService.cs:15-16 | appending under the allocated id to a list numbered 1..n gives a list numbered 1..n+1, so a history of adds from empty numbers products consecutively |
| `ProductServices.ProductService.constructor` | MyApiRest/Services/ProductService.cs:7 | the service starts with an empty list, which satisfies the invariant |
| `ProductServices.ProductService.GetAll` | MyApiRest/Services/ProductService.cs:9 | returns every stored product in list order and changes nothing |
| `ProductServices.ProductService.GetById` | MyApiRest/Services/ProductService.cs:11 | returns nothing exactly when no product has the id; otherwise returns the first product with that id |
| `ProductServices.ProductService.Add` | MyApiRest/Services/ProductService.cs:13-17 | appends the product at the end, with no validation. Its id is overwritten with the maximum id plus one, or 1 for an empty list. Earlier elements and their order are unchanged. Ids stay distinct and positive |
| `ProductServices.ProductService.Update` | MyApiRest/Services/ProductService.cs:19-28 | an absent id returns false and leaves the list unchanged. Otherwise it returns true and sets name, price and stock of the first match from the argument. That element keeps its id, and every other element is unchanged |
| `ProductServices.ProductService.Delete` | MyApiRest/Services/ProductService.cs:30-37 | an absent id returns false with no change; otherwise it removes exactly the first product with that id and keeps the others in order |
| `ProductControllers.ProductController.constructor` | MyApiRest/Controllers/ProductController.cs:14-17 | the controller works on the given table, each row keyed by its own id |
| `ProductControllers.ProductController.GetAll` | MyApiRest/Controllers/ProductController.cs:20-24 | answers 200 with exactly the stored products and changes nothing |
| `ProductControllers.ProductController.GetById` | MyApiRest/Controllers/ProductController.cs:27-35 | answers 200 with the stored product when the id is present, 404 "Producto no encontrado" otherwise; changes nothing |
| `ProductControllers.ProductController.Create` | MyApiRest/Controllers/ProductController.cs:38-49 | an invalid body gives 400 and adds nothing; a valid body is stored under exactly one fresh id and answered with 201 carrying that id and the stored product |
| `ProductControllers.ProductController.Update` | MyApiRest/Controllers/ProductController.cs:52-72 | validity is checked first: an invalid body gives 400 even for an unknown id. A valid body for an unknown id gives 404 with no change. Otherwise name, price and stock are overwritten from the body, the stored id is kept (the body's id is ignored), other products are unchanged, and the answer is 204 |
| `ProductControllers.ProductController.Delete` | MyApiRest/Controllers/ProductController.cs:75-86 | an unknown id gives 404 with no change; otherwise exactly that product is removed, the rest are untouched, and the answer is 204 |
| `ProductControllers.CreateThenGet` | MyApiRest/Controllers/ProductController.cs:29-48 | a product created from a valid body reads back with the body's name, price and stock under its new id |
| `ProductControllers.UpdateThenGet` | MyApiRest/Controllers/ProductController.cs:59-71 | after a successful update, reading the product gives the new values and the old id |
| `ProductControllers.DeleteThenGet` | MyApiRest/Controllers/ProductController.cs:77-85 | after a delete, reading that id gives 404, and every other product is still stored unchanged |
| `Auth.GenerateToken` | MyApiRest/Controllers/AuthController.cs:80-101 | the token's `sub` and name claims are the username and its `jti` claim is the supplied token id. It expires exactly one hour after issuance. Issuer, audience and signing key are the configured values when present, else "yourapi.com", "yourapi.com" and the built-in key. It is signed with HS256 |
| `Auth.FirstNamed` | MyApiRest/Controllers/AuthController.cs:59 | the lookup finds a user exactly when some user has the username, and the one it finds is the first with that name |
| `Auth.FirstNamedIsTheOne` | MyApiRest/Controllers/AuthController.cs:32-59 | when usernames are unique, the lookup by a stored user's name finds that user |
| `Auth.Conflicts` | MyApiRest/Controllers/AuthController.cs:32 | the duplicate check fires when some user has the same username or some user has the same email; a user it does not fire for (with an unused id) can be appended without breaking uniqueness |
| `Auth.StoredUser` | MyApiRest/Controllers/AuthController.cs:38 | the stored record keeps the username and email and takes the store-assigned id; its password is the hash, which a sound hasher verifies against the plaintext |
| `Auth.AuthController.constructor` | MyApiRest/Controllers/AuthController.cs:16-20 | the controller works on the user table as the database holds it, which must already have unique usernames, emails and ids |
| `Auth.AuthController.Register` | MyApiRest/Controllers/AuthController.cs:24-45 | an invalid body gives 400 "Datos inválidos" and adds no user. A username or email already in use gives 400 "already registered" with no change. Otherwise exactly one user is appended with the input username and email, and its stored password is the hash of the plaintext. The answer is then 200. Usernames and emails stay unique |
| `Auth.AuthController.Login` | MyApiRest/Controllers/AuthController.cs:48-78 | an invalid request gives 400. An unknown username and a wrong password both give the identical 401 "Credenciales inválidas". Success happens exactly when the first user with that username has a hash that `verify` accepts for the password, and then the token is issued to that user. The user table is never modified |
| `Auth.RegisterThenLogin` | MyApiRest/Controllers/AuthController.cs:24-77 | with a sound hasher, a user who has just registered can log in with the same credentials and receives a token whose subject is their username and which expires one hour after issuance |

## Left out

- Persistence: Entity Framework Core, SQLite, `SaveChangesAsync` and async/await are not modelled. Each action's effect on the table happens at once. The id the store assigns to a new product or user is a parameter that must not already be in use.
- ProductControllers.ProductController.Create: if the body carries a non-zero id, the store would try to insert that id instead of assigning one. The model always uses the store-assigned id.
- Auth.AuthController.Register: same point about a non-zero id in the body. The model always uses the store-assigned id.
- ProductControllers.ProductController.GetAll: the response is the set of stored products. The order of the list the table returns is not modelled.
- BCrypt hashing and verification are foreign code with a random salt. They are the `Hasher` functions plus a salt parameter. Nothing is assumed about them except that a password verifies against its own hash. In particular, the model does not assume that a wrong password is always rejected.
- JWT serialization and HMAC-SHA256 signing (section 3.2 of RFC 7518) are foreign cryptography. Only the token's content is modelled.
- Token validation is framework middleware configured in MyApiRest/Program.cs, which is not part of this model. That configuration reads `Jwt:Key` with no fallback, and it takes the configured issuer and audience. Token issuance instead falls back to a built-in key and to "yourapi.com". If `Jwt:Key` is absent, building the bearer options fails. Since "Bearer" is the default scheme, that likely happens on every request, before `Login` runs. The fallback key would then never be reached; this depends on framework behaviour not shown in the source. No product route requires a token, so no protected-route behaviour is modelled.
- `DateTime.Now` and `Guid.NewGuid()` are the parameters `now` (in seconds) and `jti`. Tick precision and local-time conversion are not modelled.
- The `[EmailAddress]` format check is framework code. It is the `isEmail` parameter of `ValidUser`.
- The model-validation pipeline is reduced to the validity predicates. Model-binding failures, such as a missing body or a number out of range, are not modelled. So is the framework's automatic 400 answer for `[ApiController]` controllers; it has the same status code but a different body.
- String lengths count Dafny characters (Unicode scalar values). .NET counts UTF-16 code units, so the two differ for characters outside the Basic Multilingual Plane.
- Price is an exact `real`. The source's `decimal` range and precision are not modelled. Neither is the conversion to `double` that `[Range(0.01, double.MaxValue)]` applies before comparing.
- ProductServices.ProductService.Add: the precondition that every id is below `int.MaxValue` stands in for the source's 32-bit wrap-around of `Max + 1`.
- Reference aliasing is not modelled; products and users are values. In the source, `GetAll` hands out the live list. `Add` writes the new id into the caller's object. `Update` mutates the stored object that `GetById` found, not its argument.
- ProductServices.ProductService.Valid: the distinct-ids invariant holds only because products are values. In the source, `Add(p); Add(p)` on an empty service stores the same object twice, and both entries then carry id 2.
- `Console.WriteLine` logging in `Login` is I/O and is not modelled.
- Concurrency is not modelled. In the source, two simultaneous registrations could both pass the duplicate check, because the duplicate check and the insert are separate steps. The model runs them as one step.
- The user-uniqueness invariant (`AuthController.Valid`) assumes the table has unique usernames, emails and ids when the controller is built, and grows only through `Register`.
- `FirstOrDefaultAsync` at MyApiRest/Controllers/AuthController.cs:59 has no `OrderBy`, so "first" is the database's scan order. The model takes that to be insertion order. Under the uniqueness invariant at most one row matches, so the choice makes no difference.
- Auth.AuthController.Login: the two 401 answers are identical as values only. An unknown user is answered before any password verification runs. A wrong password is answered after a BCrypt verification. So the response time differs, and timing is not modelled.
