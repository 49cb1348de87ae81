# Horse registry: mapper and two view coordinators, in Dafny

This project models three pieces of a horse/owner record-keeping application
and proves what they promise.

- **`HorseMapper`** (backend, Java): converts a stored horse entity into the
  list and detail transfer objects. It copies the scalar fields, resolves the
  owner through a map from owner id to owner, throws `FatalException` when the
  referenced owner is absent, and passes the given mother and father through.
  The model is pure: a Java `null` is `Option.None`, the exception is
  `Result.Failure` carrying its exact message. The owner and horse maps are
  value parameters, so the conversions can read them and cannot change them.
- **`HorseDetailComponent`** (frontend, TypeScript/Angular): a class whose
  `horse` field is overwritten by fetch responses. Its methods take the
  service response and the router's boolean result as inputs. They record, in
  fields, every service request, every router navigation, every success
  notification and every message passed to the private `showError`.
  `IdGate` is the decision `ngOnInit` makes. `FormatOwnerName` is the pure
  name helper.
- **`OwnerCreateComponent`** (frontend): a class holding the owner draft.
  `OnSubmit` is guarded by the form's validity, an input. It removes an empty
  email from the draft in place, then issues exactly one create. The CSS class
  helper and the button text are pure functions.

Files: `wrappers.dfy` (Option, Result), `decimal.dfy` (decimal rendering of
integers and its inverse; used for Java's `%d` in the exception messages and
for JavaScript's number-to-string in the detail route), `horse_mapper.dfy`,
`frontend_dto.dfy` (the client's record shapes, responses and navigations),
`horse_detail.dfy`, `owner_create.dfy`.

Three details of the detail view are worth stating plainly:

- The id gate (horse-detail.component.ts:34) rejects only a missing
  parameter or one whose `Number(...)` is `NaN`. Any other number passes and
  is fetched, including a negative, fractional or infinite one such as
  `"-1"`, `"1.5"` or `"Infinity"`.
- A rejected id navigates to the route `['**']` (horse-detail.component.ts:37).
  What the router then does with that path is outside the model.
- The delete navigation's state is `{del: 'true'}` (horse-detail.component.ts:52).
  Its value is the string `'true'`, not a boolean.

## Model

| member | source | states |
|---|---|---|
| `Decimal.IntToString` | backend/src/main/java/at/ac/tuwien/sepm/assignment/individual/mapper/HorseMapper.java:83 | `%d` renders an integer as a non-empty text that starts with `-` exactly when the integer is negative |
| `Decimal.NatToString` | backend/src/main/java/at/ac/tuwien/sepm/assignment/individual/mapper/HorseMapper.java:95 | the digits of a natural number are all decimal digits; the text starts with `0` exactly for zero, and then it is that one digit |
| `Decimal.ParseIntOfIntToString` | backend/src/main/java/at/ac/tuwien/sepm/assignment/individual/mapper/HorseMapper.java:83 | reading back the rendered id gives the same id (round trip) |
| `Decimal.IntToStringInjective` | backend/src/main/java/at/ac/tuwien/sepm/assignment/individual/mapper/HorseMapper.java:95 | distinct ids render as distinct texts |
| `HorseMapper.FormatNullableId` | backend/src/main/java/at/ac/tuwien/sepm/assignment/individual/mapper/HorseMapper.java:83 | a null horse id is written `null`, and no non-null id is written that way |
| `HorseMapper.FormatNullableIdNamesId` | backend/src/main/java/at/ac/tuwien/sepm/assignment/individual/mapper/HorseMapper.java:83 | a non-null horse id written by `%d` reads back as that id |
| `HorseMapper.GetOwner` | backend/src/main/java/at/ac/tuwien/sepm/assignment/individual/mapper/HorseMapper.java:78-88 | fails exactly when the owner id is non-null and not a key of the map, with the message naming the horse id; otherwise gives no owner for a null owner id, whatever the map holds, and the map's entry for a present one |
| `HorseMapper.EntityToListDto` | backend/src/main/java/at/ac/tuwien/sepm/assignment/individual/mapper/HorseMapper.java:29-43 | null maps to null with no lookup and no exception; fails exactly when the referenced owner is missing; otherwise id, name, description, dateOfBirth and sex are copied unchanged and the owner is the referenced one |
| `HorseMapper.EntityToDetailDto` | backend/src/main/java/at/ac/tuwien/sepm/assignment/individual/mapper/HorseMapper.java:54-76 | the same null, failure, copy and owner rules as the list conversion, and mother and father are exactly the arguments |
| `HorseMapper.GetHorse` | backend/src/main/java/at/ac/tuwien/sepm/assignment/individual/mapper/HorseMapper.java:91-100 | a null id gives null; fails exactly when the id is not a key of the map, with the message naming the id; otherwise gives the map's entry |
| `HorseMapper.DetailAgreesWithList` | backend/src/main/java/at/ac/tuwien/sepm/assignment/individual/mapper/HorseMapper.java:29-76 | both conversions fail on the same inputs with the same exception, and on success the detail DTO without its parents is the list DTO |
| `HorseMapper.OwnerLookupIsLocal` | backend/src/main/java/at/ac/tuwien/sepm/assignment/individual/mapper/HorseMapper.java:79-87 | the conversion depends on the owner map only at the horse's own owner id |
| `HorseMapper.ListDtoStableUnderMoreOwners` | backend/src/main/java/at/ac/tuwien/sepm/assignment/individual/mapper/HorseMapper.java:82-85 | a successful conversion gives the same DTO with any larger owner map |
| `HorseMapper.MissingOwnerMessageIdentifiesHorse` | backend/src/main/java/at/ac/tuwien/sepm/assignment/individual/mapper/HorseMapper.java:83 | the missing-owner exception message determines the horse id, null included |
| `HorseMapper.MissingHorseMessageIdentifiesId` | backend/src/main/java/at/ac/tuwien/sepm/assignment/individual/mapper/HorseMapper.java:95 | the missing-horse exception message determines the requested id |
| `HorseDetail.IdGate` | frontend/src/app/component/horse/horse-detail/horse-detail.component.ts:33-38 | redirects exactly when the id is missing or its number is NaN; otherwise fetches that number, which is not NaN |
| `HorseDetail.DetailPath` | frontend/src/app/component/horse/horse-detail/horse-detail.component.ts:41 | the parent's route is `/horses/` followed by a non-empty rendering of its id |
| `HorseDetail.DetailPathNamesId` | frontend/src/app/component/horse/horse-detail/horse-detail.component.ts:41 | the tail after `/horses/` is `NaN` for an undefined id and otherwise reads back as exactly the parent's id |
| `HorseDetail.DetailPathInjective` | frontend/src/app/component/horse/horse-detail/horse-detail.component.ts:41 | distinct parent ids give distinct routes, and an undefined id (`NaN`) gives a route no id gives |
| `HorseDetail.FormatOwnerName` | frontend/src/app/component/horse/horse-detail/horse-detail.component.ts:76-80 | empty exactly for a null or undefined owner; otherwise the first name, then one space, then the last name |
| `HorseDetail.FormatOwnerNameSplits` | frontend/src/app/component/horse/horse-detail/horse-detail.component.ts:79 | the formatted name is first name + `' '` + last name: splitting at the first space gives both back when the first name has no space |
| `HorseDetail.HorseDetailComponent.constructor` | frontend/src/app/component/horse/horse-detail/horse-detail.component.ts:16-21 | the placeholder horse has empty name and description, the current date, female sex, and nothing has been requested or shown |
| `HorseDetail.HorseDetailComponent.NgOnInit` | frontend/src/app/component/horse/horse-detail/horse-detail.component.ts:32-39 | a passing id issues exactly one `getByID(Number(id))` and no navigation; a failing one navigates once to `['**']` and issues no fetch |
| `HorseDetail.HorseDetailComponent.GoToHorse` | frontend/src/app/component/horse/horse-detail/horse-detail.component.ts:40-46 | one navigation to the single path `/horses/` + `Number(id)`; a falsy router result adds the error `Router failed` |
| `HorseDetail.HorseDetailComponent.DeleteHorse` | frontend/src/app/component/horse/horse-detail/horse-detail.component.ts:48-63 | one delete request; success gives one notification `Horse <current name> successfully deleted` and one navigation to `['/horses']` with state `del: 'true'`; failure gives no navigation and the error `Failed to delete horse: <server message>`; the horse is unchanged |
| `HorseDetail.HorseDetailComponent.GetHorse` | frontend/src/app/component/horse/horse-detail/horse-detail.component.ts:65-74 | one fetch request; success replaces the horse with the returned data, failure leaves it unchanged |
| `OwnerCreate.NormalizeEmail` | frontend/src/app/component/owner/owner-create/owner-create.component.ts:52-54 | the result has no empty email; the email is absent exactly when it was absent or empty, otherwise unchanged; names and id unchanged; an owner already without empty email is returned as it is |
| `OwnerCreate.DynamicCssClassesForInput` | frontend/src/app/component/owner/owner-create/owner-create.component.ts:35-42 | one class, `is-invalid`, set exactly when the input is neither valid nor pristine |
| `OwnerCreate.SubmitButtonText` | frontend/src/app/component/owner/owner-create/owner-create.component.ts:31-33 | always `Create` |
| `OwnerCreate.OwnerCreateComponent.constructor` | frontend/src/app/component/owner/owner-create/owner-create.component.ts:17-21 | the draft's first name, last name and email are all `''` |
| `OwnerCreate.OwnerCreateComponent.OnSubmit` | frontend/src/app/component/owner/owner-create/owner-create.component.ts:49-67 | an invalid form changes nothing and sends nothing; a valid one normalises the draft's email and sends exactly one create of the draft; success adds one notification and one navigation to `['/owners']`, failure neither |

## Left out

- `horse.service.ts` and the owner service: thin wrappers over the HTTP client. Each call appears only as a request value (`GetById`, `DeleteHorse`, `Create`) paired with a response given as input.
- `app-routing.module.ts`: its meaning (prefix and full matching, children, the `'**'` wildcard) belongs to the Angular router, which is not part of this model. Navigations are recorded as the commands and state passed to `navigate`.
- JavaScript's `Number(string)` parsing: it is a function parameter of `NgOnInit` and `IdGate`, so the gate is proved for every conversion. Number precision for ids beyond 2^53 is not modelled in `DetailPath`.
- Asynchrony: each observable or router promise is one outcome delivered to the method that subscribed. Interleaving with other events is not modelled, and nor is a late response overwriting a newer one.
- Logging (`LOG.trace`, `console.log`, `console.error`) and the Toastr display. The messages given to `showError`, which itself only logs, are kept as data in `errors`. Success notifications are kept as their text.
- `OwnerCreateComponent.ngOnInit`: it subscribes to the route data with an empty handler and has no effect.
- Dates (`LocalDate`, `new Date()`) are opaque values that are copied; the current date is a constructor parameter.
- HorseMapper: Java `null` for the name, description, date or sex of an entity, and `null` values stored inside the owner or horse map, are not modelled. Fields are plain values and map entries are never null.
- HorseDetail.HorseDetailComponent.DeleteHorse: does not model an error response without a JSON body, where reading `error.error.message` throws or yields `undefined`. The server message is always a string here.
- OwnerCreate.DynamicCssClassesForInput: does not model `valid` or `pristine` being `null`. Angular's `NgModel` may report that before the control is bound.
- Identity and aliasing of the TypeScript objects: `horse` and `owner` are values. The request records a copy of the draft as it was sent.
- HorseDetail.DetailPath: does not model a parent whose `id` is `null`. `Number(null)` is `0`, so the source would navigate to `/horses/0`. Here a missing id is `undefined` and renders as `NaN`. Parents shown in the detail view are persisted records and carry an id.
- HorseDetail.DetailPathInjective: holds for integer ids and an undefined id only. A `null` id is not modelled (see the line above); in the source it gives the same route as id `0`.
- HorseMapper.MissingOwnerMessage and HorseMapper.MissingHorseMessage: assume a default locale with ASCII digits. `String.formatted` uses the default locale, and a locale with another zero digit writes the id in other digits.
- HorseMapper: a `null` owner or horse map is not modelled. With a non-null id, the source then throws `NullPointerException` at `containsKey`, not `FatalException`. A Dafny `map` cannot be null.
- OwnerCreate.NormalizeEmail: does not model an email explicitly set to `null`. The source keeps such a field and sends it as `null`; here `None` means the field is absent.
