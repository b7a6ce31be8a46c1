# Authentication-provider administration and Shibboleth-to-builtin conversion

A Dafny model of the decision logic in Dataverse's administrative API
(`Admin.java`): the table of authentication-provider rows and the registry of
live providers built from them, the endpoints that add, enable, disable and
delete providers, the conversion of a Shibboleth account to a builtin
(username/password) account, and the dataset-validation report that digs the
first constraint violation out of an exception's cause chain.

The state the endpoints share is the class `Admin.AdminState`:

- `rows`: the persisted `AuthenticationProviderRow` table, keyed by row id;
- `registry`: the live providers held by the authentication service, keyed by provider id;
- `users`: the authenticated users, each with its optional lookup record (provider id and persistent user id);
- `accounts`: the builtin accounts the conversion service has created;
- `effects` (ghost): the order in which rows are written, providers registered
  and deregistered, accounts requested and conversion records persisted.

`Valid()` states the invariant every endpoint keeps: rows and live providers
are keyed by their own ids, and every live provider has a row. It does not
say that the row of a live provider is enabled, because the endpoints do not
keep that: `addProvider` with a disabled row for a live id leaves the
provider live, and enabling a row whose provider fails to load leaves an
enabled row with no live provider. The model keeps both behaviours.

The services the endpoints call, whose code is not part of this model, are
parameters that say what the call did:

- `authSvc.loadProvider(row)` is a `LoadOutcome`: a provider, a missing factory or a setup error with its message;
- `authSvc.convertShibToBuiltIn(user, email)` is a `CreationOutcome`: an account, null, or a throw with its cause chain;
- the persist, persist and flush of the rebinding stage are a `StoreOutcome`: all succeed, or the named one throws;
- `beanValidationSvc.validateDatasets()` is a `ValidationRun`: it returns, throws an exception with its cause chain, or throws an `Error`, which `validate` does not catch and the container answers with 500;
- `findAuthenticatedUserOrDie()` is an `Option<User>` (None when it throws);
- `Util.isBoolean`/`Util.isTrue` on the request body is an `Option<bool>` (None when the body is not a boolean).

A cause chain (`Causes.Chain`) is a non-empty sequence of exception kinds,
outermost first; its last element is the deepest cause. Responses
(`Responses.Response`) are an HTTP status class and a tag carrying the values
the message is built from, not the message text.

The code of `loadProvider` is not part of this model, so one assumption is explicit: a provider loaded
from the row with id `id` reports `id` as its own id (`Entities.LoadsAs`). The
model still registers a provider under its own id, as the code does.

Three behaviours of the code that are easy to misread, which the model keeps:

- An unknown user in the conversion is answered with 400 Bad Request, not 404 Not Found.
- Enabling a provider whose id is already live answers "already enabled" and
  does not replace it; only `addProvider` deregisters and then registers.
- In `addProvider`, a missing factory is reported like any other setup
  failure: 500 with the exception's message. This rests on an assumption
  about `AuthenticationProviderFactoryNotFoundException`, whose code is not
  part of this model: that it is a subclass of `AuthorizationSetupException`.
  `addProvider` catches only `AuthorizationSetupException` and declares no
  `throws`, so `loadProvider` can throw no other checked exception there.

## Model

| member | source | states |
|---|---|---|
| `Causes.RootCause` | src/main/java/edu/harvard/iq/dataverse/api/Admin.java:298-300 | following `getCause()` until there is none yields the last element of the cause chain |
| `Causes.FirstViolation` | src/main/java/edu/harvard/iq/dataverse/api/Admin.java:414-430 | the scan finds nothing exactly when no exception in the chain is a constraint violation with a violation; otherwise it yields the first violation of the outermost such exception |
| `Diagnostics.ReportAsWritten` | src/main/java/edu/harvard/iq/dataverse/api/Admin.java:418-426 | a violation yields a report of its bean, property path and invalid value exactly when the invalid value is not null |
| `Diagnostics.Report` | src/main/java/edu/harvard/iq/dataverse/api/Admin.java:418-426 | corrected report: always a report of bean, path and value, with a null value rendered as "null"; it equals the as-written report wherever that exists |
| `Diagnostics.NullInvalidValueHasNoReport` | src/main/java/edu/harvard/iq/dataverse/api/Admin.java:421 | every violation whose invalid value is null (as a @NotNull violation's is) has no as-written report, and its corrected report renders the value as "null" |
| `Diagnostics.ValidateAsWritten` | src/main/java/edu/harvard/iq/dataverse/api/Admin.java:408-433 | "valid" when validation passes; an uncaught `Error` gives 500; after an exception, "UNKNOWN" exactly when no cause carries a violation, otherwise the report of the first violation of the outermost flagged cause, or 500 with a NullPointerException when that violation's invalid value is null |
| `Diagnostics.Validate` | src/main/java/edu/harvard/iq/dataverse/api/Admin.java:408-433 | 200 exactly when no `Error` escapes (an `Error` still gives 500); "valid" when validation passes; after an exception, "UNKNOWN" exactly when no cause carries a violation; otherwise the corrected report of the first violation of the outermost flagged cause |
| `Scenarios.NotNullViolation` | src/main/java/edu/harvard/iq/dataverse/api/Admin.java:413-426 | an exception carrying a single @NotNull violation makes the endpoint as written answer 500 with a NullPointerException, and the corrected endpoint answer 200 with the report, value "null" |
| `Admin.Precheck` | src/main/java/edu/harvard/iq/dataverse/api/Admin.java:266-289 | the five checks in order: not a superuser gives 403; then a missing user, a missing lookup, a null provider id, a provider other than Shibboleth each give 400 with its own message exactly when every earlier check passed; no response exactly when the account is convertible |
| `Admin.CreationResponse` | src/main/java/edu/harvard/iq/dataverse/api/Admin.java:301-314 | a failed account creation is 400 listing every violation exactly when its deepest cause is a constraint violation, otherwise 500 naming that cause |
| `Admin.RebindResponse` | src/main/java/edu/harvard/iq/dataverse/api/Admin.java:334-340 | a failed rebinding is 400 "half converted" exactly when its deepest cause is an SQL exception, otherwise 500 "half converted" naming that cause |
| `Admin.AdminState.Upsert` | src/main/java/edu/harvard/iq/dataverse/api/Admin.java:114-120 | the stored row under the row's id becomes the given row, merged if one was stored and persisted otherwise; no other row changes |
| `Admin.AdminState.Register` | src/main/java/edu/harvard/iq/dataverse/api/Admin.java:124 | a provider whose id is not live becomes live under its own id; no other entry changes (both callers deregister or check the id first) |
| `Admin.AdminState.Deregister` | src/main/java/edu/harvard/iq/dataverse/api/Admin.java:123 | the id is no longer live, whether or not it was; no other entry changes |
| `Admin.AdminState.AddProvider` | src/main/java/edu/harvard/iq/dataverse/api/Admin.java:112-130 | upsert by row id; a disabled row leaves the registry unchanged; an enabled row that loads replaces the entry under its id (deregister, then register) and nothing else; a load failure leaves the registry unchanged, keeps the upserted row and gives 500 with the message; the row is written before the registry is touched |
| `Admin.AdminState.EnableAuthenticationProvider` | src/main/java/edu/harvard/iq/dataverse/api/Admin.java:143-183 | a non-boolean body gives 400 and an unknown id 404, changing nothing; otherwise the row's flag is written first; enabling a live id answers "already enabled" with the registry unchanged; enabling another registers the loaded provider, or on a missing factory or setup error gives 400 naming the factory alias or the message with the registry unchanged and the row still enabled; disabling removes the id from the registry and warns exactly when none is left |
| `Admin.AdminState.SetEnabled` | src/main/java/edu/harvard/iq/dataverse/api/Admin.java:155-156 | only the row's enabled flag changes, through a merge |
| `Admin.AdminState.Activate` | src/main/java/edu/harvard/iq/dataverse/api/Admin.java:158-175 | a live id is left as it is; otherwise a loaded provider is registered under the id, and a load failure changes nothing and gives 400 naming the factory alias or the setup message |
| `Admin.AdminState.DeleteAuthenticationProvider` | src/main/java/edu/harvard/iq/dataverse/api/Admin.java:187-197 | always 200; the id is deregistered, then its row removed if there is one; the warning appears exactly when no provider is left live |
| `Admin.AdminState.ConvertShibUserToBuiltin` | src/main/java/edu/harvard/iq/dataverse/api/Admin.java:265-346 | a failed check answers as `Precheck` says with nothing changed and no account requested; a thrown or null account creation changes no user and no account; a created account is kept whatever follows, the user is rebound as `Rebind` says, and the answer is the account's email and username or the half-conversion report |
| `Admin.AdminState.Rebind` | src/main/java/edu/harvard/iq/dataverse/api/Admin.java:319-345 | the lookup names the builtin provider and the user's identifier; the email is the new one unless persisting the lookup threw; only the completed writes are recorded; nothing is undone on failure |

## Left out

- The settings endpoints, the listing and show endpoints, authenticated-user get and delete, `publishDataverseAsCreator`, the role endpoints and `toggleSuperuser`: each only passes a request to a service whose code is not part of this model.
- JSON construction, response URLs and the exact message strings: a response is a status and a tag with the values its message is built from.
- Logging (`logger.warning`, `logger.log`).
- Container transactions and concurrent access to the shared registry: the code takes no locks, and the model is sequential. The state is the one the endpoint sees in memory; whether a failed flush is rolled back by the container is not modelled.
- The internals of `loadProvider`, `registerProvider`, `deregisterProvider`, `convertShibToBuiltIn`, `findAuthenticatedUserOrDie`, `validateDatasets`, `Util.isBoolean` and `Util.isTrue`: they are parameters or plain map updates. In particular `registerProvider`'s own handling of an id that is already live is not part of this model.
- Exceptions from `em.find`, `em.merge`, `em.persist` and `em.remove` in the provider endpoints: the code does not catch them, and the model assumes these calls succeed.
- The iteration order of a constraint violation set: the model takes the violations in the order of a sequence.
- What `convertShibToBuiltIn` may have written before it threw or returned null: the model assumes it created no account.
- Causes.Chain: a cause chain is a finite sequence, so the unwrapping loops of Admin.java:298-300, 331-333 and 415-430 always end; a cyclic `getCause()` chain (which `Throwable` rules out only for an exception that is its own cause) would make them run forever, and the model does not capture that.
- Diagnostics.ValidateAsWritten: a throwable that is neither an `Exception` nor an `Error` is not told apart; an `Error` escapes as `Escaped`, and everything else is taken to be an exception.
- The provider constants `ShibAuthenticationProvider.PROVIDER_ID` and `BuiltinAuthenticationProvider.PROVIDER_ID` are taken to be "shib" and "builtin"; only the fact that they differ matters.

## Findings

| source | as written | input that shows it | evidently intended | confidence | as-written member | corrected member |
|---|---|---|---|---|---|---|
| src/main/java/edu/harvard/iq/dataverse/api/Admin.java:421 | `getInvalidValue().toString()` is called on the first violation found, so a violation whose invalid value is null throws a NullPointerException out of the endpoint, which answers 500 instead of a report | validation throws a ConstraintViolationException whose first violation is of a @NotNull constraint, e.g. `Violation("Dataset[id=7]", "title", null)` (`Scenarios.NotNullViolation`) | report that violation, with the null value rendered as "null" | medium, not executed | `Diagnostics.ValidateAsWritten` | `Diagnostics.Validate` |
