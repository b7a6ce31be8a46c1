/**
  The records the administrative endpoints read and write, and the outcomes
  of the services they call but whose code is not part of this model.
 */
module Entities {
  import opened Wrappers
  import opened Causes

  /** ShibAuthenticationProvider.PROVIDER_ID: the only provider an account may be converted from. */
  const ShibProviderId: string := "shib"

  /** BuiltinAuthenticationProvider.PROVIDER_ID: the provider an account is converted to. */
  const BuiltinProviderId: string := "builtin"

  /** A persisted AuthenticationProviderRow; the factory data is an opaque payload. */
  datatype Row = Row(id: string, factoryAlias: string, enabled: bool, factoryData: string)

  /** A live authentication provider built from a row. */
  datatype Provider = Provider(id: string, factoryAlias: string)

  /** What `authSvc.loadProvider(row)` does: return a provider, or throw
      AuthenticationProviderFactoryNotFoundException or another
      AuthorizationSetupException (the message is `getMessage()`). */
  datatype LoadOutcome =
    | Loaded(provider: Provider)
    | FactoryNotFound(message: string)
    | SetupError(message: string)

  /** The explicit assumption about `loadProvider`: a provider loaded from the
      row with id `id` reports `id` as its own id. */
  predicate LoadsAs(load: LoadOutcome, id: string)
  {
    load.Loaded? ==> load.provider.id == id
  }

  /** An AuthenticatedUserLookup: the provider a user authenticates with, and
      the user's identity within that provider. */
  datatype Lookup = Lookup(providerId: Option<string>, persistentUserId: string)

  /** An AuthenticatedUser with its (at most one) lookup record. */
  datatype User = User(superuser: bool, userIdentifier: string, email: string, lookup: Option<Lookup>)

  /** A BuiltinUser created by the conversion. */
  datatype BuiltinAccount = BuiltinAccount(email: string, userName: string)

  /** What `authSvc.convertShibToBuiltIn(user, email)` does: return an
      account, return null, or throw. */
  datatype CreationOutcome =
    | Returned(account: BuiltinAccount)
    | ReturnedNull
    | Raised(chain: Chain)

  /** The three calls of the rebinding stage that can throw, in order. */
  datatype RebindStep = PersistLookup | PersistUser | Flush

  /** What the persistence layer does with the rebinding stage: all three
      calls succeed, or the given one throws. */
  datatype StoreOutcome =
    | Stored
    | StoreFailed(step: RebindStep, chain: Chain)
}
