/**
  The administrative endpoints that change state: the upsert, enabling,
  disabling and deletion of authentication providers, and the conversion of
  a Shibboleth account to a builtin one.
 */
module Admin {
  import opened Wrappers
  import opened Causes
  import opened Entities
  import opened Responses

  /** The side effects of the endpoints, in the order they happen: writes to
      the provider-row table, changes to the live registry, the call that
      creates a builtin account, and the writes of the rebinding stage. */
  datatype Effect =
    | RowPersisted(id: string)
    | RowMerged(id: string)
    | RowRemoved(id: string)
    | Registered(id: string)
    | Deregistered(id: string)
    | ConversionRequested(user: int)
    | LookupPersisted(user: int)
    | UserPersisted(user: int)
    | Flushed

  /** Rows are keyed by their own id, live providers by theirs, and every
      live provider has a row. */
  ghost predicate Consistent(rows: map<string, Row>, registry: map<string, Provider>)
  {
    && (forall id :: id in rows ==> rows[id].id == id)
    && (forall id :: id in registry ==> registry[id].id == id)
    && registry.Keys <= rows.Keys
  }

  /** The caller was found (no WrappedResponse) and is a superuser. */
  predicate IsSuperuser(caller: Option<User>)
  {
    caller.Some? && caller.value.superuser
  }

  /** Everything the conversion checks before it asks for a builtin account. */
  predicate Convertible(caller: Option<User>, users: map<int, User>, id: int)
  {
    && IsSuperuser(caller)
    && id in users
    && users[id].lookup.Some?
    && users[id].lookup.value.providerId == Some(ShibProviderId)
  }

  /** The five checks of the conversion, in their order; the first that fails
      decides the response, and None means that all of them pass. */
  function Precheck(caller: Option<User>, users: map<int, User>, id: int): (r: Option<Response>)
    ensures r.None? <==> Convertible(caller, users, id)
    ensures r == Some(Response(Forbidden, SuperusersOnly)) <==> !IsSuperuser(caller)
    ensures r == Some(Response(BadRequest, UserNotFound(id))) <==> IsSuperuser(caller) && id !in users
    ensures r == Some(Response(BadRequest, NoLookup(id))) <==>
              IsSuperuser(caller) && id in users && users[id].lookup.None?
    ensures r == Some(Response(BadRequest, NullProviderId(id))) <==>
              IsSuperuser(caller) && id in users && users[id].lookup.Some? && users[id].lookup.value.providerId.None?
    ensures IsSuperuser(caller) && id in users && users[id].lookup.Some? && users[id].lookup.value.providerId.Some?
            && users[id].lookup.value.providerId.value != ShibProviderId ==>
              r == Some(Response(BadRequest, WrongProvider(id, users[id].lookup.value.providerId.value, ShibProviderId)))
  {
    if !IsSuperuser(caller) then Some(Response(Forbidden, SuperusersOnly))
    else if id !in users then Some(Response(BadRequest, UserNotFound(id)))
    else if users[id].lookup.None? then Some(Response(BadRequest, NoLookup(id)))
    else if users[id].lookup.value.providerId.None? then Some(Response(BadRequest, NullProviderId(id)))
    else if users[id].lookup.value.providerId.value != ShibProviderId then
      Some(Response(BadRequest, WrongProvider(id, users[id].lookup.value.providerId.value, ShibProviderId)))
    else None
  }

  /** The new email is written unless persisting the lookup, the call just
      before it, throws. */
  predicate EmailWritten(store: StoreOutcome)
  {
    !(store.StoreFailed? && store.step == PersistLookup)
  }

  /** The writes of the rebinding stage that complete. */
  function Persisted(id: int, store: StoreOutcome): seq<Effect>
  {
    match store
    case Stored => [LookupPersisted(id), UserPersisted(id), Flushed]
    case StoreFailed(PersistLookup, _) => []
    case StoreFailed(PersistUser, _) => [LookupPersisted(id)]
    case StoreFailed(Flush, _) => [LookupPersisted(id), UserPersisted(id)]
  }

  /** A user record after rebinding: its lookup now names the builtin provider
      and the user's own identifier, and its email is the new address once
      that setter has run. */
  ghost function Rebound(u: User, newEmail: string, emailSet: bool): User
  {
    u.(lookup := Some(Lookup(Some(BuiltinProviderId), u.userIdentifier)),
       email := if emailSet then newEmail else u.email)
  }

  /** How a failure of credential creation is reported, given its deepest
      cause: a constraint violation is a client error listing every
      violation, anything else an internal error naming the throwable. */
  function CreationResponse(id: int, root: ExKind): (r: Response)
    ensures r.status == BadRequest <==> root.ConstraintViolation?
    ensures r.status == BadRequest ==> r.body == InvalidValues(id, root.violations)
    ensures r.status != BadRequest ==> r == Response(ServerError, UnexpectedFailure(id, root))
  {
    if root.ConstraintViolation? then Response(BadRequest, InvalidValues(id, root.violations))
    else Response(ServerError, UnexpectedFailure(id, root))
  }

  /** How a failure of the rebinding stage is reported, given its deepest
      cause: a storage error is a client error announcing a half conversion,
      anything else an internal error naming the throwable. */
  function RebindResponse(id: int, root: ExKind): (r: Response)
    ensures r.status == BadRequest <==> root.Sql?
    ensures r.status == BadRequest ==> r.body == HalfConverted(id)
    ensures r.status != BadRequest ==> r == Response(ServerError, HalfConvertedUnexpected(id, root))
  {
    if root.Sql? then Response(BadRequest, HalfConverted(id))
    else Response(ServerError, HalfConvertedUnexpected(id, root))
  }

  /** The state the administrative endpoints share: the persisted provider
      rows, the live provider registry, the users with their lookups, and the
      builtin accounts created by conversions. */
  class AdminState {
    var rows: map<string, Row>
    var registry: map<string, Provider>
    var users: map<int, User>
    var accounts: seq<BuiltinAccount>
    ghost var effects: seq<Effect>

    ghost predicate Valid()
      reads this`rows, this`registry
    {
      Consistent(rows, registry)
    }

    constructor (rows: map<string, Row>, registry: map<string, Provider>, users: map<int, User>)
      requires Consistent(rows, registry)
      ensures Valid()
      ensures this.rows == rows && this.registry == registry && this.users == users
      ensures accounts == [] && effects == []
    {
      this.rows := rows;
      this.registry := registry;
      this.users := users;
      accounts := [];
      effects := [];
    }

    /** POST authenticationProviders: upsert the row, then, when it is
        enabled, load its provider and replace whatever is registered under
        the provider's id. A load failure leaves the registry alone but not
        the row. */
    method AddProvider(row: Row, load: LoadOutcome) returns (resp: Response)
      requires Valid()
      requires LoadsAs(load, row.id)
      modifies this`rows, this`registry, this`effects
      ensures Valid()
      ensures rows == old(rows)[row.id := row]
      ensures !row.enabled ==> registry == old(registry) && resp == Response(Created, ProviderJson(row))
      ensures row.enabled && load.Loaded? ==>
                registry == old(registry)[row.id := load.provider] && resp == Response(Created, ProviderJson(row))
      ensures row.enabled && !load.Loaded? ==>
                registry == old(registry) && resp == Response(ServerError, SetupFailed(load.message))
      ensures effects == old(effects)
                         + [if row.id in old(rows) then RowMerged(row.id) else RowPersisted(row.id)]
                         + (if row.enabled && load.Loaded? then [Deregistered(row.id), Registered(row.id)] else [])
    {
      Upsert(row);
      resp := Response(Created, ProviderJson(row));
      if row.enabled {
        match load
        case Loaded(provider) =>
          Deregister(provider.id);
          Register(provider);
        case FactoryNotFound(message) =>
          resp := Response(ServerError, SetupFailed(message));
        case SetupError(message) =>
          resp := Response(ServerError, SetupFailed(message));
      }
    }

    /** The upsert of `addProvider`: merge the row when one with its id is
        stored, persist it otherwise. Either way the stored row is the given
        one and no other row changes. */
    method Upsert(row: Row)
      requires Valid()
      modifies this`rows, this`effects
      ensures Valid()
      ensures rows == old(rows)[row.id := row]
      ensures effects == old(effects) + [if row.id in old(rows) then RowMerged(row.id) else RowPersisted(row.id)]
    {
      if row.id in rows {
        rows := rows[row.id := row];
        effects := effects + [RowMerged(row.id)];
      } else {
        rows := rows[row.id := row];
        effects := effects + [RowPersisted(row.id)];
      }
    }

    /** `authSvc.registerProvider(provider)`: the provider becomes live under
        its own id. */
    method Register(provider: Provider)
      requires Valid() && provider.id in rows
      requires provider.id !in registry
      modifies this`registry, this`effects
      ensures Valid()
      ensures registry == old(registry)[provider.id := provider]
      ensures effects == old(effects) + [Registered(provider.id)]
    {
      registry := registry[provider.id := provider];
      effects := effects + [Registered(provider.id)];
    }

    /** POST authenticationProviders/{id}/:enabled. `parsed` is the body as a
        boolean, None when it is not one. The row's flag is written first;
        enabling an id that is live already changes nothing else, enabling
        another loads and registers it, and disabling deregisters it. */
    method EnableAuthenticationProvider(id: string, parsed: Option<bool>, load: LoadOutcome) returns (resp: Response)
      requires Valid()
      requires LoadsAs(load, id)
      modifies this`rows, this`registry, this`effects
      ensures Valid()
      ensures parsed.None? ==>
                resp == Response(BadRequest, IllegalBoolean)
                && rows == old(rows) && registry == old(registry) && effects == old(effects)
      ensures parsed.Some? && id !in old(rows) ==>
                resp == Response(NotFound, NoSuchProvider(id))
                && rows == old(rows) && registry == old(registry) && effects == old(effects)
      ensures parsed.Some? && id in old(rows) ==>
                rows == old(rows)[id := old(rows)[id].(enabled := parsed.value)]
      ensures parsed == Some(true) && id in old(rows) && id in old(registry) ==>
                registry == old(registry) && resp == Response(Ok, AlreadyEnabled(id))
                && effects == old(effects) + [RowMerged(id)]
      ensures parsed == Some(true) && id in old(rows) && id !in old(registry) ==>
                match load
                case Loaded(provider) =>
                  registry == old(registry)[id := provider] && resp == Response(Ok, Enabled(id))
                  && effects == old(effects) + [RowMerged(id), Registered(id)]
                case FactoryNotFound(_) =>
                  registry == old(registry) && resp == Response(BadRequest, NoFactory(old(rows)[id].factoryAlias))
                  && effects == old(effects) + [RowMerged(id)]
                case SetupError(message) =>
                  registry == old(registry) && resp == Response(BadRequest, CannotInstantiate(message))
                  && effects == old(effects) + [RowMerged(id)]
      ensures parsed == Some(false) && id in old(rows) ==>
                registry == old(registry) - {id} && resp == Response(Ok, Disabled(id, |registry| == 0))
                && effects == old(effects) + [RowMerged(id), Deregistered(id)]
    {
      if parsed.None? {
        return Response(BadRequest, IllegalBoolean);
      }
      var enable := parsed.value;
      if id !in rows {
        return Response(NotFound, NoSuchProvider(id));
      }
      SetEnabled(id, enable);
      var row := rows[id];

      if enable {
        resp := Activate(row, load);
      } else {
        Deregister(id);
        resp := Response(Ok, Disabled(id, |registry| == 0));
      }
    }

    /** `authSvc.deregisterProvider(id)`: the provider under `id`, if any,
        stops being live; nothing else changes. */
    method Deregister(id: string)
      requires Valid()
      modifies this`registry, this`effects
      ensures Valid()
      ensures registry == old(registry) - {id}
      ensures effects == old(effects) + [Deregistered(id)]
    {
      registry := registry - {id};
      effects := effects + [Deregistered(id)];
    }

    /** `row.setEnabled(enabled)` followed by `em.merge(row)`. */
    method SetEnabled(id: string, enabled: bool)
      requires Valid() && id in rows
      modifies this`rows, this`effects
      ensures Valid()
      ensures rows == old(rows)[id := old(rows)[id].(enabled := enabled)]
      ensures effects == old(effects) + [RowMerged(id)]
    {
      rows := rows[id := rows[id].(enabled := enabled)];
      effects := effects + [RowMerged(id)];
    }

    /** The enabling branch of the endpoint above, once the row says enabled:
        a provider that is live already is left as it is; otherwise the row's
        provider is loaded and registered, and a load failure leaves the
        registry unchanged. */
    method Activate(row: Row, load: LoadOutcome) returns (resp: Response)
      requires Valid() && row.id in rows
      requires LoadsAs(load, row.id)
      modifies this`registry, this`effects
      ensures Valid()
      ensures row.id in old(registry) ==>
                registry == old(registry) && resp == Response(Ok, AlreadyEnabled(row.id)) && effects == old(effects)
      ensures row.id !in old(registry) ==>
                match load
                case Loaded(provider) =>
                  registry == old(registry)[row.id := provider] && resp == Response(Ok, Enabled(row.id))
                  && effects == old(effects) + [Registered(row.id)]
                case FactoryNotFound(_) =>
                  registry == old(registry) && resp == Response(BadRequest, NoFactory(row.factoryAlias))
                  && effects == old(effects)
                case SetupError(message) =>
                  registry == old(registry) && resp == Response(BadRequest, CannotInstantiate(message))
                  && effects == old(effects)
    {
      if row.id in registry {
        return Response(Ok, AlreadyEnabled(row.id));
      }
      match load
      case Loaded(provider) =>
        Register(provider);
        resp := Response(Ok, Enabled(row.id));
      case FactoryNotFound(_) =>
        resp := Response(BadRequest, NoFactory(row.factoryAlias));
      case SetupError(message) =>
        resp := Response(BadRequest, CannotInstantiate(message));
    }

    /** DELETE authenticationProviders/{id}: deregister, then remove the row
        if there is one. It always succeeds, and warns when no provider is
        left live. */
    method DeleteAuthenticationProvider(id: string) returns (resp: Response)
      requires Valid()
      modifies this`rows, this`registry, this`effects
      ensures Valid()
      ensures registry == old(registry) - {id}
      ensures rows == old(rows) - {id}
      ensures resp == Response(Ok, Deleted(id, |registry| == 0))
      ensures effects == old(effects) + [Deregistered(id)] + (if id in old(rows) then [RowRemoved(id)] else [])
    {
      Deregister(id);
      if id in rows {
        rows := rows - {id};
        effects := effects + [RowRemoved(id)];
      }
      resp := Response(Ok, Deleted(id, |registry| == 0));
    }

    /** PUT authenticatedUsers/id/{id}/convertShibToBuiltIn. `caller` is the
        user the request authenticates as (None when there is none). After
        the five checks, a builtin account is requested; only when one is
        returned are the lookup and the user rebound, and a failure while
        storing them is reported as a half conversion, with nothing undone. */
    method ConvertShibUserToBuiltin(caller: Option<User>, id: int, newEmail: string,
                                    creation: CreationOutcome, store: StoreOutcome)
      returns (resp: Response)
      requires Valid()
      modifies this`users, this`accounts, this`effects
      ensures Valid()
      ensures !Convertible(caller, old(users), id) ==>
                Precheck(caller, old(users), id) == Some(resp)
                && users == old(users) && accounts == old(accounts) && effects == old(effects)
      ensures Convertible(caller, old(users), id) && !creation.Returned? ==>
                users == old(users) && accounts == old(accounts)
                && effects == old(effects) + [ConversionRequested(id)]
                && resp == if creation.Raised? then CreationResponse(id, Deepest(creation.chain))
                           else Response(BadRequest, NotConverted(id))
      ensures Convertible(caller, old(users), id) && creation.Returned? ==>
                accounts == old(accounts) + [creation.account]
                && users == old(users)[id := Rebound(old(users)[id], newEmail, EmailWritten(store))]
                && effects == old(effects) + [ConversionRequested(id)] + Persisted(id, store)
                && resp == if store.Stored? then Response(Ok, Converted(creation.account.email, creation.account.userName))
                           else RebindResponse(id, Deepest(store.chain))
    {
      var rejected := Precheck(caller, users, id);
      if rejected.Some? {
        return rejected.value;
      }

      // Phase A: ask for the builtin account.
      effects := effects + [ConversionRequested(id)];
      var account: BuiltinAccount;
      match creation {
        case Raised(chain) =>
          var root := RootCause(chain);
          return CreationResponse(id, root);
        case ReturnedNull =>
          return Response(BadRequest, NotConverted(id));
        case Returned(created) =>
          account := created;
      }
      accounts := accounts + [account];
      resp := Rebind(id, newEmail, account, store);
    }

    /** The rebinding stage of the conversion: point the lookup at the builtin
        provider and the user's own identifier, persist it, set the new email,
        persist the user and flush. The setters take effect in memory even
        when a later call throws, and nothing is undone; a throw is reported
        from its deepest cause. */
    method Rebind(id: int, newEmail: string, account: BuiltinAccount, store: StoreOutcome) returns (resp: Response)
      requires id in users && users[id].lookup.Some?
      modifies this`users, this`effects
      ensures users == old(users)[id := Rebound(old(users)[id], newEmail, EmailWritten(store))]
      ensures effects == old(effects) + Persisted(id, store)
      ensures resp == if store.Stored? then Response(Ok, Converted(account.email, account.userName))
                      else RebindResponse(id, Deepest(store.chain))
    {
      var user := users[id];
      var lookup := user.lookup.value.(providerId := Some(BuiltinProviderId), persistentUserId := user.userIdentifier);
      user := user.(lookup := Some(lookup));
      users := users[id := user];
      if store.StoreFailed? && store.step == PersistLookup {
        var root := RootCause(store.chain);
        return RebindResponse(id, root);
      }
      effects := effects + [LookupPersisted(id)];
      user := user.(email := newEmail);
      users := users[id := user];
      if store.StoreFailed? && store.step == PersistUser {
        var root := RootCause(store.chain);
        return RebindResponse(id, root);
      }
      effects := effects + [UserPersisted(id)];
      if store.StoreFailed? {
        var root := RootCause(store.chain);
        return RebindResponse(id, root);
      }
      effects := effects + [Flushed];
      resp := Response(Ok, Converted(account.email, account.userName));
    }
  }
}
