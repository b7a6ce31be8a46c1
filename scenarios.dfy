/**
  End-to-end uses of the endpoints, shown to follow from their contracts
  alone: a provider enabled twice and then disabled, a Shibboleth account
  converted to a builtin one, and the validation report for a @NotNull
  violation, as written and corrected.
 */
module Scenarios {
  import opened Wrappers
  import opened Entities
  import opened Responses
  import opened Admin
  import opened Causes
  import opened Diagnostics

  method ProviderLifecycle()
  {
    var p1 := Provider("p1", "factoryA");
    var admin := new AdminState(map["p1" := Row("p1", "factoryA", false, "")], map[], map[]);

    var resp := admin.EnableAuthenticationProvider("p1", Some(true), Loaded(p1));
    assert resp == Response(Ok, Enabled("p1"));
    assert admin.registry == map["p1" := p1];
    assert admin.rows["p1"].enabled;

    // A second enable finds the provider live and registers nothing.
    resp := admin.EnableAuthenticationProvider("p1", Some(true), Loaded(p1));
    assert resp == Response(Ok, AlreadyEnabled("p1"));
    assert admin.registry == map["p1" := p1];

    // Disabling the only live provider comes with the warning.
    resp := admin.EnableAuthenticationProvider("p1", Some(false), Loaded(p1));
    assert "p1" !in admin.registry;
    assert resp == Response(Ok, Disabled("p1", true));
    assert admin.effects == [RowMerged("p1"), Registered("p1"), RowMerged("p1"), RowMerged("p1"), Deregistered("p1")];
  }

  method ShibConversion()
  {
    var operator := User(true, "admin", "admin@example.org", Some(Lookup(Some(BuiltinProviderId), "admin")));
    var u42 := User(false, "u42", "old@example.org", Some(Lookup(Some(ShibProviderId), "abc")));
    var admin := new AdminState(map[], map[], map[1 := operator, 42 := u42]);
    var account := BuiltinAccount("new@example.org", "u42");

    var resp := admin.ConvertShibUserToBuiltin(Some(operator), 42, "new@example.org", Returned(account), Stored);
    assert resp == Response(Ok, Converted("new@example.org", "u42"));
    assert admin.users[42].lookup == Some(Lookup(Some(BuiltinProviderId), "u42"));
    assert admin.users[42].email == "new@example.org";
    assert admin.users[1] == operator;

    // The account now names the builtin provider, so a second conversion is
    // refused before any account is requested.
    resp := admin.ConvertShibUserToBuiltin(Some(operator), 42, "other@example.org", Returned(account), Stored);
    assert resp == Response(BadRequest, WrongProvider(42, BuiltinProviderId, ShibProviderId));
    assert admin.accounts == [account];
  }

  /** Validation throws a constraint-violation exception whose only violation
      is of a @NotNull constraint: the endpoint as written answers 500 with a
      NullPointerException, the corrected one reports the violation. */
  method NotNullViolation() returns (asWritten: Response, corrected: Response)
    ensures asWritten == Response(ServerError, Uncaught("java.lang.NullPointerException"))
    ensures corrected == Response(Ok, ViolationReport("Dataset[id=7]", "title", "null"))
  {
    var v := Violation("Dataset[id=7]", "title", None);
    var run := Threw([ConstraintViolation([v])]);
    assert Flagged(run.chain[0]);
    asWritten := ValidateAsWritten(run);
    corrected := Validate(run);
  }
}
