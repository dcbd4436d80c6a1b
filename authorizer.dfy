/**
 * The API Gateway token authorizer: it takes the bearer token from the
 * request, asks the identity provider who it belongs to, and answers with
 * an IAM policy allowing the call, carrying the caller's name, email, role
 * and comma-joined groups as the context the other handlers read.
 *
 * The identity provider (`get_user` and `admin_list_groups_for_user`) is a
 * parameter: a token it does not accept gives `None`.
 */
module Authorizer {
  import opened Wrappers
  import opened Json
  import Text
  import Admin

  const BearerPrefix: string := "Bearer "

  /**
   * `extract_token`: the `authorizationToken` with a leading `Bearer `
   * removed; `None` where the value is not a string (the method call raises
   * and the bare `except` answers `None`).
   */
  function ExtractToken(event: map<string, Value>): (r: Option<string>)
    ensures var header := GetOr(event, "authorizationToken", Str(""));
            r.Some? <==> header.Str?
    ensures var header := GetOr(event, "authorizationToken", Str(""));
            header.Str? && Text.StartsWith(header.s, BearerPrefix) ==> BearerPrefix + r.value == header.s
    ensures var header := GetOr(event, "authorizationToken", Str(""));
            header.Str? && !Text.StartsWith(header.s, BearerPrefix) ==> r.value == header.s
  {
    var header := GetOr(event, "authorizationToken", Str(""));
    if !header.Str? then None
    else if Text.StartsWith(header.s, BearerPrefix) then Some(header.s[|BearerPrefix|..])
    else Some(header.s)
  }

  /** A token sent as `Bearer <token>` is read back as itself. */
  lemma BearerRoundTrip(event: map<string, Value>, token: string)
    requires GetOr(event, "authorizationToken", Str("")) == Str(BearerPrefix + token)
    ensures ExtractToken(event) == Some(token)
  {
    assert (BearerPrefix + token)[..|BearerPrefix|] == BearerPrefix;
    assert (BearerPrefix + token)[|BearerPrefix|..] == token;
  }

  /** What `validate_token` learns about the caller. */
  datatype UserInfo = UserInfo(username: string, email: Option<string>, groups: seq<string>, role: string)

  /** The one statement of the policy. */
  datatype Statement = Statement(action: string, effect: string, resource: Value)

  datatype Policy = Policy(principalId: string, version: string, statements: seq<Statement>, context: map<string, Value>)

  /**
   * `generate_policy`.  The user information always holds an `email` key,
   * set to `None` when the user has no email attribute, so the context's
   * email is then null and the `''` default is never used.
   */
  function GeneratePolicy(user: UserInfo, methodArn: Value): (r: Policy)
    ensures r.principalId == user.username
    ensures r.statements == [Statement("execute-api:Invoke", "Allow", methodArn)]
    ensures r.context.Keys == {"username", "email", "role", "groups"}
    ensures r.context["username"] == Str(user.username) && r.context["role"] == Str(user.role)
    ensures r.context["email"] == (if user.email.Some? then Str(user.email.value) else Null)
    ensures r.context["groups"] == Str(Text.Join(user.groups, ","))
  {
    Policy(
      user.username,
      "2012-10-17",
      [Statement("execute-api:Invoke", "Allow", methodArn)],
      map["username" := Str(user.username),
          "email" := (if user.email.Some? then Str(user.email.value) else Null),
          "role" := Str(user.role),
          "groups" := Str(Text.Join(user.groups, ","))])
  }

  /**
   * `handler`: no token or an empty one, a token the identity provider
   * refuses and an event without a `methodArn` all end in `Unauthorized`.
   */
  function Authorize(event: map<string, Value>, validate: string -> Option<UserInfo>): (r: Result<Policy>)
    ensures r.Err? ==> r.error == "Unauthorized"
    ensures r.Ok? <==> ExtractToken(event).Some? && ExtractToken(event).value != ""
                       && validate(ExtractToken(event).value).Some? && "methodArn" in event
    ensures r.Ok? ==> r.value == GeneratePolicy(validate(ExtractToken(event).value).value, event["methodArn"])
  {
    var token := ExtractToken(event);
    if token.None? || token.value == "" then Err("Unauthorized")
    else
      var user := validate(token.value);
      if user.None? || "methodArn" !in event then Err("Unauthorized")
      else Ok(GeneratePolicy(user.value, event["methodArn"]))
  }

  /** A bare `Bearer ` header carries an empty token and is refused before the identity provider is asked. */
  lemma BareBearerRefused(event: map<string, Value>, validate: string -> Option<UserInfo>)
    requires GetOr(event, "authorizationToken", Str("")) == Str(BearerPrefix)
    ensures Authorize(event, validate) == Err("Unauthorized")
  {
    BearerRoundTrip(event, "");
  }

  /** A request without an `authorizationToken` is refused. */
  lemma MissingTokenRefused(event: map<string, Value>, validate: string -> Option<UserInfo>)
    requires "authorizationToken" !in event
    ensures Authorize(event, validate) == Err("Unauthorized")
  {
    assert !Text.StartsWith("", BearerPrefix);
  }

  /**
   * The context of an authorized call is read back by `is_admin_user`: with
   * group names free of commas, the caller is an administrator exactly when
   * one group is `administrators` or the role is `admin`.
   */
  lemma {:induction false} ContextAdminIff(user: UserInfo, methodArn: Value)
    requires forall k :: 0 <= k < |user.groups| ==> ',' !in user.groups[k]
    ensures Admin.IsAdminUser(Admin.EventWith(GeneratePolicy(user, methodArn).context))
            <==> "administrators" in user.groups || user.role == "admin"
  {
    var context := GeneratePolicy(user, methodArn).context;
    Admin.AdminIff(context);
    if user.groups == [] {
      Text.NoCharNoFind("", ',');
      assert Text.Split(Text.Join(user.groups, ","), ",") == [""];
    } else {
      Text.SplitJoin(user.groups, ',');
      assert Text.Split(Text.Join(user.groups, ","), ",") == user.groups;
    }
  }
}
