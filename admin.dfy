/**
 * `is_admin_user`, which the album, artist and music-content handlers each
 * define identically: the caller is an administrator when the
 * comma-separated `groups` value of the authorizer context lists
 * `administrators`, or its `role` is `admin`.  Any exception on the way
 * (a context that is not a dictionary, a `groups` value that is not a
 * string) makes the answer `False`.
 */
module Admin {
  import opened Wrappers
  import opened Json
  import Text

  /** `event.get('requestContext', {}).get('authorizer', {})`, or `None` where a `.get` would raise. */
  function AuthorizerOf(event: map<string, Value>): Option<map<string, Value>>
  {
    var requestContext := GetOr(event, "requestContext", Object(map[]));
    if !requestContext.Object? then None
    else
      var authorizer := GetOr(requestContext.fields, "authorizer", Object(map[]));
      if authorizer.Object? then Some(authorizer.fields) else None
  }

  /** The request event carrying just an authorizer context. */
  function EventWith(authorizer: map<string, Value>): map<string, Value>
  {
    map["requestContext" := Object(map["authorizer" := Object(authorizer)])]
  }

  function IsAdminUser(event: map<string, Value>): bool
  {
    var authorizer := AuthorizerOf(event);
    if authorizer.None? then false
    else
      var groups := GetOr(authorizer.value, "groups", Str(""));
      if !groups.Str? then false
      else "administrators" in Text.Split(groups.s, ",") || GetOr(authorizer.value, "role", Str("")) == Str("admin")
  }

  /**
   * With a string `groups` (or none), the caller is an administrator exactly
   * when one comma-separated entry is `administrators` or the role is `admin`.
   */
  lemma AdminIff(authorizer: map<string, Value>)
    requires GetOr(authorizer, "groups", Str("")).Str?
    ensures IsAdminUser(EventWith(authorizer))
        <==> "administrators" in Text.Split(GetOr(authorizer, "groups", Str("")).s, ",")
             || GetOr(authorizer, "role", Str("")) == Str("admin")
  {
    assert AuthorizerOf(EventWith(authorizer)) == Some(authorizer);
  }

  /** A `groups` value that is not a string makes the check raise, so even the `admin` role is refused. */
  lemma NonStringGroupsRefused(authorizer: map<string, Value>)
    requires "groups" in authorizer && !authorizer["groups"].Str?
    ensures !IsAdminUser(EventWith(authorizer))
  {
    assert AuthorizerOf(EventWith(authorizer)) == Some(authorizer);
  }

  /** A request without an authorizer context is not an administrator's. */
  lemma NoContextNotAdmin()
    ensures !IsAdminUser(map[])
  {
    assert Text.Split("", ",") == [""] by {
      Text.NoCharNoFind("", ',');
    }
  }

  /**
   * Groups joined with commas, none of which contains a comma, are split
   * back into the same list, so listing `administrators` makes the caller an
   * administrator.
   */
  lemma JoinedGroupsAdmin(groups: seq<string>, authorizer: map<string, Value>)
    requires |groups| > 0
    requires forall k :: 0 <= k < |groups| ==> ',' !in groups[k]
    requires "administrators" in groups
    requires GetOr(authorizer, "groups", Str("")) == Str(Text.Join(groups, ","))
    ensures IsAdminUser(EventWith(authorizer))
  {
    Text.SplitJoin(groups, ',');
    assert AuthorizerOf(EventWith(authorizer)) == Some(authorizer);
  }
}
