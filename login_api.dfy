/**
 * `fetchCurrentUser`: the request it sends with an access token, and the
 * checks and field mapping it applies to the server's reply.
 */
module LoginApi {
  import opened Wrappers
  import opened Js
  import opened Http

  const CurrentUserUrl := BaseUrl + "/users/api/users"

  const FetchFailed := "Failed to fetch current user"
  const InvalidOrganization := "User has invalid organization"

  /** The request `fetchCurrentUser(accessToken)` sends. */
  function CurrentUserRequest(accessToken: string): (r: Request)
    ensures r.verb == Get && r.url == CurrentUserUrl && r.body == None
    ensures r.headers.Keys == {"Authorization", "Content-Type"}
    ensures BearerToken(r.headers["Authorization"]) == Some(accessToken)
    ensures r.headers["Content-Type"] == "application/json"
  {
    BearerRoundTrip(accessToken);
    Request(Get, CurrentUserUrl,
            map["Authorization" := Bearer(accessToken), "Content-Type" := "application/json"],
            None)
  }

  /** The reply: `response.ok` and the properties of `response.json()`. */
  datatype UserReply = UserReply(ok: bool, body: map<string, JsValue>)

  /** The object `fetchCurrentUser` resolves to. */
  datatype CurrentUser = CurrentUser(id: JsValue, email: JsValue, organization: JsValue, role: JsValue)

  /** What `fetchCurrentUser` does with the reply: throw (`Err`) or resolve (`Ok`). */
  function FetchCurrentUser(reply: UserReply): (r: Result<CurrentUser, string>)
    ensures r.Ok? ==> Truthy(r.value.organization) && r.value.organization != Number(0)
    ensures r.Err? ==> r.error == FetchFailed || r.error == InvalidOrganization
  {
    if !reply.ok then Err(FetchFailed)
    else
      var organization := Prop(reply.body, "organization");
      if !Truthy(organization) || organization == Number(0) then Err(InvalidOrganization)
      else
        Ok(CurrentUser(Or(Or(Prop(reply.body, "id"), Prop(reply.body, "_id")), Str("")),
                       Prop(reply.body, "email"), organization, Prop(reply.body, "role")))
  }

  /** A reply that is not ok throws the fetch error, and only such a reply does. */
  lemma FetchFailedIff(reply: UserReply)
    ensures FetchCurrentUser(reply) == Err(FetchFailed) <==> !reply.ok
  {
  }

  /** An ok reply throws the organization error exactly when its organization is falsy (absent, null, 0, false or ""). */
  lemma InvalidOrganizationIff(reply: UserReply)
    ensures FetchCurrentUser(reply) == Err(InvalidOrganization) <==> reply.ok && !Truthy(Prop(reply.body, "organization"))
  {
  }

  /** The extra `=== 0` test never decides anything: 0 is already falsy. */
  lemma ZeroTestRedundant(v: JsValue)
    ensures (!Truthy(v) || v == Number(0)) <==> !Truthy(v)
  {
  }

  /** `id` falls back from `id` to `_id` to the empty string, taking the first truthy one. */
  lemma IdFallback(reply: UserReply)
    requires FetchCurrentUser(reply).Ok?
    ensures var id := FetchCurrentUser(reply).value.id;
      (Truthy(Prop(reply.body, "id")) ==> id == reply.body["id"]) &&
      (!Truthy(Prop(reply.body, "id")) && Truthy(Prop(reply.body, "_id")) ==> id == reply.body["_id"]) &&
      (!Truthy(Prop(reply.body, "id")) && !Truthy(Prop(reply.body, "_id")) ==> id == Str(""))
  {
  }

  /** `email`, `organization` and `role` are the reply's own values (`Undefined` when missing). */
  lemma FieldsCopied(reply: UserReply)
    requires FetchCurrentUser(reply).Ok?
    ensures FetchCurrentUser(reply).value.email == Prop(reply.body, "email")
    ensures FetchCurrentUser(reply).value.organization == reply.body["organization"]
    ensures FetchCurrentUser(reply).value.role == Prop(reply.body, "role")
  {
  }

  /** The five keys the mapping reads. */
  const ReadKeys: set<string> := {"id", "_id", "email", "organization", "role"}

  /** Every other property of the reply is dropped: replies that agree on the five keys give the same outcome. */
  lemma OtherFieldsDropped(a: UserReply, b: UserReply)
    requires a.ok == b.ok
    requires forall k :: k in ReadKeys ==> Prop(a.body, k) == Prop(b.body, k)
    ensures FetchCurrentUser(a) == FetchCurrentUser(b)
  {
    assert Prop(a.body, "organization") == Prop(b.body, "organization");
    assert Prop(a.body, "id") == Prop(b.body, "id");
    assert Prop(a.body, "_id") == Prop(b.body, "_id");
    assert Prop(a.body, "email") == Prop(b.body, "email");
    assert Prop(a.body, "role") == Prop(b.body, "role");
  }
}
