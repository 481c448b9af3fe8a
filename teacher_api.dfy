/**
 * The teacher endpoints: one shared HTTP client whose `Authorization`
 * header every hook stamps before it sends, the cache keys and `enabled`
 * flags of the two queries, and the requests each call builds.
 */
module TeacherApi {
  import opened Wrappers
  import opened Text
  import opened Js
  import opened Http

  // ---------------------------------------------------------------- query keys and gating

  /** One element of a query key. `Missing` is an `undefined` organization id. */
  datatype KeyPart = Name(text: string) | Id(n: int) | Missing

  /** `["teachers", organizationId]` */
  function TeachersKey(organizationId: Option<int>): (k: seq<KeyPart>)
    ensures |k| == 2 && k[0] == Name("teachers")
    ensures k[1] == Missing <==> organizationId.None?
    ensures organizationId.Some? ==> k[1] == Id(organizationId.value)
  {
    [Name("teachers"), if organizationId.Some? then Id(organizationId.value) else Missing]
  }

  /** `["teacher", teacherId]` */
  function TeacherKey(teacherId: int): (k: seq<KeyPart>)
    ensures |k| == 2 && k[0] == Name("teacher") && k[1] == Id(teacherId)
  {
    [Name("teacher"), Id(teacherId)]
  }

  /** The list and the single-teacher caches never share an entry. */
  lemma KeysDisjoint(organizationId: Option<int>, teacherId: int)
    ensures TeachersKey(organizationId) != TeacherKey(teacherId)
  {
    assert TeachersKey(organizationId)[0] != TeacherKey(teacherId)[0];
  }

  /** Distinct organizations and distinct teachers get distinct cache entries. */
  lemma KeysInjective(o1: Option<int>, o2: Option<int>, t1: int, t2: int)
    ensures TeachersKey(o1) == TeachersKey(o2) <==> o1 == o2
    ensures TeacherKey(t1) == TeacherKey(t2) <==> t1 == t2
  {
    if TeachersKey(o1) == TeachersKey(o2) {
      assert TeachersKey(o1)[1] == TeachersKey(o2)[1];
    }
    if TeacherKey(t1) == TeacherKey(t2) {
      assert TeacherKey(t1)[1] == TeacherKey(t2)[1];
    }
  }

  /** `!!accessToken` for the session's token (null when signed out). */
  predicate TokenTruthy(accessToken: Option<string>) {
    accessToken.Some? && accessToken.value != ""
  }

  /** `enabled` of the list query. */
  predicate TeachersEnabled(accessToken: Option<string>) {
    TokenTruthy(accessToken)
  }

  /** `enabled` of the single-teacher query. */
  predicate TeacherEnabled(accessToken: Option<string>, teacherId: int) {
    TokenTruthy(accessToken) && teacherId != 0
  }

  /** The single query runs only when the list query would, and never for teacher id 0. */
  lemma EnabledRules(accessToken: Option<string>, teacherId: int)
    ensures TeacherEnabled(accessToken, teacherId) ==> TeachersEnabled(accessToken)
    ensures TeacherEnabled(accessToken, teacherId) <==> TeachersEnabled(accessToken) && teacherId != 0
    ensures !TeachersEnabled(None) && !TeachersEnabled(Some(""))
  {
  }

  /** The list query does not wait for an organization id: it runs, keyed on `undefined`, as soon as a token exists. */
  lemma ListRunsWithoutOrganization()
    ensures TeachersEnabled(Some("t")) && TeachersKey(None) == [Name("teachers"), Missing]
  {
  }

  // ---------------------------------------------------------------- the shared header

  /** The shared header after a hook's `if (accessToken) setAuthHeader(accessToken)`. */
  function Stamped(current: Option<string>, accessToken: Option<string>): (h: Option<string>)
    ensures TokenTruthy(accessToken) ==> h == Some(Bearer(accessToken.value))
    ensures !TokenTruthy(accessToken) ==> h == current
  {
    if TokenTruthy(accessToken) then Some(Bearer(accessToken.value)) else current
  }

  /** The headers a request carries given the shared header. */
  function HeadersOf(authorization: Option<string>): (h: map<string, string>)
    ensures authorization.None? ==> h == map[]
    ensures authorization.Some? ==> h.Keys == {"Authorization"} && h["Authorization"] == authorization.value
  {
    if authorization.Some? then map["Authorization" := authorization.value] else map[]
  }

  /**
   * Signing out does not clear the header: a request made after the token
   * became null still carries the bearer header of the earlier session.
   */
  lemma StaleHeaderAfterLogout(before: Option<string>, token: string, after: Option<string>)
    requires token != ""
    requires !TokenTruthy(after)
    ensures var h := Stamped(Stamped(before, Some(token)), after);
      "Authorization" in HeadersOf(h) && BearerToken(HeadersOf(h)["Authorization"]) == Some(token)
  {
    BearerRoundTrip(token);
  }

  // ---------------------------------------------------------------- requests

  const ListPath := "/teacher/teachers/list"
  const RetrievePrefix := "/teacher/teachers/retrieve/"
  const RegisterPath := "/users/api/register/teacher"
  const UpdatePrefix := "/teacher/teachers/update/"

  /** `fetchTeachers(organizationId)`: POST of `{organization: organizationId}`. */
  function ListRequest(authorization: Option<string>, organizationId: Option<int>): (r: Request)
    ensures r.verb == Post && r.url == BaseUrl + ListPath && r.headers == HeadersOf(authorization)
    ensures r.body.Some? && r.body.value.Keys == {"organization"}
    ensures r.body.value["organization"] == if organizationId.Some? then Number(organizationId.value) else Undefined
  {
    Request(Post, BaseUrl + ListPath, HeadersOf(authorization),
            Some(map["organization" := if organizationId.Some? then Number(organizationId.value) else Undefined]))
  }

  /** `fetchTeacher(teacherId)`: GET of `/teacher/teachers/retrieve/{teacherId}/`. */
  function RetrieveRequest(authorization: Option<string>, teacherId: int): (r: Request)
    ensures r.verb == Get && r.body == None && r.headers == HeadersOf(authorization)
    ensures r.url == BaseUrl + RetrievePrefix + TemplateText(Number(teacherId)) + "/"
  {
    Request(Get, BaseUrl + RetrievePrefix + TemplateText(Number(teacherId)) + "/", HeadersOf(authorization), None)
  }

  /** `createTeacher(payload)`: POST of the whole payload. */
  function CreateRequest(authorization: Option<string>, payload: map<string, JsValue>): (r: Request)
    ensures r.verb == Post && r.url == BaseUrl + RegisterPath && r.headers == HeadersOf(authorization)
    ensures r.body == Some(payload)
  {
    Request(Post, BaseUrl + RegisterPath, HeadersOf(authorization), Some(payload))
  }

  /** `updateTeacher({id, ...payload})`: `id` goes into the path, the rest into the body. */
  function UpdateRequest(authorization: Option<string>, payload: map<string, JsValue>): (r: Request)
    ensures r.verb == Put && r.headers == HeadersOf(authorization)
    ensures r.body.Some? && r.body.value.Keys == payload.Keys - {"id"}
    ensures forall k :: k in r.body.value ==> r.body.value[k] == payload[k]
    ensures r.url == BaseUrl + UpdatePrefix + TemplateText(Prop(payload, "id")) + "/"
  {
    Request(Put, BaseUrl + UpdatePrefix + TemplateText(Prop(payload, "id")) + "/", HeadersOf(authorization),
            Some(payload - {"id"}))
  }

  /** The path segment between `prefix` and the closing '/' of a request URL. */
  function PathSegment(url: string, prefix: string): Option<string> {
    if BaseUrl + prefix <= url && |url| > |BaseUrl + prefix| && url[|url| - 1] == '/'
    then Some(url[|BaseUrl + prefix|..|url| - 1])
    else None
  }

  lemma SegmentOf(prefix: string, segment: string)
    ensures PathSegment(BaseUrl + prefix + segment + "/", prefix) == Some(segment)
  {
    var url := BaseUrl + prefix + segment + "/";
    assert url == (BaseUrl + prefix) + (segment + "/");
    assert url[|BaseUrl + prefix|..|url| - 1] == segment;
  }

  /** The server reads back the numeric id `updateTeacher` put in the path. */
  lemma UpdatePathCarriesId(authorization: Option<string>, payload: map<string, JsValue>, id: int)
    requires "id" in payload && payload["id"] == Number(id)
    ensures PathSegment(UpdateRequest(authorization, payload).url, UpdatePrefix).Some?
    ensures NumberOf(PathSegment(UpdateRequest(authorization, payload).url, UpdatePrefix).value) == Int(id)
    ensures UpdateRequest(authorization, payload).body.value == payload - {"id"}
  {
    SegmentOf(UpdatePrefix, IntToString(id));
    NumberOfIntToString(id);
  }

  /** The same for the teacher id of the retrieve request. */
  lemma RetrievePathCarriesId(authorization: Option<string>, teacherId: int)
    ensures PathSegment(RetrieveRequest(authorization, teacherId).url, RetrievePrefix).Some?
    ensures NumberOf(PathSegment(RetrieveRequest(authorization, teacherId).url, RetrievePrefix).value) == Int(teacherId)
  {
    SegmentOf(RetrievePrefix, IntToString(teacherId));
    NumberOfIntToString(teacherId);
  }

  // ---------------------------------------------------------------- the shared client

  /**
   * The module-level axios instance. Its only state is the common
   * `Authorization` header; the hooks' functions below are the only writers,
   * and none of them touches a query cache.
   */
  class ApiClient {
    var authorization: Option<string>

    constructor ()
      ensures authorization == None
    {
      authorization := None;
    }

    /** `setAuthHeader(token)` */
    method SetAuthHeader(token: string)
      modifies this
      ensures authorization == Some(Bearer(token))
    {
      authorization := Some(Bearer(token));
    }

    /** `if (accessToken) setAuthHeader(accessToken)`, the first line of every hook function. */
    method Stamp(accessToken: Option<string>)
      modifies this
      ensures authorization == Stamped(old(authorization), accessToken)
    {
      if TokenTruthy(accessToken) {
        SetAuthHeader(accessToken.value);
      }
    }

    /** The `queryFn` of `useTeachers(organizationId)`. */
    method TeachersQuery(accessToken: Option<string>, organizationId: Option<int>) returns (request: Request)
      modifies this
      ensures authorization == Stamped(old(authorization), accessToken)
      ensures request == ListRequest(authorization, organizationId)
    {
      Stamp(accessToken);
      request := ListRequest(authorization, organizationId);
    }

    /** The `queryFn` of `useTeacher(teacherId)`. */
    method TeacherQuery(accessToken: Option<string>, teacherId: int) returns (request: Request)
      modifies this
      ensures authorization == Stamped(old(authorization), accessToken)
      ensures request == RetrieveRequest(authorization, teacherId)
    {
      Stamp(accessToken);
      request := RetrieveRequest(authorization, teacherId);
    }

    /** The `mutationFn` of `useCreateTeacher()`. */
    method CreateTeacher(accessToken: Option<string>, payload: map<string, JsValue>) returns (request: Request)
      modifies this
      ensures authorization == Stamped(old(authorization), accessToken)
      ensures request == CreateRequest(authorization, payload)
    {
      Stamp(accessToken);
      request := CreateRequest(authorization, payload);
    }

    /** The `mutationFn` of `useUpdateTeacher()`. */
    method UpdateTeacher(accessToken: Option<string>, payload: map<string, JsValue>) returns (request: Request)
      modifies this
      ensures authorization == Stamped(old(authorization), accessToken)
      ensures request == UpdateRequest(authorization, payload)
    {
      Stamp(accessToken);
      request := UpdateRequest(authorization, payload);
    }
  }
}
