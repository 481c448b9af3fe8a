/** The requests the client sends, as values: the network itself is not part of the model. */
module Http {
  import opened Wrappers
  import opened Js

  /** The server every request goes to. */
  const BaseUrl := "http://13.203.135.43"

  datatype Verb = Get | Post | Put

  /** One outgoing request: verb, URL or path, headers, and the JSON body if any. */
  datatype Request = Request(verb: Verb, url: string, headers: map<string, string>, body: Option<map<string, JsValue>>)

  const BearerPrefix := "Bearer "

  /** The value of an `Authorization` header carrying an access token. */
  function Bearer(token: string): string {
    BearerPrefix + token
  }

  /** The token an `Authorization` header carries, if it is a bearer header. */
  function BearerToken(header: string): Option<string> {
    if BearerPrefix <= header then Some(header[|BearerPrefix|..]) else None
  }

  /** Reading a bearer header back gives the token that was stamped into it. */
  lemma BearerRoundTrip(token: string)
    ensures BearerToken(Bearer(token)) == Some(token)
  {
    assert Bearer(token)[|BearerPrefix|..] == token;
  }
}
