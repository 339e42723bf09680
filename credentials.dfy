// Authentication information read from a file: an OAuth token, a private
// (personal) token, or a user name and password for HTTP basic
// authentication. The XML loader and the JSON loader work alike; they differ
// only in the names of the elements (keys) they read and in the error they
// report for a document that lacks the required values.

module Credentials {
  import opened Wrappers

  /** A decoded document: a decoder error, or the text of each top-level element. */
  datatype Document = Malformed(error: string) | Decoded(elements: map<string, string>)

  /** The text of an element; Go's zero value "" when the document lacks it. */
  function Text(doc: Document, name: string): string
  {
    if doc.Decoded? && name in doc.elements then doc.elements[name] else ""
  }

  /** The three kinds of authentication information. */
  datatype AuthInfo =
    | BasicAuth(username: string, password: string)
    | OAuth(token: string)
    | Private(token: string)

  /** The element names a format reads, and the error for a document lacking values. */
  datatype Format = Format(username: string, password: string, oauthToken: string,
                           privateToken: string, invalid: string)

  /**
   * The basic-auth decoder: a decoder error is passed on unchanged, and a
   * document whose user name or password is empty is invalid.
   */
  function BasicFromDocument(doc: Document, fmt: Format): (r: Result<AuthInfo>)
    ensures doc.Malformed? ==> r == Err(doc.error)
    ensures doc.Decoded? ==> (r.Ok? <==> Text(doc, fmt.username) != "" && Text(doc, fmt.password) != "")
    ensures doc.Decoded? && r.Err? ==> r.error == fmt.invalid
    ensures r.Ok? ==> r.value == BasicAuth(Text(doc, fmt.username), Text(doc, fmt.password))
  {
    if doc.Malformed? then Err(doc.error)
    else if Text(doc, fmt.username) == "" || Text(doc, fmt.password) == "" then Err(fmt.invalid)
    else Ok(BasicAuth(Text(doc, fmt.username), Text(doc, fmt.password)))
  }

  /** The OAuth decoder: a decoder error passes through; an empty token is invalid. */
  function OAuthFromDocument(doc: Document, fmt: Format): (r: Result<AuthInfo>)
    ensures doc.Malformed? ==> r == Err(doc.error)
    ensures doc.Decoded? ==> (r.Ok? <==> Text(doc, fmt.oauthToken) != "")
    ensures doc.Decoded? && r.Err? ==> r.error == fmt.invalid
    ensures r.Ok? ==> r.value == OAuth(Text(doc, fmt.oauthToken))
  {
    if doc.Malformed? then Err(doc.error)
    else if Text(doc, fmt.oauthToken) == "" then Err(fmt.invalid)
    else Ok(OAuth(Text(doc, fmt.oauthToken)))
  }

  /** The private-token decoder: a decoder error passes through; an empty token is invalid. */
  function PrivateFromDocument(doc: Document, fmt: Format): (r: Result<AuthInfo>)
    ensures doc.Malformed? ==> r == Err(doc.error)
    ensures doc.Decoded? ==> (r.Ok? <==> Text(doc, fmt.privateToken) != "")
    ensures doc.Decoded? && r.Err? ==> r.error == fmt.invalid
    ensures r.Ok? ==> r.value == Private(Text(doc, fmt.privateToken))
  {
    if doc.Malformed? then Err(doc.error)
    else if Text(doc, fmt.privateToken) == "" then Err(fmt.invalid)
    else Ok(Private(Text(doc, fmt.privateToken)))
  }

  /**
   * Load: an open or read error is returned as it is; otherwise the first
   * decoder that succeeds, in the order OAuth, private token, basic; when
   * none does, the basic decoder's error.
   */
  function Load(file: Result<Document>, fmt: Format): (r: Result<AuthInfo>)
    ensures file.Err? ==> r == Err(file.error)
    ensures r.Ok? && r.value.OAuth? <==>
              file.Ok? && OAuthFromDocument(file.value, fmt).Ok?
    ensures r.Ok? && r.value.Private? <==>
              file.Ok? && OAuthFromDocument(file.value, fmt).Err? && PrivateFromDocument(file.value, fmt).Ok?
    ensures r.Ok? && r.value.BasicAuth? <==>
              file.Ok? && OAuthFromDocument(file.value, fmt).Err? && PrivateFromDocument(file.value, fmt).Err?
              && BasicFromDocument(file.value, fmt).Ok?
    ensures file.Ok? && r.Err? ==> r == BasicFromDocument(file.value, fmt)
  {
    if file.Err? then Err(file.error)
    else
      var oauth := OAuthFromDocument(file.value, fmt);
      if oauth.Ok? then oauth
      else
        var private := PrivateFromDocument(file.value, fmt);
        if private.Ok? then private
        else BasicFromDocument(file.value, fmt)
  }

  /**
   * What Load yields from a well-formed document, told from its element
   * texts alone: an OAuth token wins over everything, a private token over a
   * user name and password, and with none of them the document is invalid.
   */
  lemma LoadByElements(doc: Document, fmt: Format)
    requires doc.Decoded?
    ensures var r := Load(Ok(doc), fmt);
            var oauth, private := Text(doc, fmt.oauthToken), Text(doc, fmt.privateToken);
            var user, password := Text(doc, fmt.username), Text(doc, fmt.password);
            (oauth != "" ==> r == Ok(OAuth(oauth)))
            && (oauth == "" && private != "" ==> r == Ok(Private(private)))
            && (oauth == "" && private == "" && user != "" && password != "" ==> r == Ok(BasicAuth(user, password)))
            && (oauth == "" && private == "" && (user == "" || password == "") ==> r == Err(fmt.invalid))
  {
  }

  /** A malformed document fails with the decoder's own error, not the "invalid" one. */
  lemma LoadMalformed(error: string, fmt: Format)
    ensures Load(Ok(Malformed(error)), fmt) == Err(error)
  {
  }
}

/** The XML loader of authinfo/authinfo.go. */
module AuthInfoXml {
  import opened Wrappers
  import opened Credentials

  const ErrAuthInfoInvalidXML := "invalid XML"

  /** The elements of an <AuthInfo> document. */
  const Xml := Format("username", "password", "oauth-token", "private-token", ErrAuthInfoInvalidXML)

  /** Load: OAuth, then private token, then basic, over the file's decoded XML. */
  function LoadXml(file: Result<Document>): (r: Result<AuthInfo>)
    ensures file.Err? ==> r == Err(file.error)
    ensures file.Ok? && file.value.Decoded? && Text(file.value, "oauth-token") != "" ==>
              r == Ok(OAuth(Text(file.value, "oauth-token")))
    ensures file.Ok? && file.value.Decoded? && r.Err? ==> r == Err(ErrAuthInfoInvalidXML)
    ensures r.Ok? && r.value.BasicAuth? ==>
              file.Ok? && Text(file.value, "oauth-token") == "" && Text(file.value, "private-token") == ""
  {
    if file.Ok? && file.value.Decoded? then
      LoadByElements(file.value, Xml);
      Load(file, Xml)
    else
      Load(file, Xml)
  }

  /**
   * The decoders on the documents of the test file: each accepts only the
   * document written for it, and the "invalid XML" error rejects the rest.
   */
  lemma DecoderVectors()
    ensures var basic := Decoded(map["username" := "foo", "password" := "bar"]);
            var oauth := Decoded(map["oauth-token" := "token"]);
            var private := Decoded(map["private-token" := "token"]);
            BasicFromDocument(basic, Xml) == Ok(BasicAuth("foo", "bar"))
            && BasicFromDocument(oauth, Xml) == Err(ErrAuthInfoInvalidXML)
            && BasicFromDocument(private, Xml) == Err(ErrAuthInfoInvalidXML)
            && OAuthFromDocument(oauth, Xml) == Ok(OAuth("token"))
            && OAuthFromDocument(basic, Xml) == Err(ErrAuthInfoInvalidXML)
            && OAuthFromDocument(private, Xml) == Err(ErrAuthInfoInvalidXML)
            && PrivateFromDocument(private, Xml) == Ok(Private("token"))
            && PrivateFromDocument(oauth, Xml) == Err(ErrAuthInfoInvalidXML)
            && PrivateFromDocument(basic, Xml) == Err(ErrAuthInfoInvalidXML)
  {
    var basic := Decoded(map["username" := "foo", "password" := "bar"]);
    var oauth := Decoded(map["oauth-token" := "token"]);
    var private := Decoded(map["private-token" := "token"]);
    assert Text(basic, "oauth-token") == "" && Text(basic, "private-token") == "";
    assert Text(oauth, "username") == "" && Text(oauth, "private-token") == "";
    assert Text(private, "username") == "" && Text(private, "oauth-token") == "";
  }
}

/** The JSON loader of auth_info.go. */
module AuthInfoJson {
  import opened Wrappers
  import opened Credentials

  const ErrAuthInfoInvalidJSON := "invalid JSON"

  /** The keys of the JSON object. */
  const Json := Format("username", "password", "oauth-token", "private-token", ErrAuthInfoInvalidJSON)

  /** LoadAuthInfo: OAuth, then private token, then basic, over the file's decoded JSON. */
  function LoadAuthInfo(file: Result<Document>): (r: Result<AuthInfo>)
    ensures file.Err? ==> r == Err(file.error)
    ensures file.Ok? && file.value.Decoded? && Text(file.value, "oauth-token") != "" ==>
              r == Ok(OAuth(Text(file.value, "oauth-token")))
    ensures file.Ok? && file.value.Decoded? && r.Err? ==> r == Err(ErrAuthInfoInvalidJSON)
    ensures r.Ok? && r.value.BasicAuth? ==>
              file.Ok? && Text(file.value, "oauth-token") == "" && Text(file.value, "private-token") == ""
  {
    if file.Ok? && file.value.Decoded? then
      LoadByElements(file.value, Json);
      Load(file, Json)
    else
      Load(file, Json)
  }
}
