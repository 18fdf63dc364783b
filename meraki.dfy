/**
 * The Meraki dashboard API client: the records it exchanges, how each endpoint's
 * request is built, which status each verb accepts and what a failure reports.
 * The HTTP round trip and the JSON decoder are not modelled: a `Client` is given,
 * per endpoint, the reply the server would send (`HttpReply`).
 */
module Meraki {
  import opened Wrappers
  import opened Slices

  // ---------------------------------------------------------------------------
  // Records
  // ---------------------------------------------------------------------------

  datatype OrganizationApi = OrganizationApi(Enabled: bool)
  datatype OrganizationLicensing = OrganizationLicensing(Model: string)
  datatype OrganizationRegion = OrganizationRegion(Name: string)
  datatype OrganizationCloud = OrganizationCloud(Region: OrganizationRegion)
  datatype OrganizationManagement = OrganizationManagement(Details: Slice<string>)

  /** An organization as the API returns it. */
  datatype Organization = Organization(
    ID: string,
    Name: string,
    URL: string,
    API: OrganizationApi,
    Licensing: OrganizationLicensing,
    Cloud: OrganizationCloud,
    Management: OrganizationManagement)

  /** A network as the API returns it. */
  datatype Network = Network(
    ID: string,
    OrgID: string,
    Name: string,
    ProductTypes: Slice<string>,
    TimeZone: string,
    Tags: Slice<string>,
    EnrollmentString: string,
    URL: string,
    Notes: string,
    IsBoundToConfigTemplate: bool)

  /** The body of a create-network request; every field is always marshalled. */
  datatype NetworkCreateRequest = NetworkCreateRequest(
    Name: string,
    ProductTypes: Slice<string>,
    TimeZone: string,
    Tags: Slice<string>)

  /** The body of an update-network request; an empty field is left out of the JSON. */
  datatype NetworkUpdateRequest = NetworkUpdateRequest(Name: string, TimeZone: string)

  // ---------------------------------------------------------------------------
  // Endpoints
  // ---------------------------------------------------------------------------

  const BaseUrl: string := "https://api.meraki.com/api/v1"
  const OrganizationsPath: string := "/organizations"
  const NetworksPath: string := "/networks"

  function OrganizationsUrl(): string
  {
    BaseUrl + OrganizationsPath
  }

  function OrganizationUrl(orgID: string): string
  {
    BaseUrl + OrganizationsPath + "/" + orgID
  }

  function OrganizationNetworksUrl(orgID: string): string
  {
    BaseUrl + OrganizationsPath + "/" + orgID + NetworksPath
  }

  /** The one endpoint that the get, update and delete requests for a network share. */
  function NetworkUrl(id: string): string
  {
    BaseUrl + NetworksPath + "/" + id
  }

  /** The network id a network endpoint addresses, if `url` is one. */
  function NetworkIdOf(url: string): Option<string>
  {
    var prefix := BaseUrl + NetworksPath + "/";
    if prefix <= url then Some(url[|prefix|..]) else None
  }

  /** The organization id an organization endpoint addresses, if `url` is one. */
  function OrganizationIdOf(url: string): Option<string>
  {
    var prefix := BaseUrl + OrganizationsPath + "/";
    if prefix <= url then Some(url[|prefix|..]) else None
  }

  /** The id in a network endpoint can be read back, so distinct ids give distinct endpoints. */
  lemma NetworkUrlRoundTrip(id: string)
    ensures NetworkIdOf(NetworkUrl(id)) == Some(id)
  {
  }

  /** The same for the organization endpoint. */
  lemma OrganizationUrlRoundTrip(orgID: string)
    ensures OrganizationIdOf(OrganizationUrl(orgID)) == Some(orgID)
  {
  }

  /** The create-network endpoint lies under the owning organization's endpoint. */
  lemma OrganizationNetworksUrlNested(orgID: string)
    ensures OrganizationIdOf(OrganizationNetworksUrl(orgID)) == Some(orgID + NetworksPath)
  {
    var prefix := BaseUrl + OrganizationsPath + "/";
    assert OrganizationNetworksUrl(orgID) == prefix + (orgID + NetworksPath);
    assert OrganizationNetworksUrl(orgID)[|prefix|..] == orgID + NetworksPath;
  }

  /** No network endpoint is an organization endpoint, and the reverse. */
  lemma NetworkAndOrganizationUrlsDiffer(id: string, orgID: string)
    ensures NetworkIdOf(OrganizationUrl(orgID)).None?
    ensures OrganizationIdOf(NetworkUrl(id)).None?
  {
    var n := BaseUrl + NetworksPath + "/";
    var o := BaseUrl + OrganizationsPath + "/";
    assert OrganizationUrl(orgID)[|BaseUrl| + 1] == 'o';
    assert n[|BaseUrl| + 1] == 'n';
    assert NetworkUrl(id)[|BaseUrl| + 1] == 'n';
    assert o[|BaseUrl| + 1] == 'o';
  }

  // ---------------------------------------------------------------------------
  // Requests
  // ---------------------------------------------------------------------------

  datatype Verb = Get | Post | Put | Delete

  datatype Header = Header(name: string, value: string)

  /** An HTTP request as handed to the transport: verb, URL, headers in order, and body. */
  datatype Request = Request(verb: Verb, url: string, headers: seq<Header>, body: Option<string>)

  const BearerPrefix: string := "Bearer "

  function AuthorizationHeader(token: string): (h: Header)
    ensures h.name == "Authorization" && BearerToken(h.value) == Some(token)
  {
    assert (BearerPrefix + token)[..|BearerPrefix|] == BearerPrefix;
    assert (BearerPrefix + token)[|BearerPrefix|..] == token;
    Header("Authorization", BearerPrefix + token)
  }

  const JsonContentType: Header := Header("Content-Type", "application/json")

  /** The token carried by an `Authorization` header value, if it is a bearer credential. */
  function BearerToken(value: string): Option<string>
  {
    if BearerPrefix <= value then Some(value[|BearerPrefix|..]) else None
  }

  /** `r` carries the client's token as a bearer credential. */
  predicate CarriesToken(r: Request, token: string)
  {
    exists h :: h in r.headers && h.name == "Authorization" && BearerToken(h.value) == Some(token)
  }

  function GetOrganizationsRequest(token: string): Request
  {
    Request(Get, OrganizationsUrl(), [AuthorizationHeader(token)], None)
  }

  function GetOrganizationRequest(token: string, orgID: string): Request
  {
    Request(Get, OrganizationUrl(orgID), [AuthorizationHeader(token)], None)
  }

  function CreateNetworkRequest(token: string, orgID: string, network: NetworkCreateRequest): Request
  {
    Request(Post, OrganizationNetworksUrl(orgID), [JsonContentType, AuthorizationHeader(token)],
            Some(Marshal(CreatePayload(network))))
  }

  function GetNetworkRequest(token: string, id: string): Request
  {
    Request(Get, NetworkUrl(id), [AuthorizationHeader(token)], None)
  }

  function UpdateNetworkRequest(token: string, id: string, network: NetworkUpdateRequest): Request
  {
    Request(Put, NetworkUrl(id), [JsonContentType, AuthorizationHeader(token)],
            Some(Marshal(UpdatePayload(network))))
  }

  function DeleteNetworkRequest(token: string, id: string): Request
  {
    Request(Delete, NetworkUrl(id), [AuthorizationHeader(token)], None)
  }

  /** Every request the client builds authenticates with its token. */
  lemma EveryRequestCarriesToken(token: string, orgID: string, id: string,
                                 c: NetworkCreateRequest, u: NetworkUpdateRequest)
    ensures CarriesToken(GetOrganizationsRequest(token), token)
    ensures CarriesToken(GetOrganizationRequest(token, orgID), token)
    ensures CarriesToken(CreateNetworkRequest(token, orgID, c), token)
    ensures CarriesToken(GetNetworkRequest(token, id), token)
    ensures CarriesToken(UpdateNetworkRequest(token, id, u), token)
    ensures CarriesToken(DeleteNetworkRequest(token, id), token)
  {
  }

  /**
   * The requests for one network id all target that network's endpoint, with a distinct
   * verb each; only the writes carry a body.
   */
  lemma NetworkRequestsShareEndpoint(token: string, id: string, u: NetworkUpdateRequest)
    ensures NetworkIdOf(GetNetworkRequest(token, id).url) == Some(id)
    ensures UpdateNetworkRequest(token, id, u).url == GetNetworkRequest(token, id).url
    ensures DeleteNetworkRequest(token, id).url == GetNetworkRequest(token, id).url
    ensures GetNetworkRequest(token, id).body.None? && DeleteNetworkRequest(token, id).body.None?
    ensures UpdateNetworkRequest(token, id, u).body.Some?
  {
  }

  // ---------------------------------------------------------------------------
  // JSON payloads
  // ---------------------------------------------------------------------------

  datatype JsonValue = JNull | JString(s: string) | JStrings(items: seq<string>)

  /** A JSON object as its members in marshalling order (struct field order). */
  type JsonObject = seq<(string, JsonValue)>

  function Keys(o: JsonObject): seq<string>
  {
    seq(|o|, i requires 0 <= i < |o| => o[i].0)
  }

  /** The value of the first member named `key`. */
  function Lookup(o: JsonObject, key: string): Option<JsonValue>
  {
    if o == [] then None
    else if o[0].0 == key then Some(o[0].1)
    else Lookup(o[1..], key)
  }

  /** How `encoding/json` marshals a `[]string`: a nil slice becomes `null`. */
  function SliceValue(s: Slice<string>): JsonValue
  {
    if s.None? then JNull else JStrings(s.value)
  }

  /** How `encoding/json` unmarshals into a `[]string` field: absent or `null` leaves it nil. */
  function SliceOf(v: Option<JsonValue>): Slice<string>
  {
    if v.Some? && v.value.JStrings? then Some(v.value.items) else None
  }

  /** How `encoding/json` unmarshals into a `string` field: absent leaves it "". */
  function StringOf(v: Option<JsonValue>): string
  {
    if v.Some? && v.value.JString? then v.value.s else ""
  }

  /** The create request on the wire: no field is `omitempty`, so all four keys are sent. */
  function CreatePayload(req: NetworkCreateRequest): (o: JsonObject)
    ensures Keys(o) == ["name", "productTypes", "timeZone", "tags"]
  {
    [("name", JString(req.Name)),
     ("productTypes", SliceValue(req.ProductTypes)),
     ("timeZone", JString(req.TimeZone)),
     ("tags", SliceValue(req.Tags))]
  }

  /** The update request on the wire: both fields are `omitempty`. */
  function UpdatePayload(req: NetworkUpdateRequest): (o: JsonObject)
    ensures "name" in Keys(o) <==> req.Name != ""
    ensures "timeZone" in Keys(o) <==> req.TimeZone != ""
    ensures req.Name == "" && req.TimeZone == "" <==> o == []
  {
    var o := (if req.Name != "" then [("name", JString(req.Name))] else []) +
             (if req.TimeZone != "" then [("timeZone", JString(req.TimeZone))] else []);
    assert Keys(o) == (if req.Name != "" then ["name"] else []) +
                      (if req.TimeZone != "" then ["timeZone"] else []);
    o
  }

  function DecodeCreatePayload(o: JsonObject): NetworkCreateRequest
  {
    NetworkCreateRequest(StringOf(Lookup(o, "name")), SliceOf(Lookup(o, "productTypes")),
                         StringOf(Lookup(o, "timeZone")), SliceOf(Lookup(o, "tags")))
  }

  function DecodeUpdatePayload(o: JsonObject): NetworkUpdateRequest
  {
    NetworkUpdateRequest(StringOf(Lookup(o, "name")), StringOf(Lookup(o, "timeZone")))
  }

  /** Each of the four keys of a create payload holds its field's marshalled value. */
  lemma CreatePayloadMembers(req: NetworkCreateRequest)
    ensures var o := CreatePayload(req);
      && Lookup(o, "name") == Some(JString(req.Name))
      && Lookup(o, "productTypes") == Some(SliceValue(req.ProductTypes))
      && Lookup(o, "timeZone") == Some(JString(req.TimeZone))
      && Lookup(o, "tags") == Some(SliceValue(req.Tags))
  {
    var o := CreatePayload(req);
    var o1, o2, o3 := o[1..], o[2..], o[3..];
    assert o1[0].0 == "productTypes" && o1[1..] == o2;
    assert o2[0].0 == "timeZone" && o2[1..] == o3;
    assert o3[0].0 == "tags";
    assert Lookup(o, "productTypes") == Lookup(o1, "productTypes");
    assert Lookup(o, "timeZone") == Lookup(o1, "timeZone") == Lookup(o2, "timeZone");
    assert Lookup(o, "tags") == Lookup(o1, "tags") == Lookup(o2, "tags") == Lookup(o3, "tags");
  }

  /**
   * Decoding the create payload object (before it is marshalled to text) gives back the
   * request, nil slices included.
   */
  lemma CreatePayloadRoundTrip(req: NetworkCreateRequest)
    ensures DecodeCreatePayload(CreatePayload(req)) == req
  {
    CreatePayloadMembers(req);
  }

  /**
   * Leaving empty fields out loses nothing: decoding the update payload object (before it
   * is marshalled to text) fills them back in as "".
   */
  lemma UpdatePayloadRoundTrip(req: NetworkUpdateRequest)
    ensures DecodeUpdatePayload(UpdatePayload(req)) == req
  {
    var o := UpdatePayload(req);
    if req.Name != "" {
      assert Lookup(o, "name") == Some(JString(req.Name));
    } else {
      assert "name" !in Keys(o);
      LookupMissing(o, "name");
    }
    if req.TimeZone != "" {
      if req.Name != "" {
        assert o[0].0 != "timeZone";
        assert o[1..] == [("timeZone", JString(req.TimeZone))];
      }
      assert Lookup(o, "timeZone") == Some(JString(req.TimeZone));
    } else {
      assert "timeZone" !in Keys(o);
      LookupMissing(o, "timeZone");
    }
  }

  lemma {:induction false} LookupMissing(o: JsonObject, key: string)
    requires key !in Keys(o)
    ensures Lookup(o, key) == None
  {
    if o != [] {
      assert Keys(o)[0] == o[0].0;
      assert Keys(o[1..]) == Keys(o)[1..];
      LookupMissing(o[1..], key);
    }
  }

  function Quote(s: string): string
  {
    "\"" + s + "\""
  }

  function QuoteAll(xs: seq<string>): string
  {
    if xs == [] then ""
    else if |xs| == 1 then Quote(xs[0])
    else Quote(xs[0]) + "," + QuoteAll(xs[1..])
  }

  function MarshalValue(v: JsonValue): string
  {
    match v
    case JNull => "null"
    case JString(s) => Quote(s)
    case JStrings(items) => "[" + QuoteAll(items) + "]"
  }

  function MarshalMembers(o: JsonObject): string
  {
    if o == [] then ""
    else
      Quote(o[0].0) + ":" + MarshalValue(o[0].1) +
      (if |o| == 1 then "" else "," + MarshalMembers(o[1..]))
  }

  /** `json.Marshal` of an object (string escaping is not modelled). */
  function Marshal(o: JsonObject): string
  {
    "{" + MarshalMembers(o) + "}"
  }

  // ---------------------------------------------------------------------------
  // Replies and their interpretation
  // ---------------------------------------------------------------------------

  const StatusOK: int := 200
  const StatusCreated: int := 201
  const StatusNoContent: int := 204

  /**
   * What one HTTP exchange gave the client: a transport error before any status, or a
   * status, the raw response body, and what decoding that body as JSON into `T` yields.
   */
  datatype HttpReply<T> =
    | TransportFailure(message: string)
    | Response(status: int, body: string, decoded: Result<T, string>)

  /** `s` occurs somewhere in `text`. */
  predicate Contains(text: string, s: string)
  {
    exists i :: 0 <= i <= |text| && s <= text[i..]
  }

  lemma ContainsMiddle(a: string, s: string, b: string)
    ensures Contains(a + s + b, s)
  {
    assert (a + s + b)[|a|..] == s + b;
  }

  function CreateFailureText(url: string, body: string, response: string): string
  {
    "Failed to create network: " + url + "," + body + ", " + response
  }

  function UpdateFailureText(url: string, body: string, response: string): string
  {
    "Failed to update network: " + url + "," + body + ", " + response
  }

  /** The delete failure text, which the client words as an update failure. */
  function DeleteFailureText(url: string, response: string): string
  {
    "Failed to update network: " + url + ", " + response
  }

  /** Each of `a`, `b` and `c` occurs in `p + a + s1 + b + s2 + c`. */
  lemma ContainsThreeParts(p: string, a: string, s1: string, b: string, s2: string, c: string)
    ensures Contains(p + a + s1 + b + s2 + c, a)
    ensures Contains(p + a + s1 + b + s2 + c, b)
    ensures Contains(p + a + s1 + b + s2 + c, c)
  {
    var t := p + a + s1 + b + s2 + c;
    assert t == p + a + (s1 + b + s2 + c);
    ContainsMiddle(p, a, s1 + b + s2 + c);
    assert t == (p + a + s1) + b + (s2 + c);
    ContainsMiddle(p + a + s1, b, s2 + c);
    assert t == (p + a + s1 + b + s2) + c + [];
    ContainsMiddle(p + a + s1 + b + s2, c, []);
  }

  /** Each of `a` and `c` occurs in `p + a + s + c`. */
  lemma ContainsTwoParts(p: string, a: string, s: string, c: string)
    ensures Contains(p + a + s + c, a)
    ensures Contains(p + a + s + c, c)
  {
    var t := p + a + s + c;
    assert t == p + a + (s + c);
    ContainsMiddle(p, a, s + c);
    assert t == (p + a + s) + c + [];
    ContainsMiddle(p + a + s, c, []);
  }

  /** A create failure names the endpoint, the body sent and the body received. */
  lemma CreateFailureTextCarriesDiagnosis(url: string, body: string, response: string)
    ensures Contains(CreateFailureText(url, body, response), url)
    ensures Contains(CreateFailureText(url, body, response), body)
    ensures Contains(CreateFailureText(url, body, response), response)
  {
    ContainsThreeParts("Failed to create network: ", url, ",", body, ", ", response);
  }

  /** An update failure names the endpoint, the body sent and the body received. */
  lemma UpdateFailureTextCarriesDiagnosis(url: string, body: string, response: string)
    ensures Contains(UpdateFailureText(url, body, response), url)
    ensures Contains(UpdateFailureText(url, body, response), body)
    ensures Contains(UpdateFailureText(url, body, response), response)
  {
    ContainsThreeParts("Failed to update network: ", url, ",", body, ", ", response);
  }

  /** A delete failure names the endpoint and the body received. */
  lemma DeleteFailureTextCarriesDiagnosis(url: string, response: string)
    ensures Contains(DeleteFailureText(url, response), url)
    ensures Contains(DeleteFailureText(url, response), response)
  {
    ContainsTwoParts("Failed to update network: ", url, ", ", response);
  }

  /** A GET: the status is never looked at; whatever decodes is the answer. */
  function GetResult<T>(reply: HttpReply<T>): Result<T, string>
  {
    match reply
    case TransportFailure(message) => Err(message)
    case Response(_, _, decoded) => decoded
  }

  /** The three GETs succeed on any status, 4xx and 5xx included, as long as the body decodes. */
  lemma GetIgnoresStatus<T>(reply: HttpReply<T>, status: int)
    requires reply.Response?
    ensures GetResult(reply.(status := status)) == GetResult(reply)
    ensures GetResult(reply).Ok? <==> reply.decoded.Ok?
  {
  }

  /** The outcome of creating `network` in `orgID` when the server answers `reply`. */
  function CreateNetworkResult(orgID: string, network: NetworkCreateRequest,
                               reply: HttpReply<Network>): (r: Result<Network, string>)
    ensures r.Ok? <==> reply.Response? && reply.status == StatusCreated && reply.decoded.Ok?
    ensures r.Ok? ==> r == reply.decoded
  {
    match reply
    case TransportFailure(message) => Err(message)
    case Response(status, body, decoded) =>
      if status != StatusCreated
      then Err(CreateFailureText(OrganizationNetworksUrl(orgID), Marshal(CreatePayload(network)), body))
      else decoded
  }

  /** The outcome of updating network `id` with `network` when the server answers `reply`. */
  function UpdateNetworkResult(id: string, network: NetworkUpdateRequest,
                               reply: HttpReply<Network>): (r: Result<Network, string>)
    ensures r.Ok? <==> reply.Response? && reply.status == StatusOK && reply.decoded.Ok?
    ensures r.Ok? ==> r == reply.decoded
  {
    match reply
    case TransportFailure(message) => Err(message)
    case Response(status, body, decoded) =>
      if status != StatusOK
      then Err(UpdateFailureText(NetworkUrl(id), Marshal(UpdatePayload(network)), body))
      else decoded
  }

  /** The error (if any) of deleting network `id` when the server answers `reply`. */
  function DeleteNetworkResult(id: string, reply: HttpReply<()>): (r: Option<string>)
    ensures r.None? <==> reply.Response? && reply.status == StatusNoContent
    ensures reply.TransportFailure? ==> r == Some(reply.message)
  {
    match reply
    case TransportFailure(message) => Some(message)
    case Response(status, body, _) =>
      if status != StatusNoContent then Some(DeleteFailureText(NetworkUrl(id), body)) else None
  }

  /**
   * A write answered with a status it does not accept fails with a message that names
   * the endpoint, the marshalled request and the server's response body.
   */
  lemma WriteStatusFailuresAreDiagnosable(orgID: string, id: string, c: NetworkCreateRequest,
                                          u: NetworkUpdateRequest, cr: HttpReply<Network>,
                                          ur: HttpReply<Network>, dr: HttpReply<()>)
    ensures cr.Response? && cr.status != StatusCreated ==>
      var r := CreateNetworkResult(orgID, c, cr);
      r.Err? && Contains(r.error, OrganizationNetworksUrl(orgID))
      && Contains(r.error, Marshal(CreatePayload(c))) && Contains(r.error, cr.body)
    ensures ur.Response? && ur.status != StatusOK ==>
      var r := UpdateNetworkResult(id, u, ur);
      r.Err? && Contains(r.error, NetworkUrl(id))
      && Contains(r.error, Marshal(UpdatePayload(u))) && Contains(r.error, ur.body)
    ensures dr.Response? && dr.status != StatusNoContent ==>
      var r := DeleteNetworkResult(id, dr);
      r.Some? && Contains(r.value, NetworkUrl(id)) && Contains(r.value, dr.body)
  {
    if cr.Response? {
      CreateFailureTextCarriesDiagnosis(OrganizationNetworksUrl(orgID), Marshal(CreatePayload(c)), cr.body);
    }
    if ur.Response? {
      UpdateFailureTextCarriesDiagnosis(NetworkUrl(id), Marshal(UpdatePayload(u)), ur.body);
    }
    if dr.Response? {
      DeleteFailureTextCarriesDiagnosis(NetworkUrl(id), dr.body);
    }
  }

  // ---------------------------------------------------------------------------
  // The client
  // ---------------------------------------------------------------------------

  /**
   * The API client. Every request it sends is appended to `sent`; the server's answer
   * to each endpoint is scripted in the matching `...Reply` field.
   */
  class Client {
    const token: string
    var sent: seq<Request>
    var organizationsReply: HttpReply<seq<Organization>>
    var organizationReply: HttpReply<Organization>
    var createReply: HttpReply<Network>
    var networkReply: HttpReply<Network>
    var updateReply: HttpReply<Network>
    var deleteReply: HttpReply<()>

    /** `NewClient(apiToken)`, facing a server that will answer with the given replies. */
    constructor (apiToken: string,
                 organizationsReply: HttpReply<seq<Organization>>,
                 organizationReply: HttpReply<Organization>,
                 createReply: HttpReply<Network>,
                 networkReply: HttpReply<Network>,
                 updateReply: HttpReply<Network>,
                 deleteReply: HttpReply<()>)
      ensures token == apiToken && sent == []
      ensures this.organizationsReply == organizationsReply
      ensures this.organizationReply == organizationReply
      ensures this.createReply == createReply && this.networkReply == networkReply
      ensures this.updateReply == updateReply && this.deleteReply == deleteReply
    {
      token := apiToken;
      sent := [];
      this.organizationsReply := organizationsReply;
      this.organizationReply := organizationReply;
      this.createReply := createReply;
      this.networkReply := networkReply;
      this.updateReply := updateReply;
      this.deleteReply := deleteReply;
    }

    method GetOrganizations() returns (orgs: Result<seq<Organization>, string>)
      modifies this`sent
      ensures sent == old(sent) + [GetOrganizationsRequest(token)]
      ensures orgs == GetResult(organizationsReply)
    {
      sent := sent + [GetOrganizationsRequest(token)];
      match organizationsReply
      case TransportFailure(message) =>
        orgs := Err(message);
      case Response(_, _, decoded) =>
        orgs := decoded;
    }

    method GetOrganization(orgID: string) returns (org: Result<Organization, string>)
      modifies this`sent
      ensures sent == old(sent) + [GetOrganizationRequest(token, orgID)]
      ensures org == GetResult(organizationReply)
    {
      sent := sent + [GetOrganizationRequest(token, orgID)];
      match organizationReply
      case TransportFailure(message) =>
        org := Err(message);
      case Response(_, _, decoded) =>
        org := decoded;
    }

    method CreateNetwork(orgID: string, network: NetworkCreateRequest)
      returns (net: Result<Network, string>)
      modifies this`sent
      ensures sent == old(sent) + [CreateNetworkRequest(token, orgID, network)]
      ensures net == CreateNetworkResult(orgID, network, createReply)
    {
      var url := OrganizationNetworksUrl(orgID);
      var rb := Marshal(CreatePayload(network));
      sent := sent + [Request(Post, url, [JsonContentType, AuthorizationHeader(token)], Some(rb))];
      match createReply
      case TransportFailure(message) =>
        net := Err(message);
      case Response(status, body, decoded) =>
        if status != StatusCreated {
          net := Err(CreateFailureText(url, rb, body));
          return;
        }
        net := decoded;
    }

    method GetNetwork(id: string) returns (net: Result<Network, string>)
      modifies this`sent
      ensures sent == old(sent) + [GetNetworkRequest(token, id)]
      ensures net == GetResult(networkReply)
    {
      sent := sent + [GetNetworkRequest(token, id)];
      match networkReply
      case TransportFailure(message) =>
        net := Err(message);
      case Response(_, _, decoded) =>
        net := decoded;
    }

    method UpdateNetwork(id: string, network: NetworkUpdateRequest)
      returns (net: Result<Network, string>)
      modifies this`sent
      ensures sent == old(sent) + [UpdateNetworkRequest(token, id, network)]
      ensures net == UpdateNetworkResult(id, network, updateReply)
    {
      var url := NetworkUrl(id);
      var rb := Marshal(UpdatePayload(network));
      sent := sent + [Request(Put, url, [JsonContentType, AuthorizationHeader(token)], Some(rb))];
      match updateReply
      case TransportFailure(message) =>
        net := Err(message);
      case Response(status, body, decoded) =>
        if status != StatusOK {
          net := Err(UpdateFailureText(url, rb, body));
          return;
        }
        net := decoded;
    }

    /** Returns the error, or `None` for Go's nil. */
    method DeleteNetwork(id: string) returns (err: Option<string>)
      modifies this`sent
      ensures sent == old(sent) + [DeleteNetworkRequest(token, id)]
      ensures err == DeleteNetworkResult(id, deleteReply)
    {
      var url := NetworkUrl(id);
      sent := sent + [DeleteNetworkRequest(token, id)];
      match deleteReply
      case TransportFailure(message) =>
        err := Some(message);
      case Response(status, body, _) =>
        if status != StatusNoContent {
          err := Some(DeleteFailureText(url, body));
          return;
        }
        err := None;
    }
  }
}
