# Cisco Meraki Terraform provider: network resource, organization data sources and API client

This project is a Dafny model of the core of a Terraform provider for the Cisco Meraki
dashboard API. It has four modules:

- `Meraki` (meraki/client.go): the records the API exchanges (`Organization`, `Network`,
  `NetworkCreateRequest`, `NetworkUpdateRequest`) and how the client builds each request:
  - the endpoint URL, the headers and the JSON body, including the `omitempty` rule for updates;
  - which status each write accepts: 201 for create, 200 for update, 204 for delete;
  - that the three GETs accept any status;
  - what a failure's error text contains.

  The client is the class `Meraki.Client`. It appends every request it sends to `sent`, and
  each endpoint's server answer is scripted in a `...Reply` field (`HttpReply`). An answer is
  either a transport failure, or a status, a raw body and the result of decoding that body.
- `Networks` (internal/provider/configure/networks/network_resource.go): the `network`
  resource's Create, Read, Update and Delete. They are methods of `NetworkResource`, which
  calls a `Meraki.Client`. Create, Read and Update return the state they write (`None` when
  they write none) and the diagnostics they add; Delete returns only its diagnostics. The methods say which request went to the client and what the
  new state is. The functions `CreateRequestFor`, `CreatedState`, `RefreshedState`,
  `UpdateRequestFor` and `UpdatedState` describe the same transitions, so that lemmas can relate
  several calls.
- `Organizations` (internal/provider/configure/organizations/org_data_source.go and
  orgs_data_source.go): the `org` data source flattens one organization into state. The
  `orgs` data source lists the ids of all organizations, in order.
- `Wrappers`, `Slices`, `Framework`: `Option`/`Result`, Go slices (`None` is a nil slice), and
  the plugin framework's null strings (`Option<string>`, `ValueString`) and error diagnostics.

Framework strings and lists are modelled as `Option` with plain equality. Lists are compared in
order, as `types.List.Equal` does.

The model follows the code. A later design of this resource behaves differently:
- it keeps the URL sticky on read;
- it has notes;
- it uses set semantics for tags and product types;
- it defaults absent product types to all seven types;
- it skips an update whose diff is empty.

None of that is in this code, so none of it is modelled. Here, Read overwrites the URL
(network_resource.go:204), Create always sends `["systemsManager"]` (network_resource.go:135),
and Update calls the client even with an empty diff (network_resource.go:245). `RefreshKeepsOnlyTags` states the first
(a read depends on the prior state only through its tags, so every other attribute, the URL
included, comes from the server), `CreateSendsPlanNameAndSystemsManager` the second, and
`UpdateSendsOnlyChangedFields` together with the `ensures` of `Networks.NetworkResource.Update`
(one PUT is logged whatever the diff, with an empty payload when nothing changed) the third.

Two further details of the code, kept as written:
- The delete failure text begins with "Failed to update network" (meraki/client.go:254).
- Create leaves product types and tags at their zero value whatever the plan held, and the
  model reads that as null, so the next read fills in the product types
  (`Networks.ReadAfterCreate`).

## Model

| member | source | states |
|---|---|---|
| `Meraki.OrganizationUrlRoundTrip` | meraki/client.go:111 | the organization id can be read back from `base_url + "/organizations/" + orgID` |
| `Meraki.OrganizationNetworksUrlNested` | meraki/client.go:135 | the create-network URL is the organization URL of `orgID + "/networks"` |
| `Meraki.NetworkUrlRoundTrip` | meraki/client.go:175 | the network id can be read back from `base_url + "/networks/" + id`, so distinct ids give distinct endpoints |
| `Meraki.NetworkAndOrganizationUrlsDiffer` | meraki/client.go:111-175 | no network URL parses as an organization URL, and no organization URL parses as a network URL |
| `Meraki.NetworkRequestsShareEndpoint` | meraki/client.go:175-239 | get, update and delete of one id all target `/networks/{id}`; only the update carries a body |
| `Meraki.AuthorizationHeader` | meraki/client.go:94 | the header is `Authorization`, and its value is a bearer credential holding exactly the token |
| `Meraki.EveryRequestCarriesToken` | meraki/client.go:94-245 | each of the six requests carries the client's token as `Authorization: Bearer <token>` |
| `Meraki.CreatePayload` | meraki/client.go:50-55 | the create body always has the four keys `name`, `productTypes`, `timeZone`, `tags`, in that order |
| `Meraki.CreatePayloadMembers` | meraki/client.go:50-55 | each create key holds its field's value; a nil slice is sent as `null` |
| `Meraki.CreatePayloadRoundTrip` | meraki/client.go:50-55 | decoding the create payload object (the key/value members, before marshalling to text) gives back the request, nil slices included |
| `Meraki.UpdatePayload` | meraki/client.go:57-60 | the update body has `name` iff Name is non-empty, has `timeZone` iff TimeZone is non-empty, and is empty iff both are empty |
| `Meraki.UpdatePayloadRoundTrip` | meraki/client.go:57-60 | decoding the update payload object (the key/value members, before marshalling to text), with absent keys read as "", gives back the request |
| `Meraki.GetIgnoresStatus` | meraki/client.go:101-107 | a GET's result does not depend on the status; it succeeds iff the body decodes |
| `Meraki.CreateNetworkResult` | meraki/client.go:153-171 | create succeeds iff the status is 201 and the body decodes, and then returns the decoded network |
| `Meraki.UpdateNetworkResult` | meraki/client.go:217-235 | update succeeds iff the status is 200 and the body decodes, and then returns the decoded network |
| `Meraki.DeleteNetworkResult` | meraki/client.go:246-256 | delete returns nil iff the status is 204; a transport error is returned as it is, before any status is looked at |
| `Meraki.CreateFailureTextCarriesDiagnosis` | meraki/client.go:157 | the create failure text contains the URL, the marshalled body and the response body |
| `Meraki.UpdateFailureTextCarriesDiagnosis` | meraki/client.go:221 | the update failure text contains the URL, the marshalled body and the response body |
| `Meraki.DeleteFailureTextCarriesDiagnosis` | meraki/client.go:254 | the delete failure text contains the URL and the response body |
| `Meraki.WriteStatusFailuresAreDiagnosable` | meraki/client.go:155-254 | a write answered with a status it does not accept fails, and its error names the endpoint, the request body it sent (none for delete) and the response body |
| `Meraki.Client.GetOrganizations` | meraki/client.go:86-108 | sends one GET to `/organizations` and returns what the body decodes to, whatever the status |
| `Meraki.Client.GetOrganization` | meraki/client.go:110-132 | sends one GET to `/organizations/{orgID}` and returns what the body decodes to |
| `Meraki.Client.CreateNetwork` | meraki/client.go:134-172 | sends one POST with a JSON content type, the bearer header and the marshalled create body; the result is as `CreateNetworkResult` states |
| `Meraki.Client.GetNetwork` | meraki/client.go:174-196 | sends one GET to `/networks/{id}` and returns what the body decodes to |
| `Meraki.Client.UpdateNetwork` | meraki/client.go:198-236 | sends one PUT with the marshalled update body; the result is as `UpdateNetworkResult` states |
| `Meraki.Client.DeleteNetwork` | meraki/client.go:238-257 | sends one DELETE to `/networks/{id}`; the error is as `DeleteNetworkResult` states |
| `Networks.CreateSendsPlanNameAndSystemsManager` | internal/provider/configure/networks/network_resource.go:132-136 | create sends the plan's name and time zone, product types `["systemsManager"]` and tags `null` |
| `Networks.CreateRequestIgnoresPlanProductTypesAndTags` | internal/provider/configure/networks/network_resource.go:132-136 | the create request depends on the plan only through its name and time zone |
| `Networks.ReadAfterCreate` | internal/provider/configure/networks/network_resource.go:155-206 | created state has null product types and tags; reading the same record back only fills in the product types |
| `Networks.RefreshKeepsOnlyTags` | internal/provider/configure/networks/network_resource.go:190-206 | read keeps the prior tags and depends on the prior state through them alone |
| `Networks.RefreshIdempotent` | internal/provider/configure/networks/network_resource.go:190-206 | reading the same remote record twice gives the same state as reading it once |
| `Networks.UpdateSendsOnlyChangedFields` | internal/provider/configure/networks/network_resource.go:238-245 | the update body has `name` iff plan and state names differ and the plan's name is non-empty, the same for `timeZone`, and is `{}` when neither differs |
| `Networks.UpdateCarriesPlanValues` | internal/provider/configure/networks/network_resource.go:238-243 | the decoded update holds the plan's value for a field that differs and "" for one that does not |
| `Networks.UpdateChangesOnlyNameAndTimeZone` | internal/provider/configure/networks/network_resource.go:251-252 | after update, Name and TimeZone are the reply's and every other attribute is the prior state's |
| `Networks.UpdateConverges` | internal/provider/configure/networks/network_resource.go:238-252 | after an update the server echoed, applying the same plan again sends an empty body |
| `Networks.NetworkResource.Create` | internal/provider/configure/networks/network_resource.go:107-169 | sends exactly one create request for the plan's org id; on success writes the reply's ID, OrgID, Name, TimeZone and URL with null lists; on error adds "Failed to create network" and writes no state |
| `Networks.NetworkResource.Read` | internal/provider/configure/networks/network_resource.go:171-219 | fetches by the state's id; on success replaces ID, OrgID, Name, TimeZone, URL and ProductTypes with the remote values and keeps Tags; on error adds a diagnostic and writes no state |
| `Networks.NetworkResource.Update` | internal/provider/configure/networks/network_resource.go:221-260 | a product-type change adds an error and sends nothing; otherwise sends the per-field diff, even an empty one, for the state's id; on success only Name and TimeZone change, to the reply's values; on error no state is written |
| `Networks.NetworkResource.Delete` | internal/provider/configure/networks/network_resource.go:262-276 | sends a delete for the stored id; any error becomes a "Failed to delete network" diagnostic |
| `Organizations.FlattenOrganization` | internal/provider/configure/organizations/org_data_source.go:107-116 | state takes ID, Name, `API.Enabled`, `Licensing.Model` and `Cloud.Region.Name` from the reply; ManagementDetails is non-nil, as long as `Management.Details`, in the same order, and empty when there are none |
| `Organizations.OrganizationDataSource.Read` | internal/provider/configure/organizations/org_data_source.go:90-123 | looks up the configured id; on success the state is the flattened reply, whose ID is the reply's; on failure adds a diagnostic and sets no state |
| `Organizations.IdsPreserveOrder` | internal/provider/configure/organizations/orgs_data_source.go:73-77 | `len(IDs) == len(orgs)` and `IDs[i] == orgs[i].ID`; the list is nil iff there are no organizations |
| `Organizations.CollectIds` | internal/provider/configure/organizations/orgs_data_source.go:75-77 | the append loop builds exactly `Ids(orgs)` |
| `Organizations.OrganizationsDataSource.Read` | internal/provider/configure/organizations/orgs_data_source.go:65-85 | reads no configuration; on success the state is the ids of the reply in order; on failure adds a diagnostic and sets no state |

## Left out

- HTTP transport, reading bodies and `json.Decoder`. They are foreign library calls; each reply is scripted as a transport error, or as a status, a body and a decode result.
- `http.NewRequest` failures (an unparsable URL) and `json.Marshal` failures. Neither is modelled: every request is taken to be built and sent.
- Meraki.Marshal: string escaping is not modelled (`encoding/json` escapes quotes, backslashes, control characters and `<`, `>`, `&`). Because of that, the payload round trips are stated on the key/value object, not on the marshalled text.
- Meraki.CreateNetworkResult: on a transport error the source reads `resp.StatusCode` of a nil response and panics (meraki/client.go:153-155). The model returns the transport error instead; the panic is not modelled.
- Meraki.UpdateNetworkResult: the same nil-response panic (meraki/client.go:217-219) is modelled as returning the transport error.
- The `Content-Type` header and the request log lines (`tflog`) have no effect on state. The header is recorded in the request; logging is not modelled.
- Framework wiring is not modelled: `Metadata`, `Schema`, `ImportState` and internal/provider/provider.go. `Configure` is reduced to the constructor that stores the client.
- Reading the plan, config or prior state and setting state (`Get`/`Set`) are taken to succeed. Their diagnostics, and framework unknown values, are not modelled.
- Networks.NetworkResource.Read: the tag list built at network_resource.go:195-198 is never stored (the assignment is commented out). That loop, and the second append of earlier `diags` at line 200, do not change state and are not modelled.
- Terraform's own checks after apply (a plan value that differs from the applied state) belong to the host and are not modelled.
- Networks.NetworkResource.Create: the state it sets holds zero-value `types.List` values (no element type) for ProductTypes and Tags (network_resource.go:155-163). The model treats each as a typed null list. The plugin framework may instead reject such a value when the state is set, adding a conversion error after the network already exists on the server; that rejection belongs to the framework and is not modelled.
