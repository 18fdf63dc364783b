/**
 * The two read-only organization data sources: `org`, one organization looked up by id
 * and flattened into state, and `orgs`, the ids of every organization the token sees.
 */
module Organizations {
  import opened Wrappers
  import opened Slices
  import opened Framework
  import Meraki

  /** The `org` data source's state; `None` is a null attribute. */
  datatype OrganizationDataSourceModel = OrganizationDataSourceModel(
    ID: Option<string>,
    Name: Option<string>,
    APIEnabled: Option<bool>,
    LicensingModel: Option<string>,
    CloudRegionName: Option<string>,
    ManagementDetails: Slice<string>)

  /** The `orgs` data source's state; the id list is a Go slice, nil until something is appended. */
  datatype OrganizationsDataSourceModel = OrganizationsDataSourceModel(IDs: Slice<string>)

  const OrganizationFailed: string := "failed to get organization"
  const OrganizationsFailed: string := "failed to get organizations"

  // ---------------------------------------------------------------------------
  // org
  // ---------------------------------------------------------------------------

  /** An organization as the `org` data source stores it: every value taken from the reply. */
  function OrganizationState(org: Meraki.Organization): OrganizationDataSourceModel
  {
    OrganizationDataSourceModel(
      Some(org.ID), Some(org.Name), Some(org.API.Enabled), Some(org.Licensing.Model),
      Some(org.Cloud.Region.Name), Some(Elems(org.Management.Details)))
  }

  /**
   * Flattens the organization into state: ID and Name, `API.Enabled`, `Licensing.Model`,
   * `Cloud.Region.Name`, and a non-nil copy of `Management.Details` in the same order.
   */
  method FlattenOrganization(org: Meraki.Organization) returns (state: OrganizationDataSourceModel)
    ensures state == OrganizationState(org)
    ensures state.ManagementDetails.Some?
    ensures |state.ManagementDetails.value| == |Elems(org.Management.Details)|
    ensures forall i :: 0 <= i < |state.ManagementDetails.value| ==>
              state.ManagementDetails.value[i] == Elems(org.Management.Details)[i]
  {
    state := OrganizationDataSourceModel(None, None, None, None, None, None);
    state := state.(ID := Some(org.ID));
    state := state.(Name := Some(org.Name));
    state := state.(APIEnabled := Some(org.API.Enabled));
    state := state.(LicensingModel := Some(org.Licensing.Model));
    state := state.(CloudRegionName := Some(org.Cloud.Region.Name));
    state := state.(ManagementDetails := Some([]));
    var details := Elems(org.Management.Details);
    var i := 0;
    while i < |details|
      invariant 0 <= i <= |details|
      invariant state == OrganizationState(org).(ManagementDetails := Some(details[..i]))
    {
      assert details[..i + 1] == details[..i] + [details[i]];
      state := state.(ManagementDetails := Append(state.ManagementDetails, details[i]));
      i := i + 1;
    }
    assert details[..i] == details;
  }

  /** The `org` data source, holding the provider's client. */
  class OrganizationDataSource {
    const client: Meraki.Client

    constructor (client: Meraki.Client)
      ensures this.client == client
    {
      this.client := client;
    }

    /**
     * Looks the organization up by the configured id. On success the state is the
     * flattened reply (its id too comes from the reply); on failure a diagnostic is
     * added and no state is set.
     */
    method Read(config: OrganizationDataSourceModel)
      returns (state: Option<OrganizationDataSourceModel>, diags: seq<Diagnostic>)
      modifies client`sent
      ensures client.sent ==
        old(client.sent) + [Meraki.GetOrganizationRequest(client.token, ValueString(config.ID))]
      ensures var r := Meraki.GetResult(client.organizationReply);
        if r.Ok? then state == Some(OrganizationState(r.value)) && diags == []
        else state == None && diags == [CallFailure(OrganizationFailed, r.error)]
    {
      var organization := client.GetOrganization(ValueString(config.ID));
      if organization.Err? {
        state := None;
        diags := [CallFailure(OrganizationFailed, organization.error)];
        return;
      }
      var s := FlattenOrganization(organization.value);
      state, diags := Some(s), [];
    }
  }

  // ---------------------------------------------------------------------------
  // orgs
  // ---------------------------------------------------------------------------

  /** The id list built by appending each organization's id, in order, to a nil slice. */
  function Ids(orgs: seq<Meraki.Organization>): Slice<string>
  {
    if orgs == [] then None else Append(Ids(orgs[..|orgs| - 1]), orgs[|orgs| - 1].ID)
  }

  /**
   * The ids keep the organizations' order, one per organization; the list is nil exactly
   * when there are no organizations.
   */
  lemma {:induction false} IdsPreserveOrder(orgs: seq<Meraki.Organization>)
    ensures Ids(orgs).None? <==> orgs == []
    ensures |Elems(Ids(orgs))| == |orgs|
    ensures forall i :: 0 <= i < |orgs| ==> Elems(Ids(orgs))[i] == orgs[i].ID
  {
    if orgs != [] {
      var init := orgs[..|orgs| - 1];
      IdsPreserveOrder(init);
      forall i | 0 <= i < |orgs|
        ensures Elems(Ids(orgs))[i] == orgs[i].ID
      {
        if i < |init| {
          assert Elems(Ids(orgs))[i] == Elems(Ids(init))[i];
        }
      }
    }
  }

  /** Appends each organization's id to an initially nil list, in the order given. */
  method CollectIds(orgs: seq<Meraki.Organization>) returns (ids: Slice<string>)
    ensures ids == Ids(orgs)
  {
    ids := None;
    var i := 0;
    while i < |orgs|
      invariant 0 <= i <= |orgs|
      invariant ids == Ids(orgs[..i])
    {
      assert orgs[..i + 1][..i] == orgs[..i];
      ids := Append(ids, orgs[i].ID);
      i := i + 1;
    }
    assert orgs[..i] == orgs;
  }

  /** The `orgs` data source, holding the provider's client. */
  class OrganizationsDataSource {
    const client: Meraki.Client

    constructor (client: Meraki.Client)
      ensures this.client == client
    {
      this.client := client;
    }

    /**
     * Lists the organizations; reads no configuration. On success the state holds their
     * ids in order; on failure a diagnostic is added and no state is set.
     */
    method Read() returns (state: Option<OrganizationsDataSourceModel>, diags: seq<Diagnostic>)
      modifies client`sent
      ensures client.sent == old(client.sent) + [Meraki.GetOrganizationsRequest(client.token)]
      ensures var r := Meraki.GetResult(client.organizationsReply);
        if r.Ok? then state == Some(OrganizationsDataSourceModel(Ids(r.value))) && diags == []
        else state == None && diags == [Error(OrganizationsFailed, r.error)]
    {
      var orgs := client.GetOrganizations();
      if orgs.Err? {
        state, diags := None, [Error(OrganizationsFailed, orgs.error)];
        return;
      }
      var ids := CollectIds(orgs.value);
      state, diags := Some(OrganizationsDataSourceModel(ids)), [];
    }
  }
}
