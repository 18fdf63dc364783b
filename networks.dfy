/**
 * The `network` resource: Create, Read, Update and Delete of one Meraki network,
 * run against a `Meraki.Client`. Create, Read and Update return the state they write
 * (`None` when they write none) and the diagnostics they add; Delete returns only its
 * diagnostics.
 */
module Networks {
  import opened Wrappers
  import opened Slices
  import opened Framework
  import Meraki

  /** The resource's Terraform state; `None` is a null attribute. Lists keep their order. */
  datatype NetworkResourceModel = NetworkResourceModel(
    ID: Option<string>,
    OrgID: Option<string>,
    Name: Option<string>,
    ProductTypes: Option<seq<string>>,
    TimeZone: Option<string>,
    Tags: Option<seq<string>>,
    URL: Option<string>)

  /** A state with every attribute null: Go's zero `NetworkResourceModel`. */
  const EmptyState: NetworkResourceModel :=
    NetworkResourceModel(None, None, None, None, None, None, None)

  /** The one product type every created network gets. */
  const CreatedProductTypes: seq<string> := ["systemsManager"]

  const CreateFailed: string := "Failed to create network"
  const ReadFailed: string := "Failed to get network"
  const UpdateFailed: string := "Failed to update network"
  const DeleteFailed: string := "Failed to delete network"
  const ProductTypesChanged: string := "Can't not change ProductTypes"

  // ---------------------------------------------------------------------------
  // The transitions as functions of their inputs
  // ---------------------------------------------------------------------------

  /** The create request built from a plan. */
  function CreateRequestFor(plan: NetworkResourceModel): Meraki.NetworkCreateRequest
  {
    Meraki.NetworkCreateRequest(ValueString(plan.Name), Some(CreatedProductTypes),
                                ValueString(plan.TimeZone), None)
  }

  /** The state written after the server created network `n`. */
  function CreatedState(n: Meraki.Network): NetworkResourceModel
  {
    EmptyState.(ID := Some(n.ID), OrgID := Some(n.OrgID), Name := Some(n.Name),
                TimeZone := Some(n.TimeZone), URL := Some(n.URL))
  }

  /** The state written after reading `n` over the prior state `prior`. */
  function RefreshedState(prior: NetworkResourceModel, n: Meraki.Network): NetworkResourceModel
  {
    prior.(ID := Some(n.ID), OrgID := Some(n.OrgID), Name := Some(n.Name),
           TimeZone := Some(n.TimeZone), URL := Some(n.URL), ProductTypes := n.ProductTypes)
  }

  /** The update request: a field is set only where plan and state disagree. */
  function UpdateRequestFor(plan: NetworkResourceModel, prior: NetworkResourceModel)
    : Meraki.NetworkUpdateRequest
  {
    Meraki.NetworkUpdateRequest(
      if plan.Name != prior.Name then ValueString(plan.Name) else "",
      if plan.TimeZone != prior.TimeZone then ValueString(plan.TimeZone) else "")
  }

  /** The state written after the server answered an update with `n`. */
  function UpdatedState(prior: NetworkResourceModel, n: Meraki.Network): NetworkResourceModel
  {
    prior.(TimeZone := Some(n.TimeZone), Name := Some(n.Name))
  }

  // ---------------------------------------------------------------------------
  // Properties of the transitions
  // ---------------------------------------------------------------------------

  /**
   * What create puts on the wire: the plan's name and time zone, the product types
   * `["systemsManager"]` and a `null` tag list, whatever the plan holds for either.
   */
  lemma CreateSendsPlanNameAndSystemsManager(plan: NetworkResourceModel)
    ensures var o := Meraki.CreatePayload(CreateRequestFor(plan));
      && Meraki.DecodeCreatePayload(o).Name == ValueString(plan.Name)
      && Meraki.DecodeCreatePayload(o).TimeZone == ValueString(plan.TimeZone)
      && Meraki.Lookup(o, "productTypes") == Some(Meraki.JStrings(["systemsManager"]))
      && Meraki.Lookup(o, "tags") == Some(Meraki.JNull)
  {
    Meraki.CreatePayloadMembers(CreateRequestFor(plan));
  }

  /** Two plans that agree on name and time zone produce the same create request. */
  lemma CreateRequestIgnoresPlanProductTypesAndTags(p: NetworkResourceModel, q: NetworkResourceModel)
    requires p.Name == q.Name && p.TimeZone == q.TimeZone
    ensures CreateRequestFor(p) == CreateRequestFor(q)
  {
  }

  /**
   * After create, identity and naming come from the server's reply and the two lists
   * are null: a later read fills in product types, and nothing but that changes.
   */
  lemma ReadAfterCreate(n: Meraki.Network)
    ensures CreatedState(n).ProductTypes.None? && CreatedState(n).Tags.None?
    ensures RefreshedState(CreatedState(n), n) == CreatedState(n).(ProductTypes := n.ProductTypes)
  {
  }

  /** Read depends on the prior state only through its tags, which it keeps. */
  lemma RefreshKeepsOnlyTags(p: NetworkResourceModel, q: NetworkResourceModel, n: Meraki.Network)
    ensures RefreshedState(p, n).Tags == p.Tags
    ensures p.Tags == q.Tags ==> RefreshedState(p, n) == RefreshedState(q, n)
  {
  }

  /** Reading the same remote record twice changes nothing the second time. */
  lemma RefreshIdempotent(p: NetworkResourceModel, n: Meraki.Network)
    ensures RefreshedState(RefreshedState(p, n), n) == RefreshedState(p, n)
  {
  }

  /**
   * What update puts on the wire: `name` exactly when the plan's name differs from the
   * state's and is not empty, `timeZone` likewise; with no difference the body is `{}`.
   */
  lemma UpdateSendsOnlyChangedFields(plan: NetworkResourceModel, prior: NetworkResourceModel)
    ensures var o := Meraki.UpdatePayload(UpdateRequestFor(plan, prior));
      && ("name" in Meraki.Keys(o) <==> plan.Name != prior.Name && ValueString(plan.Name) != "")
      && ("timeZone" in Meraki.Keys(o) <==>
            plan.TimeZone != prior.TimeZone && ValueString(plan.TimeZone) != "")
      && (plan.Name == prior.Name && plan.TimeZone == prior.TimeZone ==> Meraki.Marshal(o) == "{}")
  {
  }

  /** The decoded update carries the plan's value for each changed field and "" otherwise. */
  lemma UpdateCarriesPlanValues(plan: NetworkResourceModel, prior: NetworkResourceModel)
    ensures var u := Meraki.DecodeUpdatePayload(Meraki.UpdatePayload(UpdateRequestFor(plan, prior)));
      && u.Name == (if plan.Name != prior.Name then ValueString(plan.Name) else "")
      && u.TimeZone == (if plan.TimeZone != prior.TimeZone then ValueString(plan.TimeZone) else "")
  {
    Meraki.UpdatePayloadRoundTrip(UpdateRequestFor(plan, prior));
  }

  /** A successful update changes name and time zone only, to the server's values. */
  lemma UpdateChangesOnlyNameAndTimeZone(prior: NetworkResourceModel, n: Meraki.Network)
    ensures var s := UpdatedState(prior, n);
      && s.Name == Some(n.Name) && s.TimeZone == Some(n.TimeZone)
      && s.(Name := prior.Name, TimeZone := prior.TimeZone) == prior
  {
  }

  /**
   * Applying the same plan again after an update the server echoed sends an empty
   * body: the plan now agrees with the state on every field update compares.
   */
  lemma UpdateConverges(plan: NetworkResourceModel, prior: NetworkResourceModel, n: Meraki.Network)
    requires plan.Name == Some(n.Name) && plan.TimeZone == Some(n.TimeZone)
    ensures var next := UpdatedState(prior, n);
      Meraki.UpdatePayload(UpdateRequestFor(plan, next)) == []
  {
  }

  // ---------------------------------------------------------------------------
  // The resource
  // ---------------------------------------------------------------------------

  class NetworkResource {
    const client: Meraki.Client

    /** The resource after `Configure` handed it the provider's client. */
    constructor (client: Meraki.Client)
      ensures this.client == client
    {
      this.client := client;
    }

    /**
     * Sends the create request for the plan to the plan's organization; on success writes
     * the state built from the reply, otherwise adds a diagnostic and writes nothing.
     */
    method Create(plan: NetworkResourceModel)
      returns (state: Option<NetworkResourceModel>, diags: seq<Diagnostic>)
      modifies client`sent
      ensures client.sent ==
        old(client.sent) + [Meraki.CreateNetworkRequest(client.token, ValueString(plan.OrgID),
                                                        CreateRequestFor(plan))]
      ensures var r := Meraki.CreateNetworkResult(ValueString(plan.OrgID), CreateRequestFor(plan),
                                                  client.createReply);
        if r.Ok? then state == Some(CreatedState(r.value)) && diags == []
        else state == None && diags == [CallFailure(CreateFailed, r.error)]
    {
      var networkReqData := Meraki.NetworkCreateRequest(
        ValueString(plan.Name), Some(["systemsManager"]), ValueString(plan.TimeZone), None);
      var network := client.CreateNetwork(ValueString(plan.OrgID), networkReqData);
      if network.Err? {
        state, diags := None, [CallFailure(CreateFailed, network.error)];
        return;
      }
      var s := EmptyState;
      s := s.(ID := Some(network.value.ID));
      s := s.(OrgID := Some(network.value.OrgID));
      s := s.(Name := Some(network.value.Name));
      s := s.(TimeZone := Some(network.value.TimeZone));
      s := s.(URL := Some(network.value.URL));
      state, diags := Some(s), [];
    }

    /**
     * Fetches the network by the state's id; on success overwrites every attribute but
     * the tags from the remote record, otherwise adds a diagnostic and writes nothing.
     */
    method Read(prior: NetworkResourceModel)
      returns (state: Option<NetworkResourceModel>, diags: seq<Diagnostic>)
      modifies client`sent
      ensures client.sent ==
        old(client.sent) + [Meraki.GetNetworkRequest(client.token, ValueString(prior.ID))]
      ensures var r := Meraki.GetResult(client.networkReply);
        if r.Ok? then state == Some(RefreshedState(prior, r.value)) && diags == []
        else state == None && diags == [CallFailure(ReadFailed, r.error)]
    {
      var s := prior;
      var network := client.GetNetwork(ValueString(s.ID));
      if network.Err? {
        state, diags := None, [CallFailure(ReadFailed, network.error)];
        return;
      }
      s := s.(ID := Some(network.value.ID));
      s := s.(OrgID := Some(network.value.OrgID));
      s := s.(Name := Some(network.value.Name));
      s := s.(TimeZone := Some(network.value.TimeZone));
      s := s.(URL := Some(network.value.URL));
      s := s.(ProductTypes := network.value.ProductTypes);
      state, diags := Some(s), [];
    }

    /**
     * Refuses a change of product types without calling the client. Otherwise sends the
     * per-field diff (even an empty one) for the state's id; on success takes name and
     * time zone from the reply and keeps the rest of the prior state.
     */
    method Update(plan: NetworkResourceModel, prior: NetworkResourceModel)
      returns (state: Option<NetworkResourceModel>, diags: seq<Diagnostic>)
      modifies client`sent
      ensures plan.ProductTypes != prior.ProductTypes ==>
        && client.sent == old(client.sent)
        && state == None
        && diags == [Error(ProductTypesChanged, ProductTypesChanged)]
      ensures plan.ProductTypes == prior.ProductTypes ==>
        && client.sent == old(client.sent) +
             [Meraki.UpdateNetworkRequest(client.token, ValueString(prior.ID),
                                          UpdateRequestFor(plan, prior))]
        && var r := Meraki.UpdateNetworkResult(ValueString(prior.ID), UpdateRequestFor(plan, prior),
                                               client.updateReply);
           if r.Ok? then state == Some(UpdatedState(prior, r.value)) && diags == []
           else state == None && diags == [CallFailure(UpdateFailed, r.error)]
    {
      var s := prior;
      var networkUpdateReqData := Meraki.NetworkUpdateRequest("", "");
      if plan.ProductTypes != s.ProductTypes {
        state, diags := None, [Error(ProductTypesChanged, ProductTypesChanged)];
        return;
      }
      if plan.Name != s.Name {
        networkUpdateReqData := networkUpdateReqData.(Name := ValueString(plan.Name));
      }
      if plan.TimeZone != s.TimeZone {
        networkUpdateReqData := networkUpdateReqData.(TimeZone := ValueString(plan.TimeZone));
      }
      var network := client.UpdateNetwork(ValueString(s.ID), networkUpdateReqData);
      if network.Err? {
        state, diags := None, [CallFailure(UpdateFailed, network.error)];
        return;
      }
      s := s.(TimeZone := Some(network.value.TimeZone));
      s := s.(Name := Some(network.value.Name));
      state, diags := Some(s), [];
    }

    /** Deletes the network the state's id names; a failure adds a diagnostic. */
    method Delete(prior: NetworkResourceModel) returns (diags: seq<Diagnostic>)
      modifies client`sent
      ensures client.sent ==
        old(client.sent) + [Meraki.DeleteNetworkRequest(client.token, ValueString(prior.ID))]
      ensures var e := Meraki.DeleteNetworkResult(ValueString(prior.ID), client.deleteReply);
        diags == if e.None? then [] else [CallFailure(DeleteFailed, e.value)]
    {
      var err := client.DeleteNetwork(ValueString(prior.ID));
      if err.Some? {
        diags := [CallFailure(DeleteFailed, err.value)];
        return;
      }
      diags := [];
    }
  }
}
