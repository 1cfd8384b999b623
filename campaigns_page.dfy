/** The campaigns list page: the create form, deleting a campaign, and status colours. */
module CampaignsPage {
  import opened Wrappers
  import opened Types
  import JsString
  import Api
  import Browser

  /** The create form's two inputs. */
  datatype NewCampaignForm = NewCampaignForm(name: string, description: string)

  const BlankForm := NewCampaignForm("", "")

  /**
   * The body a submitted form is sent as, or None when the name is blank after
   * trimming. The name goes as typed; an empty description is left out.
   */
  function CreateRequestFor(form: NewCampaignForm): (r: Option<CreateCampaignRequest>)
    ensures r.None? <==> JsString.AllWhiteSpace(form.name)
    ensures r.Some? ==> r.value.name == form.name
    ensures r.Some? ==> (r.value.description.None? <==> form.description == "")
    ensures r.Some? && form.description != "" ==> r.value.description == Some(form.description)
  {
    if JsString.Trim(form.name) == "" then None
    else Some(CreateCampaignRequest(form.name, if form.description != "" then Some(form.description) else None))
  }

  /** A name with any visible character is accepted, surrounding blanks and all. */
  lemma PaddedNameAccepted(pad: string, name: string, description: string)
    requires JsString.AllWhiteSpace(pad)
    requires name != [] && !JsString.IsWhiteSpace(name[0])
    ensures CreateRequestFor(NewCampaignForm(pad + name + pad, description)).Some?
    ensures CreateRequestFor(NewCampaignForm(pad + name + pad, description)).value.name == pad + name + pad
  {
    assert (pad + name + pad)[|pad|] == name[0];
  }

  /** The opening of the delete confirmation prompt, up to the quote before the name. */
  const DeletePromptHead := "Are you sure you want to delete \""

  /** The text of the delete confirmation prompt: it quotes the campaign's name. */
  function DeletePrompt(campaignName: string): (text: string)
    ensures |text| > |DeletePromptHead| + |campaignName|
    ensures text[..|DeletePromptHead|] == DeletePromptHead && DeletePromptHead[|DeletePromptHead| - 1] == '"'
    ensures text[|DeletePromptHead|..|DeletePromptHead| + |campaignName|] == campaignName
    ensures text[|DeletePromptHead| + |campaignName|] == '"'
  {
    DeletePromptHead + campaignName + "\"? This will also delete all recipients."
  }

  /** The alert after a failed create or delete: the error body's message, else the fallback. */
  function FailureAlert(data: Api.ErrorData, fallback: string): (text: string)
    ensures Truthy(data.message) ==> text == data.message.value
    ensures !Truthy(data.message) ==> text == fallback
  {
    OrElse(data.message, fallback)
  }

  /** The badge classes of each campaign status. */
  function StatusColorClass(s: CampaignStatus): string {
    match s
    case Draft => "bg-gray-100 text-gray-800"
    case Scheduled => "bg-blue-100 text-blue-800"
    case InProgress => "bg-yellow-100 text-yellow-800"
    case Completed => "bg-green-100 text-green-800"
    case Paused => "bg-red-100 text-red-800"
  }

  /** getStatusColor: the colour of the status a string names, and the draft colour for any other string. */
  function StatusColor(status: string): (r: string)
    ensures forall s :: CampaignStatusName(s) == status ==> r == StatusColorClass(s)
    ensures ParseCampaignStatus(status).None? ==> r == StatusColorClass(Draft)
  {
    match ParseCampaignStatus(status)
    case Some(s) => StatusColorClass(s)
    case None => StatusColorClass(Draft)
  }

  /** Distinct statuses get distinct colours, so only unknown strings share the draft colour. */
  lemma StatusColorsDistinct(s1: CampaignStatus, s2: CampaignStatus)
    ensures StatusColorClass(s1) == StatusColorClass(s2) ==> s1 == s2
  {
  }

  /** The page's local state: whether the create form is open, and what it holds. */
  class Page {
    var showCreateForm: bool
    var newCampaign: NewCampaignForm

    constructor ()
      ensures !showCreateForm && newCampaign == BlankForm
    {
      showCreateForm := false;
      newCampaign := BlankForm;
    }

    /** The header button opens the form when closed and closes it when open; the form is kept. */
    method ToggleCreateForm()
      modifies this
      ensures showCreateForm == !old(showCreateForm) && newCampaign == old(newCampaign)
    {
      showCreateForm := !showCreateForm;
    }

    /** The empty-list button opens the form. */
    method OpenCreateForm()
      modifies this
      ensures showCreateForm && newCampaign == old(newCampaign)
    {
      showCreateForm := true;
    }

    /** Typing into the name input. */
    method EditName(value: string)
      modifies this
      ensures newCampaign == old(newCampaign).(name := value) && showCreateForm == old(showCreateForm)
    {
      newCampaign := newCampaign.(name := value);
    }

    /** Typing into the description input. */
    method EditDescription(value: string)
      modifies this
      ensures newCampaign == old(newCampaign).(description := value) && showCreateForm == old(showCreateForm)
    {
      newCampaign := newCampaign.(description := value);
    }

    /**
     * handleCreateCampaign. A blank name alerts and sends nothing. Otherwise the
     * create request is sent; success clears and hides the form and opens the new
     * campaign, failure keeps the form and alerts.
     */
    method HandleCreateCampaign(outcome: Api.Outcome<Campaign>) returns (effects: seq<Browser.Effect>)
      modifies this
      ensures CreateRequestFor(old(newCampaign)).None? ==>
        effects == [Browser.Alert("Campaign name is required")]
        && showCreateForm == old(showCreateForm) && newCampaign == old(newCampaign)
      ensures CreateRequestFor(old(newCampaign)).Some? ==>
        |effects| == 2 && effects[0] == Browser.Send(Api.CreateCampaign(CreateRequestFor(old(newCampaign)).value))
      ensures CreateRequestFor(old(newCampaign)).Some? && outcome.Resolved? ==>
        effects[1] == Browser.Navigate("/campaigns/" + outcome.value.id)
        && !showCreateForm && newCampaign == BlankForm
      ensures CreateRequestFor(old(newCampaign)).Some? && outcome.Rejected? ==>
        effects[1] == Browser.Alert(FailureAlert(outcome.data, "Failed to create campaign"))
        && showCreateForm == old(showCreateForm) && newCampaign == old(newCampaign)
      ensures Browser.Requests(effects) ==
        if JsString.AllWhiteSpace(old(newCampaign.name)) then [] else [Api.CreateCampaign(CreateRequestFor(old(newCampaign)).value)]
    {
      var request := CreateRequestFor(newCampaign);
      if request.None? {
        effects := [Browser.Alert("Campaign name is required")];
        return;
      }
      effects := [Browser.Send(Api.CreateCampaign(request.value))];
      match outcome
      case Resolved(campaign) =>
        newCampaign := BlankForm;
        showCreateForm := false;
        effects := effects + [Browser.Navigate("/campaigns/" + campaign.id)];
      case Rejected(data) =>
        effects := effects + [Browser.Alert(FailureAlert(data, "Failed to create campaign"))];
    }

    /**
     * handleDeleteCampaign: ask for confirmation, quoting the name; nothing
     * more unless confirmed; then one delete for the id, and an alert if it fails.
     */
    method HandleDeleteCampaign(campaignId: string, campaignName: string, confirmed: bool, outcome: Api.Outcome<()>)
      returns (effects: seq<Browser.Effect>)
      ensures |effects| >= 1 && effects[0] == Browser.Confirm(DeletePrompt(campaignName))
      ensures Browser.Requests(effects) == if confirmed then [Api.DeleteCampaign(campaignId)] else []
      ensures !confirmed ==> effects == [Browser.Confirm(DeletePrompt(campaignName))]
      ensures confirmed && outcome.Resolved? ==>
        effects == [Browser.Confirm(DeletePrompt(campaignName)), Browser.Send(Api.DeleteCampaign(campaignId))]
      ensures confirmed && outcome.Rejected? ==>
        effects == [Browser.Confirm(DeletePrompt(campaignName)), Browser.Send(Api.DeleteCampaign(campaignId)),
                    Browser.Alert(FailureAlert(outcome.data, "Failed to delete campaign"))]
    {
      var prompt := [Browser.Confirm(DeletePrompt(campaignName))];
      var rest: seq<Browser.Effect> := [];
      if confirmed {
        rest := [Browser.Send(Api.DeleteCampaign(campaignId))];
        if outcome.Rejected? {
          rest := rest + [Browser.Alert(FailureAlert(outcome.data, "Failed to delete campaign"))];
        }
      }
      assert Browser.Requests(prompt) == [] by { assert prompt[1..] == []; }
      Browser.RequestsOfConcat(prompt, rest);
      effects := prompt + rest;
    }
  }
}
