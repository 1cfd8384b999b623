/** The shapes the backend sends and accepts: campaigns, recipients, users, paging. */
module Types {
  import opened Wrappers

  /** Lifecycle of a campaign, as the backend reports it. */
  datatype CampaignStatus = Draft | Scheduled | InProgress | Completed | Paused

  /** Lifecycle of one scheduled email. */
  datatype RecipientStatus = Pending | Sent | Failed | Scheduled | Processing

  /** The wire spelling of a campaign status. */
  function CampaignStatusName(s: CampaignStatus): string {
    match s
    case Draft => "draft"
    case Scheduled => "scheduled"
    case InProgress => "in_progress"
    case Completed => "completed"
    case Paused => "paused"
  }

  /** The campaign status a wire string spells, if any: the inverse of CampaignStatusName. */
  function ParseCampaignStatus(name: string): (r: Option<CampaignStatus>)
    ensures r.Some? ==> CampaignStatusName(r.value) == name
    ensures forall s :: CampaignStatusName(s) == name ==> r == Some(s)
  {
    if name == "draft" then Some(Draft)
    else if name == "scheduled" then Some(CampaignStatus.Scheduled)
    else if name == "in_progress" then Some(InProgress)
    else if name == "completed" then Some(Completed)
    else if name == "paused" then Some(Paused)
    else None
  }

  datatype Campaign = Campaign(
    id: string,
    userId: string,
    name: string,
    description: Option<string>,
    status: CampaignStatus,
    totalRecipients: int,
    sentCount: int,
    failedCount: int,
    createdAt: string,
    updatedAt: string)

  datatype EmailRecipient = EmailRecipient(
    id: string,
    campaignId: string,
    email: string,
    message: string,
    triggerDate: string,
    status: RecipientStatus,
    sentAt: Option<string>,
    error: Option<string>)

  datatype CreateCampaignRequest = CreateCampaignRequest(name: string, description: Option<string>)

  datatype AddRecipientRequest = AddRecipientRequest(email: string, message: string, triggerDate: string)

  /** A partial update: every field may be left out. */
  datatype UpdateRecipientRequest = UpdateRecipientRequest(
    email: Option<string>,
    message: Option<string>,
    triggerDate: Option<string>)

  /** Paging facts computed by the server for one page of recipients. */
  datatype PaginationMetadata = PaginationMetadata(
    currentPage: int,
    totalPages: int,
    totalRecipients: int,
    limit: int,
    hasNextPage: bool,
    hasPreviousPage: bool)

  datatype PaginatedRecipientsResponse = PaginatedRecipientsResponse(
    recipients: seq<EmailRecipient>,
    pagination: PaginationMetadata)

  datatype User = User(
    id: string,
    googleId: string,
    email: string,
    name: string,
    picture: Option<string>,
    createdAt: string,
    lastLogin: string)
}
