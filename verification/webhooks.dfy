/**
 * What the plugin posts to a bot's `/venue-search` endpoint and what the bot
 * answers, with the request checks the two Python bots share.
 */
module Webhooks {
  import opened Wrappers
  import opened Values
  import opened Venues
  import opened Embeds

  /**
   * The JSON body of a search request: the location object (`None` when
   * absent or `null`) and the raw `discordChannelId`. `requestedBy` only
   * reaches the embed footer, which is not modelled.
   */
  datatype WebhookRequest = WebhookRequest(location: Option<SearchLocation>, channelId: JsonValue)

  /** The JSON body of the answer: success with a venue count, or an error message. */
  datatype ReplyBody = Posted(venuesFound: nat) | Failed(message: string)

  /**
   * One handled request: the HTTP status and body, whether the venue search
   * ran, and the embed fields handed to the channel, if any.
   */
  datatype Outcome = Outcome(status: int, body: ReplyBody, searched: bool, sent: Option<seq<EmbedField>>)

  const InternalError := "Internal server error"
  const ChannelNotFound := "Discord channel not found"
  const PyMissingFields := "Missing required fields: location and discordChannelId"
  const PyInvalidChannel := "Invalid Discord channel ID"

  /** An error answer before any search or post. */
  function Rejected(status: int, message: string): Outcome {
    Outcome(status, Failed(message), false, None)
  }

  /** The Python bots' first check: a non-empty location and a truthy channel id. */
  predicate PyRequestComplete(req: WebhookRequest) {
    req.location.Some? && LocationNonEmpty(req.location.value) && PyTruthy(req.channelId)
  }
}
