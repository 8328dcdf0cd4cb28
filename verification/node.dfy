/**
 * The Node example bot (`discord-bot-example.js`): the `/venue-search`
 * handler, the directory query with its empty-list fallback, and the embed
 * of up to five venues.
 */
module NodeBot {
  import opened Wrappers
  import opened Text
  import opened Values
  import opened Venues
  import opened Embeds
  import opened Webhooks

  /** The query string sent to the venue directory. */
  datatype DirectoryQuery = DirectoryQuery(server: string, district: string, ward: string, plot: string)

  /**
   * What the directory answers: nothing at all (a network error or an error
   * status, which the HTTP client throws), or a response whose `venues` may
   * be missing.
   */
  datatype DirectoryReply = Unreachable | Answered(venues: Option<seq<Venue>>)

  /** The outcome of fetching the channel: a thrown error, `null`, or a channel. */
  datatype ChannelFetch = FetchFailed | NoChannel | ChannelFound

  /** The error JavaScript throws while formatting. */
  datatype JsError = JsTypeError

  /** JavaScript's `String(x)` for an optional string field. */
  function JsText(s: Option<string>): string {
    s.GetOr("undefined")
  }

  /**
   * The query parameters; `None` when `ward.toString()` or `plot.toString()`
   * throws because the field is `undefined` or `null`.
   */
  function Query(loc: SearchLocation): (q: Option<DirectoryQuery>)
    ensures q.Some? <==> JsToString(loc.ward).Some? && JsToString(loc.plot).Some?
  {
    match (JsToString(loc.ward), JsToString(loc.plot))
    case (Some(ward), Some(plot)) => Some(DirectoryQuery(JsText(loc.server), JsText(loc.district), ward, plot))
    case _ => None
  }

  /**
   * `searchFFXIVVenues`: the directory's `venues` list when the query is
   * built and answered with one; an empty list on every failure. It never
   * throws.
   */
  function SearchDirectory(loc: SearchLocation, reply: DirectoryReply): (r: seq<Venue>)
    ensures r == [] || (Query(loc).Some? && reply == Answered(Some(r)))
    ensures Query(loc).Some? && reply.Answered? && reply.venues.Some? ==> r == reply.venues.value
  {
    match Query(loc)
    case None => []
    case Some(_) =>
      match reply
      case Unreachable => []
      case Answered(venues) => venues.GetOr([])
  }

  /** A request whose ward or plot is absent never reaches the directory and finds nothing. */
  lemma MissingNumberFindsNothing(loc: SearchLocation, reply: DirectoryReply)
    requires loc.ward.Missing? || loc.plot.Missing?
    ensures SearchDirectory(loc, reply) == []
  {
  }

  const NoDescriptionText := "No description available"

  /** The longest description prefix shown. */
  const DescriptionPrefix := 100

  /**
   * The description part: a non-empty text is cut to its first 100
   * characters and "..." is appended whether or not anything was cut; a
   * missing or empty one reads "No description available"; a paragraph
   * list has no `substring` and throws.
   */
  function DescriptionText(d: Description): (r: Result<string, JsError>)
    ensures r.Err? <==> d.DescLines?
    ensures d.NoDescription? || d == DescText("") ==> r == Ok(NoDescriptionText)
    ensures d.DescText? && d.text != "" ==>
      && r.Ok?
      && |r.value| == Min(DescriptionPrefix, |d.text|) + 3
      && r.value[..Min(DescriptionPrefix, |d.text|)] == d.text[..Min(DescriptionPrefix, |d.text|)]
      && r.value[Min(DescriptionPrefix, |d.text|)..] == "..."
  {
    match d
    case NoDescription => Ok(NoDescriptionText)
    case DescText(s) =>
      if s != "" then Ok(s[..Min(DescriptionPrefix, |s|)] + "...") else Ok(NoDescriptionText)
    case DescLines(_) => Err(JsTypeError)
  }

  /** A short description is shown whole, with "..." added anyway. */
  lemma ShortDescriptionGetsEllipsis(s: string)
    requires 0 < |s| <= DescriptionPrefix
    ensures DescriptionText(DescText(s)) == Ok(s + "...")
  {
    assert s[..Min(DescriptionPrefix, |s|)] == s;
  }

  // The template literal escapes its backslash, so the field text carries
  // a backslash followed by `n` where a line break was meant.
  const Break := "\\n"

  /** The optional trailing tags line: every tag, comma separated. */
  function TagsPart(tags: seq<string>): string {
    if |tags| > 0 then Break + "**Tags:** " + Join(", ", tags) else ""
  }

  /** The text of one venue field. */
  function VenueText(v: Venue): Result<string, JsError> {
    match DescriptionText(v.description)
    case Err(e) => Err(e)
    case Ok(desc) =>
      Ok(desc + Break
         + (if v.website != "" then "[Website](" + v.website + ")" else "")
         + (if v.discord != "" then " \U{2022} [Discord](" + v.discord + ")" else "")
         + TagsPart(v.tags))
  }

  /**
   * Tags only ever add a trailing line: the text without tags is a prefix of
   * the text with them, and the two are equal exactly when there are none.
   */
  lemma TagsLineOnlyWhenTagged(v: Venue)
    requires VenueText(v).Ok?
    ensures VenueText(v.(tags := [])).Ok?
    ensures VenueText(v.(tags := [])).value <= VenueText(v).value
    ensures VenueText(v.(tags := [])).value == VenueText(v).value <==> v.tags == []
  {
    var base := VenueText(v.(tags := [])).value;
    assert VenueText(v).value == base + TagsPart(v.tags);
    if v.tags != [] {
      assert |TagsPart(v.tags)| > 0;
    }
  }

  /** The field of one venue, titled with the venue's name. */
  function VenueField(v: Venue): (r: Result<EmbedField, JsError>)
    ensures r.Ok? <==> VenueText(v).Ok?
    ensures r.Ok? ==> r.value.name == v.name && r.value.value == VenueText(v).value
  {
    match VenueText(v)
    case Err(e) => Err(e)
    case Ok(text) => Ok(EmbedField(v.name, text, false))
  }

  /**
   * The venue fields in list order; the first venue whose field throws
   * aborts the whole list, as in `forEach`.
   */
  function VenueFields(vs: seq<Venue>): (r: Result<seq<EmbedField>, JsError>)
    ensures r.Ok? <==> forall i :: 0 <= i < |vs| ==> VenueField(vs[i]).Ok?
    ensures r.Ok? ==>
      && |r.value| == |vs|
      && forall i :: 0 <= i < |vs| ==> r.value[i] == VenueField(vs[i]).value && r.value[i].name == vs[i].name
  {
    MapResults(VenueField, vs)
  }


  const NoVenuesField := EmbedField("No Venues Found",
    "No venues were found at this location in the FFXIVVenues database.", false)
  const AdditionalName := "Additional Venues"

  /** The most venues the embed lists one by one. */
  const MaxVenueFields := 5

  function AdditionalField(hidden: nat): EmbedField {
    EmbedField(AdditionalName, "... and " + ShowNat(hidden) + " more venues found.", false)
  }

  /**
   * `createVenueEmbed`: one "No Venues Found" field for no venues;
   * otherwise the first five venues' fields in order and an "Additional
   * Venues" field counting the rest exactly when more than five were found.
   */
  function Embed(venues: seq<Venue>): (r: Result<seq<EmbedField>, JsError>)
    ensures venues == [] ==> r == Ok([NoVenuesField])
    ensures venues != [] ==>
      (r.Ok? <==> forall i :: 0 <= i < Min(MaxVenueFields, |venues|) ==> VenueField(venues[i]).Ok?)
    ensures venues != [] && r.Ok? ==>
      && |r.value| == Min(MaxVenueFields, |venues|) + (if |venues| > MaxVenueFields then 1 else 0)
      && (forall i :: 0 <= i < Min(MaxVenueFields, |venues|) ==>
            r.value[i] == VenueField(venues[i]).value && r.value[i].name == venues[i].name)
      && (|venues| > MaxVenueFields ==> r.value[|r.value| - 1] == AdditionalField(|venues| - MaxVenueFields))
  {
    if venues == [] then Ok([NoVenuesField])
    else
      var shown := venues[..Min(MaxVenueFields, |venues|)];
      assert forall i :: 0 <= i < |shown| ==> shown[i] == venues[i];
      match VenueFields(shown)
      case Err(e) => Err(e)
      case Ok(fields) =>
        if |venues| > MaxVenueFields then Ok(fields + [AdditionalField(|venues| - MaxVenueFields)])
        else Ok(fields)
  }

  const MissingFields := "Missing required fields"

  /**
   * The `/venue-search` route. `reply` is the directory's answer, `fetch`
   * the channel lookup, `sendOk` whether posting succeeds; any throw inside
   * the handler becomes 500.
   */
  function Handle(req: WebhookRequest, reply: DirectoryReply, fetch: ChannelFetch, sendOk: bool): (o: Outcome)
    ensures req.location.None? || !JsTruthy(req.channelId) <==> o == Rejected(400, MissingFields)
    ensures o.status == 400 ==> !o.searched && o.sent.None?
    ensures o.status == 200 <==>
      && req.location.Some? && JsTruthy(req.channelId) && fetch == ChannelFound
      && Embed(SearchDirectory(req.location.value, reply)).Ok? && sendOk
    ensures o.status == 200 ==>
      var venues := SearchDirectory(req.location.value, reply);
      o.body == Posted(|venues|) && o.sent == Some(Embed(venues).value)
  {
    if req.location.None? || !JsTruthy(req.channelId) then Rejected(400, MissingFields)
    else
      var venues := SearchDirectory(req.location.value, reply);
      match fetch
      case FetchFailed => Outcome(500, Failed(InternalError), true, None)
      case NoChannel => Outcome(404, Failed(ChannelNotFound), true, None)
      case ChannelFound =>
        match Embed(venues)
        case Err(_) => Outcome(500, Failed(InternalError), true, None)
        case Ok(fields) =>
          if sendOk then Outcome(200, Posted(|venues|), true, Some(fields))
          else Outcome(500, Failed(InternalError), true, Some(fields))
  }

  /**
   * An incomplete request is refused the same way whatever the directory,
   * the channel lookup and the post would do.
   */
  lemma RejectionPrecedesSearch(req: WebhookRequest, reply: DirectoryReply, reply': DirectoryReply,
                                fetch: ChannelFetch, fetch': ChannelFetch, sendOk: bool, sendOk': bool)
    requires Handle(req, reply, fetch, sendOk).status == 400
    ensures Handle(req, reply', fetch', sendOk') == Handle(req, reply, fetch, sendOk)
  {
  }
}
