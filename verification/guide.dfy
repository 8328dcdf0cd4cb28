/**
 * The bot integration guide's webhook (`bot-integration-guide.py`): the
 * lenient venue search that ignores the placeholder ward and plot 1 and
 * tolerates unparseable numbers, the three-venue embed, and the request
 * handler.
 */
module GuideBot {
  import opened Wrappers
  import opened Text
  import opened Values
  import opened Venues
  import opened Embeds
  import opened Webhooks

  /**
   * The ward (or plot) rule: it constrains only when the requested number
   * is truthy and not the placeholder 1 and the venue's number is truthy;
   * then the venue is dropped exactly when both parse and differ.
   */
  predicate NumberAgrees(requested: JsonValue, offered: JsonValue) {
    if PyTruthy(requested) && PyTruthy(offered) && requested != Num(1) then
      match (PyInt(offered), PyInt(requested))
      case (Ok(a), Ok(b)) => a == b
      case _ => true
    else true
  }

  /** Whether the search keeps a venue for the requested location. */
  predicate Keep(loc: SearchLocation, v: Venue) {
    && NamesAgree(loc.server.GetOr(""), VenueWorld(v))
    && NamesAgree(loc.district.GetOr(""), VenueDistrict(v))
    && NumberAgrees(loc.ward, VenueWard(v))
    && NumberAgrees(loc.plot, VenuePlot(v))
  }

  /**
   * `search_venues_by_location` over the bot's venue cache: the venues the
   * rules keep, in cache order, none repeated more often than in the cache.
   */
  function Search(loc: SearchLocation, cache: seq<Venue>): (r: seq<Venue>)
    ensures IsSubsequence(r, cache)
    ensures forall i :: 0 <= i < |r| ==> Keep(loc, r[i])
    ensures forall v :: multiset(r)[v] == if Keep(loc, v) then multiset(cache)[v] else 0
  {
    Filter(v => Keep(loc, v), cache)
  }

  /** The placeholder 1 never excludes a venue, whatever the venue's number. */
  lemma PlaceholderIgnored(offered: JsonValue)
    ensures NumberAgrees(Num(1), offered)
  {
  }

  /** An unparseable venue number never excludes a venue. */
  lemma UnparseableKept(requested: JsonValue, s: string)
    requires ParseInt(s).None?
    ensures NumberAgrees(requested, Str(s))
  {
  }

  /**
   * For a real request number (a non-zero integer other than 1) and a venue
   * number that parses, the venue is kept exactly when the numbers are equal.
   */
  lemma NumberRuleOnIntegers(requested: int, offered: JsonValue)
    requires requested != 0 && requested != 1
    requires PyInt(offered).Ok? && PyTruthy(offered)
    ensures NumberAgrees(Num(requested), offered) <==> PyInt(offered).value == requested
  {
  }

  /** A venue without a number of its own is not constrained by the request's. */
  lemma MissingNumberKept(requested: JsonValue)
    ensures NumberAgrees(requested, Missing) && NumberAgrees(requested, Null)
  {
  }

  // Field texts exactly as the file writes them; the emoji in this file
  // were stored mis-decoded, and the constants keep those characters.
  const Bullet := "\U{201A}\U{C4}\U{A2}"
  const Dash := "\U{201A}\U{C4}\U{EC}"
  const NoVenuesName := "\U{201A}\U{F9}\U{E5} No Venues Found"
  const NoVenuesValue :=
    "No venues were found at this location in the FFXIVVenues database.\n\n"
    + "This could mean:\n"
    + Bullet + " No venues are registered at this exact location\n"
    + Bullet + " The venue may be in a different ward/plot\n"
    + Bullet + " The venue might not be listed on FFXIVVenues.com"
  const AdditionalName := "Additional Results"

  /** The most venues the embed lists one by one. */
  const MaxVenueFields := 3

  const NoVenuesField := EmbedField(NoVenuesName, NoVenuesValue, false)

  function FoundField(count: nat): EmbedField {
    EmbedField("\U{201A}\U{FA}\U{D6} Found " + ShowNat(count) + " Venue(s)",
               "Here are the venues found at or near this location:", false)
  }

  function AdditionalField(hidden: nat): EmbedField {
    EmbedField(AdditionalName,
               "... and " + ShowNat(hidden)
               + " more venue(s) found. Use `/searchvenue` command for detailed browsing.", false)
  }

  function SfwLabel(sfw: bool): string {
    if sfw then "\U{201A}\U{FA}\U{D6} SFW" else "\U{F8FF}\U{FC}\U{EE}\U{FB} NSFW"
  }

  /** The venue's location line, present when its location object is non-empty. */
  function LocationLine(v: Venue): string {
    match v.place
    case None => ""
    case Some(p) =>
      "**Location:** " + p.dataCenter.GetOr("?") + " / " + p.world.GetOr("?") + " " + Dash + " "
      + p.district.GetOr("?") + ", Ward " + PyFormat(p.ward, "?") + ", Plot " + PyFormat(p.plot, "?") + "\n"
  }

  /** The text of one venue field. */
  function VenueText(v: Venue): string {
    "**" + v.name + "** " + SfwLabel(v.sfw) + "\n"
    + (match PyDescription(v.description) case Some(d) => d + "\n\n" case None => "")
    + LocationLine(v)
    + TagsLine(v.tags)
    + LinksLine(v, " " + Bullet + " ")
    + SynchLine(v)
  }

  /** The field for the venue at 0-based position `i`. */
  function VenueField(i: nat, v: Venue): EmbedField {
    EmbedField("Venue " + ShowNat(i + 1) + ": " + v.name, VenueText(v), false)
  }

  /**
   * The fields of `create_venue_location_embed`: one "No Venues Found"
   * field for an empty result; otherwise a count header, the first three
   * venues in order, and an "Additional Results" field counting the rest
   * exactly when more than three were found.
   */
  function Embed(venues: seq<Venue>): (fields: seq<EmbedField>)
    ensures venues == [] ==> fields == [NoVenuesField]
    ensures venues != [] ==>
      && |fields| == 1 + Min(MaxVenueFields, |venues|) + (if |venues| > MaxVenueFields then 1 else 0)
      && fields[0] == FoundField(|venues|)
      && (forall i :: 0 <= i < Min(MaxVenueFields, |venues|) ==> fields[1 + i] == VenueField(i, venues[i]))
      && (|venues| > MaxVenueFields ==> fields[|fields| - 1] == AdditionalField(|venues| - MaxVenueFields))
  {
    if venues == [] then [NoVenuesField]
    else Listing(FoundField(|venues|), venues, MaxVenueFields, VenueField, AdditionalField)
  }

  /** Venue field names start with "Venue". */
  lemma VenueFieldName(i: nat, v: Venue)
    ensures VenueField(i, v).name[0] == 'V'
  {
  }

  /** The count header's name starts differently from the other field names. */
  lemma FoundFieldName(count: nat)
    ensures FoundField(count).name[0] == '\U{201A}' && FoundField(count).name[1] == '\U{FA}'
  {
  }

  /** The first characters that tell the fixed field names apart. */
  lemma FixedNamesStart()
    ensures NoVenuesName[0] == '\U{201A}' && NoVenuesName[1] == '\U{F9}'
    ensures AdditionalName[0] == 'A'
  {
  }

  /** An "Additional Results" field appears exactly when more than three venues were found. */
  lemma AdditionalFieldIffMoreThanThree(venues: seq<Venue>)
    ensures (exists k :: 0 <= k < |Embed(venues)| && Embed(venues)[k].name == AdditionalName)
      <==> |venues| > MaxVenueFields
  {
    FixedNamesStart();
    if venues == [] {
      assert Embed(venues)[0].name[0] != 'A';
    } else {
      assert Embed(venues) == Listing(FoundField(|venues|), venues, MaxVenueFields, VenueField, AdditionalField);
      ListingNamed(FoundField(|venues|), venues, MaxVenueFields, VenueField, AdditionalField, AdditionalName);
      FoundFieldName(|venues|);
      forall i | 0 <= i < Min(MaxVenueFields, |venues|)
        ensures VenueField(i, venues[i]).name != AdditionalName
      {
        VenueFieldName(i, venues[i]);
      }
    }
  }

  /** A field named "No Venues Found" appears exactly when nothing was found. */
  lemma NoVenuesNameIffEmpty(venues: seq<Venue>)
    ensures (exists k :: 0 <= k < |Embed(venues)| && Embed(venues)[k].name == NoVenuesName)
      <==> venues == []
  {
    if venues == [] {
      assert Embed(venues)[0].name == NoVenuesName;
    } else {
      assert Embed(venues) == Listing(FoundField(|venues|), venues, MaxVenueFields, VenueField, AdditionalField);
      ListingNamed(FoundField(|venues|), venues, MaxVenueFields, VenueField, AdditionalField, NoVenuesName);
      FoundFieldName(|venues|);
      FixedNamesStart();
      forall i | 0 <= i < Min(MaxVenueFields, |venues|)
        ensures VenueField(i, venues[i]).name != NoVenuesName
      {
        VenueFieldName(i, venues[i]);
      }
      if |venues| > MaxVenueFields {
        assert AdditionalField(|venues| - MaxVenueFields).name != NoVenuesName;
      }
    }
  }

  /** The "No Venues Found" field appears exactly when nothing was found. */
  lemma NoVenuesFieldIffEmpty(venues: seq<Venue>)
    ensures (exists k :: 0 <= k < |Embed(venues)| && Embed(venues)[k] == NoVenuesField)
      <==> venues == []
  {
    NoVenuesNameIffEmpty(venues);
    if venues == [] {
      assert Embed(venues)[0] == NoVenuesField;
    }
  }


  /** Only the first three tags of a venue can appear in its field. */
  lemma VenueTextShowsThreeTags(v: Venue)
    ensures VenueText(v) == VenueText(v.(tags := v.tags[..Min(3, |v.tags|)]))
  {
    TagsLineShowsFirstThree(v.tags);
  }

  /**
   * `venue_search_webhook`. `body` is `None` when the request is not valid
   * JSON; `channels` are the channel ids the bot can see; `sendOk` is
   * whether posting the embed succeeds.
   */
  function Webhook(body: Option<WebhookRequest>, cache: seq<Venue>, channels: set<int>, sendOk: bool): (o: Outcome)
    ensures body.None? ==> o == Rejected(500, InternalError)
    ensures body.Some? && !PyRequestComplete(body.value) ==> o == Rejected(400, PyMissingFields)
    ensures o.status == 400 || o.status == 404 ==> !o.searched && o.sent.None?
    ensures o.status == 200 <==>
      && body.Some? && PyRequestComplete(body.value)
      && PyInt(body.value.channelId).Ok? && PyInt(body.value.channelId).value in channels
      && sendOk
    ensures o.status == 200 ==>
      var found := Search(body.value.location.value, cache);
      o.body == Posted(|found|) && o.sent == Some(Embed(found))
  {
    match body
    case None => Rejected(500, InternalError)
    case Some(req) =>
      if !PyRequestComplete(req) then Rejected(400, PyMissingFields)
      else match PyInt(req.channelId)
        case Err(ValueError) => Rejected(400, PyInvalidChannel)
        case Err(TypeError) => Rejected(500, InternalError)
        case Ok(id) =>
          if id !in channels then Rejected(404, ChannelNotFound)
          else
            var found := Search(req.location.value, cache);
            var fields := Embed(found);
            if sendOk then Outcome(200, Posted(|found|), true, Some(fields))
            else Outcome(500, Failed(InternalError), true, Some(fields))
  }

  /**
   * Requests refused with 400 or 404 are refused whatever the venue cache
   * holds and whether posting would succeed: they are decided before the
   * search and the post.
   */
  lemma RejectionPrecedesSearch(body: Option<WebhookRequest>, cache: seq<Venue>, cache': seq<Venue>,
                                channels: set<int>, sendOk: bool, sendOk': bool)
    requires Webhook(body, cache, channels, sendOk).status in {400, 404}
    ensures Webhook(body, cache', channels, sendOk') == Webhook(body, cache, channels, sendOk)
  {
  }

  /** A textual channel id that is not an integer is refused with 400. */
  lemma InvalidChannelRejected(loc: SearchLocation, id: string, cache: seq<Venue>, channels: set<int>, sendOk: bool)
    requires LocationNonEmpty(loc) && id != "" && ParseInt(id).None?
    ensures Webhook(Some(WebhookRequest(Some(loc), Str(id))), cache, channels, sendOk)
      == Rejected(400, PyInvalidChannel)
  {
  }

  /** A well-formed channel id the bot cannot see is refused with 404. */
  lemma UnknownChannelRejected(loc: SearchLocation, id: int, cache: seq<Venue>, channels: set<int>, sendOk: bool)
    requires LocationNonEmpty(loc) && id != 0 && id !in channels
    ensures Webhook(Some(WebhookRequest(Some(loc), Num(id))), cache, channels, sendOk)
      == Rejected(404, ChannelNotFound)
  {
  }
}
