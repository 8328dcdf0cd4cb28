/**
 * The discord bot integration's webhook (`discord-bot-integration.py`): the
 * strict venue search whose ward and plot checks parse without a guard, the
 * five-venue embed, and the request handler.
 */
module IntegrationBot {
  import opened Wrappers
  import opened Text
  import opened Values
  import opened Venues
  import opened Embeds
  import opened Webhooks
  import GuideBot

  /**
   * `ward and venue_ward and int(venue_ward) != int(ward)`, read as whether
   * the venue passes: when both numbers are truthy they are parsed, venue
   * first, and a parse failure escapes as the raised error.
   */
  function NumberCheck(requested: JsonValue, offered: JsonValue): (r: Result<bool, IntError>)
    ensures !(PyTruthy(requested) && PyTruthy(offered)) ==> r == Ok(true)
    ensures PyTruthy(requested) && PyTruthy(offered) ==>
      (r.Ok? <==> PyInt(offered).Ok? && PyInt(requested).Ok?)
    ensures r == Ok(false) <==>
      PyTruthy(requested) && PyTruthy(offered) && PyInt(offered).Ok? && PyInt(requested).Ok?
      && PyInt(offered).value != PyInt(requested).value
  {
    if PyTruthy(requested) && PyTruthy(offered) then
      match PyInt(offered)
      case Err(e) => Err(e)
      case Ok(a) =>
        match PyInt(requested)
        case Err(e) => Err(e)
        case Ok(b) => Ok(a == b)
    else Ok(true)
  }

  /**
   * The checks applied to one venue, in the loop's order: server, district,
   * ward, plot. `Ok(b)` says whether the venue is kept; `Err` is the error
   * that aborts the whole search.
   */
  function Check(loc: SearchLocation, v: Venue): Result<bool, IntError> {
    if !NamesAgree(loc.server.GetOr(""), VenueWorld(v)) then Ok(false)
    else if !NamesAgree(loc.district.GetOr(""), VenueDistrict(v)) then Ok(false)
    else match NumberCheck(loc.ward, VenueWard(v))
      case Err(e) => Err(e)
      case Ok(false) => Ok(false)
      case Ok(true) => NumberCheck(loc.plot, VenuePlot(v))
  }

  /** Whether the search keeps a venue whose checks do not raise. */
  predicate Kept(loc: SearchLocation, v: Venue) {
    Check(loc, v) == Ok(true)
  }

  /**
   * `search_venues_by_location`: the loop over the cache raises the error of
   * the first venue whose checks raise; when none does, the result is the
   * kept venues in cache order.
   */
  function Search(loc: SearchLocation, cache: seq<Venue>): (r: Result<seq<Venue>, IntError>)
    ensures r.Ok? <==> forall i :: 0 <= i < |cache| ==> Check(loc, cache[i]).Ok?
    ensures r.Ok? ==> r.value == Filter(v => Kept(loc, v), cache)
  {
    var check := v => Check(loc, v);
    var r := TryFilter(check, cache);
    if r.Ok? then
      FilterCongruent(KeptBy(check), v => Kept(loc, v), cache);
      r
    else r
  }

  /**
   * A failed search carries the error of the first venue whose checks
   * raise: every venue before it passed its checks.
   */
  lemma SearchRaisesFirstError(loc: SearchLocation, cache: seq<Venue>)
    requires Search(loc, cache).Err?
    ensures exists i ::
      && 0 <= i < |cache|
      && Check(loc, cache[i]) == Err(Search(loc, cache).error)
      && forall j :: 0 <= j < i ==> Check(loc, cache[j]).Ok?
  {
    TryFilterRaisesFirstError(v => Check(loc, v), cache);
  }

  /** When the search succeeds, its result is an order-preserving subsequence of the cache. */
  lemma SearchIsSubsequence(loc: SearchLocation, cache: seq<Venue>)
    requires forall i :: 0 <= i < |cache| ==> Check(loc, cache[i]).Ok?
    ensures IsSubsequence(Search(loc, cache).value, cache)
    ensures forall v :: multiset(Search(loc, cache).value)[v] == if Kept(loc, v) then multiset(cache)[v] else 0
  {
  }

  /** Unlike the guide's rule, ward (or plot) 1 constrains: a venue in ward 2 is dropped. */
  lemma WardOneConstrains()
    ensures NumberCheck(Num(1), Num(2)) == Ok(false)
    ensures GuideBot.NumberAgrees(Num(1), Num(2))
  {
  }

  /** A non-numeric venue number raises once the request gives a number. */
  lemma NonNumericRaises(requested: JsonValue, s: string)
    requires PyTruthy(requested) && s != "" && ParseInt(s).None?
    ensures NumberCheck(requested, Str(s)) == Err(ValueError)
  {
  }

  /**
   * On the numbers and names both bots check, the guide's rule and this one
   * agree whenever this one does not raise and the request's numbers are
   * not the placeholder 1.
   */
  lemma CheckAgreesWithGuide(loc: SearchLocation, v: Venue)
    requires loc.ward != Num(1) && loc.plot != Num(1)
    requires Check(loc, v).Ok?
    ensures Kept(loc, v) == GuideBot.Keep(loc, v)
  {
  }

  /**
   * Away from the placeholder 1, a strict search that succeeds finds exactly
   * what the guide's lenient search finds.
   */
  lemma SearchAgreesWithGuide(loc: SearchLocation, cache: seq<Venue>)
    requires loc.ward != Num(1) && loc.plot != Num(1)
    requires forall i :: 0 <= i < |cache| ==> Check(loc, cache[i]).Ok?
    ensures Search(loc, cache) == Ok(GuideBot.Search(loc, cache))
  {
    forall i | 0 <= i < |cache|
      ensures Kept(loc, cache[i]) == GuideBot.Keep(loc, cache[i])
    {
      CheckAgreesWithGuide(loc, cache[i]);
    }
    FilterCongruent(v => Kept(loc, v), v => GuideBot.Keep(loc, v), cache);
  }

  const NoVenuesName := "\U{274C} No Venues Found"
  const NoVenuesValue := "No venues were found at this location in the FFXIVVenues database."
  const AdditionalName := "Additional Venues"

  /** The most venues the embed lists one by one. */
  const MaxVenueFields := 5

  const NoVenuesField := EmbedField(NoVenuesName, NoVenuesValue, false)

  function FoundField(count: nat): EmbedField {
    EmbedField("\U{2705} Found " + ShowNat(count) + " Venue(s)", "Here are the venues at this location:", false)
  }

  function AdditionalField(hidden: nat): EmbedField {
    EmbedField(AdditionalName, "... and " + ShowNat(hidden) + " more venues found at this location.", false)
  }

  function SfwLabel(sfw: bool): string {
    if sfw then "\U{2705} SFW" else "\U{1F51E} NSFW"
  }

  /** The text of one venue field: no location line, one line break after the description. */
  function VenueText(v: Venue): string {
    "**" + v.name + "** " + SfwLabel(v.sfw) + "\n"
    + (match PyDescription(v.description) case Some(d) => d + "\n" case None => "")
    + TagsLine(v.tags)
    + LinksLine(v, " \U{2022} ")
    + SynchLine(v)
  }

  /** The field for the venue at 0-based position `i` of `count` found venues. */
  function VenueField(i: nat, v: Venue, count: nat): EmbedField {
    EmbedField("Venue " + ShowNat(i + 1), VenueText(v), count > 2)
  }

  /**
   * The fields of `create_venue_location_embed`: one "No Venues Found"
   * field for an empty result; otherwise a count header, the first five
   * venues in order (inline when more than two were found), and an
   * "Additional Venues" field counting the rest exactly when more than five
   * were found.
   */
  function Embed(venues: seq<Venue>): (fields: seq<EmbedField>)
    ensures venues == [] ==> fields == [NoVenuesField]
    ensures venues != [] ==>
      && |fields| == 1 + Min(MaxVenueFields, |venues|) + (if |venues| > MaxVenueFields then 1 else 0)
      && fields[0] == FoundField(|venues|)
      && (forall i :: 0 <= i < Min(MaxVenueFields, |venues|) ==>
            fields[1 + i] == VenueField(i, venues[i], |venues|) && (fields[1 + i].inline <==> |venues| > 2))
      && (|venues| > MaxVenueFields ==> fields[|fields| - 1] == AdditionalField(|venues| - MaxVenueFields))
  {
    if venues == [] then [NoVenuesField]
    else
      Listing(FoundField(|venues|), venues, MaxVenueFields,
              (i, v) => VenueField(i, v, |venues|), AdditionalField)
  }

  /** Venue field names start with "Venue". */
  lemma VenueFieldName(i: nat, v: Venue, count: nat)
    ensures VenueField(i, v, count).name[0] == 'V'
  {
  }

  /** The count header's name starts with its check mark. */
  lemma FoundFieldName(count: nat)
    ensures FoundField(count).name[0] == '\U{2705}'
  {
  }

  /** An "Additional Venues" field appears exactly when more than five venues were found. */
  lemma AdditionalFieldIffMoreThanFive(venues: seq<Venue>)
    ensures (exists k :: 0 <= k < |Embed(venues)| && Embed(venues)[k].name == AdditionalName)
      <==> |venues| > MaxVenueFields
  {
    assert AdditionalName[0] == 'A';
    if venues == [] {
      assert Embed(venues)[0].name[0] != 'A';
    } else {
      assert Embed(venues) == Listing(FoundField(|venues|), venues, MaxVenueFields, (i, v) => VenueField(i, v, |venues|), AdditionalField);
      ListingNamed(FoundField(|venues|), venues, MaxVenueFields, (i, v) => VenueField(i, v, |venues|), AdditionalField, AdditionalName);
      FoundFieldName(|venues|);
      forall i | 0 <= i < Min(MaxVenueFields, |venues|)
        ensures VenueField(i, venues[i], |venues|).name != AdditionalName
      {
        VenueFieldName(i, venues[i], |venues|);
      }
    }
  }

  /** A field named "No Venues Found" appears exactly when nothing was found. */
  lemma NoVenuesNameIffEmpty(venues: seq<Venue>)
    ensures (exists k :: 0 <= k < |Embed(venues)| && Embed(venues)[k].name == NoVenuesName)
      <==> venues == []
  {
    if venues == [] {
      assert Embed(venues)[0].name == NoVenuesName;
    } else {
      assert Embed(venues) == Listing(FoundField(|venues|), venues, MaxVenueFields, (i, v) => VenueField(i, v, |venues|), AdditionalField);
      ListingNamed(FoundField(|venues|), venues, MaxVenueFields, (i, v) => VenueField(i, v, |venues|), AdditionalField, NoVenuesName);
      FoundFieldName(|venues|);
      assert NoVenuesName[0] == '\U{274C}';
      assert AdditionalName[0] == 'A';
      assert NoVenuesName[0] != 'V' && NoVenuesName[0] != 'A';
      forall i | 0 <= i < Min(MaxVenueFields, |venues|)
        ensures VenueField(i, venues[i], |venues|).name != NoVenuesName
      {
        VenueFieldName(i, venues[i], |venues|);
      }
      if |venues| > MaxVenueFields {
        assert AdditionalField(|venues| - MaxVenueFields).name != NoVenuesName;
      }
    }
  }

  /** The "No Venues Found" field appears exactly when nothing was found. */
  lemma NoVenuesFieldIffEmpty(venues: seq<Venue>)
    ensures (exists k :: 0 <= k < |Embed(venues)| && Embed(venues)[k] == NoVenuesField)
      <==> venues == []
  {
    NoVenuesNameIffEmpty(venues);
    if venues == [] {
      assert Embed(venues)[0] == NoVenuesField;
    }
  }


  const InvalidJson := "Invalid JSON in request body"

  /**
   * `venue_search_webhook`. A body that is not JSON is the one error
   * answered with 400 by the decode handler; an error raised by the search
   * falls through to the generic handler and becomes 500.
   */
  function Webhook(body: Option<WebhookRequest>, cache: seq<Venue>, channels: set<int>, sendOk: bool): (o: Outcome)
    ensures body.None? ==> o == Rejected(400, InvalidJson)
    ensures body.Some? && !PyRequestComplete(body.value) ==> o == Rejected(400, PyMissingFields)
    ensures o.status == 400 || o.status == 404 ==> !o.searched && o.sent.None?
    ensures o.status == 200 <==>
      && body.Some? && PyRequestComplete(body.value)
      && PyInt(body.value.channelId).Ok? && PyInt(body.value.channelId).value in channels
      && Search(body.value.location.value, cache).Ok?
      && sendOk
    ensures o.status == 200 ==>
      var found := Search(body.value.location.value, cache).value;
      o.body == Posted(|found|) && o.sent == Some(Embed(found))
    ensures o.searched && Search(body.value.location.value, cache).Err? ==>
      o == Outcome(500, Failed(InternalError), true, None)
  {
    match body
    case None => Rejected(400, InvalidJson)
    case Some(req) =>
      if !PyRequestComplete(req) then Rejected(400, PyMissingFields)
      else match PyInt(req.channelId)
        case Err(ValueError) => Rejected(400, PyInvalidChannel)
        case Err(TypeError) => Rejected(500, InternalError)
        case Ok(id) =>
          if id !in channels then Rejected(404, ChannelNotFound)
          else match Search(req.location.value, cache)
            case Err(_) => Outcome(500, Failed(InternalError), true, None)
            case Ok(found) =>
              var fields := Embed(found);
              if sendOk then Outcome(200, Posted(|found|), true, Some(fields))
              else Outcome(500, Failed(InternalError), true, Some(fields))
  }

  /**
   * Requests refused with 400 or 404 are refused whatever the venue cache
   * holds and whether posting would succeed.
   */
  lemma RejectionPrecedesSearch(body: Option<WebhookRequest>, cache: seq<Venue>, cache': seq<Venue>,
                                channels: set<int>, sendOk: bool, sendOk': bool)
    requires Webhook(body, cache, channels, sendOk).status in {400, 404}
    ensures Webhook(body, cache', channels, sendOk') == Webhook(body, cache, channels, sendOk)
  {
  }
}
