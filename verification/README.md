# VenueShare location and venue-search model

VenueShare is a game-client plugin that works out which housing district
the player is standing in and sends that location to a chat bot. The bot
looks up venues at that location and posts them to a channel as an embed.
This project models the three pieces of pure logic in that system and
proves properties about them:

- **Location service** (`VenueShare/Services/LocationService.cs`). A fixed
  table maps fifteen territory ids to five housing districts. Module
  `Housing` holds the table, `GetCurrentLocation` and `IsInHousingDistrict`.
  The client reads become the parameters of `ClientState`: the optional
  local player with their world name, the current territory, the
  territory data sheet (id to place name), and a flag for the world or
  sheet lookup inside `GetCurrentLocation` throwing. Ward and plot are the source's constant placeholder 1.
- **Venue search filters** of the two Python bots. `GuideBot.Search`
  (`bot-integration-guide.py`) is lenient. It ignores the placeholder ward
  and plot 1, and it keeps a venue whose number does not parse.
  `IntegrationBot.Search` (`discord-bot-integration.py`) is strict. It
  parses without a guard, so a bad number aborts the whole search. Both
  filters match server and district in module `Venues`: the names are
  lower-cased and one must contain the other. Both keep the cache order.
- **Embeds and request handling** of all three bots, including the Node
  example (`NodeBot`, `discord-bot-example.js`). An embed is a list of
  `EmbedField(name, value, inline)`. The modules cover description cutting,
  tag capping, the cap of three or five venue fields with an extra field
  counting the rest, and the empty-result field. Each webhook handler
  returns an `Outcome`: the HTTP status, the reply body, whether the search
  ran, and the fields handed to the channel.

JSON scalars that the bots test for truthiness or parse (ward, plot,
channel id) are `Values.JsonValue`: `Missing | Null | Num | Str`. This lets
the model express Python truthiness, the `ValueError`/`TypeError` of
`int()`, and JavaScript's `toString` on `undefined`. The bot's venue cache,
the directory's reply, the channel lookup and whether posting succeeds are
parameters.

`LocationService.cs` has no ward or plot detection: `GetCurrentWard` and
`GetCurrentPlot` return 1 (lines 97-110), and every call builds a new
`VenueLocation`.

## Model

| member | source | states |
|---|---|---|
| `Housing.DistrictOf` | VenueShare/Services/LocationService.cs:16-42 | The table maps 339–341 to Mist, 342–344 to Lavender Beds, 345–347 to Goblet, 649–651 to Shirogane and 979–981 to Empyreum. Every other id has no district. The table is checked against an independent range statement. |
| `Housing.DistrictNames` | VenueShare/Services/LocationService.cs:16-42 | Every district named in the table is one of the five names. |
| `Housing.CurrentLocation` | VenueShare/Services/LocationService.cs:51-95 | A location exists iff all four hold: the player is present, the territory is in the data sheet, the territory is in the table, and no read faults. A fault is caught and gives none. A returned location carries the queried territory id, the table's district, the player's world, the sheet's place name, and ward = plot = 1. |
| `Housing.IsInHousingDistrict` | VenueShare/Services/LocationService.cs:112-116 | True iff the current territory falls in one of the five district ranges. |
| `Housing.HousingCheckIgnoresPlayerAndSheet` | VenueShare/Services/LocationService.cs:112-116 | The housing check depends on the territory alone. Player presence, the data sheet and faults do not affect it. |
| `Housing.LocationImpliesHousingDistrict` | VenueShare/Services/LocationService.cs:72-76 | Whenever a location is returned, the housing-district check holds. |
| `Housing.SheetCheckedBeforeTable` | VenueShare/Services/LocationService.cs:62-76 | A housing territory that is missing from the data sheet still gives no location. |
| `Housing.WardAndPlotPositive` | VenueShare/Services/LocationService.cs:97-110 | Every returned location has ward ≥ 1 and plot ≥ 1. |
| `Housing.LocationDependsOnWorldOnlyThroughServer` | VenueShare/Services/LocationService.cs:78-86 | Changing only the player's world changes only the `server` of the location. |
| `Text.Contains` | bot-integration-guide.py:96 | Python's `in` on strings: true iff the needle occurs at some offset of the haystack. |
| `Text.ParseShowInt` | bot-integration-guide.py:109 | `int()` reads back every integer rendered in decimal, so parsing undoes rendering. The converse does not hold: `" 5"`, `"+5"` and `"05"` parse to 5 but are not how 5 is rendered. |
| `Venues.Filter` | bot-integration-guide.py:87-125 | The loop's result is a subsequence of the cache in cache order. Every kept venue passes the test. Each venue occurs exactly as often as in the cache if it passes, and not at all otherwise. |
| `Venues.FilterMembership` | bot-integration-guide.py:87-125 | A venue is in the result iff it is in the cache and passes the test. |
| `Venues.FilterKeepsDistinct` | bot-integration-guide.py:87-125 | No venue is added twice: a cache without repeats gives a result without repeats. |
| `Venues.FilterShorter` | discord-bot-integration.py:89-116 | The result is never longer than the cache. |
| `Venues.TryFilter` | discord-bot-integration.py:89-116 | A loop whose test may raise succeeds iff no element's test raises. On success it returns exactly the filter of the elements the test accepts. |
| `Venues.TryFilterRaisesFirstError` | discord-bot-integration.py:89-116 | When the loop fails, it carries the error of the first element whose test raises, and every earlier element was tested without raising. |
| `Venues.NamesAgreeSymmetric` | bot-integration-guide.py:93-103 | The server/district rule works in either direction between the requested and the venue name. |
| `Venues.NamesAgreeIgnoresCase` | bot-integration-guide.py:82-83 | Lower-casing the requested name does not change the match. |
| `Venues.NamesAgreeOnContainment` | bot-integration-guide.py:96-97 | When one lower-cased name contains the other, the venue passes the rule. |
| `Venues.NamesAgreeReflexive` | discord-bot-integration.py:95-102 | A name always matches itself. |
| `Embeds.TruncateDescription` | bot-integration-guide.py:174-175 | The result is at most 100 long. A description over 100 becomes its first 97 characters plus "...", exactly 100 long. A shorter one is unchanged. |
| `Embeds.TruncateIdempotent` | discord-bot-integration.py:160-161 | Cutting an already cut description changes nothing. |
| `Embeds.PyDescription` | bot-integration-guide.py:170-176 | A description is shown iff it is truthy. A list shows its first element. The shown text is the cut form, at most 100 long. |
| `Embeds.ShownTags` | bot-integration-guide.py:189-191 | At most three tags are shown, and they are a prefix of the venue's tags. |
| `Embeds.TagsLineShowsFirstThree` | discord-bot-integration.py:164-165 | The tags line depends only on the first three tags. |
| `GuideBot.Search` | bot-integration-guide.py:80-125 | An order-preserving subsequence of the cache. It holds exactly the venues the four rules keep, each with its cache multiplicity. |
| `GuideBot.PlaceholderIgnored` | bot-integration-guide.py:105-107 | A requested ward or plot of 1 never excludes a venue. |
| `GuideBot.UnparseableKept` | bot-integration-guide.py:106-121 | A venue number that `int()` rejects never excludes the venue. |
| `GuideBot.NumberRuleOnIntegers` | bot-integration-guide.py:105-112 | For a request number other than 0 and 1 and a truthy, parseable venue number, the venue is kept iff the two numbers are equal. |
| `GuideBot.MissingNumberKept` | bot-integration-guide.py:114-121 | A venue with no ward or plot of its own is never excluded by that number. |
| `GuideBot.Embed` | bot-integration-guide.py:145-218 | An empty result gives exactly the one "No Venues Found" field. Otherwise: a count header, the first three venues in order, then an "Additional Results" field showing len−3 when more than three were found. |
| `GuideBot.AdditionalFieldIffMoreThanThree` | bot-integration-guide.py:213-218 | An "Additional Results" field appears iff more than three venues were found. |
| `GuideBot.NoVenuesNameIffEmpty` | bot-integration-guide.py:145-154 | A field titled "No Venues Found" appears iff no venue was found: no count header, venue field or trailer carries that title. |
| `GuideBot.NoVenuesFieldIffEmpty` | bot-integration-guide.py:145-154 | The "No Venues Found" field appears iff no venue was found. |
| `GuideBot.VenueTextShowsThreeTags` | bot-integration-guide.py:188-191 | A venue field's text is unchanged when tags past the third are dropped. |
| `GuideBot.Webhook` | bot-integration-guide.py:23-72 | A body that is not JSON gets 500. A missing location or channel id gets 400 "Missing required fields". 400 and 404 come before any search or post. 200 is returned iff the request is complete, the channel id parses to a visible channel, and the post succeeds; its count is the number of matches and the posted fields are their embed. |
| `GuideBot.RejectionPrecedesSearch` | bot-integration-guide.py:27-53 | A 400 or 404 outcome is the same for any venue cache and any post result. |
| `GuideBot.InvalidChannelRejected` | bot-integration-guide.py:39-50 | A non-integer channel id gets 400 "Invalid Discord channel ID". |
| `GuideBot.UnknownChannelRejected` | bot-integration-guide.py:39-45 | An integer channel id the bot cannot see gets 404. |
| `IntegrationBot.NumberCheck` | discord-bot-integration.py:104-112 | The number check applies whenever both sides are truthy, including 1. It raises iff either side fails to parse, and it excludes the venue iff both parse and differ. |
| `IntegrationBot.Search` | discord-bot-integration.py:82-116 | Succeeds iff no venue's checks raise. On success the result is the filter of the kept venues in cache order. |
| `IntegrationBot.SearchRaisesFirstError` | discord-bot-integration.py:91-112 | A failed search carries the error of the first venue whose checks raise, and every earlier venue passed its checks. |
| `IntegrationBot.SearchIsSubsequence` | discord-bot-integration.py:89-116 | When no venue's checks raise, the result is an order-preserving subsequence with the cache's multiplicities of the kept venues. |
| `IntegrationBot.WardOneConstrains` | discord-bot-integration.py:104-107 | Requested ward 1 excludes a ward-2 venue here, while the guide's rule keeps it. |
| `IntegrationBot.NonNumericRaises` | discord-bot-integration.py:105-107 | A non-numeric venue number raises `ValueError` once the request gives a number. |
| `IntegrationBot.CheckAgreesWithGuide` | discord-bot-integration.py:94-112 | Away from the placeholder 1, and when nothing raises, the strict per-venue rule equals the guide's. |
| `IntegrationBot.SearchAgreesWithGuide` | discord-bot-integration.py:82-116 | Away from the placeholder 1, when no venue's checks raise, the strict search succeeds with exactly the guide's result. |
| `IntegrationBot.Embed` | discord-bot-integration.py:135-191 | An empty result gives one "No Venues Found" field. Otherwise: a count header, the first five venues in order (inline iff more than two were found), and an "Additional Venues" field showing len−5 when more than five. |
| `IntegrationBot.AdditionalFieldIffMoreThanFive` | discord-bot-integration.py:186-191 | An "Additional Venues" field appears iff more than five venues were found. |
| `IntegrationBot.NoVenuesNameIffEmpty` | discord-bot-integration.py:135-140 | A field titled "No Venues Found" appears iff no venue was found: no count header, venue field or trailer carries that title. |
| `IntegrationBot.NoVenuesFieldIffEmpty` | discord-bot-integration.py:135-140 | The "No Venues Found" field appears iff no venue was found. |
| `IntegrationBot.Webhook` | discord-bot-integration.py:20-74 | A body that is not JSON gets 400. A missing field gets 400. 400 and 404 come before the search. An error raised by the search gives 500 with nothing posted. 200 holds iff the request is complete, the channel is visible, the search succeeds and the post succeeds; it carries the match count. |
| `IntegrationBot.RejectionPrecedesSearch` | discord-bot-integration.py:24-50 | A 400 or 404 outcome is the same for any venue cache and any post result. |
| `NodeBot.Query` | discord-bot-example.js:54-59 | The query parameters exist iff both ward and plot have a `toString`. |
| `NodeBot.SearchDirectory` | discord-bot-example.js:52-67 | The result is the directory's `venues` when the query is built and answered with one. On every failure it is []. |
| `NodeBot.MissingNumberFindsNothing` | discord-bot-example.js:52-66 | A request without a ward or plot finds no venues. |
| `NodeBot.DescriptionText` | discord-bot-example.js:87 | A non-empty description becomes its first min(100, len) characters followed by "...". An absent or empty one becomes "No description available". A paragraph list throws. |
| `NodeBot.ShortDescriptionGetsEllipsis` | discord-bot-example.js:87 | A description of at most 100 characters is shown whole, with "..." appended even though nothing was cut. |
| `NodeBot.TagsLineOnlyWhenTagged` | discord-bot-example.js:86-90 | Tags only add a trailing line. The text without tags is a prefix of the text with them, and the two are equal iff the tag list is empty. |
| `NodeBot.VenueFields` | discord-bot-example.js:84-93 | One field per venue in list order, named after the venue. The whole list fails iff some venue's field throws. |
| `NodeBot.Embed` | discord-bot-example.js:78-101 | Zero venues give exactly one "No Venues Found" field. Otherwise the fields are the first five venues in order, followed by an "Additional Venues" field showing length−5 when there are more than five. |
| `NodeBot.Handle` | discord-bot-example.js:17-49 | A missing location or channel id gets 400, and only then, before any search. 200 holds iff the channel is found, the embed builds and the post succeeds. `venuesFound` is the number of venues the search returned. |
| `NodeBot.RejectionPrecedesSearch` | discord-bot-example.js:21-24 | A 400 outcome is the same whatever the directory, the channel lookup and the post would do. |

## Left out

- Timestamps (`DateTime.UtcNow`, `datetime.utcnow()`, `new Date()`) are not modelled. They are wall-clock values and appear in no equality.
- The embed's title, description line, colour and footer are not modelled, and `requestedBy` is dropped because only the footer uses it. Only the field list is modelled.
- Network and chat transport are parameters or left out: the HTTP route setup, `channel.send`, the axios call, port binding and bot start-up. Whether posting succeeds is the `sendOk` parameter. The directory's answer is `NodeBot.DirectoryReply`. The Python bots' visible channels are a set of ids.
- The plugin's UI windows, lifecycle, configuration storage and HTTP client (`DiscordBotService`) are not modelled. They hold no location or matching logic.
- The `searchlocation` slash command and the health endpoints are not modelled. They only forward to the same search or report status.
- `Text.Lower` lower-cases ASCII letters only. Python's `str.lower()` also folds non-ASCII letters.
- `Text.ParseInt` strips the characters Python's `str.isspace()` accepts and then reads an optional sign and ASCII digits. Python's `int()` also accepts underscores between digits and non-ASCII decimal digits, and these are not modelled.
- JSON `null`, numbers or arrays in the venue's or the request's server, district or world are not modelled. In the Python bots `.lower()` on them raises inside the search and the request gets 500. The venue `name` is only formatted into text, where such values would show as `None` or `5`; the model takes names to be strings. JSON floats and booleans in ward, plot or channel id are not modelled either.
- A venue whose `location` is JSON `null` (or another non-object) is not modelled: `Venues.Venue.place` is absent or a record. In both Python bots `venue.get('location', {})` then yields `None`, the following `.get('world', '')` raises inside the search loop, and so every request that reaches the search gets 500 while that venue is in the cache.
- A request body that is valid JSON but not an object is not modelled. Neither is a request `location` that is truthy but not an object. A falsy one (`""`, `0`, `[]`, `false`) is covered by the missing-field 400. A truthy non-object passes that check and the channel checks, so a bad or unknown channel id still gets 400 or 404. Only then does `.get` on it raise in the search, and the request gets 500. The Node bot's body parsing happens in middleware before the route, so `NodeBot.Handle` takes a parsed request.
- A venue without a `name` key is not modelled (it raises `KeyError` in the Python bots). Venue names are plain strings.
- String lengths count characters. JavaScript's `substring` counts UTF-16 code units, which differs for characters outside the Basic Multilingual Plane.
- Emoji in the field names are reproduced as the code points the source files contain. In `bot-integration-guide.py` these are mis-decoded characters.
