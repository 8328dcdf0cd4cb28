/**
 * The chat embed as the bots build it: a list of fields. Also the pieces of
 * venue text both Python bots format the same way.
 */
module Embeds {
  import opened Wrappers
  import opened Text
  import opened Venues

  /** One embed field: its title, its text, and whether it sits inline. */
  datatype EmbedField = EmbedField(name: string, value: string, inline: bool)

  /**
   * The Python bots' capped field list: a header, one field per item for at
   * most `max` items in order, and a trailing field counting the items left
   * out exactly when there are more than `max`.
   */
  function Listing<V>(header: EmbedField, items: seq<V>, max: nat,
                      field: (nat, V) -> EmbedField, rest: nat -> EmbedField): (fields: seq<EmbedField>)
    ensures |fields| == 1 + Min(max, |items|) + (if |items| > max then 1 else 0)
    ensures fields[0] == header
    ensures forall i :: 0 <= i < Min(max, |items|) ==> fields[1 + i] == field(i, items[i])
    ensures |items| > max ==> fields[|fields| - 1] == rest(|items| - max)
  {
    if |items| <= max then
      [header] + seq(|items|, i requires 0 <= i < |items| => field(i, items[i]))
    else
      [header] + seq(max, i requires 0 <= i < max => field(i, items[i])) + [rest(|items| - max)]
  }

  /** A name among a listing's fields is the header's, a shown item's, or the trailer's. */
  lemma ListingNamedOnly<V>(header: EmbedField, items: seq<V>, max: nat,
                            field: (nat, V) -> EmbedField, rest: nat -> EmbedField, name: string, k: int)
    requires 0 <= k < |Listing(header, items, max, field, rest)|
    requires Listing(header, items, max, field, rest)[k].name == name
    ensures || header.name == name
            || (exists i :: 0 <= i < Min(max, |items|) && field(i, items[i]).name == name)
            || (|items| > max && rest(|items| - max).name == name)
  {
    if 1 <= k <= Min(max, |items|) {
      assert field(k - 1, items[k - 1]).name == name;
    }
  }

  /** The header's, every shown item's and the trailer's names are among a listing's fields. */
  lemma ListingNamedIf<V>(header: EmbedField, items: seq<V>, max: nat,
                          field: (nat, V) -> EmbedField, rest: nat -> EmbedField, name: string)
    requires || header.name == name
             || (exists i :: 0 <= i < Min(max, |items|) && field(i, items[i]).name == name)
             || (|items| > max && rest(|items| - max).name == name)
    ensures exists k :: 0 <= k < |Listing(header, items, max, field, rest)|
                        && Listing(header, items, max, field, rest)[k].name == name
  {
    var fields := Listing(header, items, max, field, rest);
    if header.name == name {
      assert fields[0].name == name;
    } else if i :| 0 <= i < Min(max, |items|) && field(i, items[i]).name == name {
      assert fields[1 + i].name == name;
    } else {
      assert fields[|fields| - 1] == rest(|items| - max);
    }
  }

  /**
   * A name is among a listing's field names exactly when it is the header's,
   * a shown item's, or that of the trailer for the items left out.
   */
  lemma ListingNamed<V>(header: EmbedField, items: seq<V>, max: nat,
                        field: (nat, V) -> EmbedField, rest: nat -> EmbedField, name: string)
    ensures (exists k :: 0 <= k < |Listing(header, items, max, field, rest)|
                         && Listing(header, items, max, field, rest)[k].name == name)
      <==> (|| header.name == name
            || (exists i :: 0 <= i < Min(max, |items|) && field(i, items[i]).name == name)
            || (|items| > max && rest(|items| - max).name == name))
  {
    var fields := Listing(header, items, max, field, rest);
    if k :| 0 <= k < |fields| && fields[k].name == name {
      ListingNamedOnly(header, items, max, field, rest, name, k);
    }
    if || header.name == name
       || (exists i :: 0 <= i < Min(max, |items|) && field(i, items[i]).name == name)
       || (|items| > max && rest(|items| - max).name == name)
    {
      ListingNamedIf(header, items, max, field, rest, name);
    }
  }

  /** The longest description the Python bots show. */
  const MaxDescription := 100

  /**
   * The Python bots' description cut: a description over 100 characters
   * becomes its first 97 characters followed by "...", so it is exactly 100
   * long; a shorter one is shown unchanged.
   */
  function TruncateDescription(d: string): (r: string)
    ensures |r| <= MaxDescription
    ensures |d| <= MaxDescription ==> r == d
    ensures |d| > MaxDescription ==> |r| == MaxDescription && r[..97] == d[..97] && r[97..] == "..."
  {
    if |d| > MaxDescription then d[..97] + "..." else d
  }

  /** Cutting a description a second time changes nothing. */
  lemma TruncateIdempotent(d: string)
    ensures TruncateDescription(TruncateDescription(d)) == TruncateDescription(d)
  {
  }

  /** Python truthiness of a description. */
  predicate DescriptionTruthy(d: Description) {
    match d
    case NoDescription => false
    case DescText(s) => s != ""
    case DescLines(lines) => lines != []
  }

  /**
   * The description text the Python bots show, if any: a paragraph list
   * contributes its first paragraph, and the result is cut to 100
   * characters. The "No description" fallback for an empty list sits inside
   * the truthiness test, which an empty list already fails.
   */
  function PyDescription(d: Description): (r: Option<string>)
    ensures r.Some? <==> DescriptionTruthy(d)
    ensures r.Some? ==> |r.value| <= MaxDescription
    ensures d.DescText? && r.Some? ==> r.value == TruncateDescription(d.text)
    ensures d.DescLines? && r.Some? ==> r.value == TruncateDescription(d.lines[0])
  {
    if !DescriptionTruthy(d) then None
    else
      var text := match d
        case DescText(s) => s
        case DescLines(lines) => if lines != [] then lines[0] else "No description"
        case NoDescription => "";
      Some(TruncateDescription(text))
  }

  /** The tags the Python bots list: `tags[:3]`. */
  function ShownTags(tags: seq<string>): (r: seq<string>)
    ensures |r| <= 3
    ensures r <= tags
    ensures |tags| <= 3 ==> r == tags
    ensures |tags| > 3 ==> |r| == 3
  {
    tags[..Min(3, |tags|)]
  }

  /** The `**Links:** ...` line, with the file's own separator between links. */
  function LinksLine(v: Venue, separator: string): string {
    var links := (if v.website != "" then ["[Website](" + v.website + ")"] else [])
      + (if v.discord != "" then ["[Discord](" + v.discord + ")"] else []);
    if links != [] then "**Links:** " + Join(separator, links) + "\n" else ""
  }

  /** The synchronisation-shell line, shown only when both code and password are set. */
  function SynchLine(v: Venue): string {
    if v.mareCode != "" && v.marePassword != "" then
      "**SynchShell:** `" + v.mareCode + "` / `" + v.marePassword + "`"
    else ""
  }

  /** The `**Tags:** ...` line of the Python bots: at most three tags. */
  function TagsLine(tags: seq<string>): string {
    if tags != [] then "**Tags:** " + Join(", ", ShownTags(tags)) + "\n" else ""
  }

  /** Tags past the third never reach the Python bots' tags line. */
  lemma TagsLineShowsFirstThree(tags: seq<string>)
    ensures TagsLine(tags) == TagsLine(tags[..Min(3, |tags|)])
  {
    var t := tags[..Min(3, |tags|)];
    assert t[..Min(3, |t|)] == t;
  }
}
