/**
 * The string transforms of the bot: lower-casing the listing kind, naming
 * ticket channels after the requester, and rendering a listing's title.
 */
module Text {
  import opened Wrappers

  /** Every ticket channel name starts with this. */
  const TicketPrefix: string := "ticket-"

  /** Title markers of the two listing kinds: a red circle for sell, a green one for buy. */
  const SellMarker: string := "🔴 ПРОДАЖА: "
  const BuyMarker: string := "🟢 ПОКУПКА: "

  /** A listing kind as the registry stores it, after lower-casing. */
  predicate ValidKind(kind: string) {
    kind == "sell" || kind == "buy"
  }

  predicate IsUpper(c: char) {
    'A' <= c <= 'Z'
  }

  function LowerChar(c: char): (d: char) {
    if IsUpper(c) then (c as int + 32) as char else c
  }

  /** Lower-casing of the ASCII letters; every other character is kept. */
  function Lower(s: string): (r: string)
    ensures |r| == |s|
    ensures forall i :: 0 <= i < |s| ==> r[i] == LowerChar(s[i])
    ensures forall i :: 0 <= i < |r| ==> !IsUpper(r[i])
  {
    if s == [] then [] else [LowerChar(s[0])] + Lower(s[1..])
  }

  /** Every space becomes a hyphen; every other character is kept. */
  function ReplaceSpaces(s: string): (r: string)
    ensures |r| == |s|
    ensures forall i :: 0 <= i < |s| ==> r[i] == if s[i] == ' ' then '-' else s[i]
    ensures ' ' !in r
  {
    if s == [] then [] else [if s[0] == ' ' then '-' else s[0]] + ReplaceSpaces(s[1..])
  }

  /** A name without spaces is kept as it is. */
  lemma {:induction false} ReplaceSpacesKeepsSpaceFree(s: string)
    requires ' ' !in s
    ensures ReplaceSpaces(s) == s
  {
    if s != [] {
      assert s == [s[0]] + s[1..];
      ReplaceSpacesKeepsSpaceFree(s[1..]);
    }
  }

  /**
   * The channel name of a ticket opened by the member called `name`: the
   * prefix, then the name with its spaces turned into hyphens.
   */
  function MakeTicketName(name: string): (r: string)
    ensures |r| == |name| + |TicketPrefix|
    ensures r[..|TicketPrefix|] == TicketPrefix
    ensures forall i :: 0 <= i < |name| ==>
      r[|TicketPrefix| + i] == if name[i] == ' ' then '-' else name[i]
    ensures ' ' !in r
  {
    TicketPrefix + ReplaceSpaces(name)
  }

  /** Two names that differ only in spaces against hyphens give the same channel name. */
  lemma TicketNamesCollide()
    ensures MakeTicketName("Ann Lee") == MakeTicketName("Ann-Lee")
  {
    ReplaceSpacesKeepsSpaceFree("Ann-Lee");
  }

  /** The title of a listing card: the sell marker for a sell listing, the buy marker otherwise. */
  function RenderTitle(kind: string, title: string): (r: string)
    ensures |r| == |title| + 11
    ensures r[11..] == title
    ensures r[0] == if kind == "sell" then '🔴' else '🟢'
  {
    if kind == "sell" then SellMarker + title else BuyMarker + title
  }

  /** Reads kind and bare title back from a rendered title; None when neither marker leads it. */
  function ParseTitle(t: string): (r: Option<(string, string)>)
    ensures r.Some? ==> ValidKind(r.value.0) && RenderTitle(r.value.0, r.value.1) == t
  {
    if |SellMarker| <= |t| && t[..|SellMarker|] == SellMarker then
      Some(("sell", t[|SellMarker|..]))
    else if |BuyMarker| <= |t| && t[..|BuyMarker|] == BuyMarker then
      Some(("buy", t[|BuyMarker|..]))
    else
      None
  }

  /** Rendering then parsing gives back the kind and the title. */
  lemma TitleRoundTrip(kind: string, title: string)
    requires ValidKind(kind)
    ensures ParseTitle(RenderTitle(kind, title)) == Some((kind, title))
  {
    var t := RenderTitle(kind, title);
    assert t[..|SellMarker|] == if kind == "sell" then SellMarker else BuyMarker;
    assert t[|SellMarker|..] == title;
  }
}
