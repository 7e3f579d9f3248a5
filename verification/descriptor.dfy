/**
 * The GET (and OPTIONS) descriptor: static text, an icon next to the
 * request's origin, and one action link per move, each passing the move
 * to the play endpoint as its `choice` query parameter.
 */
module Descriptor {
  import opened Wrappers
  import opened Game

  const PLAY_PATH: string := "/api/actions/play"
  const CHOICE_QUERY: string := PLAY_PATH + "?choice="
  const ICON_PATH: string := "/nuke-foot-cockroach.png"

  /** One button of the action: its text and the endpoint it posts to. */
  datatype Link = Link(caption: string, href: string)

  datatype ActionDescriptor = ActionDescriptor(
    title: string,
    icon: string,
    description: string,
    buttonLabel: string,
    actions: seq<Link>)

  /**
   * Splits a play link of the form `CHOICE_QUERY` + value into its value.
   * This is not a general query-string parser: it agrees with how the
   * endpoint reads `choice` only on links of that form, such as the three
   * below.
   */
  function ChoiceParam(href: string): (r: Option<string>)
    ensures r.Some? <==> CHOICE_QUERY <= href
    ensures r.Some? ==> href == CHOICE_QUERY + r.value
  {
    if CHOICE_QUERY <= href then Some(href[|CHOICE_QUERY|..]) else None
  }

  /** The three action links, written out as the handler lists them. */
  function Actions(): (links: seq<Link>)
    ensures |links| == |CHOICES|
    ensures forall i :: 0 <= i < |links| ==> ChoiceParam(links[i].href) == Some(CHOICES[i])
  {
    [ Link("Nuke", "/api/actions/play?choice=nuke"),
      Link("Foot", "/api/actions/play?choice=foot"),
      Link("Cockroach", "/api/actions/play?choice=cockroach") ]
  }

  /** The descriptor returned for a request whose URL has origin `origin`. */
  function Describe(origin: string): (d: ActionDescriptor)
    ensures d.actions == Actions()
    ensures d.icon == origin + ICON_PATH
  {
    ActionDescriptor(
      "Play Nuke Foot Cockroach",
      origin + ICON_PATH,
      "Mint an NFT to participate in this deadly twist on Rock Paper Scissors. If you win, you get to play again. If you lose, you die and the NFT is burned.",
      "Mint",
      Actions())
  }

  /**
   * Every move has exactly one link, and the move that link posts reads
   * back as that same move: no more, no fewer.
   */
  lemma OneLinkPerMove(c: Choice)
    ensures Move(ChoiceParam(Actions()[Ord(c)].href)) == Some(c)
    ensures forall i :: 0 <= i < |Actions()| && Move(ChoiceParam(Actions()[i].href)) == Some(c) ==> i == Ord(c)
  {
  }

  /** The descriptor depends on the origin only through the icon URL. */
  lemma SameDescriptorUpToIcon(origin1: string, origin2: string)
    ensures Describe(origin1).(icon := "") == Describe(origin2).(icon := "")
  {
  }
}
