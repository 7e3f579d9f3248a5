/**
 * The "Nuke Foot Cockroach" rule of the play handler: the three moves, the
 * win and loss guards the handler writes out by hand, and an independent
 * reference relation (each move beats the one listed after it, cyclically)
 * against which the guards are proved.
 */
module Game {
  import opened Wrappers

  /** The moves, in the order the handler lists them. */
  const CHOICES: seq<string> := ["nuke", "foot", "cockroach"]

  datatype Choice = Nuke | Foot | Cockroach

  /** Position of a move in `CHOICES`. */
  function Ord(c: Choice): (i: nat)
    ensures i < |CHOICES|
  {
    match c
    case Nuke => 0
    case Foot => 1
    case Cockroach => 2
  }

  /** The query-string spelling of a move. */
  function Name(c: Choice): string
  {
    CHOICES[Ord(c)]
  }

  /** Recognises a move's spelling; every other string is no move at all. */
  function ChoiceOf(s: string): (r: Option<Choice>)
    ensures r.Some? <==> s in CHOICES
    ensures r.Some? ==> Name(r.value) == s
    ensures forall c :: Name(c) == s ==> r == Some(c)
  {
    if s == CHOICES[0] then Some(Nuke)
    else if s == CHOICES[1] then Some(Foot)
    else if s == CHOICES[2] then Some(Cockroach)
    else None
  }

  /** The move named by the optional `choice` query parameter, if any. */
  function Move(choice: Option<string>): Option<Choice>
  {
    match choice
    case None => None
    case Some(s) => ChoiceOf(s)
  }

  /** Reference rule: a move beats its successor in `CHOICES`, cyclically. */
  predicate Beats(a: Choice, b: Choice)
  {
    (Ord(a) + 1) % |CHOICES| == Ord(b)
  }

  datatype Outcome = Win | Loss | NoOutcome

  /** The handler's win guard, as written: three hand-listed pairs. */
  predicate WinGuard(choice: Option<string>, cpu: string)
  {
    || (choice == Some("nuke") && cpu == "foot")
    || (choice == Some("foot") && cpu == "cockroach")
    || (choice == Some("cockroach") && cpu == "nuke")
  }

  /** The handler's loss guard, as written: three hand-listed pairs. */
  predicate LossGuard(choice: Option<string>, cpu: string)
  {
    || (choice == Some("foot") && cpu == "nuke")
    || (choice == Some("cockroach") && cpu == "foot")
    || (choice == Some("nuke") && cpu == "cockroach")
  }

  /**
   * The outcome of one round: the win guard is tested first, then the loss
   * guard, and anything else (a tie, a missing or unknown move) decides
   * nothing. The contract ties the guards to the reference rule `Beats`.
   */
  function Judge(choice: Option<string>, cpu: string): (o: Outcome)
    ensures o == Win <==>
      Move(choice).Some? && ChoiceOf(cpu).Some? && Beats(Move(choice).value, ChoiceOf(cpu).value)
    ensures o == Loss <==>
      Move(choice).Some? && ChoiceOf(cpu).Some? && Beats(ChoiceOf(cpu).value, Move(choice).value)
    ensures o == NoOutcome <==>
      Move(choice).None? || ChoiceOf(cpu).None? || Move(choice) == ChoiceOf(cpu)
  {
    if WinGuard(choice, cpu) then Win
    else if LossGuard(choice, cpu) then Loss
    else NoOutcome
  }

  /** No pair of strings satisfies both hand-written guards. */
  lemma GuardsDisjoint(choice: Option<string>, cpu: string)
    ensures !(WinGuard(choice, cpu) && LossGuard(choice, cpu))
  {
  }

  /** The beats relation in full: nuke > foot, foot > cockroach, cockroach > nuke. */
  lemma BeatsTable()
    ensures Beats(Nuke, Foot) && Beats(Foot, Cockroach) && Beats(Cockroach, Nuke)
    ensures forall a, b :: Beats(a, b) <==> (a, b) in {(Nuke, Foot), (Foot, Cockroach), (Cockroach, Nuke)}
  {
  }

  /** No move beats itself, no two moves beat each other, and distinct moves are always ranked. */
  lemma BeatsIrreflexiveAsymmetricConnected()
    ensures forall a :: !Beats(a, a)
    ensures forall a, b :: Beats(a, b) ==> !Beats(b, a)
    ensures forall a, b :: a != b ==> Beats(a, b) || Beats(b, a)
  {
  }

  /** The CPU positions (indices into `CHOICES`) that give outcome `o` against `c`. */
  function CpuIndicesGiving(c: Choice, o: Outcome): set<nat>
  {
    set k: nat | k < |CHOICES| && Judge(Some(Name(c)), CHOICES[k]) == o
  }

  /**
   * Against every valid move exactly one CPU move wins for the player,
   * exactly one loses, and the remaining one, the player's own move, ties.
   */
  lemma OneWinOneLossOneTie(c: Choice)
    ensures CpuIndicesGiving(c, Win) == {(Ord(c) + 1) % |CHOICES|}
    ensures CpuIndicesGiving(c, Loss) == {(Ord(c) + 2) % |CHOICES|}
    ensures CpuIndicesGiving(c, NoOutcome) == {Ord(c)}
    ensures |CpuIndicesGiving(c, Win)| == 1 && |CpuIndicesGiving(c, Loss)| == 1
    ensures |CpuIndicesGiving(c, NoOutcome)| == 1
  {
  }

  /** A missing or unrecognised move decides nothing, whatever the CPU plays. */
  lemma UnknownMoveDecidesNothing(choice: Option<string>, cpu: string)
    requires choice.None? || choice.value !in CHOICES
    ensures Judge(choice, cpu) == NoOutcome
  {
  }
}
