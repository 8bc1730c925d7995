/** Message texts and the nine patterns of the grammar (common/send_job.cpp, common/network_msg_parser.cpp). */
module Wire {
  import opened Cards
  import opened Rules
  import opened Regex

  /** A message with its fields in the order in which they are written. */
  datatype Wire =
    | WIam(side: Side)
    | WBusy(sides: seq<Side>)
    | WDeal(mode: Mode, side: Side, cards: seq<Card>)
    | WTrick(no: int, cards: seq<Card>)
    | WMove(no: int, card: Card)
    | WWrong(no: int)
    | WTaken(no: int, cards: seq<Card>, side: Side)
    | WScore(entries: seq<(Side, nat)>)
    | WTotal(entries: seq<(Side, nat)>)

  predicate Valid(w: Wire) {
    match w
    case WIam(_) => true
    case WBusy(sides) => 1 <= |sides| <= 4
    case WDeal(_, _, cards) => |cards| == TRICKS_PER_ROUND
    case WTrick(no, cards) => 1 <= no <= TRICKS_PER_ROUND && |cards| <= 3
    case WMove(no, _) => 1 <= no <= TRICKS_PER_ROUND
    case WWrong(no) => 1 <= no <= TRICKS_PER_ROUND
    case WTaken(no, cards, _) => 1 <= no <= TRICKS_PER_ROUND && |cards| == 4
    case WScore(es) => |es| == 4
    case WTotal(es) => |es| == 4
  }

  /** Which side of the connection reads the message. */
  predicate ForServer(w: Wire) {
    w.WIam? || w.WMove?
  }

  // ---------------------------------------------------------------- texts

  function SideChar(s: Side): char {
    match s case N => 'N' case E => 'E' case S => 'S' case W => 'W'
  }

  function ColorChar(c: Color): char {
    match c case Clubs => 'C' case Diamonds => 'D' case Hearts => 'H' case Spades => 'S'
  }

  function ModeNo(m: Mode): nat {
    match m
    case TrickPenalty => 1 case HeartPenalty => 2 case QueenPenalty => 3 case KingJackPenalty => 4
    case HeartKingPenalty => 5 case SeventhLastTrickPenalty => 6 case Everything => 7
  }

  const DIGITS := "0123456789"

  /** std::to_string. */
  function Dec(n: nat): (s: string)
    ensures s != "" && forall i :: 0 <= i < |s| ==> s[i] in DIGITS
  {
    if n < 10 then [DIGITS[n]] else Dec(n / 10) + [DIGITS[n % 10]]
  }

  function ValueText(r: Rank): string {
    if r <= 10 then Dec(r) else if r == 11 then "J" else if r == 12 then "Q" else if r == 13 then "K" else "A"
  }

  /** Card::toString. */
  function Code(c: Card): string {
    ValueText(c.rank) + [ColorChar(c.color)]
  }

  function Codes(cs: seq<Card>): string {
    if cs == [] then "" else Codes(cs[..|cs| - 1]) + Code(cs[|cs| - 1])
  }

  function SideTexts(ss: seq<Side>): string {
    if ss == [] then "" else SideTexts(ss[..|ss| - 1]) + [SideChar(ss[|ss| - 1])]
  }

  function EntryText(e: (Side, nat)): string {
    [SideChar(e.0)] + Dec(e.1)
  }

  function Entries(es: seq<(Side, nat)>): string {
    if es == [] then "" else Entries(es[..|es| - 1]) + EntryText(es[|es| - 1])
  }

  function NoText(no: int): string {
    if no < 0 then "-" + Dec(-no) else Dec(no)
  }

  /** The text of a message without the separator. */
  function Text(w: Wire): string {
    match w
    case WIam(side) => "IAM" + [SideChar(side)]
    case WBusy(sides) => "BUSY" + SideTexts(sides)
    case WDeal(mode, side, cards) => "DEAL" + Dec(ModeNo(mode)) + [SideChar(side)] + Codes(cards)
    case WTrick(no, cards) => "TRICK" + NoText(no) + Codes(cards)
    case WMove(no, card) => "TRICK" + NoText(no) + Codes([card])
    case WWrong(no) => "WRONG" + NoText(no)
    case WTaken(no, cards, side) => "TAKEN" + NoText(no) + Codes(cards) + [SideChar(side)]
    case WScore(es) => "SCORE" + Entries(es)
    case WTotal(es) => "TOTAL" + Entries(es)
  }

  // ---------------------------------------------------------------- parsed fields

  type Field = (string, string)

  function CardFields(cs: seq<Card>): seq<Field> {
    if cs == [] then [] else CardFields(cs[..|cs| - 1]) + [("card", Code(cs[|cs| - 1]))]
  }

  function SideFields(ss: seq<Side>): seq<Field> {
    if ss == [] then [] else SideFields(ss[..|ss| - 1]) + [("side", [SideChar(ss[|ss| - 1])])]
  }

  function EntryFields(es: seq<(Side, nat)>): seq<Field> {
    if es == [] then []
    else
      var e := es[|es| - 1];
      EntryFields(es[..|es| - 1]) + [("side", [SideChar(e.0)]), ("score", Dec(e.1))]
  }

  /** What the parser makes of a message: its kind and its fields, in order. */
  function Fields(w: Wire): seq<Field> {
    match w
    case WIam(side) => [("type", "IAM"), ("side", [SideChar(side)])]
    case WBusy(sides) => [("type", "BUSY")] + SideFields(sides)
    case WDeal(mode, side, cards) =>
      [("type", "DEAL"), ("round_mode", Dec(ModeNo(mode))), ("side", [SideChar(side)])] + CardFields(cards)
    case WTrick(no, cards) => [("type", "TRICK_S"), ("rn", NoText(no))] + CardFields(cards)
    case WMove(no, card) => [("type", "TRICK_C"), ("rn", NoText(no)), ("card", Code(card))]
    case WWrong(no) => [("type", "WRONG"), ("rn", NoText(no))]
    case WTaken(no, cards, side) =>
      [("type", "TAKEN"), ("rn", NoText(no))] + CardFields(cards) + [("side", [SideChar(side)])]
    case WScore(es) => [("type", "SCORE")] + EntryFields(es)
    case WTotal(es) => [("type", "TOTAL")] + EntryFields(es)
  }

  // ---------------------------------------------------------------- the patterns

  const SIDE := OneOf("NSEW")
  const CARD := Cat(Or(Or(OneOf("23456789"), Lit("10")), OneOf("JQKA")), OneOf("CDHS"))
  const RN := Or(OneOf("123456789"), Cat(Lit("1"), OneOf("0123")))
  const NUM := Or(Lit("0"), Cat(OneOf("123456789"), Star(OneOf("0123456789"))))

  const DEAL_BODY := Cat(OneOf("1234567"), Cat(SIDE, Rep(CARD, 13, 13)))
  const TRICK_BODY := Cat(RN, Rep(CARD, 0, 3))
  const MOVE_BODY := Cat(RN, CARD)
  const TAKEN_BODY := Cat(RN, Cat(Rep(CARD, 4, 4), SIDE))
  const SCORES_BODY := Rep(Cat(SIDE, NUM), 4, 4)

  const PATTERNS: seq<Re> := [
    Cat(Lit("IAM"), SIDE),
    Cat(Lit("BUSY"), Rep(SIDE, 1, 4)),
    Cat(Lit("DEAL"), DEAL_BODY),
    Cat(Lit("TRICK"), TRICK_BODY),
    Cat(Lit("TRICK"), MOVE_BODY),
    Cat(Lit("WRONG"), RN),
    Cat(Lit("TAKEN"), TAKEN_BODY),
    Cat(Lit("SCORE"), SCORES_BODY),
    Cat(Lit("TOTAL"), SCORES_BODY)
  ]

  /** The index of the message's pattern. */
  function Kind(w: Wire): (k: nat)
    ensures k < |PATTERNS|
  {
    match w
    case WIam(_) => 0
    case WBusy(_) => 1
    case WDeal(_, _, _) => 2
    case WTrick(_, _) => 3
    case WMove(_, _) => 4
    case WWrong(_) => 5
    case WTaken(_, _, _) => 6
    case WScore(_) => 7
    case WTotal(_) => 8
  }
}
