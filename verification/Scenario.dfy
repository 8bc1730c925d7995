/** Reading the scenario (common/utils.cpp, parseScenario). */
module ScenarioFile {
  import opened Cards
  import opened Game
  import opened EarlyStop
  import opened Wire
  import opened Grammar
  import opened Parser
  import opened Reading

  /** The five lines of a round: the mode and the starting side, and a hand for each side. */
  function RoundLines(r: Round): seq<string> {
    [Dec(ModeNo(r.mode)) + [SideChar(r.starting)], Codes(r.deal[N]), Codes(r.deal[S]), Codes(r.deal[W]),
      Codes(r.deal[E])]
  }

  function ScenarioLines(scn: Scenario): seq<string> {
    if scn == [] then [] else RoundLines(scn[0]) + ScenarioLines(scn[1..])
  }

  ghost predicate Complete(scn: Scenario) {
    forall i, s: Side :: 0 <= i < |scn| ==> |scn[i].deal[s]| == TRICKS_PER_ROUND
  }

  /** A line that says what it should; whatever follows on it is never looked at. */
  predicate Says(line: string, text: string) {
    text <= line
  }

  ghost predicate AllSay(lines: seq<string>, texts: seq<string>) {
    |lines| == |texts| && forall i :: 0 <= i < |lines| ==> Says(lines[i], texts[i])
  }

  method ParseHand(line: string, ghost hand: Hand) returns (res: Hand)
    requires Says(line, Codes(hand)) && |hand| == TRICKS_PER_ROUND
    ensures res == hand
  {
    hide Code, Codes, CardFields, CardFromString;
    ghost var text := Codes(hand);
    res := [];
    var iter := 0;
    assert hand[0..] == hand && text[0..] == text;
    for i := 0 to TRICKS_PER_ROUND
      invariant 0 <= iter <= |text| && text[iter..] == Codes(hand[i..])
      invariant res == hand[..i]
    {
      CardAfter(text, iter, hand, i);
      CardTextIsRead(hand[i]);
      assert line[iter] == text[iter] && line[iter..iter + |Code(hand[i])|] == text[iter..iter + |Code(hand[i])|];
      if line[iter] == '1' {
        res := res + [CardFromString(line[iter..iter + 3]).value];
        iter := iter + 1;
      } else {
        res := res + [CardFromString(line[iter..iter + 2]).value];
      }
      iter := iter + 2;
    }
  }

  method ParseHands(lines: seq<string>, ghost deal: Hands) returns (state: map<Side, Hand>)
    requires AllSay(lines, [Codes(deal[N]), Codes(deal[S]), Codes(deal[W]), Codes(deal[E])])
    requires forall s: Side :: |deal[s]| == TRICKS_PER_ROUND
    ensures state == deal
  {
    hide Codes, Says;
    state := map[];
    for i := 0 to |SIDES|
      invariant forall s: Side :: s in SIDES[..i] ==> s in state && state[s] == deal[s]
    {
      assert Says(lines[i], Codes(deal[SIDES[i]]));
      var hand := ParseHand(lines[i], deal[SIDES[i]]);
      state := state[SIDES[i] := hand];
      assert SIDES[..i + 1] == SIDES[..i] + [SIDES[i]];
    }
    assert SIDES[..4] == SIDES;
    EverySide();
    assert forall s: Side :: s in state && state[s] == deal[s];
  }

  /** A scenario is read back from its lines, with anything behind the text of each. */
  method ParseScenario(lines: seq<string>, ghost scn: Scenario) returns (scenario: Scenario)
    requires Complete(scn) && AllSay(lines, ScenarioLines(scn))
    ensures scenario == scn
  {
    hide Codes, Dec, ModeNo, SideChar, SideOf, ModeOf, AllSay, RoundLines;
    scenario := [];
    var ix := 0;
    ghost var k := 0;
    assert scn[0..] == scn && lines[0..] == lines;
    while ix < |lines|
      invariant 0 <= ix <= |lines| && 0 <= k <= |scn|
      invariant AllSay(lines[ix..], ScenarioLines(scn[k..]))
      invariant scenario == scn[..k]
      decreases |lines| - ix
    {
      NoLines(lines[ix..], scn[k..]);
      ghost var r := scn[k];
      assert scn[k..][1..] == scn[k + 1..];
      NextRoundSays(lines[ix..], r, ScenarioLines(scn[k + 1..]));
      RoundLine(r);
      assert lines[ix..][1..5] == lines[ix + 1..ix + 5] && lines[ix..][5..] == lines[ix + 5..];
      var type_, s := ModeOf(lines[ix][0]).value, SideOf(lines[ix][1]).value;
      var state := ParseHands(lines[ix + 1..ix + 5], r.deal);
      scenario := scenario + [Round(type_, state, s)];
      ix := ix + 5;
      k := k + 1;
    }
    NoLines(lines[ix..], scn[k..]);
  }

  /** The first five of the lines belong to the first round. */
  lemma NextRoundSays(lines: seq<string>, r: Round, rest: seq<string>)
    requires AllSay(lines, RoundLines(r) + rest)
    ensures |lines| >= 5 && Says(lines[0], RoundLines(r)[0])
    ensures AllSay(lines[1..5], [Codes(r.deal[N]), Codes(r.deal[S]), Codes(r.deal[W]), Codes(r.deal[E])])
    ensures AllSay(lines[5..], rest)
  {
    hide Codes, Says;
    var texts := RoundLines(r) + rest;
    assert forall i :: 1 <= i < 5 ==> lines[1..5][i - 1] == lines[i] && Says(lines[i], texts[i]);
    forall i | 0 <= i < |rest| ensures Says(lines[5..][i], rest[i]) {
      assert texts[i + 5] == rest[i] && Says(lines[i + 5], texts[i + 5]);
    }
  }

  lemma RoundLine(r: Round)
    ensures var line := RoundLines(r)[0];
            |line| == 2 && ModeOf(line[0]) == Some(r.mode) && SideOf(line[1]) == Some(r.starting)
  {
    hide Dec, ModeNo, SideChar, SideOf, ModeOf;
    ModeAccepted(r.mode);
    ModeOfModeNo(r.mode);
    SideOfSideChar(r.starting);
  }

  lemma NoLines(lines: seq<string>, scn: Scenario)
    requires AllSay(lines, ScenarioLines(scn))
    ensures lines == [] <==> scn == []
  {
  }
}
