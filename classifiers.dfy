/** The dashboard's input classifiers: each turns one reading of an input source
    (a voice transcript, a device tilt, a joystick or path heading) into an intent. */
module Classifiers {
  import opened Common
  import opened Controls

  /** What an input source asks the dispatcher to send: the token mapped to a control,
      or the literal stop token. */
  datatype Intent = Control(id: string) | Halt

  /** The token an intent sends, looked up the way the dashboard looks it up. */
  function TokenFor(commands: CommandMap, intent: Intent): string
  {
    match intent
    case Control(id) => Lookup(commands, id)
    case Halt => StopToken
  }

  // ----- Voice -----

  /** The transcript as the recogniser handler sees it: lower-cased, then trimmed. */
  function NormaliseTranscript(raw: string): (t: string)
    ensures forall i :: 0 <= i < |t| ==> !('A' <= t[i] <= 'Z')
    ensures t == [] || (!IsSpace(t[0]) && !IsSpace(t[|t| - 1]))
  {
    TrimKeepsChars(ToLower(raw));
    Trim(ToLower(raw))
  }

  /** A line of the voice table: any of the keywords selects the intent. */
  datatype Rule = Rule(keywords: seq<string>, intent: Intent)

  /** Some keyword of the list occurs in the transcript. */
  predicate Heard(t: string, keywords: seq<string>)
  {
    keywords != [] && (Includes(t, keywords[0]) || Heard(t, keywords[1..]))
  }

  /** The voice vocabulary, highest priority first. */
  const VoiceRules: seq<Rule> := [
    Rule(["forward", "go"], Control(PadUp)),
    Rule(["back", "reverse"], Control(PadDown)),
    Rule(["left"], Control(PadLeft)),
    Rule(["right"], Control(PadRight)),
    Rule(["stop", "halt"], Halt),
    Rule(["horn", "beep"], Control(BtnA))
  ]

  /** The intent of the first rule, in table order, whose keywords the transcript contains. */
  function FirstMatch(rules: seq<Rule>, t: string): Option<Intent>
  {
    if rules == [] then None
    else if Heard(t, rules[0].keywords) then Some(rules[0].intent)
    else FirstMatch(rules[1..], t)
  }

  /** Rule `k` is the first rule whose keywords the transcript contains. */
  predicate FirstHeardAt(rules: seq<Rule>, t: string, k: int)
  {
    0 <= k < |rules| && Heard(t, rules[k].keywords) && forall j :: 0 <= j < k ==> !Heard(t, rules[j].keywords)
  }

  lemma {:induction false} FirstMatchAt(rules: seq<Rule>, t: string, k: int)
    requires FirstHeardAt(rules, t, k)
    ensures FirstMatch(rules, t) == Some(rules[k].intent)
  {
    if k > 0 {
      assert !Heard(t, rules[0].keywords);
      assert FirstHeardAt(rules[1..], t, k - 1) by {
        assert forall j :: 0 <= j < k - 1 ==> rules[1..][j] == rules[j + 1];
      }
      FirstMatchAt(rules[1..], t, k - 1);
    }
  }

  lemma {:induction false} FirstMatchHasHit(rules: seq<Rule>, t: string) returns (k: int)
    requires FirstMatch(rules, t).Some?
    ensures FirstHeardAt(rules, t, k) && rules[k].intent == FirstMatch(rules, t).value
  {
    if Heard(t, rules[0].keywords) {
      k := 0;
    } else {
      var k' := FirstMatchHasHit(rules[1..], t);
      k := k' + 1;
      assert rules[k] == rules[1..][k'];
      forall j | 0 <= j < k ensures !Heard(t, rules[j].keywords) {
        if j > 0 { assert rules[j] == rules[1..][j - 1]; }
      }
    }
  }

  /** First match wins: the result is the intent of the first rule whose keywords occur. */
  lemma FirstMatchWins(rules: seq<Rule>, t: string, intent: Intent)
    ensures FirstMatch(rules, t) == Some(intent) <==>
      exists k :: FirstHeardAt(rules, t, k) && rules[k].intent == intent
  {
    if FirstMatch(rules, t) == Some(intent) {
      var k := FirstMatchHasHit(rules, t);
    }
    if exists k :: FirstHeardAt(rules, t, k) && rules[k].intent == intent {
      var k :| FirstHeardAt(rules, t, k) && rules[k].intent == intent;
      FirstMatchAt(rules, t, k);
    }
  }

  /** No match means no rule's keywords occur at all. */
  lemma {:induction false} FirstMatchSilent(rules: seq<Rule>, t: string)
    ensures FirstMatch(rules, t) == None <==> forall k :: 0 <= k < |rules| ==> !Heard(t, rules[k].keywords)
  {
    if rules != [] {
      FirstMatchSilent(rules[1..], t);
      assert forall k :: 1 <= k < |rules| ==> rules[k] == rules[1..][k - 1];
    }
  }

  /** A keyword list of one or two words is heard when either word occurs. */
  lemma HeardPair(t: string, a: string, b: string)
    ensures Heard(t, [a]) <==> Includes(t, a)
    ensures Heard(t, [a, b]) <==> Includes(t, a) || Includes(t, b)
  {
    assert [a][1..] == [];
    assert [a, b][1..] == [b];
    assert [b][1..] == [];
  }

  /** Reading the voice table rule by rule. */
  lemma {:induction false} VoiceTableUnfolds(t: string)
    ensures FirstMatch(VoiceRules, t) ==
      if Includes(t, "forward") || Includes(t, "go") then Some(Control(PadUp))
      else if Includes(t, "back") || Includes(t, "reverse") then Some(Control(PadDown))
      else if Includes(t, "left") then Some(Control(PadLeft))
      else if Includes(t, "right") then Some(Control(PadRight))
      else if Includes(t, "stop") || Includes(t, "halt") then Some(Halt)
      else if Includes(t, "horn") || Includes(t, "beep") then Some(Control(BtnA))
      else None
  {
    var r := VoiceRules;
    HeardPair(t, "forward", "go");
    HeardPair(t, "back", "reverse");
    HeardPair(t, "left", "left");
    HeardPair(t, "right", "right");
    HeardPair(t, "stop", "halt");
    HeardPair(t, "horn", "beep");
    var r1, r2, r3, r4, r5 := r[1..], r[2..], r[3..], r[4..], r[5..];
    assert r1[1..] == r2 && r2[1..] == r3 && r3[1..] == r4 && r4[1..] == r5 && r5[1..] == [];
    assert r[0] == Rule(["forward", "go"], Control(PadUp)) && r1[0] == Rule(["back", "reverse"], Control(PadDown));
    assert r2[0] == Rule(["left"], Control(PadLeft)) && r3[0] == Rule(["right"], Control(PadRight));
    assert r4[0] == Rule(["stop", "halt"], Halt) && r5[0] == Rule(["horn", "beep"], Control(BtnA));
    assert FirstMatch(r5, t) == if Includes(t, "horn") || Includes(t, "beep") then Some(Control(BtnA)) else None;
    assert FirstMatch(r4, t) == if Includes(t, "stop") || Includes(t, "halt") then Some(Halt) else FirstMatch(r5, t);
    assert FirstMatch(r3, t) == if Includes(t, "right") then Some(Control(PadRight)) else FirstMatch(r4, t);
    assert FirstMatch(r2, t) == if Includes(t, "left") then Some(Control(PadLeft)) else FirstMatch(r3, t);
    assert FirstMatch(r1, t) == if Includes(t, "back") || Includes(t, "reverse") then Some(Control(PadDown)) else FirstMatch(r2, t);
    assert FirstMatch(r, t) == if Includes(t, "forward") || Includes(t, "go") then Some(Control(PadUp)) else FirstMatch(r1, t);
  }

  /** The recogniser handler's if/else chain on a normalised transcript. It agrees with
      reading the voice table in priority order. */
  function VoiceIntent(t: string): (r: Option<Intent>)
    ensures r == FirstMatch(VoiceRules, t)
  {
    VoiceTableUnfolds(t);
    if Includes(t, "forward") || Includes(t, "go") then Some(Control(PadUp))
    else if Includes(t, "back") || Includes(t, "reverse") then Some(Control(PadDown))
    else if Includes(t, "left") then Some(Control(PadLeft))
    else if Includes(t, "right") then Some(Control(PadRight))
    else if Includes(t, "stop") || Includes(t, "halt") then Some(Halt)
    else if Includes(t, "horn") || Includes(t, "beep") then Some(Control(BtnA))
    else None
  }

  /** Every keyword of the voice table. */
  const VoiceKeywords: seq<string> := ["forward", "go", "back", "reverse", "left", "right", "stop", "halt", "horn", "beep"]

  /** A transcript sends nothing exactly when it contains none of the table's keywords. */
  lemma VoiceSilentIff(t: string)
    ensures VoiceIntent(t) == None <==> forall k :: 0 <= k < |VoiceKeywords| ==> !Includes(t, VoiceKeywords[k])
  {
    var w := VoiceKeywords;
    assert w[0] == "forward" && w[1] == "go" && w[2] == "back" && w[3] == "reverse" && w[4] == "left";
    assert w[5] == "right" && w[6] == "stop" && w[7] == "halt" && w[8] == "horn" && w[9] == "beep";
  }

  // ----- Tilt -----

  /** `x || 0`: a missing orientation reading counts as level. */
  function OrZero(x: Option<real>): real
  {
    if x.Some? then x.value else 0.0
  }

  function Abs(x: real): real
  {
    if x < 0.0 then -x else x
  }

  /** The orientation handler: beta (front/back) and gamma (left/right) in degrees.
      Within 15 degrees of level on both axes it stops; otherwise beta is tested before
      gamma against a 20-degree threshold, and a tilt that passes neither still stops. */
  function TiltIntent(beta: Option<real>, gamma: Option<real>): (r: Intent)
    ensures var b, g := OrZero(beta), OrZero(gamma);
      && (r == Control(PadUp) <==> b < -20.0)
      && (r == Control(PadDown) <==> b > 20.0)
      && (r == Control(PadLeft) <==> -20.0 <= b <= 20.0 && g < -20.0)
      && (r == Control(PadRight) <==> -20.0 <= b <= 20.0 && g > 20.0)
      && (r == Halt <==> -20.0 <= b <= 20.0 && -20.0 <= g <= 20.0)
  {
    var b, g := OrZero(beta), OrZero(gamma);
    if Abs(b) > 15.0 || Abs(g) > 15.0 then
      if b < -20.0 then Control(PadUp)
      else if b > 20.0 then Control(PadDown)
      else if g < -20.0 then Control(PadLeft)
      else if g > 20.0 then Control(PadRight)
      else Halt
    else Halt
  }

  // ----- Joystick and mission headings -----

  /** The four directions an angle is quantised into (screen coordinates: y grows downwards). */
  datatype Heading = Right | Down | Up | Left

  function HeadingControl(h: Heading): string
  {
    match h
    case Right => PadRight
    case Down => PadDown
    case Up => PadUp
    case Left => PadLeft
  }

  /** The mission planner's quantisation of an angle in degrees. The four sectors
      partition the reals; everything outside (-135, 135] falls to the left. */
  function Sector(angle: real): (h: Heading)
    ensures h == Right <==> -45.0 < angle <= 45.0
    ensures h == Down <==> 45.0 < angle <= 135.0
    ensures h == Up <==> -135.0 < angle <= -45.0
    ensures h == Left <==> angle <= -135.0 || angle > 135.0
  {
    if -45.0 < angle <= 45.0 then Right
    else if 45.0 < angle <= 135.0 then Down
    else if -135.0 < angle <= -45.0 then Up
    else Left
  }

  /** The joystick handler, given the touch point's angle in degrees and its power (distance
      over the maximum radius). Its own if/else chain quantises exactly as `Sector` does. */
  function JoystickIntent(angle: real, power: real): (r: Intent)
    ensures power <= 0.3 ==> r == Halt
    ensures power > 0.3 ==> r == Control(HeadingControl(Sector(angle)))
  {
    if power > 0.3 then
      if angle > -45.0 && angle <= 45.0 then Control(PadRight)
      else if angle > 45.0 && angle <= 135.0 then Control(PadDown)
      else if angle > -135.0 && angle <= -45.0 then Control(PadUp)
      else Control(PadLeft)
    else Halt
  }

  /** Worked cases: the compass points, and tilts that pass or miss the beta threshold. */
  lemma QuantisationExamples()
    ensures Sector(0.0) == Right && Sector(90.0) == Down && Sector(-90.0) == Up
    ensures Sector(180.0) == Left && Sector(-180.0) == Left && Sector(-135.0) == Left
    ensures JoystickIntent(0.0, 0.3) == Halt && JoystickIntent(0.0, 0.5) == Control(PadRight)
    ensures TiltIntent(Some(-25.0), Some(0.0)) == Control(PadUp)
    ensures TiltIntent(Some(-10.0), Some(-25.0)) == Control(PadLeft)
    ensures TiltIntent(Some(18.0), None) == Halt
  {
  }
}
