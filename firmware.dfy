/** The firmware text built by the dashboard's generator and by the legacy script's
    `generateFirmware` function: a fixed program in which the tokens of the four pad
    directions, and then the literal `stop`, are compared with each received line. Only
    the text is modelled; what it does on the device is not. The legacy page as written
    never reaches its call to `generateFirmware`, so `LegacyFirmware` is the text that
    function would build. */
module Firmware {
  import opened Common
  import opened Controls

  /** The comparison the firmware makes against one token. */
  function Guard(token: string): string
  {
    "receivedString == \"" + token + "\""
  }

  /** The template filled in: fixed text, a comparison, fixed text, ..., fixed text. */
  function Interleave(texts: seq<string>, guards: seq<string>): string
    requires |texts| == |guards| + 1
  {
    if guards == [] then texts[0]
    else Interleave(texts[..|texts| - 1], guards[..|guards| - 1]) + guards[|guards| - 1] + texts[|texts| - 1]
  }

  lemma OccursAtExtends(s: string, w: string, i: int, more: string)
    requires OccursAt(s, w, i)
    ensures OccursAt(s + more, w, i)
  {
    assert (s + more)[i..i + |w|] == s[i..i + |w|];
  }

  /** Where each comparison starts in the filled template: in the order given, and without overlap. */
  function GuardOffsets(texts: seq<string>, guards: seq<string>): (offs: seq<int>)
    requires |texts| == |guards| + 1
    ensures |offs| == |guards|
    ensures forall k :: 0 <= k < |guards| ==> OccursAt(Interleave(texts, guards), guards[k], offs[k])
    ensures forall k :: 0 <= k < |guards| - 1 ==> offs[k] + |guards[k]| <= offs[k + 1]
    ensures forall k :: 0 <= k < |guards| ==> offs[k] + |guards[k]| <= |Interleave(texts, guards)|
  {
    if guards == [] then []
    else
      var n := |guards|;
      var front, last := Interleave(texts[..n], guards[..n - 1]), guards[n - 1];
      var earlier := GuardOffsets(texts[..n], guards[..n - 1]);
      var whole := Interleave(texts, guards);
      assert whole == front + last + texts[n];
      assert (front + last + texts[n])[|front|..|front| + |last|] == last;
      assert forall k :: 0 <= k < n - 1 ==> guards[..n - 1][k] == guards[k];
      assert forall k :: 0 <= k < n - 1 ==> OccursAt(whole, guards[k], earlier[k]) by {
        forall k | 0 <= k < n - 1 ensures OccursAt(whole, guards[k], earlier[k]) {
          OccursAtExtends(front, guards[k], earlier[k], last + texts[n]);
          assert front + (last + texts[n]) == whole;
        }
      }
      earlier + [|front|]
  }

  /** The tokens the firmware compares against, in its order: up, down, right, left, stop. */
  function DispatchOrder(commands: CommandMap): seq<string>
  {
    [Lookup(commands, PadUp), Lookup(commands, PadDown), Lookup(commands, PadRight),
     Lookup(commands, PadLeft), StopToken]
  }

  function Guards(tokens: seq<string>): seq<string>
  {
    seq(|tokens|, k requires 0 <= k < |tokens| => Guard(tokens[k]))
  }

  const AppText0 :=
    "/**\n" +
    " * Nexus Robot Control Firmware\n" +
    " * 1. Add 'bluetooth' extension in MakeCode\n" +
    " * 2. Set pairing to 'No Passkey' in Project Settings\n" +
    " */\n" +
    "let receivedString = \"\"\n" +
    "bluetooth.onBluetoothConnected(function () {\n" +
    "    basic.showIcon(IconNames.Happy)\n" +
    "})\n" +
    "bluetooth.onBluetoothDisconnected(function () {\n" +
    "    basic.showIcon(IconNames.Asleep)\n" +
    "})\n" +
    "bluetooth.onUartDataReceived(serial.delimiters(Delimiters.NewLine), function () {\n" +
    "    receivedString = bluetooth.uartReadUntil(serial.delimiters(Delimiters.NewLine))\n" +
    "    \n" +
    "    // Directional Control\n" +
    "    if ("

  const AppText1 :=
    ") {\n" +
    "        pins.servoWritePin(AnalogPin.P0, 180)\n" +
    "        pins.servoWritePin(AnalogPin.P1, 0)\n" +
    "    } else if ("

  const AppText2 :=
    ") {\n" +
    "        pins.servoWritePin(AnalogPin.P0, 0)\n" +
    "        pins.servoWritePin(AnalogPin.P1, 180)\n" +
    "    } else if ("

  const AppText3 :=
    ") {\n" +
    "        pins.servoWritePin(AnalogPin.P0, 180)\n" +
    "        pins.servoWritePin(AnalogPin.P1, 180)\n" +
    "    } else if ("

  const AppText4 :=
    ") {\n" +
    "        pins.servoWritePin(AnalogPin.P0, 0)\n" +
    "        pins.servoWritePin(AnalogPin.P1, 0)\n" +
    "    } else if ("

  const AppText5 :=
    ") {\n" +
    "        pins.servoWritePin(AnalogPin.P0, 90)\n" +
    "        pins.servoWritePin(AnalogPin.P1, 90)\n" +
    "    }\n" +
    "    \n" +
    "    // Servo Calibration (Example: c120, x45)\n" +
    "    if (receivedString.includes(\"c\")) {\n" +
    "        let val = parseInt(receivedString.substr(1))\n" +
    "        pins.servoWritePin(AnalogPin.P2, val)\n" +
    "    }\n" +
    "})\n" +
    "bluetooth.startUartService()\n" +
    "basic.showString(\"READY\")\n" +
    "basic.showIcon(IconNames.Happy)"

  const LegacyText0 :=
    "let receivedString = \"\"\n" +
    "bluetooth.onBluetoothConnected(function () {\n" +
    "    basic.showIcon(IconNames.Happy)\n" +
    "})\n" +
    "bluetooth.onBluetoothDisconnected(function () {\n" +
    "    basic.showIcon(IconNames.No)\n" +
    "})\n" +
    "bluetooth.onUartDataReceived(serial.delimiters(Delimiters.NewLine), function () {\n" +
    "    receivedString = bluetooth.uartReadUntil(serial.delimiters(Delimiters.NewLine))\n" +
    "    if ("

  const LegacyText1 :=
    ") {\n" +
    "        pins.servoWritePin(AnalogPin.P0, 180)\n" +
    "        pins.servoWritePin(AnalogPin.P1, 0)\n" +
    "    }\n" +
    "    if ("

  const LegacyText2 :=
    ") {\n" +
    "        pins.servoWritePin(AnalogPin.P0, 0)\n" +
    "        pins.servoWritePin(AnalogPin.P1, 180)\n" +
    "    }\n" +
    "    if ("

  const LegacyText3 :=
    ") {\n" +
    "        pins.servoWritePin(AnalogPin.P0, 180)\n" +
    "        pins.servoWritePin(AnalogPin.P1, 180)\n" +
    "    }\n" +
    "    if ("

  const LegacyText4 :=
    ") {\n" +
    "        pins.servoWritePin(AnalogPin.P0, 0)\n" +
    "        pins.servoWritePin(AnalogPin.P1, 0)\n" +
    "    }\n" +
    "    if ("

  const LegacyText5 :=
    ") {\n" +
    "        pins.servoWritePin(AnalogPin.P0, 90)\n" +
    "        pins.servoWritePin(AnalogPin.P1, 90)\n" +
    "    }\n" +
    "})\n" +
    "bluetooth.startUartService()\n" +
    "basic.showIcon(IconNames.Square)"

  /** The fixed text of the dashboard's firmware, around the five comparisons. */
  const AppTemplate: seq<string> := [AppText0, AppText1, AppText2, AppText3, AppText4, AppText5]

  /** The fixed text of the legacy firmware, around the five comparisons. */
  const LegacyTemplate: seq<string> := [LegacyText0, LegacyText1, LegacyText2, LegacyText3, LegacyText4, LegacyText5]

  /** A template filled with the comparisons for `tokens` contains each of them. */
  lemma FilledTemplateIncludesGuards(texts: seq<string>, tokens: seq<string>)
    requires |texts| == |tokens| + 1
    ensures forall k :: 0 <= k < |tokens| ==> Includes(Interleave(texts, Guards(tokens)), Guard(tokens[k]))
  {
    var fw, offs := Interleave(texts, Guards(tokens)), GuardOffsets(texts, Guards(tokens));
    FilledTemplateGuardsInOrder(texts, tokens);
    forall k | 0 <= k < |tokens| ensures Includes(fw, Guard(tokens[k])) {
      IncludesIff(fw, Guard(tokens[k]));
      assert OccursAt(fw, Guard(tokens[k]), offs[k]);
    }
  }

  /** The dashboard's firmware: one if/else-if chain over the received line, then the
      servo calibration branch. */
  function AppFirmware(commands: CommandMap): (fw: string)
    ensures forall k :: 0 <= k < 5 ==> Includes(fw, Guard(DispatchOrder(commands)[k]))
  {
    FilledTemplateIncludesGuards(AppTemplate, DispatchOrder(commands));
    Interleave(AppTemplate, Guards(DispatchOrder(commands)))
  }

  /** The legacy firmware: a separate `if` per token. */
  function LegacyFirmware(commands: CommandMap): (fw: string)
    ensures forall k :: 0 <= k < 5 ==> Includes(fw, Guard(DispatchOrder(commands)[k]))
  {
    FilledTemplateIncludesGuards(LegacyTemplate, DispatchOrder(commands));
    Interleave(LegacyTemplate, Guards(DispatchOrder(commands)))
  }

  /** Any template filled with the comparisons for `tokens` holds each comparison at its
      own place, strictly in the order of the tokens. */
  lemma {:induction false} FilledTemplateGuardsInOrder(texts: seq<string>, tokens: seq<string>)
    requires |texts| == |tokens| + 1
    ensures var offs := GuardOffsets(texts, Guards(tokens));
      |offs| == |tokens|
      && (forall k :: 0 <= k < |tokens| ==> OccursAt(Interleave(texts, Guards(tokens)), Guard(tokens[k]), offs[k]))
      && (forall k :: 0 <= k < |tokens| - 1 ==> offs[k] < offs[k + 1])
  {
    var g := Guards(tokens);
    var offs := GuardOffsets(texts, g);
    forall k | 0 <= k < |tokens| - 1 ensures offs[k] < offs[k + 1] {
      assert g[k] == Guard(tokens[k]);
      assert |Guard(tokens[k])| > 0 by { assert Guard(tokens[k])[0] == 'r'; }
    }
  }

  /** The dashboard's firmware compares against the up, down, right and left tokens of the
      map and then `stop`, each at its own place and in that order. */
  lemma AppFirmwareGuardsInOrder(commands: CommandMap)
    ensures var offs := GuardOffsets(AppTemplate, Guards(DispatchOrder(commands)));
      |offs| == 5
      && (forall k :: 0 <= k < 5 ==> OccursAt(AppFirmware(commands), Guard(DispatchOrder(commands)[k]), offs[k]))
      && (forall k :: 0 <= k < 4 ==> offs[k] < offs[k + 1])
  {
    FilledTemplateGuardsInOrder(AppTemplate, DispatchOrder(commands));
  }

  /** The same holds of the legacy firmware. */
  lemma LegacyFirmwareGuardsInOrder(commands: CommandMap)
    ensures var offs := GuardOffsets(LegacyTemplate, Guards(DispatchOrder(commands)));
      |offs| == 5
      && (forall k :: 0 <= k < 5 ==> OccursAt(LegacyFirmware(commands), Guard(DispatchOrder(commands)[k]), offs[k]))
      && (forall k :: 0 <= k < 4 ==> offs[k] < offs[k + 1])
  {
    FilledTemplateGuardsInOrder(LegacyTemplate, DispatchOrder(commands));
  }
}
