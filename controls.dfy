/** The command map: control ids, the tokens they stand for, and the keyboard bindings.
    Shared by the React dashboard and the legacy controller. */
module Controls {
  import opened Common

  const PadUp := "pad-up"
  const PadDown := "pad-down"
  const PadLeft := "pad-left"
  const PadRight := "pad-right"
  const BtnA := "btn-a"
  const BtnB := "btn-b"

  /** The literal token that halts the robot; it is never looked up in the map. */
  const StopToken := "stop"

  /** Control id -> token sent over the link. */
  type CommandMap = map<string, string>

  /** The map used when no map was stored. */
  const DefaultCommands: CommandMap :=
    map[PadUp := "up", PadDown := "down", PadLeft := "left", PadRight := "right",
        BtnA := "horn", BtnB := "b"]

  /** The six ids the controls are built from. */
  const ControlIds: set<string> := {PadUp, PadDown, PadLeft, PadRight, BtnA, BtnB}

  /** `commands[id]` used as a string, the way a template literal or `msg + '\n'` renders it:
      a missing entry reads `undefined`. */
  function Lookup(commands: CommandMap, id: string): string
  {
    if id in commands then commands[id] else "undefined"
  }

  /** `commands[id]` is truthy: present and not the empty string. */
  predicate Truthy(commands: CommandMap, id: string)
  {
    id in commands && commands[id] != ""
  }

  /** The defaults cover every control with a distinct non-empty token, none of them `stop`. */
  lemma DefaultsCoverControls()
    ensures DefaultCommands.Keys == ControlIds
    ensures forall id :: id in ControlIds ==> Truthy(DefaultCommands, id) && DefaultCommands[id] != StopToken
    ensures forall i, j :: i in ControlIds && j in ControlIds && i != j ==> DefaultCommands[i] != DefaultCommands[j]
  {
  }

  /** The keyboard bindings: arrow keys drive the pad, `a`/`A` and `b`/`B` the two buttons. */
  const KeyMap: map<string, string> :=
    map["ArrowUp" := PadUp, "ArrowDown" := PadDown, "ArrowLeft" := PadLeft, "ArrowRight" := PadRight,
        "a" := BtnA, "A" := BtnA, "b" := BtnB, "B" := BtnB]

  /** The control a key drives, if it is bound. */
  function KeyControl(key: string): (r: Option<string>)
    ensures r.Some? <==> key in {"ArrowUp", "ArrowDown", "ArrowLeft", "ArrowRight", "a", "A", "b", "B"}
    ensures r.Some? ==> r.value in ControlIds
    ensures key == "ArrowUp" ==> r == Some(PadUp)
    ensures key == "ArrowDown" ==> r == Some(PadDown)
    ensures key == "ArrowLeft" ==> r == Some(PadLeft)
    ensures key == "ArrowRight" ==> r == Some(PadRight)
    ensures key == "a" || key == "A" ==> r == Some(BtnA)
    ensures key == "b" || key == "B" ==> r == Some(BtnB)
  {
    if key in KeyMap then Some(KeyMap[key]) else None
  }
}
