/** The React dashboard's command-dispatch core: connection flags, the press/release
    protocol, the rolling activity log, and recording of sent commands. The browser's
    Bluetooth link, clock and prompts are not modelled; what they answer at the moment of
    an operation is passed in. */
module Dashboard {
  import opened Common
  import opened Controls
  import opened Classifiers
  import opened ActivityLog
  import opened Schedules

  /** How the write to the device ended: accepted, or an exception with its `name`. */
  datatype WriteOutcome = Written | Threw(name: string)

  /** The world at the moment of a send: whether the platform reports the GATT link as
      connected, how the write ends, the local time shown in the log, and the epoch time
      in milliseconds. */
  datatype Env = Env(gattConnected: bool, outcome: WriteOutcome, clock: string, now: int)

  /** A recording the user kept. */
  datatype SavedSequence = SavedSequence(name: string, sequence: seq<Step>)

  predicate NoStop(steps: seq<Step>)
  {
    forall i :: 0 <= i < |steps| ==> steps[i].cmd != StopToken
  }

  /** The name a stopped recording is saved under: what the user typed, or `Seq_<now>`
      when the prompt was cancelled or left empty. */
  function SequenceName(answer: Option<string>, now: nat): (name: string)
    ensures name != ""
    ensures answer.Some? && answer.value != "" ==> name == answer.value
    ensures answer.None? || answer.value == "" ==>
      name == "Seq_" + Decimal(now) && DigitsValue(name[4..]) == now
  {
    if answer.Some? && answer.value != "" then answer.value
    else
      var digits := Decimal(now);
      DecimalRoundTrip(now);
      assert ("Seq_" + digits)[4..] == digits;
      "Seq_" + digits
  }

  class Dashboard {
    /** A device was chosen and not disconnected since. */
    var hasDevice: bool
    /** The connection flag the header shows. */
    var isConnected: bool
    var commands: CommandMap
    /** The one control currently held down, if any. */
    var activeButton: Option<string>
    var recording: bool
    var recordedSequence: seq<Step>
    var savedSequences: seq<SavedSequence>
    /** Newest entry first. */
    var commandLog: seq<LogEntry>
    /** Every frame the device accepted, oldest first. */
    var delivered: seq<string>

    ghost predicate Valid()
      reads this
    {
      |commandLog| <= LogCapacity && (isConnected ==> hasDevice) && NoStop(recordedSequence)
    }

    /** Start-up: the stored map if there is one, else the defaults; stored sequences
      likewise; everything else empty and disconnected. */
    constructor (storedCommands: Option<CommandMap>, storedSequences: Option<seq<SavedSequence>>)
      ensures Valid()
      ensures commands == (if storedCommands.Some? then storedCommands.value else DefaultCommands)
      ensures savedSequences == (if storedSequences.Some? then storedSequences.value else [])
      ensures !hasDevice && !isConnected && activeButton == None && !recording
      ensures recordedSequence == [] && commandLog == [] && delivered == []
    {
      hasDevice, isConnected := false, false;
      commands := if storedCommands.Some? then storedCommands.value else DefaultCommands;
      activeButton := None;
      recording := false;
      recordedSequence := [];
      savedSequences := if storedSequences.Some? then storedSequences.value else [];
      commandLog := [];
      delivered := [];
    }

    /** Nothing changed at all. */
    twostate predicate Unchanged()
      reads this
    {
      hasDevice == old(hasDevice) && isConnected == old(isConnected) && commands == old(commands)
      && activeButton == old(activeButton) && recording == old(recording)
      && recordedSequence == old(recordedSequence) && savedSequences == old(savedSequences)
      && commandLog == old(commandLog) && delivered == old(delivered)
    }

    /** The fields a send never touches kept their values. */
    twostate predicate SendersFieldsKept()
      reads this
    {
      hasDevice == old(hasDevice) && commands == old(commands) && recording == old(recording)
      && savedSequences == old(savedSequences)
    }

    /** The effect of one `sendCmd(msg)` on the fields it owns.
        - No device, or the platform says the link is down: nothing happens.
        - The write succeeds: the device has `msg` plus a newline, the log gains
          `{time, msg}` in front, and an armed recording gains `msg` at its end unless it is `stop`.
        - The write throws: the log gains the failure entry in front, and the connection
          flag drops only when the error is a `NetworkError`. */
    twostate predicate Dispatched(msg: string, env: Env)
      reads this
    {
      if !old(hasDevice) || !env.gattConnected then
        isConnected == old(isConnected) && commandLog == old(commandLog)
        && recordedSequence == old(recordedSequence) && delivered == old(delivered)
      else
        match env.outcome
        case Written =>
          delivered == old(delivered) + [msg + "\n"]
          && commandLog == PushLog(old(commandLog), LogEntry(env.clock, msg))
          && recordedSequence == (if old(recording) && msg != StopToken
                                  then old(recordedSequence) + [Step(msg, env.now)]
                                  else old(recordedSequence))
          && isConnected == old(isConnected)
        case Threw(name) =>
          delivered == old(delivered)
          && commandLog == PushLog(old(commandLog), DeliveryFailed)
          && recordedSequence == old(recordedSequence)
          && isConnected == (old(isConnected) && name != "NetworkError")
    }

    /** A send and nothing else: the active control stays as it was. */
    twostate predicate Sent(msg: string, env: Env)
      reads this
    {
      Dispatched(msg, env) && SendersFieldsKept() && activeButton == old(activeButton)
    }

    method SendCmd(msg: string, env: Env)
      requires Valid()
      modifies this
      ensures Valid()
      ensures Sent(msg, env)
    {
      if !hasDevice || !env.gattConnected {
        return;
      }
      match env.outcome
      case Written =>
        delivered := delivered + [msg + "\n"];
        commandLog := PushLog(commandLog, LogEntry(env.clock, msg));
        if recording && msg != StopToken {
          recordedSequence := recordedSequence + [Step(msg, env.now)];
        }
      case Threw(name) =>
        if name == "NetworkError" {
          isConnected := false;
        }
        commandLog := PushLog(commandLog, DeliveryFailed);
    }

    /** Pressing a control whose token is truthy sends it and makes it the active control;
        pressing any other id changes nothing. */
    twostate predicate Pressed(id: string, env: Env)
      reads this
    {
      if Truthy(old(commands), id) then
        Dispatched(old(commands)[id], env) && SendersFieldsKept() && activeButton == Some(id)
      else Unchanged()
    }

    method HandlePress(id: string, env: Env)
      requires Valid()
      modifies this
      ensures Valid()
      ensures Pressed(id, env)
    {
      if id in commands && commands[id] != "" {
        SendCmd(commands[id], env);
        activeButton := Some(id);
      }
    }

    /** Releasing the active control sends `stop` and clears it; releasing any other
        control changes nothing. */
    twostate predicate Released(id: string, env: Env)
      reads this
    {
      if old(activeButton) == Some(id) then
        Dispatched(StopToken, env) && SendersFieldsKept() && activeButton == None
      else Unchanged()
    }

    method HandleRelease(id: string, env: Env)
      requires Valid()
      modifies this
      ensures Valid()
      ensures Released(id, env)
    {
      if activeButton == Some(id) {
        SendCmd(StopToken, env);
        activeButton := None;
      }
    }

    /** Keyboard: a bound key that is not an auto-repeat presses its control, and only in
        the classic mode. */
    method KeyDown(key: string, repeat: bool, classicMode: bool, env: Env)
      requires Valid()
      modifies this
      ensures Valid()
      ensures !repeat && KeyControl(key).Some? && classicMode ==> Pressed(KeyControl(key).value, env)
      ensures repeat || KeyControl(key).None? || !classicMode ==> Unchanged()
    {
      var control := KeyControl(key);
      if !repeat && control.Some? && classicMode {
        HandlePress(control.value, env);
      }
    }

    /** Keyboard: releasing a bound key releases its control, in the classic mode. */
    method KeyUp(key: string, classicMode: bool, env: Env)
      requires Valid()
      modifies this
      ensures Valid()
      ensures KeyControl(key).Some? && classicMode ==> Released(KeyControl(key).value, env)
      ensures KeyControl(key).None? || !classicMode ==> Unchanged()
    {
      var control := KeyControl(key);
      if control.Some? && classicMode {
        HandleRelease(control.value, env);
      }
    }

    /** A recognised utterance sends the token of the first keyword rule it matches,
        or nothing at all. */
    method OnVoiceResult(raw: string, env: Env)
      requires Valid()
      modifies this
      ensures Valid()
      ensures VoiceIntent(NormaliseTranscript(raw)).None? ==> Unchanged()
      ensures VoiceIntent(NormaliseTranscript(raw)).Some? ==>
        Sent(TokenFor(old(commands), VoiceIntent(NormaliseTranscript(raw)).value), env)
    {
      var intent := VoiceIntent(NormaliseTranscript(raw));
      if intent.Some? {
        SendCmd(TokenFor(commands, intent.value), env);
      }
    }

    /** Every orientation reading sends exactly one token. */
    method OnOrientation(beta: Option<real>, gamma: Option<real>, env: Env)
      requires Valid()
      modifies this
      ensures Valid()
      ensures Sent(TokenFor(old(commands), TiltIntent(beta, gamma)), env)
    {
      SendCmd(TokenFor(commands, TiltIntent(beta, gamma)), env);
    }

    /** Every joystick move sends exactly one token; letting go sends `stop`. */
    method OnJoystickMove(angle: real, power: real, env: Env)
      requires Valid()
      modifies this
      ensures Valid()
      ensures Sent(TokenFor(old(commands), JoystickIntent(angle, power)), env)
    {
      SendCmd(TokenFor(commands, JoystickIntent(angle, power)), env);
    }

    method OnJoystickEnd(env: Env)
      requires Valid()
      modifies this
      ensures Valid()
      ensures Sent(StopToken, env)
    {
      SendCmd(StopToken, env);
    }

    /** A calibration slider sends its channel letter followed by the value. */
    method OnSliderInput(channel: string, value: string, env: Env)
      requires Valid()
      modifies this
      ensures Valid()
      ensures Sent(channel + value, env)
    {
      SendCmd(channel + value, env);
    }

    /** Arming a recording discards the steps of the previous one. */
    method StartRecording()
      requires Valid()
      modifies this
      ensures Valid()
      ensures recording && recordedSequence == []
      ensures hasDevice == old(hasDevice) && isConnected == old(isConnected) && commands == old(commands)
      ensures activeButton == old(activeButton) && savedSequences == old(savedSequences)
      ensures commandLog == old(commandLog) && delivered == old(delivered)
    {
      recording := true;
      recordedSequence := [];
    }

    /** Disarming keeps the steps; they are saved, at the end of the list, only if there are any. */
    method StopRecording(answer: Option<string>, now: nat)
      requires Valid()
      modifies this
      ensures Valid()
      ensures !recording && recordedSequence == old(recordedSequence)
      ensures savedSequences == if old(recordedSequence) != []
                                then old(savedSequences) + [SavedSequence(SequenceName(answer, now), old(recordedSequence))]
                                else old(savedSequences)
      ensures hasDevice == old(hasDevice) && isConnected == old(isConnected) && commands == old(commands)
      ensures activeButton == old(activeButton) && commandLog == old(commandLog) && delivered == old(delivered)
    {
      recording := false;
      if |recordedSequence| > 0 {
        var name := SequenceName(answer, now);
        savedSequences := savedSequences + [SavedSequence(name, recordedSequence)];
      }
    }

    /** Editing one token in the settings panel. */
    method SetCommand(key: string, token: string)
      requires Valid()
      modifies this
      ensures Valid()
      ensures commands == old(commands)[key := token]
      ensures hasDevice == old(hasDevice) && isConnected == old(isConnected)
      ensures activeButton == old(activeButton) && recording == old(recording)
      ensures recordedSequence == old(recordedSequence) && savedSequences == old(savedSequences)
      ensures commandLog == old(commandLog) && delivered == old(delivered)
    {
      commands := commands[key := token];
    }

    /** Connecting: a device found and its UART characteristic reached raises both flags;
        any failure along the way ends as a disconnect. */
    method Connect(succeeded: bool)
      requires Valid()
      modifies this
      ensures Valid()
      ensures hasDevice == succeeded && isConnected == succeeded
      ensures commands == old(commands) && activeButton == old(activeButton) && recording == old(recording)
      ensures recordedSequence == old(recordedSequence) && savedSequences == old(savedSequences)
      ensures commandLog == old(commandLog) && delivered == old(delivered)
    {
      if succeeded {
        hasDevice := true;
        isConnected := true;
      } else {
        OnDisconnected();
      }
    }

    /** The platform's disconnect notification clears the device and the connection flag. */
    method OnDisconnected()
      requires Valid()
      modifies this
      ensures Valid()
      ensures !hasDevice && !isConnected
      ensures commands == old(commands) && activeButton == old(activeButton) && recording == old(recording)
      ensures recordedSequence == old(recordedSequence) && savedSequences == old(savedSequences)
      ensures commandLog == old(commandLog) && delivered == old(delivered)
    {
      hasDevice := false;
      isConnected := false;
    }
  }

  /** A stopped recording never saves an empty sequence nor one holding `stop`, so playing
      what it saved always yields a replay whose only `stop` is the final one. */
  lemma {:induction false} SavedRecordingReplays(sequence: seq<Step>)
    requires sequence != [] && NoStop(sequence)
    ensures ReplaySchedule(sequence).Some?
    ensures var s := ReplaySchedule(sequence).value;
      |s| == |sequence| + 1 && forall i :: 0 <= i < |s| ==> (s[i].cmd == StopToken <==> i == |sequence|)
  {
    var s := ReplayFrom(sequence[0].timestamp, sequence);
    assert ReplaySchedule(sequence) == Some(s);
    forall i | 0 <= i < |s| ensures s[i].cmd == StopToken <==> i == |sequence| {
      if i < |sequence| {
        assert s[i] == Timed(sequence[i].timestamp - (if i == 0 then sequence[0].timestamp else sequence[i - 1].timestamp), sequence[i].cmd);
        assert sequence[i].cmd != StopToken;
      }
    }
  }
}
