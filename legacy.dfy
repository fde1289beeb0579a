/** The earlier plain-script controller: one shared state object, a per-control `active`
    class on the page's elements, the same press/release protocol and key bindings, and
    calibration sliders. Sends are fire-and-forget: there is no log and no recording. */
module Legacy {
  import opened Common
  import opened Controls

  predicate NoDash(s: string)
  {
    forall i :: 0 <= i < |s| ==> s[i] != '-'
  }

  /** JavaScript's `s.split('-')`: the pieces between the dashes, always at least one. */
  function SplitDash(s: string): (parts: seq<string>)
    ensures |parts| >= 1
    ensures forall k :: 0 <= k < |parts| ==> NoDash(parts[k])
  {
    if s == [] then [""]
    else
      var rest := SplitDash(s[1..]);
      if s[0] == '-' then [""] + rest else [[s[0]] + rest[0]] + rest[1..]
  }

  /** Splitting a dash-free head followed by a dash yields the head, then the rest's pieces. */
  lemma {:induction false} SplitDashHead(a: string, rest: string)
    requires NoDash(a)
    ensures SplitDash(a + "-" + rest) == [a] + SplitDash(rest)
  {
    if a != [] {
      SplitDashHead(a[1..], rest);
      assert (a + "-" + rest)[1..] == a[1..] + "-" + rest;
      assert [a[0]] + a[1..] == a;
    } else {
      assert a + "-" + rest == ['-'] + rest;
      assert (['-'] + rest)[1..] == rest;
    }
  }

  /** The first piece of a dash-free head, followed by nothing or by a dash, is the head. */
  lemma {:induction false} SplitDashFirst(a: string, more: string)
    requires NoDash(a)
    requires more == [] || more[0] == '-'
    ensures SplitDash(a + more)[0] == a
  {
    if a != [] {
      SplitDashFirst(a[1..], more);
      assert (a + more)[1..] == a[1..] + more;
      assert [a[0]] + a[1..] == a;
    } else {
      assert a + more == more;
    }
  }

  /** A string without a dash is a single piece. */
  lemma {:induction false} SplitDashWhole(a: string)
    requires NoDash(a)
    ensures SplitDash(a) == [a]
  {
    if a != [] {
      SplitDashWhole(a[1..]);
      assert [a[0]] + a[1..] == a;
    }
  }

  /** The channel prefix of a slider: the second dash-separated piece of its id, which a
      template literal renders as `undefined` when the id has no dash. */
  function SliderPrefix(sliderId: string): (prefix: string)
    ensures NoDash(prefix)
    ensures NoDash(sliderId) ==> prefix == "undefined"
  {
    if NoDash(sliderId) then SplitDashWhole(sliderId); "undefined" else
    var parts := SplitDash(sliderId);
    if |parts| > 1 then parts[1] else "undefined"
  }

  /** The slider command: the prefix immediately followed by the value. */
  function SliderCommand(sliderId: string, value: string): (cmd: string)
    ensures |cmd| >= |value| && cmd[|cmd| - |value|..] == value
    ensures NoDash(cmd[..|cmd| - |value|])
  {
    SliderPrefix(sliderId) + value
  }

  /** An id `<kind>-<channel>`, optionally followed by more dash-separated pieces, sends
      `<channel><value>`. */
  lemma SliderCommandOfId(kind: string, channel: string, more: string, value: string)
    requires NoDash(kind) && NoDash(channel)
    requires more == [] || more[0] == '-'
    ensures SliderCommand(kind + "-" + channel + more, value) == channel + value
  {
    var tail := channel + more;
    assert kind + "-" + channel + more == kind + "-" + tail;
    assert (kind + "-" + tail)[|kind|] == '-';
    SplitDashHead(kind, tail);
    SplitDashFirst(channel, more);
  }

  /** An id without a dash has no channel: the command starts with `undefined`. */
  lemma SliderCommandWithoutDash(sliderId: string, value: string)
    requires NoDash(sliderId)
    ensures SliderCommand(sliderId, value) == "undefined" + value
  {
    SplitDashWhole(sliderId);
  }

  class LegacyController {
    var isConnected: bool
    /** The chosen device, if any. */
    var hasDevice: bool
    /** The UART characteristic writes go to, if reached. */
    var hasTx: bool
    var commands: CommandMap
    /** Ids of the elements on the page. */
    const page: set<string>
    /** Controls whose element carries the `active` class. */
    var active: set<string>
    /** Every frame the device accepted, oldest first. */
    var delivered: seq<string>

    ghost predicate Valid()
      reads this
    {
      active <= page && hasTx == isConnected && hasDevice == isConnected
    }

    /** Start-up: the stored map if there is one, else the defaults; disconnected, nothing active. */
    constructor (storedCommands: Option<CommandMap>, elementIds: set<string>)
      ensures Valid()
      ensures commands == (if storedCommands.Some? then storedCommands.value else DefaultCommands)
      ensures page == elementIds && active == {} && delivered == []
      ensures !isConnected && !hasDevice && !hasTx
    {
      isConnected, hasDevice, hasTx := false, false, false;
      commands := if storedCommands.Some? then storedCommands.value else DefaultCommands;
      page := elementIds;
      active := {};
      delivered := [];
    }

    /** One `sendCmd(msg)`: with a characteristic, a successful write delivers `msg` plus a
        newline; without one, or when the write fails, nothing at all changes. */
    twostate predicate Transmitted(msg: string, writeOk: bool)
      reads this
    {
      delivered == old(delivered) + (if old(hasTx) && writeOk then [msg + "\n"] else [])
      && isConnected == old(isConnected) && hasDevice == old(hasDevice) && hasTx == old(hasTx)
      && commands == old(commands)
    }

    method SendCmd(msg: string, writeOk: bool)
      requires Valid()
      modifies this
      ensures Valid()
      ensures Transmitted(msg, writeOk) && active == old(active)
    {
      if !hasTx {
        return;
      }
      if writeOk {
        delivered := delivered + [msg + "\n"];
      }
    }

    /** Pressing a control with a truthy token sends it and marks the control's element
        active; any other id changes nothing. Other controls' flags are untouched. */
    twostate predicate Pressed(id: string, writeOk: bool)
      reads this
    {
      if Truthy(old(commands), id) then
        Transmitted(old(commands)[id], writeOk) && active == old(active) + (if id in page then {id} else {})
      else
        delivered == old(delivered) && active == old(active) && isConnected == old(isConnected)
        && hasDevice == old(hasDevice) && hasTx == old(hasTx) && commands == old(commands)
    }

    method HandlePress(id: string, writeOk: bool)
      requires Valid()
      modifies this
      ensures Valid()
      ensures Pressed(id, writeOk)
    {
      if id in commands && commands[id] != "" {
        SendCmd(commands[id], writeOk);
        if id in page {
          active := active + {id};
        }
      }
    }

    /** Releasing an active control sends `stop` and clears only its flag; releasing an
        inactive one sends nothing. */
    twostate predicate Released(id: string, writeOk: bool)
      reads this
    {
      if id in old(active) then
        Transmitted(StopToken, writeOk) && active == old(active) - {id}
      else
        delivered == old(delivered) && active == old(active) && isConnected == old(isConnected)
        && hasDevice == old(hasDevice) && hasTx == old(hasTx) && commands == old(commands)
    }

    method HandleRelease(id: string, writeOk: bool)
      requires Valid()
      modifies this
      ensures Valid()
      ensures Released(id, writeOk)
    {
      if id in active {
        SendCmd(StopToken, writeOk);
        active := active - {id};
      }
    }

    /** A bound key that is not an auto-repeat presses its control; anything else is ignored. */
    method KeyDown(key: string, repeat: bool, writeOk: bool)
      requires Valid()
      modifies this
      ensures Valid()
      ensures !repeat && KeyControl(key).Some? ==> Pressed(KeyControl(key).value, writeOk)
      ensures repeat || KeyControl(key).None? ==>
        delivered == old(delivered) && active == old(active) && isConnected == old(isConnected)
        && hasDevice == old(hasDevice) && hasTx == old(hasTx) && commands == old(commands)
    {
      var control := KeyControl(key);
      if !repeat && control.Some? {
        HandlePress(control.value, writeOk);
      }
    }

    /** Releasing a bound key releases its control; other keys are ignored. */
    method KeyUp(key: string, writeOk: bool)
      requires Valid()
      modifies this
      ensures Valid()
      ensures KeyControl(key).Some? ==> Released(KeyControl(key).value, writeOk)
      ensures KeyControl(key).None? ==>
        delivered == old(delivered) && active == old(active) && isConnected == old(isConnected)
        && hasDevice == old(hasDevice) && hasTx == old(hasTx) && commands == old(commands)
    {
      var control := KeyControl(key);
      if control.Some? {
        HandleRelease(control.value, writeOk);
      }
    }

    /** Moving a slider shows the value in the element `val-<prefix>` and then sends the
        prefix followed by the value; when that element is missing the handler throws
        before sending, and nothing changes. */
    method SliderInput(sliderId: string, value: string, writeOk: bool)
      requires Valid()
      modifies this
      ensures Valid()
      ensures active == old(active)
      ensures "val-" + SliderPrefix(sliderId) in page ==> Transmitted(SliderCommand(sliderId, value), writeOk)
      ensures "val-" + SliderPrefix(sliderId) !in page ==> Transmitted(SliderCommand(sliderId, value), false)
    {
      var prefix := SliderPrefix(sliderId);
      if "val-" + prefix !in page {
        return;
      }
      SendCmd(prefix + value, writeOk);
    }

    /** The platform's disconnect notification: all three connection fields are cleared. */
    method OnDisconnected()
      requires Valid()
      modifies this
      ensures Valid()
      ensures !isConnected && !hasDevice && !hasTx
      ensures commands == old(commands) && active == old(active) && delivered == old(delivered)
    {
      isConnected := false;
      hasDevice := false;
      hasTx := false;
    }

    /** Connecting: reaching the characteristic sets all three fields; any failure ends in
        the same state as a disconnect. */
    method Connect(succeeded: bool)
      requires Valid()
      modifies this
      ensures Valid()
      ensures isConnected == succeeded && hasDevice == succeeded && hasTx == succeeded
      ensures commands == old(commands) && active == old(active) && delivered == old(delivered)
    {
      if succeeded {
        hasDevice := true;
        hasTx := true;
        isConnected := true;
      } else {
        OnDisconnected();
      }
    }
  }
}
