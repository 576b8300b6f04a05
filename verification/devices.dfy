/**
 * The two thin wrappers over the Windows multimedia API that the MIDI engine drives:
 * `MidiTimer`, which owns one periodic multimedia timer, and `MidiDevice`, which owns one
 * open MIDI output handle. The API itself is outside the model: each call it makes is
 * appended to a log, and each result it returns is a parameter of the method making it.
 */
module Devices {
  import opened Zun
  import opened ByteOrder

  /** A MIDI output handle; 0 is the NULL handle. */
  type Handle = nat

  /** An `MMRESULT`; 0 is `MMSYSERR_NOERROR`. */
  type MMResult = nat

  /** A `MIDIHDR` long-message header, known only by its identity. */
  class MidiHdr {}

  /** The MIDI output calls the engine makes, in the order it makes them. */
  datatype DeviceCall =
    | OutReset(h: Handle)
    | OutClose(h: Handle)
    | OutOpen(deviceId: u32)
    | OutShortMsg(h: Handle, msg: u32)
    | OutPrepareHeader(h: Handle, hdr: MidiHdr)
    | OutLongMsg(h: Handle, hdr: MidiHdr)
    | OutUnprepareHeader(h: Handle, hdr: MidiHdr)

  /** The routine a periodic timer event calls: the timer's own default callback, or a caller's. */
  datatype TimerCallback = DefaultCallback | Supplied(cb: nat, data: nat)

  /** The timer calls the engine makes. The resolution-period calls are not modelled. */
  datatype TimerCall =
    | TimeKillEvent(id: u32)
    | TimeSetEvent(delay: u32, callback: TimerCallback)

  // ---------------------------------------------------------------- MidiTimer

  /** The calls `StopTimer` makes when the running timer's id is `id`: a kill unless it is 0. */
  function StopCalls(id: u32): (cs: seq<TimerCall>)
    ensures cs == [] <==> id == 0
    ensures cs != [] ==> cs == [TimeKillEvent(id)]
  {
    if id != 0 then [TimeKillEvent(id)] else []
  }

  /** The callback `StartTimer` installs for the callback pointer `cb` (0 is NULL) and user data. */
  function Installed(cb: nat, data: nat): (c: TimerCallback)
    ensures c.DefaultCallback? <==> cb == 0
    ensures c.Supplied? ==> c.cb == cb && c.data == data
  {
    if cb != 0 then Supplied(cb, data) else DefaultCallback
  }

  class MidiTimer {
    /** The id of the running periodic event; 0 when none runs. */
    var timerId: u32
    ghost var timerCalls: seq<TimerCall>

    /** A new timer has no event running and has made no timer call. */
    constructor ()
      ensures timerId == 0 && timerCalls == []
    {
      timerId := 0;
      timerCalls := [];
    }

    /** Kills the running event, if any; always leaves no event running and returns 1. */
    method StopTimer() returns (r: int)
      modifies this
      ensures r == 1 && timerId == 0
      ensures timerCalls == old(timerCalls) + StopCalls(old(timerId))
    {
      if timerId != 0 {
        timerCalls := timerCalls + [TimeKillEvent(timerId)];
      }
      timerId := 0;
      r := 1;
    }

    /**
     * Stops any running event, then starts a periodic one after `delay` milliseconds with
     * `cb` (or the default callback when `cb` is NULL), and returns and keeps the id
     * `timeSetEvent` hands back as `newId` (0 when it fails).
     */
    method StartTimer(delay: u32, cb: nat, data: nat, newId: u32) returns (id: u32)
      modifies this
      ensures id == newId && timerId == newId
      ensures timerCalls == old(timerCalls) + StopCalls(old(timerId)) + [TimeSetEvent(delay, Installed(cb, data))]
    {
      var _ := StopTimer();
      timerCalls := timerCalls + [TimeSetEvent(delay, Installed(cb, data))];
      timerId := newId;
      id := timerId;
    }
  }

  // ---------------------------------------------------------------- MidiDevice

  /** What the engine knows of the output device: the open handle, the device id and the calls made. */
  datatype DeviceState = DeviceState(handle: Handle, deviceId: u32, calls: seq<DeviceCall>)

  /** The calls `Close` makes on the handle `h`: a reset and a close, unless `h` is NULL. */
  function CloseCalls(h: Handle): (cs: seq<DeviceCall>)
    ensures cs == [] <==> h == 0
    ensures cs != [] ==> cs == [OutReset(h), OutClose(h)]
  {
    if h != 0 then [OutReset(h), OutClose(h)] else []
  }

  /** The device after `Close`: closed, with the same device id; an open handle is reset and closed. */
  function Closing(d: DeviceState): (e: DeviceState)
    ensures e.handle == 0 && e.deviceId == d.deviceId
    ensures d.handle == 0 ==> e == d
  {
    d.(handle := 0, calls := d.calls + CloseCalls(d.handle))
  }

  /**
   * The device after `OpenDevice(id)`, when `midiOutOpen` stores `newHandle`: unchanged when
   * device `id` is already open; otherwise closed first, then recorded as `id` and opened.
   */
  function Opening(d: DeviceState, id: u32, newHandle: Handle): (e: DeviceState)
    ensures d.handle != 0 && d.deviceId == id ==> e == d
    ensures !(d.handle != 0 && d.deviceId == id) ==>
              e.handle == newHandle && e.deviceId == id && e.calls == Closing(d).calls + [OutOpen(id)]
  {
    if d.handle != 0 && d.deviceId == id then d
    else DeviceState(newHandle, id, Closing(d).calls + [OutOpen(id)])
  }

  /** Closing twice is closing once: the second close finds no handle and does nothing. */
  lemma CloseIdempotent(d: DeviceState)
    ensures Closing(Closing(d)) == Closing(d)
  {
  }

  /**
   * Once device `id` opened with a handle, opening `id` again changes nothing, whatever
   * `midiOutOpen` would have stored.
   */
  lemma ReopenSameDevice(d: DeviceState, id: u32, newHandle: Handle, again: Handle)
    requires newHandle != 0
    ensures Opening(Opening(d, id, newHandle), id, again) == Opening(d, id, newHandle)
  {
  }

  /** Opening another device than the open one closes the open one before opening. */
  lemma SwitchDevice(d: DeviceState, id: u32, newHandle: Handle)
    requires d.handle != 0 && d.deviceId != id
    ensures Opening(d, id, newHandle).calls == d.calls + [OutReset(d.handle), OutClose(d.handle), OutOpen(id)]
  {
  }

  /**
   * The `dwMsg` word of a short message: the union lays the status byte and the two data
   * bytes over its lowest three bytes. The top byte is never written, so it holds whatever
   * the stack held (`unused`).
   */
  function PackShortMsg(status: u8, first: u8, second: u8, unused: u8): (w: u32)
    ensures StoreU32(w) == [status, first, second, unused]
  {
    var bytes := [status, first, second, unused];
    StoreLoad32(bytes, 0);
    LoadU32(bytes, 0)
  }

  /** The status byte is the lowest byte of the word and each data byte sits 8 bits above the previous one. */
  lemma ShortMsgFields(status: u8, first: u8, second: u8, unused: u8)
    ensures var w := PackShortMsg(status, first, second, unused);
            w % 0x100 == status && w / 0x100 % 0x100 == first && w / 0x1_0000 % 0x100 == second
  {
    var w := PackShortMsg(status, first, second, unused);
    assert StoreU32(w)[0] == status && StoreU32(w)[1] == first && StoreU32(w)[2] == second;
  }

  class MidiDevice {
    /** The open output handle; 0 when the device is closed. */
    var handle: Handle
    /** The id of the device last asked to open. */
    var deviceId: u32
    ghost var deviceCalls: seq<DeviceCall>

    ghost function State(): (d: DeviceState)
      reads this
    {
      DeviceState(handle, deviceId, deviceCalls)
    }

    /** A new device is closed, with device id 0, and has made no call. */
    constructor ()
      ensures State() == DeviceState(0, 0, [])
    {
      handle := 0;
      deviceId := 0;
      deviceCalls := [];
    }

    /** Resets and closes an open device; a closed device is an error and nothing changes. */
    method Close() returns (r: ZunResult)
      modifies this
      ensures State() == Closing(old(State()))
      ensures r == (if old(handle) == 0 then Error else Success)
    {
      if handle == 0 {
        return Error;
      }
      deviceCalls := deviceCalls + [OutReset(handle), OutClose(handle)];
      handle := 0;
      return Success;
    }

    /**
     * Opens device `id`; `midiOutOpen` stores `openedHandle` and answers `openStatus`. The
     * result is true exactly when that open ran and failed: with device `id` already open
     * nothing happens and the result is false.
     */
    method OpenDevice(id: u32, openStatus: MMResult, openedHandle: Handle) returns (failed: bool)
      modifies this
      ensures State() == Opening(old(State()), id, openedHandle)
      ensures failed == (!(old(handle) != 0 && old(deviceId) == id) && openStatus != 0)
    {
      if handle != 0 {
        if deviceId != id {
          var _ := Close();
        } else {
          return false;
        }
      }
      deviceId := id;
      deviceCalls := deviceCalls + [OutOpen(id)];
      handle := openedHandle;
      failed := openStatus != 0;
    }

    /**
     * Sends a three-byte short message. With no open device nothing is sent and the
     * result is false; otherwise the result is true exactly when the send failed.
     */
    method SendShortMsg(status: u8, first: u8, second: u8, unused: u8, sendStatus: MMResult)
      returns (failed: bool)
      modifies this
      ensures handle == old(handle) && deviceId == old(deviceId)
      ensures old(handle) == 0 ==> !failed && deviceCalls == old(deviceCalls)
      ensures old(handle) != 0 ==>
                failed == (sendStatus != 0)
                && deviceCalls == old(deviceCalls) + [OutShortMsg(handle, PackShortMsg(status, first, second, unused))]
    {
      if handle == 0 {
        return false;
      }
      var msg := PackShortMsg(status, first, second, unused);
      deviceCalls := deviceCalls + [OutShortMsg(handle, msg)];
      failed := sendStatus != 0;
    }

    /**
     * Prepares the header `pmh` and sends it as a long message. With no open device
     * nothing happens and the result is false. If the prepare fails the result is true and
     * nothing is sent; otherwise the result is true exactly when the send failed.
     */
    method SendLongMsg(pmh: MidiHdr, prepareStatus: MMResult, sendStatus: MMResult) returns (failed: bool)
      modifies this
      ensures handle == old(handle) && deviceId == old(deviceId)
      ensures old(handle) == 0 ==> !failed && deviceCalls == old(deviceCalls)
      ensures old(handle) != 0 && prepareStatus != 0 ==>
                failed && deviceCalls == old(deviceCalls) + [OutPrepareHeader(handle, pmh)]
      ensures old(handle) != 0 && prepareStatus == 0 ==>
                failed == (sendStatus != 0)
                && deviceCalls == old(deviceCalls) + [OutPrepareHeader(handle, pmh), OutLongMsg(handle, pmh)]
    {
      if handle == 0 {
        return false;
      }
      deviceCalls := deviceCalls + [OutPrepareHeader(handle, pmh)];
      if prepareStatus != 0 {
        return true;
      }
      deviceCalls := deviceCalls + [OutLongMsg(handle, pmh)];
      failed := sendStatus != 0;
    }
  }
}
