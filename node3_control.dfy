/**
 * The two-actuator control panel: the believed motor and fertilizer states,
 * the status read that decodes them, the combined write and the `loading`
 * flag that disables the buttons while a write is in flight.
 */
module Node3Control {
  import opened Wrappers
  import opened Remote

  /** One record of the status channel: field2 is the fertilizer, field3 the motor. */
  datatype StatusFeed = StatusFeed(field2: Option<string>, field3: Option<string>)

  /** What the panel believes the two actuators are doing. */
  datatype Belief = Belief(motor: bool, fertilizer: bool)

  /** A field reads as "on" only when it is exactly the text "1" (null included, all else is off). */
  predicate IsOn(field: Option<string>) {
    field == Some("1")
  }

  /**
   * `fetchStatus`: the latest record, if any, overwrites both beliefs; an
   * empty feed list or a failed read leaves the belief as it was.
   */
  function ReadStatus(b: Belief, read: Read<StatusFeed>): (b': Belief)
    ensures Latest(read).Some? ==>
      b'.motor == (Latest(read).value.field3 == Some("1"))
      && b'.fertilizer == (Latest(read).value.field2 == Some("1"))
    ensures Latest(read).None? ==> b' == b
  {
    match Latest(read)
    case Some(data) => Belief(IsOn(data.field3), IsOn(data.field2))
    case None => b
  }

  /** The four buttons of the panel. */
  datatype Button = MotorOn | MotorOff | FertilizerOn | FertilizerOff

  /** The query of one combined write: `field3` is the motor, `field2` the fertilizer. */
  datatype WriteRequest = WriteRequest(field3: int, field2: int)

  /** `x ? 1 : 0`. */
  function Bit(x: bool): (v: int)
    ensures v == 0 || v == 1
    ensures x <==> v == 1
  {
    if x then 1 else 0
  }

  /** Whether a button concerns the motor (the two others concern the fertilizer). */
  predicate IsMotorButton(btn: Button) {
    btn == MotorOn || btn == MotorOff
  }

  /** Whether a button switches its actuator on. */
  predicate IsOnButton(btn: Button) {
    btn == MotorOn || btn == FertilizerOn
  }

  /**
   * The `updateBoth` arguments of a button: the actuator the button is about
   * gets its target, the other one carries the current belief, so that every
   * write restates both values.
   */
  function Payload(btn: Button, b: Belief): (req: WriteRequest)
    ensures IsMotorButton(btn) ==> req.field3 == Bit(IsOnButton(btn)) && req.field2 == Bit(b.fertilizer)
    ensures !IsMotorButton(btn) ==> req.field2 == Bit(IsOnButton(btn)) && req.field3 == Bit(b.motor)
  {
    match btn
    case MotorOn => WriteRequest(1, Bit(b.fertilizer))
    case MotorOff => WriteRequest(0, Bit(b.fertilizer))
    case FertilizerOn => WriteRequest(Bit(b.motor), 1)
    case FertilizerOff => WriteRequest(Bit(b.motor), 0)
  }

  /** What a button means to achieve: its actuator at its target, the other untouched. */
  function Intended(btn: Button, b: Belief): Belief {
    if IsMotorButton(btn) then b.(motor := IsOnButton(btn)) else b.(fertilizer := IsOnButton(btn))
  }

  /** How the write endpoint stores a 0/1 value: as its decimal text. */
  function FieldText(v: int): string {
    if v == 1 then "1" else "0"
  }

  /** The status record the channel holds once it has stored a write. */
  function Stored(req: WriteRequest): StatusFeed {
    StatusFeed(Some(FieldText(req.field2)), Some(FieldText(req.field3)))
  }

  /**
   * No unintended flip: when the write a button sends is what the confirming
   * status read returns, the new belief changes the button's own actuator only.
   */
  lemma PayloadKeepsOtherActuator(btn: Button, b: Belief)
    ensures ReadStatus(b, Fetched([Stored(Payload(btn, b))])) == Intended(btn, b)
  {
  }

  /** The write endpoint's answer: a transport failure, or the response text. */
  datatype WriteResponse = WriteFailed | Responded(text: string)

  /**
   * The endpoint answers "0" when it rejects a write, and the new entry id
   * otherwise; the page treats every answer but "0" as acceptance, even an
   * empty one, and a transport error as none.
   */
  function Accepted(resp: WriteResponse): (b: bool)
    ensures resp.WriteFailed? ==> !b
    ensures resp == Responded("0") ==> !b
    ensures resp.Responded? && resp.text != "0" ==> b
  {
    resp.Responded? && resp.text != "0"
  }

  /**
   * The belief after a write has completed: a fresh status read when the
   * write was accepted, the unchanged belief otherwise.
   */
  function AfterWrite(b: Belief, resp: WriteResponse, confirm: Read<StatusFeed>): (b': Belief)
    ensures !Accepted(resp) ==> b' == b
    ensures Accepted(resp) ==> b' == ReadStatus(b, confirm)
  {
    if Accepted(resp) then ReadStatus(b, confirm) else b
  }

  /** A rejection ("0") or a transport error never changes what the panel believes. */
  lemma RejectedWriteKeepsBelief(b: Belief, text: string, confirm: Read<StatusFeed>)
    ensures AfterWrite(b, Responded("0"), confirm) == b
    ensures AfterWrite(b, WriteFailed, confirm) == b
    ensures text != "0" ==> AfterWrite(b, Responded(text), confirm) == ReadStatus(b, confirm)
  {
  }

  /**
   * An accepted write whose confirming read returns the stored payload ends in
   * the belief the button intended.
   */
  lemma AcceptedWriteReachesIntent(btn: Button, b: Belief, entryId: string)
    requires entryId != "0"
    ensures AfterWrite(b, Responded(entryId), Fetched([Stored(Payload(btn, b))])) == Intended(btn, b)
  {
    PayloadKeepsOtherActuator(btn, b);
  }

  /** The panel's state: the two believed actuator values and the in-flight flag. */
  class ControlPanel {
    var motorStatus: bool
    var fertilizerStatus: bool
    var loading: bool

    function Current(): Belief
      reads this
    {
      Belief(motorStatus, fertilizerStatus)
    }

    /** Both actuators start believed off and no write is in flight. */
    constructor ()
      ensures Current() == Belief(false, false) && !loading
    {
      motorStatus, fertilizerStatus, loading := false, false, false;
    }

    /** `fetchStatus`, including the one run when the panel mounts. */
    method FetchStatus(read: Read<StatusFeed>)
      modifies this
      ensures Current() == ReadStatus(old(Current()), read)
      ensures loading == old(loading)
    {
      var latest := Latest(read);
      if latest.Some? {
        motorStatus := latest.value.field3 == Some("1");
        fertilizerStatus := latest.value.field2 == Some("1");
      }
    }

    /**
     * A click on a button.  While a write is in flight the buttons are
     * disabled: nothing is sent and nothing changes.  Otherwise the first
     * half of `updateBoth` runs: `loading` is set and the combined write,
     * built from the current belief, is sent.
     */
    method Press(btn: Button) returns (sent: Option<WriteRequest>)
      modifies this
      ensures old(loading) ==> sent == None && Current() == old(Current()) && loading
      ensures !old(loading) ==> sent == Some(Payload(btn, old(Current())))
                                  && Current() == old(Current()) && loading
    {
      if loading {
        sent := None;
      } else {
        var newMotor, newFertilizer;
        match btn {
          case MotorOn => newMotor, newFertilizer := 1, if fertilizerStatus then 1 else 0;
          case MotorOff => newMotor, newFertilizer := 0, if fertilizerStatus then 1 else 0;
          case FertilizerOn => newMotor, newFertilizer := if motorStatus then 1 else 0, 1;
          case FertilizerOff => newMotor, newFertilizer := if motorStatus then 1 else 0, 0;
        }
        loading := true;
        sent := Some(WriteRequest(newMotor, newFertilizer));
      }
    }

    /**
     * The second half of `updateBoth`, once the write has answered: on
     * acceptance the confirming status read is applied, a rejection or a
     * transport error changes nothing, and `loading` is cleared in every case.
     */
    method CompleteWrite(resp: WriteResponse, confirm: Read<StatusFeed>)
      modifies this
      ensures Current() == AfterWrite(old(Current()), resp, confirm)
      ensures !loading
    {
      if resp.Responded? && resp.text != "0" {
        FetchStatus(confirm);
      }
      loading := false;
    }
  }

  /**
   * Single flight: a second click that arrives while the first write is in
   * flight sends nothing, and once the first write has completed the panel is
   * idle with the belief `AfterWrite` gives.
   */
  method DoubleClick(panel: ControlPanel, first: Button, second: Button,
                     resp: WriteResponse, confirm: Read<StatusFeed>)
    returns (sentFirst: Option<WriteRequest>, sentSecond: Option<WriteRequest>)
    requires !panel.loading
    modifies panel
    ensures sentFirst == Some(Payload(first, old(panel.Current())))
    ensures sentSecond == None
    ensures panel.Current() == AfterWrite(old(panel.Current()), resp, confirm) && !panel.loading
  {
    sentFirst := panel.Press(first);
    sentSecond := panel.Press(second);
    panel.CompleteWrite(resp, confirm);
  }
}
