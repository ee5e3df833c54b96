/**
 * The state logic of the plant-pot controller screen. Controller holds the
 * screen's five state cells and the handlers that update them; Slider holds
 * the light slider's own cell and its touch handler, which forwards the new
 * value to the Controller. Every handler is one sequential step: the remote
 * query it awaits is an input (see module Remote), and timers are outside
 * the model.
 */
module PlantScreen {
  import opened Remote
  import Normalize
  import LightModes

  class Controller {
    var waterLevel: int       // percentage shown for the water level
    var isSoilMoist: bool
    var lightIntensity: int   // percentage
    var lightMode: string     // "Auto", "On" or "Off"
    var isWatering: bool

    /** The mode is always one of the three the button cycles through. */
    ghost predicate Valid()
      reads this
    {
      lightMode in LightModes.Modes
    }

    /** The screen's initial state. */
    constructor ()
      ensures Valid()
      ensures waterLevel == 78 && isSoilMoist && lightIntensity == 65
      ensures lightMode == "Auto" && !isWatering
    {
      waterLevel := 78;
      isSoilMoist := true;
      lightIntensity := 65;
      lightMode := "Auto";
      isWatering := false;
    }

    /**
     * One telemetry poll. The water level is taken only when no error was
     * reported; light and moisture are taken whenever the row has them.
     * Anything absent keeps its previous value.
     */
    method FetchSensorData(reply: Reply<SensorRow>)
      requires Valid()
      modifies this`waterLevel, this`lightIntensity, this`isSoilMoist
      ensures Valid()
      ensures waterLevel ==
        if reply.Succeeded() && reply.data.Some? && reply.data.value.waterLevel.Some?
        then Normalize.NormalizeWaterLevel(reply.data.value.waterLevel.value)
        else old(waterLevel)
      ensures lightIntensity ==
        if reply.Row().Some? && reply.Row().value.lightLevel.Some?
        then reply.Row().value.lightLevel.value
        else old(lightIntensity)
      ensures isSoilMoist ==
        if reply.Row().Some? && reply.Row().value.isMoist.Some?
        then reply.Row().value.isMoist.value
        else old(isSoilMoist)
      ensures reply.Row().None? ==> unchanged(this)
      ensures reply.Succeeded() && reply.data.Some? && reply.data.value.waterLevel.Some?
              && 0 <= reply.data.value.waterLevel.value <= Normalize.AdcMax
              ==> 0 <= waterLevel <= 100
    {
      if reply.Threw? {
        return;
      }
      if reply.error.Some? {
        // the failure is only logged
      } else if reply.data.Some? && reply.data.value.waterLevel.Some? {
        waterLevel := Normalize.NormalizeWaterLevel(reply.data.value.waterLevel.value);
      }
      if reply.data.Some? && reply.data.value.lightLevel.Some? {
        lightIntensity := reply.data.value.lightLevel.value;
      }
      if reply.data.Some? && reply.data.value.isMoist.Some? {
        isSoilMoist := reply.data.value.isMoist.value;
      }
    }

    /**
     * One pump-status poll: without an error the remote flag overwrites
     * isWatering, a missing flag counting as false.
     */
    method CheckPumpStatus(reply: Reply<PumpRow>)
      requires Valid()
      modifies this`isWatering
      ensures Valid()
      ensures isWatering ==
        if !reply.Succeeded() then old(isWatering)
        else reply.data.Some? && reply.data.value.isButtonPump == Some(true)
    {
      if reply.Threw? {
        return;
      }
      if reply.error.Some? {
        // the failure is only logged
      } else {
        isWatering := if reply.data.Some? && reply.data.value.isButtonPump.Some?
                      then reply.data.value.isButtonPump.value
                      else false;
      }
    }

    /** The light button: the next mode of the cycle. */
    method ToggleLightMode()
      modifies this`lightMode
      ensures Valid()
      ensures lightMode == LightModes.NextMode(old(lightMode))
    {
      lightMode := LightModes.NextMode(lightMode);
    }

    /**
     * The "Water Now" button. While watering it does nothing and requests
     * nothing; otherwise it requests the pump (wrote) and sets isWatering
     * only once the request has succeeded. A failed request leaves the
     * state as it was.
     */
    method ActivateWaterPump(reply: WriteReply) returns (wrote: bool)
      requires Valid()
      modifies this`isWatering
      ensures Valid()
      ensures wrote == !old(isWatering)
      ensures isWatering == (old(isWatering) || reply.Succeeded())
      ensures !reply.Succeeded() ==> unchanged(this)
    {
      if isWatering {
        return false;
      }
      wrote := true;
      if reply.WriteThrew? {
        return;
      }
      if reply.error.Some? {
        // the failure is only logged
      } else {
        isWatering := true;
      }
    }

    /** The slider's change handler: only assigns the intensity. */
    method AdjustLightIntensity(value: int)
      requires Valid()
      modifies this`lightIntensity
      ensures Valid()
      ensures lightIntensity == value
    {
      lightIntensity := value;
    }

    /**
     * The slider as the screen renders it: hidden in "Auto", disabled in
     * "Off", and starting from the current intensity.
     */
    method MountSlider() returns (slider: Slider?)
      requires Valid()
      ensures (slider == null) == (lightMode == "Auto")
      ensures slider != null ==>
                fresh(slider) && slider.Valid() && slider.sliderValue == lightIntensity
                && slider.lightMode == lightMode && slider.onValueChange == this
    {
      if lightMode == "Auto" {
        return null;
      }
      slider := new Slider(lightIntensity, lightMode == "Off", lightMode, this);
    }
  }

  class Slider {
    var sliderValue: int
    const disabled: bool
    const lightMode: string
    /** The controller whose AdjustLightIntensity receives each new value. */
    const onValueChange: Controller

    /** The props a rendered slider can receive from the screen. */
    ghost predicate Valid()
      reads this
    {
      lightMode in LightModes.Modes && lightMode != "Auto" && disabled == (lightMode == "Off")
    }

    constructor (value: int, disabled: bool, lightMode: string, onValueChange: Controller)
      ensures sliderValue == value && this.disabled == disabled
      ensures this.lightMode == lightMode && this.onValueChange == onValueChange
    {
      sliderValue := value;
      this.disabled := disabled;
      this.lightMode := lightMode;
      this.onValueChange := onValueChange;
    }

    /**
     * A touch at pixel offset locationX on the track. A disabled slider
     * ignores it; otherwise the quantised value is shown and forwarded.
     */
    method HandlePress(locationX: int)
      requires onValueChange.Valid()
      modifies this`sliderValue, onValueChange`lightIntensity
      ensures disabled ==>
                sliderValue == old(sliderValue)
                && onValueChange.lightIntensity == old(onValueChange.lightIntensity)
      ensures !disabled ==>
                sliderValue == Normalize.Quantize(locationX, lightMode)
                && onValueChange.lightIntensity == sliderValue
      ensures Valid() && !disabled ==> sliderValue % Normalize.SnapStep == 0
    {
      if disabled {
        return;
      }
      var newValue := Normalize.Quantize(locationX, lightMode);
      if Valid() {
        AcceptedGestureSnaps(disabled, lightMode, locationX);
      }
      sliderValue := newValue;
      onValueChange.AdjustLightIntensity(newValue);
    }
  }

  /**
   * A slider the screen renders is hidden in "Auto" and disabled in "Off",
   * so every touch it accepts happens in "On" and lands on a multiple of 5.
   */
  lemma AcceptedGestureSnaps(disabled: bool, lightMode: string, locationX: int)
    requires lightMode in LightModes.Modes && lightMode != "Auto"
    requires disabled == (lightMode == "Off") && !disabled
    ensures Normalize.Quantize(locationX, lightMode) % Normalize.SnapStep == 0
  {
  }

  /**
   * A client of the contracts above: the screen's main flow, step by step,
   * with what the contracts decide about each step.
   */
  method Scenario()
  {
    var c := new Controller();
    c.FetchSensorData(Replied(None, Some(SensorRow(Some(767), None, None))));
    assert c.waterLevel == 75 by { Normalize.NormalizeWaterLevelExamples(); }

    c.CheckPumpStatus(Replied(None, Some(PumpRow(Some(false)))));
    assert !c.isWatering;

    var failed := c.ActivateWaterPump(WriteDone(Some("network")));
    assert failed && !c.isWatering;
    var wrote := c.ActivateWaterPump(WriteDone(None));
    assert wrote && c.isWatering;
    var again := c.ActivateWaterPump(WriteDone(None));
    assert !again && c.isWatering;

    c.CheckPumpStatus(Replied(Some("timeout"), None));
    assert c.isWatering;
    c.CheckPumpStatus(Replied(None, Some(PumpRow(Some(false)))));
    assert !c.isWatering;

    c.ToggleLightMode();
    assert c.lightMode == "On" by { LightModes.NextModeSteps(); }
    var slider := c.MountSlider();
    slider.HandlePress(-40);
    assert c.lightIntensity == 0;
    slider.HandlePress(131);
    assert c.lightIntensity == 45 && slider.sliderValue == 45;
  }
}
