/*
 * LED driver (HAL/led_driver.c).
 *
 * An LED sits on one GPIO pin and is wired either active-high (lit while
 * the pin is high) or active-low (lit while the pin is low). Every call
 * takes a pointer to the LED's configuration; a NULL pointer, modelled
 * as None, makes the call do nothing.
 */
module Led {
  import opened Wrappers
  import Gpio

  /** LED_Mode_t: the two wirings, and LED_Mode_max, which no call acts on. */
  datatype Polarity = ActiveHigh | ActiveLow | ModeMax

  /** LED_cfg_t: the port, the pin configuration handed to MCAL_GPIO_Init, and the wiring. */
  datatype LedConfig = LedConfig(port: Gpio.GpioPort, pin: bv32, pinMode: bv32, speed: bv32, polarity: Polarity)

  /** Whether the LED shines when its pin is at `high`: the physical meaning of the wiring. */
  predicate Lit(p: Polarity, high: bool) {
    (p == ActiveHigh && high) || (p == ActiveLow && !high)
  }

  /** The level LED_TurnOn writes: SET when active-high, RESET when active-low, nothing otherwise. */
  function OnLevel(p: Polarity): Option<bool> {
    match p
    case ActiveHigh => Some(true)
    case ActiveLow => Some(false)
    case ModeMax => None
  }

  /** The level LED_TurnOff (and LED_Init) writes: the opposite of OnLevel in each wiring. */
  function OffLevel(p: Polarity): Option<bool> {
    match p
    case ActiveHigh => Some(false)
    case ActiveLow => Some(true)
    case ModeMax => None
  }

  /** The pin writes a call makes: one write of the level, or none. */
  function LevelWrites(pin: bv32, level: Option<bool>): (w: seq<Gpio.PinWrite>)
    ensures |w| <= 1
    ensures level.Some? <==> |w| == 1
    ensures level.Some? ==> w[0] == Gpio.PinWrite(pin, level.value)
  {
    if level.Some? then [Gpio.PinWrite(pin, level.value)] else []
  }

  /** The value handed to MCAL_GPIO_WritePin for a level (GPIO_PIN_SET = 1, GPIO_PIN_RESET = 0). */
  function PinValue(high: bool): bv8 {
    if high then 1 else 0
  }

  /**
   * TurnOn lights the LED and TurnOff darkens it, in both wirings, and the two
   * write opposite levels; LED_Mode_max writes nothing either way.
   */
  lemma OnAndOffAgreeWithWiring(p: Polarity)
    ensures OnLevel(p).Some? <==> p != ModeMax
    ensures OffLevel(p).Some? <==> p != ModeMax
    ensures OnLevel(p).Some? ==> Lit(p, OnLevel(p).value)
    ensures OffLevel(p).Some? ==> !Lit(p, OffLevel(p).value)
    ensures OnLevel(p).Some? ==> OffLevel(p).value == !OnLevel(p).value
  {
  }

  /** Whether the LED shines with output register `odr`: its pin's bit read through the wiring. */
  predicate Shining(p: Polarity, odr: bv32, pin: bv32) {
    Lit(p, odr & pin != 0)
  }

  /** ODR after writing `level`, if any, to `pin`. */
  function OdrAfter(odr: bv32, pin: bv32, level: Option<bool>): bv32 {
    if level.Some? then Gpio.Written(odr, pin, level.value) else odr
  }

  /** Writing a level touches no ODR bit outside the pin. */
  lemma OdrAfterKeepsOthers(odr: bv32, pin: bv32, level: Option<bool>)
    ensures Gpio.OdrKept(odr, OdrAfter(odr, pin, level), pin)
  {
    if level.Some? {
      Gpio.WrittenKeepsOutside(odr, pin, level.value, pin);
    }
  }

  /**
   * Whatever ODR held before, writing the on level makes the LED shine and
   * writing the off level makes it dark, in both wirings.
   */
  lemma {:induction false} LevelsShine(p: Polarity, odr: bv32, pin: bv32)
    requires Gpio.IsPin(pin) && p != ModeMax
    ensures Shining(p, OdrAfter(odr, pin, OnLevel(p)), pin)
    ensures !Shining(p, OdrAfter(odr, pin, OffLevel(p)), pin)
  {
    Gpio.WrittenLevel(odr, pin, OnLevel(p).value);
    Gpio.WrittenLevel(odr, pin, OffLevel(p).value);
  }

  /** A toggle turns a dark LED on and a shining LED off, in both wirings. */
  lemma ToggleFlipsShining(p: Polarity, odr: bv32, pin: bv32)
    requires Gpio.IsPin(pin) && p != ModeMax
    ensures Shining(p, Gpio.Toggled(odr, pin), pin) <==> !Shining(p, odr, pin)
  {
  }

  /** Writes one level, if any, to the LED's pin. */
  method WriteLevel(port: Gpio.GpioPort, pin: bv32, level: Option<bool>)
    modifies port
    ensures port.writes == old(port.writes) + LevelWrites(pin, level)
    ensures port.ODR == OdrAfter(old(port.ODR), pin, level)
    ensures Gpio.OdrKept(old(port.ODR), port.ODR, pin)
    ensures port.CRL == old(port.CRL) && port.CRH == old(port.CRH)
  {
    if level.Some? {
      assert (PinValue(level.value) != 0) == level.value;
      port.WritePin(pin, PinValue(level.value));
    }
    OdrAfterKeepsOthers(old(port.ODR), pin, level);
  }

  /**
   * LED_Init: configure the pin, then write the off level, so the LED starts
   * dark. No other pin of the port changes its configuration or output bit.
   */
  method Init(cfg: Option<LedConfig>)
    requires cfg.Some? ==> Gpio.IsPin(cfg.value.pin)
    modifies if cfg.Some? then {cfg.value.port} else {}
    ensures cfg.Some? ==>
      cfg.value.port.Config(cfg.value.pin) == Gpio.ConfigNibble(cfg.value.pinMode, cfg.value.speed)
    ensures cfg.Some? ==> Gpio.KeptOutside(old(cfg.value.port.CRL), old(cfg.value.port.CRH),
      cfg.value.port.CRL, cfg.value.port.CRH, {cfg.value.pin})
    ensures cfg.Some? ==> Gpio.OdrKept(old(cfg.value.port.ODR), cfg.value.port.ODR, cfg.value.pin)
    ensures cfg.Some? ==> !Shining(cfg.value.polarity, cfg.value.port.ODR, cfg.value.pin)
    ensures cfg.Some? ==>
      cfg.value.port.writes == old(cfg.value.port.writes) + LevelWrites(cfg.value.pin, OffLevel(cfg.value.polarity))
  {
    if cfg.Some? {
      InitPin(cfg.value);
    }
  }

  /** The body of LED_Init for a configuration that is present. */
  method InitPin(c: LedConfig)
    requires Gpio.IsPin(c.pin)
    modifies c.port
    ensures c.port.Config(c.pin) == Gpio.ConfigNibble(c.pinMode, c.speed)
    ensures Gpio.KeptOutside(old(c.port.CRL), old(c.port.CRH), c.port.CRL, c.port.CRH, {c.pin})
    ensures Gpio.OdrKept(old(c.port.ODR), c.port.ODR, c.pin)
    ensures !Shining(c.polarity, c.port.ODR, c.pin)
    ensures c.port.writes == old(c.port.writes) + LevelWrites(c.pin, OffLevel(c.polarity))
  {
    ConfigurePin(c.port, c.pin, c.pinMode, c.speed);
    ghost var odr := c.port.ODR;
    WriteLevel(c.port, c.pin, OffLevel(c.polarity));
    if c.polarity != ModeMax {
      LevelsShine(c.polarity, odr, c.pin);
    }
    Gpio.OdrKeptTrans(old(c.port.ODR), odr, c.port.ODR, c.pin);
  }

  /** The MCAL_GPIO_Init call of LED_Init: the pin's field is set, the rest of the port kept. */
  method ConfigurePin(port: Gpio.GpioPort, pin: bv32, mode: bv32, speed: bv32)
    requires Gpio.IsPin(pin)
    modifies port
    ensures port.Config(pin) == Gpio.ConfigNibble(mode, speed)
    ensures Gpio.KeptOutside(old(port.CRL), old(port.CRH), port.CRL, port.CRH, {pin})
    ensures Gpio.OdrKept(old(port.ODR), port.ODR, pin)
    ensures port.writes == old(port.writes)
  {
    port.Init(pin, mode, speed);
  }

  /** LED_TurnOn: write the level that lights the LED; nothing but the pin's output bit changes. */
  method TurnOn(cfg: Option<LedConfig>)
    modifies if cfg.Some? then {cfg.value.port} else {}
    ensures cfg.Some? ==>
      cfg.value.port.writes == old(cfg.value.port.writes) + LevelWrites(cfg.value.pin, OnLevel(cfg.value.polarity))
    ensures cfg.Some? ==> cfg.value.port.ODR == OdrAfter(old(cfg.value.port.ODR), cfg.value.pin, OnLevel(cfg.value.polarity))
    ensures cfg.Some? ==> Gpio.OdrKept(old(cfg.value.port.ODR), cfg.value.port.ODR, cfg.value.pin)
    ensures cfg.Some? ==> cfg.value.port.CRL == old(cfg.value.port.CRL) && cfg.value.port.CRH == old(cfg.value.port.CRH)
    ensures cfg.Some? && Gpio.IsPin(cfg.value.pin) && cfg.value.polarity != ModeMax ==>
      Shining(cfg.value.polarity, cfg.value.port.ODR, cfg.value.pin)
  {
    if cfg.Some? {
      var c := cfg.value;
      ghost var odr := c.port.ODR;
      WriteLevel(c.port, c.pin, OnLevel(c.polarity));
      if Gpio.IsPin(c.pin) && c.polarity != ModeMax {
        LevelsShine(c.polarity, odr, c.pin);
      }
    }
  }

  /** LED_TurnOff: write the level that darkens the LED; nothing but the pin's output bit changes. */
  method TurnOff(cfg: Option<LedConfig>)
    modifies if cfg.Some? then {cfg.value.port} else {}
    ensures cfg.Some? ==>
      cfg.value.port.writes == old(cfg.value.port.writes) + LevelWrites(cfg.value.pin, OffLevel(cfg.value.polarity))
    ensures cfg.Some? ==> cfg.value.port.ODR == OdrAfter(old(cfg.value.port.ODR), cfg.value.pin, OffLevel(cfg.value.polarity))
    ensures cfg.Some? ==> Gpio.OdrKept(old(cfg.value.port.ODR), cfg.value.port.ODR, cfg.value.pin)
    ensures cfg.Some? ==> cfg.value.port.CRL == old(cfg.value.port.CRL) && cfg.value.port.CRH == old(cfg.value.port.CRH)
    ensures cfg.Some? && Gpio.IsPin(cfg.value.pin) && cfg.value.polarity != ModeMax ==>
      !Shining(cfg.value.polarity, cfg.value.port.ODR, cfg.value.pin)
  {
    if cfg.Some? {
      var c := cfg.value;
      ghost var odr := c.port.ODR;
      WriteLevel(c.port, c.pin, OffLevel(c.polarity));
      if Gpio.IsPin(c.pin) && c.polarity != ModeMax {
        LevelsShine(c.polarity, odr, c.pin);
      }
    }
  }

  /**
   * LED_Toggle: flip the pin's output bit whatever the wiring, so a dark LED
   * lights and a lit one goes dark; the configuration is untouched.
   */
  method Toggle(cfg: Option<LedConfig>)
    modifies if cfg.Some? then {cfg.value.port} else {}
    ensures cfg.Some? ==> cfg.value.port.ODR == Gpio.Toggled(old(cfg.value.port.ODR), cfg.value.pin)
    ensures cfg.Some? ==> cfg.value.port.CRL == old(cfg.value.port.CRL) && cfg.value.port.CRH == old(cfg.value.port.CRH)
    ensures cfg.Some? && Gpio.IsPin(cfg.value.pin) && cfg.value.polarity != ModeMax ==>
      (Shining(cfg.value.polarity, cfg.value.port.ODR, cfg.value.pin) <==>
       !old(Shining(cfg.value.polarity, cfg.value.port.ODR, cfg.value.pin)))
    ensures cfg.Some? ==> cfg.value.port.writes == old(cfg.value.port.writes)
  {
    if cfg.Some? {
      cfg.value.port.TogglePin(cfg.value.pin);
      if Gpio.IsPin(cfg.value.pin) && cfg.value.polarity != ModeMax {
        ToggleFlipsShining(cfg.value.polarity, old(cfg.value.port.ODR), cfg.value.pin);
      }
    }
  }
}
