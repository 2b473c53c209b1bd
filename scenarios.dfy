/**
 * Worked examples with the current code "42": a request toggles LED 2 on and
 * an identical second one toggles it off, a wrong code is dropped, and the id
 * "01" is not LED 1.
 */
module Scenarios {
  import opened Wrappers
  import opened Names
  import opened AccessCodes
  import opened Dispatch

  /** Code "42": a request for LED 2 turns it on; the identical request turns it off again. */
  lemma ScenarioToggleTwice(st: State, i: Interest)
    requires st == State(false, false, false, "42", 0)
    requires i.name == "/thisRoom/pi/42/led/2/value/on"
    ensures var o1 := Handle(st, i);
            var o2 := Handle(o1.state, i);
      && o1.state == st.(led2 := true)
      && o1.reply == Some(Data(i.name, "LED #2 is now on", i.handlerArg))
      && o2.state == st
      && o2.reply == Some(Data(i.name, "LED #2 is now off", i.handlerArg))
  {
    var c := Command("42", "2", On);
    assert Render(c) == i.name;
    assert DecimalString(2) == "2";
    HandleTogglesSelectedLed(st, c, i.handlerArg, 2);
    var o1 := Handle(st, i);
    assert o1.state == st.(led2 := true);
    assert "LED #" + c.led + " is now " + OnOff(true) == "LED #2 is now on";
    HandleTogglesSelectedLed(o1.state, c, i.handlerArg, 2);
    assert "LED #" + c.led + " is now " + OnOff(false) == "LED #2 is now off";
  }

  /** Code "42": a well-formed request carrying "99" is dropped. */
  lemma ScenarioWrongCode(st: State, i: Interest)
    requires st.accessCode == "42"
    requires i.name == "/thisRoom/pi/99/led/1/value/toggle"
    ensures Handle(st, i) == Outcome(st, None)
  {
    var c := Command("99", "1", Toggle);
    assert Render(c) == i.name;
    HandleDropsWrongCode(st, c, i.handlerArg);
  }

  /** Code "42": the id "01" is compared as text, so it selects no LED. */
  lemma ScenarioInvalidLed(st: State, i: Interest)
    requires st.accessCode == "42"
    requires i.name == "/thisRoom/pi/42/led/01/value/toggle"
    ensures Handle(st, i) == Outcome(st, Some(Data(i.name, "Invalid LED", i.handlerArg)))
  {
    var c := Command("42", "01", Toggle);
    assert Render(c) == i.name;
    assert DecimalString(1) == "1" && DecimalString(2) == "2" && DecimalString(3) == "3";
    HandleAnswersInvalidLed(st, c, i.handlerArg);
  }
}
