/** The deterministic simulated sender used by tests and the `send` command. */
module Sim {
  import opened Wrappers
  import opened Core

  const SimOk := "SIM-OK"
  const TelnetOnlyError := "radio_only session cannot be telnet-only"

  /** `sim.Sender.SendOne`: accepts a message whose allow-list is empty or holds "any", rejects a
      radio_only session restricted to exactly [telnet], and accepts everything else. */
  function SendOne(m: Message): (r: Result<string>)
    ensures r.Err? <==> m.meta.session == SessionRadioOnly && m.meta.transport.allowed == [ModeTelnet]
    ensures r.Ok? ==> r.value == SimOk
    ensures r.Err? ==> r.error == TelnetOnlyError
  {
    var allowed := m.meta.transport.allowed;
    if |allowed| == 0 || ModeAny in allowed then Ok(SimOk)
    else if m.meta.session == SessionRadioOnly && |allowed| == 1 && allowed[0] == ModeTelnet then
      Err(TelnetOnlyError)
    else Ok(SimOk)
  }
}
