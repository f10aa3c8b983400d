/**
 * The observer side channel: the four events the protocol reports and a
 * logger that receives them synchronously. The logger records what it
 * receives so that the protocol's reports can be stated; it may throw, and
 * which delivery throws is a parameter.
 */
module Logger {
  import opened Platform

  /** `SereneLogEvent`. The `authority` each event carries is always the one
      authority of the call, so it is left implicit. */
  datatype LogEvent =
    | WillRefreshAuthority(retry: Option<nat>)
    | WillAuthenticate(fetchRequest: FetchRequest)
    | WillFetch(sent: Option<FetchRequest>)
    | WillParse(fetchResponse: Response)

  function NeverThrows(n: nat): Option<Fault>
  {
    None
  }

  class SereneLogger {
    /** The events delivered so far, in order. */
    var events: seq<LogEvent>
    /** What the n-th delivery throws, if anything. */
    const throwsOn: nat -> Option<Fault>

    constructor (throwsOn: nat -> Option<Fault>)
      ensures events == [] && this.throwsOn == throwsOn
    {
      events := [];
      this.throwsOn := throwsOn;
    }

    /** `noLogger`: receives every event and never throws. */
    constructor NoLogger()
      ensures events == [] && throwsOn == NeverThrows
    {
      events := [];
      throwsOn := NeverThrows;
    }

    /** Deliver one event. */
    method Log(event: LogEvent) returns (failure: Option<Fault>)
      modifies this
      ensures events == old(events) + [event]
      ensures failure == throwsOn(|old(events)|)
    {
      failure := throwsOn(|events|);
      events := events + [event];
    }
  }
}
