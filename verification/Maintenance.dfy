/** The live maintenance toggle: three atomic fields written and read one after another
    (internal/maintenance/state.go). */
module Maintenance {
  import opened Wrappers

  /** config.MaintenanceState, with the duration behind the pointer as a value. */
  datatype Settings = Settings(enabled: bool, message: string, retryAfter: Option<int>)

  const DEFAULT_MESSAGE := "OIDC service temporarily unavailable"

  function EffectiveMessage(message: string): string {
    if message == "" then DEFAULT_MESSAGE else message
  }

  /** A *time.Duration. */
  class Duration {
    var nanoseconds: int

    constructor (nanoseconds: int)
      ensures this.nanoseconds == nanoseconds
    {
      this.nanoseconds := nanoseconds;
    }
  }

  ghost function DurationValue(d: Duration?): Option<int>
    reads d
  {
    if d == null then None else Some(d.nanoseconds)
  }

  method CopyDuration(src: Duration?) returns (d: Duration?)
    ensures DurationValue(d) == DurationValue(src)
    ensures d != null ==> fresh(d)
  {
    d := null;
    if src != null {
      d := new Duration(src.nanoseconds);
    }
  }

  class State {
    var enabled: bool
    var message: string
    var retryAfter: Duration?

    ghost function Current(): Settings
      reads this, retryAfter
    {
      Settings(enabled, message, DurationValue(retryAfter))
    }

    constructor (enabled: bool, message: string, retryAfter: Duration?)
      ensures Current() == Settings(enabled, EffectiveMessage(message), DurationValue(retryAfter))
      ensures this.retryAfter != null ==> fresh(this.retryAfter)
    {
      new;
      Update(enabled, message, retryAfter);
    }

    /** An update nothing interleaves with. The caller keeps its own duration. */
    method Update(nextEnabled: bool, nextMessage: string, nextRetry: Duration?)
      modifies this
      ensures Current() == Settings(nextEnabled, EffectiveMessage(nextMessage), DurationValue(nextRetry))
      ensures nextMessage != "" ==> message == nextMessage
      ensures nextMessage == "" ==> message == "OIDC service temporarily unavailable"
      ensures retryAfter != null ==> fresh(retryAfter)
    {
      enabled := nextEnabled;
      if nextMessage == "" {
        message := DEFAULT_MESSAGE;
      } else {
        message := nextMessage;
      }
      retryAfter := CopyDuration(nextRetry);
    }

    /** A snapshot nothing interleaves with: the whole current state, its duration a copy. */
    method Snapshot() returns (isEnabled: bool, text: string, retry: Duration?)
      ensures Settings(isEnabled, text, DurationValue(retry)) == Current()
      ensures retry != null ==> fresh(retry) && retry != retryAfter
    {
      isEnabled, text := enabled, message;
      retry := null;
      var stored := retryAfter;
      if stored != null {
        retry := CopyDuration(stored);
      }
    }
  }
}
