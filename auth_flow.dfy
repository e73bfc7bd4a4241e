/**
 * What the four authentication forms share: the result of a call to the identity provider, the text an
 * error handler derives from what was thrown, and the one-second countdown that gates "Reenviar Código".
 */
module AuthFlow {
  import opened Wrappers

  /** A value caught by `catch (err)`: an `Error` instance with its message, or anything else. */
  datatype Thrown = ErrorInstance(message: string) | OtherValue

  /** How an awaited identity-provider call ended: with its result, or by throwing. */
  datatype Outcome<+T> = Resolved(value: T) | Rejected(thrown: Thrown)

  /** `err instanceof Error ? err.message : fallback`. */
  function CaughtMessage(err: Thrown, fallback: string): string {
    match err
    case ErrorInstance(message) => message
    case OtherValue => fallback
  }

  /** `msg || alternative`: an empty message gives way to `alternative`. */
  function OrElse(msg: string, alternative: string): string {
    if msg != "" then msg else alternative
  }

  /**
   * The error text of the handlers that write `setError(msg || alternative)` after
   * `msg = err instanceof Error ? err.message : fallback`: the thrown message when there is a non-empty
   * one, otherwise one of the two defaults, so never empty.
   */
  function ErrorText(err: Thrown, fallback: string, alternative: string): (r: string)
    requires fallback != "" && alternative != ""
    ensures r != ""
    ensures err.ErrorInstance? && err.message != "" ==> r == err.message
    ensures err.OtherValue? ==> r == fallback
    ensures err.ErrorInstance? && err.message == "" ==> r == alternative
  {
    OrElse(CaughtMessage(err, fallback), alternative)
  }

  /** An error or message line is rendered only for a non-empty string (`{error && <p>…</p>}`). */
  predicate Shown(line: Option<string>) {
    line.Some? && line.value != ""
  }

  /** Handlers that write `setError(msg)` without a default show nothing for an `Error` with an empty message. */
  lemma BareMessageCanBeBlank(fallback: string)
    ensures !Shown(Some(CaughtMessage(ErrorInstance(""), fallback)))
    ensures fallback != "" ==> Shown(Some(CaughtMessage(OtherValue, fallback)))
  {
  }

  // ---------------------------------------------------------------- form validation

  /** A validation issue: the field it is reported on and its text. */
  datatype Issue = Issue(path: string, message: string)

  /** `z.string().min(n, message)` on the field `path`. */
  function MinLength(value: string, n: nat, path: string, message: string): (r: seq<Issue>)
    ensures r == [] <==> |value| >= n
    ensures forall i :: 0 <= i < |r| ==> r[i].path == path
  {
    if |value| < n then [Issue(path, message)] else []
  }

  /** The length of a complete one-time code; the code inputs accept at most this many characters. */
  const CodeLength: nat := 6

  /** "Verificar" is disabled while a request runs and while the code is shorter than six characters. */
  predicate VerifyDisabled(loading: bool, code: string) {
    loading || |code| < CodeLength
  }

  /** "Reenviar Código" is disabled while a request runs and while the countdown is positive. */
  predicate ResendDisabled(loading: bool, countdown: nat) {
    loading || countdown > 0
  }

  /** With the code input's six-character limit, verifying is possible exactly for a complete code when idle. */
  lemma VerifyNeedsFullCode(loading: bool, code: string)
    requires |code| <= CodeLength
    ensures !VerifyDisabled(loading, code) <==> !loading && |code| == CodeLength
  {
  }

  /** `${output.destination}` where the destination may be `undefined`. */
  function DestinationText(destination: Option<string>): string {
    if destination.Some? then destination.value else "undefined"
  }

  // ---------------------------------------------------------------- resend countdown

  /** The number of seconds "Reenviar Código" stays disabled after a code is sent. */
  const ResendCooldown: nat := 60

  /** One firing of the countdown effect: one second less while positive; at 0 no timer is scheduled. */
  function Tick(countdown: nat): (r: nat)
    ensures countdown > 0 ==> r == countdown - 1
    ensures countdown == 0 ==> r == 0
  {
    if countdown > 0 then countdown - 1 else countdown
  }

  /** The countdown after `k` seconds. */
  function Ticks(countdown: nat, k: nat): nat {
    if k == 0 then countdown else Tick(Ticks(countdown, k - 1))
  }

  /** After `k` seconds the countdown has dropped by `k`, stopping at 0. */
  lemma {:induction false} TicksValue(countdown: nat, k: nat)
    ensures Ticks(countdown, k) == if k >= countdown then 0 else countdown - k
  {
    if k > 0 {
      TicksValue(countdown, k - 1);
    }
  }

  /** Once a code is sent, "Reenviar Código" stays disabled for exactly `ResendCooldown` seconds, or while a request runs. */
  lemma ResendCooldownBlocks(loading: bool, k: nat)
    ensures ResendDisabled(loading, Ticks(ResendCooldown, k)) <==> loading || k < ResendCooldown
  {
    CooldownLength(k);
  }

  /** Once a code is sent, resending stays blocked for exactly `ResendCooldown` seconds. */
  lemma CooldownLength(k: nat)
    ensures Ticks(ResendCooldown, k) > 0 <==> k < ResendCooldown
  {
    TicksValue(ResendCooldown, k);
  }
}
