/**
 * `handleSubmitToGoogleCloud`: the `isSubmitting` / `submitted` / `error` flags around
 * one insert into the remote `ingestions` table, and the payload that insert carries.
 * The insert itself is outside the model; its outcome is an input.
 */
module Submission {
  import opened Wrappers
  import opened Intake

  /** The three pieces of component state the handler sets. */
  datatype Flags = Flags(isSubmitting: bool, submitted: bool, error: Option<string>)

  /** What the awaited insert came to: rows returned, or a thrown error with its `message` ("" when it has none). */
  datatype Outcome = Inserted | Failed(message: string)

  /** One press of the submit button: whether `VITE_SUPABASE_URL` is set, and how the insert ends. */
  datatype Attempt = Attempt(configured: bool, outcome: Outcome)

  /** The configuration message opens with "Falta configuración de Supabase ". */
  const ConfigError: string :=
    "Falta configuración de Supabase " + "(VITE_SUPABASE_URL no definido). Revisa tu archivo .env"
  const SyncPrefix: string := "Error de sincronización: "
  const UnknownError: string := "Error desconocido"

  /** `Error de sincronización: ${err.message || 'Error desconocido'}`. */
  function SyncError(message: string): (r: string)
    ensures |r| > |SyncPrefix| && r[..|SyncPrefix|] == SyncPrefix
    ensures message != "" ==> r[|SyncPrefix|..] == message
    ensures message == "" ==> r[|SyncPrefix|..] == UnknownError
  {
    SyncPrefix + (if message == "" then UnknownError else message)
  }

  /** A configuration error can always be told apart from a synchronisation error. */
  lemma ConfigErrorIsNotSyncError(message: string)
    ensures ConfigError != SyncError(message)
  {
    assert ConfigError[0] == 'F';
    assert SyncError(message)[0] == SyncPrefix[0] == 'E';
  }

  /** Different non-empty failure messages give different error texts. */
  lemma SyncErrorInjective(m1: string, m2: string)
    requires m1 != "" && m2 != ""
    requires SyncError(m1) == SyncError(m2)
    ensures m1 == m2
  {
    assert m1 == SyncError(m1)[|SyncPrefix|..];
  }

  /**
   * Everything up to the `await`: the flags are raised and the error cleared; with no
   * remote URL configured the handler records the configuration error, lowers
   * `isSubmitting` and returns.
   */
  function Begin(f: Flags, configured: bool): (r: Flags)
    ensures r.submitted == f.submitted
    ensures r.isSubmitting == configured
    ensures r.error == if configured then None else Some(ConfigError)
  {
    var raised := f.(isSubmitting := true, error := None);
    if !configured then raised.(error := Some(ConfigError), isSubmitting := false)
    else raised
  }

  /** Everything after the `await`: the success branch and the `catch` branch. */
  function Finish(f: Flags, outcome: Outcome): (r: Flags)
    ensures !r.isSubmitting
    ensures r.submitted <==> f.submitted || outcome.Inserted?
    ensures outcome.Inserted? ==> r.error == f.error
    ensures outcome.Failed? ==> r.error == Some(SyncError(outcome.message))
  {
    match outcome
    case Inserted => f.(isSubmitting := false, submitted := true)
    case Failed(m) => f.(error := Some(SyncError(m)), isSubmitting := false)
  }

  /** A whole press of the button, when nothing else happens while the insert is awaited. */
  function Submit(f: Flags, a: Attempt): (r: Flags)
    ensures !r.isSubmitting
    ensures r.submitted <==> f.submitted || Succeeds(a)
    ensures r.error == AttemptError(a)
  {
    if a.configured then Finish(Begin(f, true), a.outcome) else Begin(f, false)
  }

  /** The error a press leaves behind, which depends on that press alone. */
  function AttemptError(a: Attempt): Option<string> {
    if !a.configured then Some(ConfigError)
    else match a.outcome
      case Inserted => None
      case Failed(m) => Some(SyncError(m))
  }

  predicate Succeeds(a: Attempt) {
    a.configured && a.outcome == Inserted
  }

  /** Missing configuration: the message is shown, the flag is lowered, `submitted` is untouched. */
  lemma SubmitWithoutConfiguration(f: Flags, o: Outcome)
    ensures Submit(f, Attempt(false, o)) == Flags(false, f.submitted, Some(ConfigError))
  {
  }

  /** A successful insert leaves the form submitted, idle and without error. */
  lemma SubmitSucceeds(f: Flags)
    ensures Submit(f, Attempt(true, Inserted)) == Flags(false, true, None)
  {
  }

  /** A failed insert shows the synchronisation error and leaves `submitted` as it was. */
  lemma SubmitFails(f: Flags, m: string)
    ensures Submit(f, Attempt(true, Failed(m))) == Flags(false, f.submitted, Some(SyncError(m)))
  {
  }

  /** Flags after a sequence of presses, in order. */
  function RunAttempts(f: Flags, attempts: seq<Attempt>): Flags
    decreases |attempts|
  {
    if attempts == [] then f else RunAttempts(Submit(f, attempts[0]), attempts[1..])
  }

  /**
   * After any non-empty sequence of presses nothing is in flight, the error is the one the
   * last press left, and the form is submitted exactly when it was before or some press succeeded.
   */
  lemma {:induction false} RunAttemptsOutcome(f: Flags, attempts: seq<Attempt>)
    requires attempts != []
    ensures !RunAttempts(f, attempts).isSubmitting
    ensures RunAttempts(f, attempts).error == AttemptError(attempts[|attempts| - 1])
    ensures RunAttempts(f, attempts).submitted <==>
      f.submitted || exists k :: 0 <= k < |attempts| && Succeeds(attempts[k])
    decreases |attempts|
  {
    var g := Submit(f, attempts[0]);
    assert g.submitted <==> f.submitted || Succeeds(attempts[0]);
    if |attempts| > 1 {
      var rest := attempts[1..];
      RunAttemptsOutcome(g, rest);
      if exists k :: 0 <= k < |attempts| && Succeeds(attempts[k]) {
        var k :| 0 <= k < |attempts| && Succeeds(attempts[k]);
        if k > 0 { assert Succeeds(rest[k - 1]); }
      }
      if exists k :: 0 <= k < |rest| && Succeeds(rest[k]) {
        var k :| 0 <= k < |rest| && Succeeds(rest[k]);
        assert Succeeds(attempts[k + 1]);
      }
    }
  }

  datatype Metadata = Metadata(userAgent: string, timestamp: string, version: string)

  /** The row inserted into `ingestions`. */
  datatype Payload = Payload(sessionId: string, data: PieData, metadata: Metadata, status: string)

  const Version: string := "1.0.0"
  const RawInput: string := "raw_input"

  /** The payload of one submission; the browser's user agent and the clock are inputs. */
  function MakePayload(sessionId: string, data: PieData, userAgent: string, timestamp: string): (p: Payload)
    ensures p.sessionId == sessionId && p.data == data
    ensures p.metadata == Metadata(userAgent, timestamp, "1.0.0") && p.status == "raw_input"
  {
    Payload(sessionId, data, Metadata(userAgent, timestamp, Version), RawInput)
  }
}
