/**
 * The `App` component's state and the handlers that change it, step by step:
 * the active step, the record, the diagnosis and its `isGenerating` flag, and the
 * submission flags. Each handler is proved against the pure definitions of the other modules.
 */
module AppState {
  import opened Wrappers
  import opened Intake
  import opened Steps
  import opened Coherence
  import opened Submission
  import opened Export

  class App {
    /** Generated once when the component mounts; never changes. */
    const sessionId: string

    var activeStep: nat
    var isGenerating: bool
    var isSubmitting: bool
    var submitted: bool
    var error: Option<string>
    var diagnosis: Option<Diagnosis>
    var pieData: PieData

    /** The active step always addresses one of the five steps. */
    ghost predicate Valid()
      reads this
    {
      activeStep <= Last
    }

    /** The three flags the submit handler sets. */
    function SubmitFlags(): Flags
      reads this
    {
      Flags(isSubmitting, submitted, error)
    }

    /** The state `useState` starts with; the session id is an input. */
    constructor (sessionId: string)
      ensures Valid()
      ensures this.sessionId == sessionId
      ensures activeStep == 0 && !isGenerating && diagnosis == None
      ensures SubmitFlags() == Flags(false, false, None)
      ensures pieData == Initial()
    {
      this.sessionId := sessionId;
      activeStep := 0;
      isGenerating := false;
      isSubmitting := false;
      submitted := false;
      error := None;
      diagnosis := None;
      pieData := Initial();
    }

    /** `handleInputChange(section, field, value)`: the field's section is the field's own. */
    method HandleInputChange(f: Field, value: string)
      modifies this`pieData
      ensures pieData == Update(old(pieData), f, value)
      ensures Get(pieData, f) == value
      ensures forall g :: g != f ==> Get(pieData, g) == Get(old(pieData), g)
    {
      pieData := Update(pieData, f, value);
    }

    /** The "Anterior" button. */
    method GoPrevious()
      requires Valid()
      modifies this`activeStep
      ensures Valid()
      ensures activeStep == Previous(old(activeStep))
      ensures old(activeStep) == 0 ==> activeStep == 0
    {
      activeStep := Previous(activeStep);
    }

    /** The "Siguiente" button. */
    method GoNext()
      requires Valid()
      modifies this`activeStep
      ensures Valid()
      ensures activeStep == Next(old(activeStep))
      ensures old(activeStep) == Last ==> activeStep == Last
    {
      activeStep := Next(activeStep);
    }

    /** A click on the sidebar entry of the step at `index`. */
    method SelectStep(index: nat)
      requires Valid() && index < |StepIds|
      modifies this`activeStep
      ensures Valid()
      ensures activeStep == index
    {
      activeStep := index;
    }

    /** `runDiagnosis`, with the timer's callback run at once. */
    method RunDiagnosis()
      modifies this`isGenerating, this`diagnosis
      ensures diagnosis == Some(Diagnose(pieData))
      ensures !isGenerating
    {
      isGenerating := true;
      diagnosis := Some(Diagnose(pieData));
      isGenerating := false;
    }

    /**
     * `handleSubmitToGoogleCloud` up to its `await`. `configured` says whether
     * `VITE_SUPABASE_URL` is set; the user agent and the clock are inputs. The insert
     * to perform is returned, and there is none when the configuration is missing.
     */
    method BeginSubmit(configured: bool, userAgent: string, timestamp: string) returns (insert: Option<Payload>)
      modifies this`isSubmitting, this`error
      ensures SubmitFlags() == Begin(old(SubmitFlags()), configured)
      ensures insert == if configured then Some(MakePayload(sessionId, pieData, userAgent, timestamp)) else None
    {
      isSubmitting := true;
      error := None;
      if !configured {
        error := Some(ConfigError);
        isSubmitting := false;
        insert := None;
        return;
      }
      insert := Some(MakePayload(sessionId, pieData, userAgent, timestamp));
    }

    /** `handleSubmitToGoogleCloud` after its `await`, given how the insert ended. */
    method FinishSubmit(outcome: Outcome)
      modifies this`isSubmitting, this`submitted, this`error
      ensures SubmitFlags() == Finish(old(SubmitFlags()), outcome)
      ensures old(submitted) ==> submitted
    {
      match outcome {
        case Inserted =>
          isSubmitting := false;
          submitted := true;
        case Failed(m) =>
          error := Some(SyncError(m));
          isSubmitting := false;
      }
    }

    /** `downloadArtifacts`: the files handed to the browser; the timestamp and the record's JSON are inputs. */
    method DownloadArtifacts(date: string, jsonBlock: string) returns (files: seq<File>)
      ensures files == Artifacts(sessionId, date, jsonBlock, pieData)
      ensures |files| == 1 && files[0].name == "PIE_" + sessionId + "_SystemReady.md"
    {
      files := Artifacts(sessionId, date, jsonBlock, pieData);
    }
  }

  /** A whole session: edits, navigation, diagnosis, a successful submission and the export. */
  method Scenario(sessionId: string, offer: string)
    requires offer != ""
  {
    var app := new App(sessionId);
    assert Get(app.pieData, Vende) == "";
    app.HandleInputChange(Vende, offer);
    assert Get(app.pieData, Vende) == offer;
    app.GoPrevious();
    assert app.activeStep == 0;
    app.GoNext();
    app.SelectStep(4);
    app.GoNext();
    assert app.activeStep == 4;
    app.RunDiagnosis();
    assert app.diagnosis == Some(Generic(app.pieData));
    var insert := app.BeginSubmit(true, "agent", "2024-01-01T00:00:00.000Z");
    assert app.isSubmitting && insert.Some? && insert.value.data == app.pieData;
    app.FinishSubmit(Inserted);
    assert app.submitted && app.error == None && !app.isSubmitting;
  }
}
