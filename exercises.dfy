/**
 * The exercises panel: pick an exercise of a category, open the camera,
 * receive the captured still, confirm it with notes, and log the completed
 * exercise; or retake the picture.
 *
 * The panel's parent callbacks are recorded, in call order, in `events`.
 * The camera panel it opens is the `Capture` module; here only the flag that
 * shows it is modelled.
 */
module ExerciseFlow {
  import opened Wrappers
  import opened ActivityLog

  datatype Exercise = Exercise(id: string, name: string, description: string, image: Option<string>)

  datatype Category = Category(id: string, name: string, exercises: seq<Exercise>)

  /** A call the panel makes to its parent. */
  datatype PanelEvent =
    | ExerciseCompleted(entry: LogEntry)   // onExerciseComplete(logEntry)
    | Closed                               // onClose()

  /** `image || undefined`: an empty image text counts as no image. */
  function ImageOrAbsent(image: Option<string>): (r: Option<string>)
    ensures r.Some? <==> image.Some? && image.value != ""
    ensures r.Some? ==> r == image
  {
    if image.Some? && image.value != "" then image else None
  }

  /** The activity logged for a confirmed exercise. */
  function CompletedActivity(ex: Exercise, cat: Category, image: Option<string>, notes: string): (a: Activity)
    ensures a.exerciseId == ex.id && a.exerciseName == ex.name
    ensures a.categoryId == cat.id && a.categoryName == cat.name
    ensures a.completed && a.notes == Some(notes)
    ensures a.imageUrl.Some? <==> image.Some? && image.value != ""
    ensures a.imageUrl.Some? ==> a.imageUrl == image
  {
    Activity(ex.id, ex.name, cat.id, cat.name, ImageOrAbsent(image), true, Some(notes))
  }

  class ExercisePanel {
    var selectedExercise: Option<Exercise>
    var selectedCategory: Option<Category>
    var showCamera: bool
    var capturedImage: Option<string>
    var showImageConfirmation: bool
    var exerciseCompleted: bool
    var completionNotes: string
    /** The parent's callbacks, in the order they were called. */
    var events: seq<PanelEvent>
    /** Whether the parent passed a completion callback. */
    const hasCompleteCallback: bool
    /** The activity log the panel writes to. */
    const logger: ExerciseLogger

    /** Whether the confirmation popup is on the screen. */
    function ConfirmationShown(): bool
      reads this
    {
      showImageConfirmation && capturedImage.Some? && capturedImage.value != ""
    }

    constructor (logger: ExerciseLogger, hasCompleteCallback: bool)
      ensures selectedExercise == None && selectedCategory == None
      ensures !showCamera && capturedImage == None && !showImageConfirmation
      ensures !exerciseCompleted && completionNotes == "" && events == []
      ensures this.logger == logger && this.hasCompleteCallback == hasCompleteCallback
    {
      selectedExercise, selectedCategory := None, None;
      showCamera, capturedImage, showImageConfirmation := false, None, false;
      exerciseCompleted, completionNotes, events := false, "", [];
      this.logger := logger;
      this.hasCompleteCallback := hasCompleteCallback;
    }

    /** An exercise of a category was clicked: both are selected together. */
    method ExerciseClick(exercise: Exercise, category: Category)
      modifies this
      ensures selectedExercise == Some(exercise) && selectedCategory == Some(category)
      ensures showCamera == old(showCamera) && capturedImage == old(capturedImage)
      ensures showImageConfirmation == old(showImageConfirmation)
      ensures exerciseCompleted == old(exerciseCompleted)
      ensures completionNotes == old(completionNotes) && events == old(events)
    {
      selectedExercise := Some(exercise);
      selectedCategory := Some(category);
    }

    /** The start button of the exercise details: the camera opens. */
    method StartExercise()
      modifies this
      ensures showCamera
      ensures selectedExercise == old(selectedExercise) && selectedCategory == old(selectedCategory)
      ensures capturedImage == old(capturedImage)
      ensures showImageConfirmation == old(showImageConfirmation)
      ensures exerciseCompleted == old(exerciseCompleted)
      ensures completionNotes == old(completionNotes) && events == old(events)
    {
      showCamera := true;
    }

    /** The camera asked to close. */
    method CloseCamera()
      modifies this
      ensures !showCamera
      ensures selectedExercise == old(selectedExercise) && selectedCategory == old(selectedCategory)
      ensures capturedImage == old(capturedImage)
      ensures showImageConfirmation == old(showImageConfirmation)
      ensures exerciseCompleted == old(exerciseCompleted)
      ensures completionNotes == old(completionNotes) && events == old(events)
    {
      showCamera := false;
    }

    /** The camera delivered a still: it is kept, the camera closes, the confirmation opens. */
    method ImageCapture(imageSrc: string)
      modifies this
      ensures capturedImage == Some(imageSrc) && !showCamera && showImageConfirmation
      ensures imageSrc != "" ==> ConfirmationShown()
      ensures selectedExercise == old(selectedExercise) && selectedCategory == old(selectedCategory)
      ensures exerciseCompleted == old(exerciseCompleted)
      ensures completionNotes == old(completionNotes) && events == old(events)
    {
      capturedImage := Some(imageSrc);
      showCamera := false;
      showImageConfirmation := true;
    }

    /** The notes field was edited. */
    method NotesChange(text: string)
      modifies this
      ensures completionNotes == text
      ensures selectedExercise == old(selectedExercise) && selectedCategory == old(selectedCategory)
      ensures showCamera == old(showCamera) && capturedImage == old(capturedImage)
      ensures showImageConfirmation == old(showImageConfirmation)
      ensures exerciseCompleted == old(exerciseCompleted) && events == old(events)
    {
      completionNotes := text;
    }

    /**
     * The log-and-complete button. With no exercise or category selected
     * nothing happens. Otherwise the exercise is marked completed and the
     * activity is logged with the generated `id` at clock reading `now`
     * (`saveFails`: the log's storage write throws). On success the parent
     * gets the entry, the confirmation closes, the exercise is deselected and
     * the parent is asked to close; on failure the still, the notes and the
     * confirmation stay as they were.
     */
    method ConfirmImage(id: string, now: int, saveFails: bool)
      modifies this, logger
      ensures old(selectedExercise.None? || selectedCategory.None?) ==>
        && logger.slot == old(logger.slot) && logger.downloads == old(logger.downloads)
        && exerciseCompleted == old(exerciseCompleted)
        && selectedExercise == old(selectedExercise)
        && showImageConfirmation == old(showImageConfirmation) && events == old(events)
      ensures old(selectedExercise.Some? && selectedCategory.Some?) ==>
        var entry := LogEntry(id, now,
          CompletedActivity(old(selectedExercise).value, old(selectedCategory).value,
                            old(capturedImage), old(completionNotes)));
        && exerciseCompleted
        && (saveFails ==>
              && logger.slot == old(logger.slot) && logger.downloads == old(logger.downloads)
              && selectedExercise == old(selectedExercise)
              && showImageConfirmation == old(showImageConfirmation)
              && events == old(events))
        && (!saveFails ==>
              && logger.Logs() == old(logger.Logs()) + [entry]
              && logger.downloads == old(logger.downloads) + [logger.Logs()]
              && !showImageConfirmation && selectedExercise == None
              && events == old(events)
                 + (if hasCompleteCallback then [ExerciseCompleted(entry)] else [])
                 + [Closed])
      ensures selectedCategory == old(selectedCategory)
      ensures showCamera == old(showCamera) && capturedImage == old(capturedImage)
      ensures completionNotes == old(completionNotes)
    {
      if selectedExercise.Some? && selectedCategory.Some? {
        exerciseCompleted := true;
        var activity := CompletedActivity(selectedExercise.value, selectedCategory.value,
                                          capturedImage, completionNotes);
        var r := logger.LogExerciseActivity(activity, id, now, saveFails);
        if r.Ok? {
          if hasCompleteCallback {
            events := events + [ExerciseCompleted(r.value)];
          }
          showImageConfirmation := false;
          selectedExercise := None;
          events := events + [Closed];
        }
      }
    }

    /** The retake button: the confirmation closes and the camera opens; still and notes stay. */
    method Retake()
      modifies this
      ensures !showImageConfirmation && showCamera
      ensures capturedImage == old(capturedImage) && completionNotes == old(completionNotes)
      ensures selectedExercise == old(selectedExercise) && selectedCategory == old(selectedCategory)
      ensures exerciseCompleted == old(exerciseCompleted) && events == old(events)
    {
      showImageConfirmation := false;
      showCamera := true;
    }

    /** The close button of the exercise details: the exercise is deselected, the category stays. */
    method CloseDetails()
      modifies this
      ensures selectedExercise == None && selectedCategory == old(selectedCategory)
      ensures showCamera == old(showCamera) && capturedImage == old(capturedImage)
      ensures showImageConfirmation == old(showImageConfirmation)
      ensures exerciseCompleted == old(exerciseCompleted)
      ensures completionNotes == old(completionNotes) && events == old(events)
    {
      selectedExercise := None;
    }

    /** The close button of the confirmation popup. */
    method CloseConfirmation()
      modifies this
      ensures !showImageConfirmation
      ensures selectedExercise == old(selectedExercise) && selectedCategory == old(selectedCategory)
      ensures showCamera == old(showCamera) && capturedImage == old(capturedImage)
      ensures exerciseCompleted == old(exerciseCompleted)
      ensures completionNotes == old(completionNotes) && events == old(events)
    {
      showImageConfirmation := false;
    }

    /** The panel's own close button: the parent is asked to close. */
    method ClosePanel()
      modifies this
      ensures events == old(events) + [Closed]
      ensures selectedExercise == old(selectedExercise) && selectedCategory == old(selectedCategory)
      ensures showCamera == old(showCamera) && capturedImage == old(capturedImage)
      ensures showImageConfirmation == old(showImageConfirmation)
      ensures exerciseCompleted == old(exerciseCompleted) && completionNotes == old(completionNotes)
    {
      events := events + [Closed];
    }
  }

  // ---------------------------------------------------------------------------
  // Whole sessions
  // ---------------------------------------------------------------------------

  /**
   * Select, open the camera, receive a still, write notes, and confirm with a
   * failing log write: the still, the notes and the confirmation are kept,
   * the exercise is already marked completed and nothing was logged; a
   * second confirmation that succeeds logs exactly one entry and closes.
   */
  method RetryAfterLogFailure(ex: Exercise, cat: Category, image: string, notes: string, id: string, now: int)
    returns (keptImage: Option<string>, keptNotes: string, shownAfterFailure: bool,
             completedAfterFailure: bool, logged: seq<LogEntry>, events: seq<PanelEvent>)
    requires image != ""
    ensures keptImage == Some(image) && keptNotes == notes
    ensures shownAfterFailure && completedAfterFailure
    ensures |logged| == 1 && logged[0].activity == CompletedActivity(ex, cat, Some(image), notes)
    ensures logged[0].activity.imageUrl == Some(image)
    ensures events == [ExerciseCompleted(logged[0]), Closed]
  {
    var log := new ExerciseLogger(None);
    var panel := new ExercisePanel(log, true);
    panel.ExerciseClick(ex, cat);
    panel.StartExercise();
    panel.ImageCapture(image);
    panel.NotesChange(notes);
    panel.ConfirmImage(id, now, true);
    keptImage, keptNotes := panel.capturedImage, panel.completionNotes;
    shownAfterFailure, completedAfterFailure := panel.ConfirmationShown(), panel.exerciseCompleted;
    panel.ConfirmImage(id, now, false);
    logged, events := log.Logs(), panel.events;
  }
}
