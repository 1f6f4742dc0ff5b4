/** The page: a two-step switch between the intake form and the review, which
    carries the submitted form across. */
module Page {
  import opened Wrappers
  import IntakeForm
  import StoryReview

  datatype Step = FormStep | ReviewStep

  /** What the page renders: the form, or the review of a submitted form. */
  datatype View = FormView | ReviewView(formData: IntakeForm.SubmittedForm)

  class Home {
    var currentStep: Step
    var formData: Option<IntakeForm.SubmittedForm>

    /** The review step always has a submitted form to show. */
    ghost predicate Valid()
      reads this
    {
      currentStep == ReviewStep ==> formData.Some?
    }

    constructor ()
      ensures Valid()
      ensures currentStep == FormStep && formData == None
    {
      currentStep := FormStep;
      formData := None;
    }

    /** The form's submit callback: store the data and go to the review. */
    method HandleFormSubmit(data: IntakeForm.SubmittedForm)
      modifies this
      ensures Valid()
      ensures formData == Some(data) && currentStep == ReviewStep
    {
      formData := Some(data);
      currentStep := ReviewStep;
    }

    /** The review's back callback: return to the form, keeping the data. */
    method HandleBack()
      requires Valid()
      modifies this
      ensures Valid()
      ensures currentStep == FormStep && formData == old(formData)
    {
      currentStep := FormStep;
    }

    /** The form is shown exactly in the form step; otherwise the review is
        shown with the stored form. */
    function CurrentView(): (v: View)
      reads this
      requires Valid()
      ensures v.FormView? <==> currentStep == FormStep
      ensures v.ReviewView? ==> formData == Some(v.formData)
    {
      if currentStep == FormStep then FormView else ReviewView(formData.value)
    }
  }

  /** Submitting the form with the page's callback: the form is busy while the
      callback runs and the page moves to the review with the formatted data.
      The review step no longer renders the form, so the final lowering of the
      flag lands on a form that is no longer shown; going back shows a new one
      (`ReturnToForm`). */
  method SubmitFromForm(form: IntakeForm.StoryForm, home: Home) returns (busyDuringCallback: bool)
    requires form.Valid() && home.Valid()
    modifies form, home
    ensures form.Valid() && home.Valid()
    ensures busyDuringCallback
    ensures !form.isSubmitting && form.formData == old(form.formData)
    ensures home.currentStep == ReviewStep
    ensures home.formData == Some(IntakeForm.FormatSubmission(form.formData))
  {
    var payload := form.BeginSubmit();
    busyDuringCallback := form.isSubmitting;
    home.HandleFormSubmit(payload);
    form.FinishSubmit(IntakeForm.Resolved);
  }

  /** Going back from the review: the page returns to the form step, keeping
      its copy of the submitted data, and renders a newly mounted form, which
      starts from the initial record and is not submitting. */
  method ReturnToForm(home: Home) returns (form: IntakeForm.StoryForm)
    requires home.Valid()
    modifies home
    ensures home.Valid()
    ensures home.CurrentView() == FormView && home.formData == old(home.formData)
    ensures fresh(form) && form.Valid()
    ensures form.formData == IntakeForm.InitialFormState() && !form.isSubmitting
  {
    home.HandleBack();
    form := new IntakeForm.StoryForm();
  }

  /** Going back and submitting again replaces the earlier form. */
  method ResubmitReplaces(first: IntakeForm.SubmittedForm, second: IntakeForm.SubmittedForm)
    returns (home: Home)
    ensures home.Valid()
    ensures home.currentStep == ReviewStep && home.formData == Some(second)
    ensures home.CurrentView() == ReviewView(second)
  {
    home := new Home();
    home.HandleFormSubmit(first);
    home.HandleBack();
    assert home.formData == Some(first);
    home.HandleFormSubmit(second);
  }

  /** Entering the review step starts a fresh review session for the stored
      form: the conversation is seeded from it whatever the completion call
      returns. */
  method EnterReview(home: Home, provider: StoryReview.Provider) returns (session: StoryReview.ReviewSession)
    requires home.Valid() && home.currentStep == ReviewStep
    ensures session.formData == home.formData.value
    ensures session.messages == StoryReview.CreateInitialPrompt(home.formData.value)
    ensures !session.isLoading
    ensures session.Valid()
  {
    session := new StoryReview.ReviewSession(home.formData.value, provider);
  }
}
