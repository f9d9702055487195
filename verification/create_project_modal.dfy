/**
 * The create/edit project modal: title and description rules, the per-field edit handler,
 * and the submit that resets the form only when the parent's `onSubmit` succeeds.
 */
module ProjectModalForm {
  import opened Wrappers
  import opened Strings
  import opened FormRules

  const PROJECT_TITLE_REQUIRED := "Project title is required"
  const DESCRIPTION_TOO_LONG := "Description must not exceed 500 characters"

  datatype ProjectForm = ProjectForm(title: string, description: string)

  const EMPTY_FORM := ProjectForm("", "")

  /** The error record; "" means no message. */
  datatype ProjectErrors = ProjectErrors(title: string, description: string)

  const NO_ERRORS := ProjectErrors("", "")

  datatype ProjectField = Title | Description

  /** The project being edited, as far as the form reads it ("" for a missing value). */
  datatype InitialProject = InitialProject(title: string, description: string)

  /** The description rule: more than 500 characters is an error, checked apart from the title. */
  function DescriptionError(description: string): (r: string)
    ensures r == "" <==> |description| <= 500
    ensures |description| > 500 ==> r == DESCRIPTION_TOO_LONG
  {
    if description != "" && |description| > 500 then DESCRIPTION_TOO_LONG else ""
  }

  /** The errors `validateForm` records. */
  function ProjectFormErrors(form: ProjectForm): (e: ProjectErrors)
    ensures e.title == TitleError(form.title, PROJECT_TITLE_REQUIRED)
    ensures e.description == DescriptionError(form.description)
  {
    ProjectErrors(TitleError(form.title, PROJECT_TITLE_REQUIRED), DescriptionError(form.description))
  }

  /** The form is valid iff no error was recorded, that is iff both rules pass. */
  lemma ProjectFormValidity(form: ProjectForm)
    ensures ProjectFormErrors(form) == NO_ERRORS <==>
      !IsBlank(form.title) && 3 <= |form.title| <= 100 && |form.description| <= 500
  {
  }

  /** The opening effect: a copy of the project's title and description, or a blank form. */
  function InitialProjectForm(initialData: Option<InitialProject>): (f: ProjectForm)
    ensures initialData.None? ==> f == EMPTY_FORM
    ensures initialData.Some? ==>
      f.title == initialData.value.title && f.description == initialData.value.description
  {
    match initialData
    case None => EMPTY_FORM
    case Some(p) => ProjectForm(p.title, p.description)
  }

  class ProjectModal {
    var form: ProjectForm
    var errors: ProjectErrors
    var loading: bool
    /** The forms handed to `onSubmit`, in order. */
    var submitted: seq<ProjectForm>
    /** How many times `onClose` was called. */
    var closeCalls: nat

    constructor()
      ensures form == EMPTY_FORM && errors == NO_ERRORS && !loading
      ensures submitted == [] && closeCalls == 0
    {
      form := EMPTY_FORM;
      errors := NO_ERRORS;
      loading := false;
      submitted := [];
      closeCalls := 0;
    }

    /** The opening effect: the initial form and no errors. */
    method Open(initialData: Option<InitialProject>)
      modifies this
      ensures form == InitialProjectForm(initialData) && errors == NO_ERRORS
      ensures loading == old(loading) && submitted == old(submitted) && closeCalls == old(closeCalls)
    {
      form := InitialProjectForm(initialData);
      errors := NO_ERRORS;
    }

    /** `handleChange`: sets the field and clears that field's message only. */
    method HandleChange(field: ProjectField, value: string)
      modifies this
      ensures field == Title ==> form == old(form).(title := value) && errors == old(errors).(title := "")
      ensures field == Description ==>
        form == old(form).(description := value) && errors == old(errors).(description := "")
      ensures loading == old(loading) && submitted == old(submitted) && closeCalls == old(closeCalls)
    {
      match field
      case Title =>
        form := form.(title := value);
        if errors.title != "" { errors := errors.(title := ""); }
      case Description =>
        form := form.(description := value);
        if errors.description != "" { errors := errors.(description := ""); }
    }

    /** `validateForm`: stores the errors and reports whether there were none. */
    method ValidateForm() returns (valid: bool)
      modifies this
      ensures errors == ProjectFormErrors(form)
      ensures valid <==> !IsBlank(form.title) && 3 <= |form.title| <= 100 && |form.description| <= 500
      ensures form == old(form) && loading == old(loading)
      ensures submitted == old(submitted) && closeCalls == old(closeCalls)
    {
      errors := ProjectFormErrors(form);
      ProjectFormValidity(form);
      valid := errors == NO_ERRORS;
    }

    /**
     * `handleSubmit`: an invalid form is not submitted; a valid one is handed to `onSubmit`
     * once, and only when that succeeds (`ok`) is the form cleared and `onClose` called.
     */
    method HandleSubmit(ok: bool)
      modifies this
      ensures errors == ProjectFormErrors(old(form))
      ensures ProjectFormErrors(old(form)) != NO_ERRORS ==>
        submitted == old(submitted) && form == old(form) && closeCalls == old(closeCalls)
        && loading == old(loading)
      ensures ProjectFormErrors(old(form)) == NO_ERRORS ==> submitted == old(submitted) + [old(form)] && !loading
      ensures ProjectFormErrors(old(form)) == NO_ERRORS && ok ==>
        form == EMPTY_FORM && closeCalls == old(closeCalls) + 1
      ensures ProjectFormErrors(old(form)) == NO_ERRORS && !ok ==>
        form == old(form) && closeCalls == old(closeCalls)
    {
      var valid := ValidateForm();
      if !valid {
        return;
      }
      loading := true;
      submitted := submitted + [form];
      if ok {
        form := EMPTY_FORM;
        closeCalls := closeCalls + 1;
      }
      loading := false;
    }
  }
}
