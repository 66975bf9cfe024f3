/** The "create a listing" wizard (`src/components/MainFeature.jsx`): a
    three-step form whose Next button validates the fields of the current
    step, whose Submit button starts a simulated submission, and whose
    completion callback resets the form and closes it. */
module Wizard {
  import opened Text

  datatype ListingType = Sell | Buy | Swap

  /** The names of the six form fields. */
  datatype Field = Title | Description | Price | Condition | Category | Location

  /** `formData`: every field is the text of its input. */
  datatype FormData = FormData(title: string, description: string, price: string,
                               condition: string, category: string, location: string)
  {
    function Get(f: Field): string {
      match f
      case Title => title
      case Description => description
      case Price => price
      case Condition => condition
      case Category => category
      case Location => location
    }

    /** `{ ...formData, [name]: value }` */
    function Set(f: Field, v: string): (r: FormData)
      ensures r.Get(f) == v
      ensures forall g :: g != f ==> r.Get(g) == Get(g)
    {
      match f
      case Title => this.(title := v)
      case Description => this.(description := v)
      case Price => this.(price := v)
      case Condition => this.(condition := v)
      case Category => this.(category := v)
      case Location => this.(location := v)
    }
  }

  /** The form as it is first shown and after every reset. */
  const EmptyForm := FormData("", "", "", "", "", "")

  /** The message stored for a field that fails validation. */
  function Message(f: Field): string
    requires f != Location
  {
    match f
    case Title => "Title is required"
    case Description => "Description is required"
    case Price => "Price is required"
    case Condition => "Condition is required"
    case Category => "Category is required"
  }

  /** The fields each step checks: title and description at step 1; price
      (except for a swap), condition and category at step 2; none otherwise. */
  function RequiredFields(step: int, t: ListingType): set<Field> {
    if step == 1 then {Title, Description}
    else if step == 2 then (if t == Swap then {Condition, Category} else {Price, Condition, Category})
    else {}
  }

  /** Whether a field counts as not filled in: title and description when
      they hold nothing but whitespace, the others only when empty. */
  predicate Missing(f: Field, form: FormData) {
    match f
    case Title => AllWhitespace(form.title)
    case Description => AllWhitespace(form.description)
    case Location => false
    case _ => form.Get(f) == ""
  }

  /** The error map validation produces, stated as a table: one message for
      each required field that is missing. */
  function ValidationErrors(step: int, t: ListingType, form: FormData): (e: map<Field, string>)
    ensures forall f :: f in e <==> f in RequiredFields(step, t) && Missing(f, form)
    ensures forall f :: f in e ==> f != Location && e[f] == Message(f)
  {
    map f | f in RequiredFields(step, t) && Missing(f, form) :: Message(f)
  }

  /** At step 1 title has an error exactly when `title.trim()` is empty,
      description exactly when `description.trim()` is empty; nothing else
      is checked. */
  lemma Step1Errors(t: ListingType, form: FormData)
    ensures var e := ValidationErrors(1, t, form);
      (Title in e <==> Trim(form.title) == "") &&
      (Description in e <==> Trim(form.description) == "") &&
      e.Keys <= {Title, Description}
  {
    TrimEmptyIff(form.title);
    TrimEmptyIff(form.description);
  }

  /** At step 2 price errors exactly when it is empty and the listing is not
      a swap, condition and category exactly when empty; title and
      description are not rechecked. Price is not trimmed, so on its own this
      check would accept a price of only spaces; the page's number input never
      stores one. */
  lemma Step2Errors(t: ListingType, form: FormData)
    ensures var e := ValidationErrors(2, t, form);
      (Price in e <==> form.price == "" && t != Swap) &&
      (Condition in e <==> form.condition == "") &&
      (Category in e <==> form.category == "") &&
      Title !in e && Description !in e && Location !in e
  {
  }

  /** Any other step (the summary step 3) always validates. */
  lemma OtherStepsPass(step: int, t: ListingType, form: FormData)
    requires step != 1 && step != 2
    ensures ValidationErrors(step, t, form) == map[]
  {
  }

  /** Validation passes exactly when every required field is filled in, and
      each stored message is the field's own. */
  lemma ValidationPassesIff(step: int, t: ListingType, form: FormData)
    ensures ValidationErrors(step, t, form) == map[] <==>
      forall f :: f in RequiredFields(step, t) ==> !Missing(f, form)
    ensures forall f :: f in ValidationErrors(step, t, form) ==>
      f != Location && ValidationErrors(step, t, form)[f] == Message(f)
  {
    var e := ValidationErrors(step, t, form);
    if e == map[] {
      forall f | f in RequiredFields(step, t) ensures !Missing(f, form) {
        assert f !in e;
      }
    }
  }

  /** Two error maps with the same fields and the same messages are equal. */
  lemma SameErrors(a: map<Field, string>, b: map<Field, string>)
    requires forall f :: f in a <==> f in b
    requires forall f :: f in a ==> a[f] == b[f]
    ensures a == b
  {
  }

  /** The wizard's state. `pendingCompletions` counts the submission timers
      that have been started and have not fired yet. */
  class ListingWizard {
    var listingType: ListingType
    var formData: FormData
    var errors: map<Field, string>
    var step: int
    var isSubmitting: bool
    var showForm: bool
    var pendingCompletions: nat

    ghost predicate Valid()
      reads this
    {
      1 <= step <= 3
    }

    constructor ()
      ensures Valid()
      ensures listingType == Sell && formData == EmptyForm && errors == map[] && step == 1
      ensures !isSubmitting && !showForm && pendingCompletions == 0
    {
      listingType := Sell;
      formData := EmptyForm;
      errors := map[];
      step := 1;
      isSubmitting := false;
      showForm := false;
      pendingCompletions := 0;
    }

    /** `handleChange`: stores the value; an error shown for that field is
        blanked (its key stays), other errors are kept. */
    method HandleChange(name: Field, value: string)
      modifies this
      ensures formData == old(formData).Set(name, value)
      ensures forall f :: f != name ==> formData.Get(f) == old(formData).Get(f)
      ensures errors == if name in old(errors) && old(errors)[name] != ""
                        then old(errors)[name := ""] else old(errors)
      ensures forall f :: f != name ==> (f in errors <==> f in old(errors))
      ensures forall f :: f != name && f in errors ==> errors[f] == old(errors)[f]
      ensures listingType == old(listingType) && step == old(step)
      ensures isSubmitting == old(isSubmitting) && showForm == old(showForm)
      ensures pendingCompletions == old(pendingCompletions)
    {
      formData := formData.Set(name, value);
      if name in errors && errors[name] != "" {
        errors := errors[name := ""];
      }
    }

    /** A condition button: sets the condition and leaves the errors alone. */
    method SelectCondition(c: string)
      modifies this
      ensures formData == old(formData).(condition := c)
      ensures errors == old(errors) && listingType == old(listingType) && step == old(step)
      ensures isSubmitting == old(isSubmitting) && showForm == old(showForm)
      ensures pendingCompletions == old(pendingCompletions)
    {
      formData := formData.(condition := c);
    }

    /** A listing-type button: changes only the type, not the step or form. */
    method SelectType(t: ListingType)
      modifies this
      ensures listingType == t
      ensures formData == old(formData) && errors == old(errors) && step == old(step)
      ensures isSubmitting == old(isSubmitting) && showForm == old(showForm)
      ensures pendingCompletions == old(pendingCompletions)
    {
      listingType := t;
    }

    /** `validateStep`: builds the error map key by key, stores it, and
        reports whether it is empty. */
    method ValidateStep() returns (ok: bool)
      modifies this`errors
      ensures errors == ValidationErrors(step, listingType, formData)
      ensures ok <==> errors == map[]
    {
      var form, t := formData, listingType;
      ghost var spec := ValidationErrors(step, t, form);
      var newErrors: map<Field, string> := map[];
      if step == 1 {
        Step1Errors(t, form);
        if Trim(form.title) == "" {
          newErrors := newErrors[Title := "Title is required"];
        }
        if Trim(form.description) == "" {
          newErrors := newErrors[Description := "Description is required"];
        }
        assert newErrors == spec by { SameErrors(newErrors, spec); }
      } else if step == 2 {
        Step2Errors(t, form);
        if form.price == "" && t != Swap {
          newErrors := newErrors[Price := "Price is required"];
        }
        if form.condition == "" {
          newErrors := newErrors[Condition := "Condition is required"];
        }
        if form.category == "" {
          newErrors := newErrors[Category := "Category is required"];
        }
        assert newErrors == spec by { SameErrors(newErrors, spec); }
      } else {
        OtherStepsPass(step, t, form);
      }
      errors := newErrors;
      // `Object.keys(newErrors).length === 0`
      ok := newErrors == map[];
    }

    /** `nextStep` (the Next button is shown only before step 3): advances
        exactly when the current step validates. */
    method NextStep()
      requires Valid() && step < 3
      modifies this
      ensures Valid()
      ensures errors == ValidationErrors(old(step), listingType, formData)
      ensures step == if errors == map[] then old(step) + 1 else old(step)
      ensures formData == old(formData) && listingType == old(listingType)
      ensures isSubmitting == old(isSubmitting) && showForm == old(showForm)
      ensures pendingCompletions == old(pendingCompletions)
    {
      var ok := ValidateStep();
      if ok {
        step := step + 1;
      }
    }

    /** `prevStep` (the Back button is shown only after step 1): goes back
        without validating and without touching the form or the errors. */
    method PrevStep()
      requires Valid() && step > 1
      modifies this
      ensures Valid()
      ensures step == old(step) - 1
      ensures formData == old(formData) && errors == old(errors) && listingType == old(listingType)
      ensures isSubmitting == old(isSubmitting) && showForm == old(showForm)
      ensures pendingCompletions == old(pendingCompletions)
    {
      step := step - 1;
    }

    /** `handleSubmit`: on a valid step, marks the submission as running and
        starts its timer; otherwise only the errors change. */
    method HandleSubmit()
      modifies this
      ensures errors == ValidationErrors(step, listingType, formData)
      ensures errors == map[] ==> isSubmitting && pendingCompletions == old(pendingCompletions) + 1
      ensures errors != map[] ==>
        isSubmitting == old(isSubmitting) && pendingCompletions == old(pendingCompletions)
      ensures step == old(step) && formData == old(formData) && listingType == old(listingType)
      ensures showForm == old(showForm)
    {
      var ok := ValidateStep();
      if ok {
        isSubmitting := true;
        pendingCompletions := pendingCompletions + 1;
      }
    }

    /** The submission timer fires: the form is emptied, the wizard goes back
        to step 1 and closes. The errors and the listing type are kept. */
    method CompleteSubmission()
      requires pendingCompletions > 0
      modifies this
      ensures Valid()
      ensures !isSubmitting && formData == EmptyForm && step == 1 && !showForm
      ensures pendingCompletions == old(pendingCompletions) - 1
      ensures errors == old(errors) && listingType == old(listingType)
    {
      isSubmitting := false;
      formData := EmptyForm;
      step := 1;
      showForm := false;
      pendingCompletions := pendingCompletions - 1;
    }

    /** `toggleForm`: opening resets the form, the step and the errors;
        closing only hides the form. Neither touches the listing type or a
        running submission. */
    method ToggleForm()
      requires Valid()
      modifies this
      ensures Valid()
      ensures showForm == !old(showForm)
      ensures !old(showForm) ==> formData == EmptyForm && step == 1 && errors == map[]
      ensures old(showForm) ==>
        formData == old(formData) && step == old(step) && errors == old(errors)
      ensures listingType == old(listingType) && isSubmitting == old(isSubmitting)
      ensures pendingCompletions == old(pendingCompletions)
    {
      var wasShown := showForm;
      showForm := !showForm;
      if !wasShown {
        formData := EmptyForm;
        step := 1;
        errors := map[];
      }
    }

    /** The left button: Back after step 1, Cancel (closing the form) at
        step 1. */
    method LeftButton()
      requires Valid()
      modifies this
      ensures Valid()
      ensures old(step) > 1 ==>
        step == old(step) - 1 && showForm == old(showForm) &&
        formData == old(formData) && errors == old(errors)
      ensures old(step) == 1 ==> step == 1 && showForm == !old(showForm)
      ensures old(step) == 1 && !old(showForm) ==> formData == EmptyForm && errors == map[]
      ensures old(step) == 1 && old(showForm) ==> formData == old(formData) && errors == old(errors)
      ensures listingType == old(listingType) && isSubmitting == old(isSubmitting)
      ensures pendingCompletions == old(pendingCompletions)
    {
      if step > 1 {
        PrevStep();
      } else {
        ToggleForm();
      }
    }

    /** The right button: Next before step 3; at step 3 Submit, which is
        disabled while a submission is running. Step 3 has no required
        fields, so an enabled Submit always starts the submission. */
    method RightButton()
      requires Valid()
      modifies this
      ensures Valid()
      ensures old(step) < 3 ==>
        errors == ValidationErrors(old(step), listingType, formData) &&
        step == (if errors == map[] then old(step) + 1 else old(step)) &&
        isSubmitting == old(isSubmitting) && pendingCompletions == old(pendingCompletions)
      ensures old(step) == 3 && !old(isSubmitting) ==>
        step == 3 && isSubmitting && errors == map[] &&
        pendingCompletions == old(pendingCompletions) + 1
      ensures old(step) == 3 && old(isSubmitting) ==>
        step == 3 && isSubmitting && errors == old(errors) &&
        pendingCompletions == old(pendingCompletions)
      ensures formData == old(formData) && listingType == old(listingType)
      ensures showForm == old(showForm)
    {
      if step < 3 {
        NextStep();
      } else if !isSubmitting {
        OtherStepsPass(step, listingType, formData);
        HandleSubmit();
      }
    }
  }
}
