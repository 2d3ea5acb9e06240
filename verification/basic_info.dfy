/** The first wizard step: full name, e-mail and age. */
module BasicInfo {
  import opened Wrappers
  import V = Validation
  import opened ProfileSlice
  import opened Navigation

  /** The screen's local component state. */
  class BasicInfoScreen {
    var fullName: string
    var email: string
    var age: string
    var errors: V.Errors

    /** Mounting the screen: each field starts from the draft, or `''` when the draft lacks it. */
    constructor (store: ProfileState)
      ensures fullName == ValueOr(store.draftProfile, FullName)
      ensures email == ValueOr(store.draftProfile, Email)
      ensures age == ValueOr(store.draftProfile, Age)
      ensures errors == map[]
    {
      fullName := ValueOr(store.draftProfile, FullName);
      email := ValueOr(store.draftProfile, Email);
      age := ValueOr(store.draftProfile, Age);
      errors := map[];
    }

    /** The object handed to the validator. */
    function Input(): V.BasicInfoInput
      reads this
    {
      V.BasicInfoInput(Some(fullName), Some(email), Some(age))
    }

    /** Typing into the full-name field clears that field's error and no other. */
    method ChangeFullName(text: string)
      modifies this
      ensures fullName == text && email == old(email) && age == old(age)
      ensures errors == old(errors) - {V.FullName}
    {
      fullName := text;
      errors := errors - {V.FullName};
    }

    /** Typing into the e-mail field clears that field's error and no other. */
    method ChangeEmail(text: string)
      modifies this
      ensures email == text && fullName == old(fullName) && age == old(age)
      ensures errors == old(errors) - {V.Email}
    {
      email := text;
      errors := errors - {V.Email};
    }

    /** Typing into the age field clears that field's error and no other. */
    method ChangeAge(text: string)
      modifies this
      ensures age == text && fullName == old(fullName) && email == old(email)
      ensures errors == old(errors) - {V.Age}
    {
      age := text;
      errors := errors - {V.Age};
    }

    /**
     * `handleNext`: validate the local fields first; on any error show the
     * errors and stay, leaving the draft alone; otherwise merge the three
     * fields into the draft and go to the address step.
     */
    method HandleNext(store: ProfileState, router: Router)
      modifies this, store, router
      ensures fullName == old(fullName) && email == old(email) && age == old(age)
      ensures V.ValidateBasicInfo(Input()) != map[] ==>
        errors == V.ValidateBasicInfo(Input())
        && store.draftProfile == old(store.draftProfile)
        && router.current == old(router.current)
      ensures V.ValidateBasicInfo(Input()) == map[] ==>
        errors == old(errors)
        && store.draftProfile == old(store.draftProfile) + map[FullName := fullName, Email := email, Age := age]
        && router.current == AddressStep
      ensures store.savedProfiles == old(store.savedProfiles)
      ensures store.loading == old(store.loading) && store.editingId == old(store.editingId)
    {
      var validationErrors := V.ValidateBasicInfo(Input());
      if validationErrors != map[] {
        errors := validationErrors;
        return;
      }
      var payload := map[FullName := fullName, Email := email, Age := age];
      store.UpdateDraft(payload);
      router.Push(AddressStep);
    }
  }
}
