/** The second wizard step: city, state and country. */
module AddressInfo {
  import opened Wrappers
  import V = Validation
  import opened ProfileSlice
  import opened Navigation

  /** The screen's local component state. */
  class AddressInfoScreen {
    var city: string
    var state: string
    var country: string
    var errors: V.Errors

    /** Mounting the screen: each field starts from the draft, or `''` when the draft lacks it. */
    constructor (store: ProfileState)
      ensures city == ValueOr(store.draftProfile, City)
      ensures state == ValueOr(store.draftProfile, State)
      ensures country == ValueOr(store.draftProfile, Country)
      ensures errors == map[]
    {
      city := ValueOr(store.draftProfile, City);
      state := ValueOr(store.draftProfile, State);
      country := ValueOr(store.draftProfile, Country);
      errors := map[];
    }

    /** The object handed to the validator. */
    function Input(): V.AddressInfoInput
      reads this
    {
      V.AddressInfoInput(Some(city), Some(state), Some(country))
    }

    /** The three fields as a draft patch. */
    function Patch(): Draft
      reads this
    {
      map[City := city, State := state, Country := country]
    }

    /** Typing into the city field clears that field's error and no other. */
    method ChangeCity(text: string)
      modifies this
      ensures city == text && state == old(state) && country == old(country)
      ensures errors == old(errors) - {V.City}
    {
      city := text;
      errors := errors - {V.City};
    }

    /** Typing into the state field clears that field's error and no other. */
    method ChangeState(text: string)
      modifies this
      ensures state == text && city == old(city) && country == old(country)
      ensures errors == old(errors) - {V.State}
    {
      state := text;
      errors := errors - {V.State};
    }

    /** Typing into the country field clears that field's error and no other. */
    method ChangeCountry(text: string)
      modifies this
      ensures country == text && city == old(city) && state == old(state)
      ensures errors == old(errors) - {V.Country}
    {
      country := text;
      errors := errors - {V.Country};
    }

    /** `handleBack`: keep what was typed, valid or not, and return to the previous step. */
    method HandleBack(store: ProfileState, router: Router)
      modifies store, router
      ensures store.draftProfile == old(store.draftProfile) + Patch()
      ensures router.current == Previous(old(router.current))
      ensures store.savedProfiles == old(store.savedProfiles)
      ensures store.loading == old(store.loading) && store.editingId == old(store.editingId)
    {
      store.UpdateDraft(Patch());
      router.Back();
    }

    /**
     * `handleNext`: validate the local fields first; on any error show the
     * errors and stay, leaving the draft alone; otherwise merge the three
     * fields into the draft and go to the summary.
     */
    method HandleNext(store: ProfileState, router: Router)
      modifies this, store, router
      ensures city == old(city) && state == old(state) && country == old(country)
      ensures V.ValidateAddressInfo(Input()) != map[] ==>
        errors == V.ValidateAddressInfo(Input())
        && store.draftProfile == old(store.draftProfile)
        && router.current == old(router.current)
      ensures V.ValidateAddressInfo(Input()) == map[] ==>
        errors == old(errors)
        && store.draftProfile == old(store.draftProfile) + Patch()
        && router.current == SummaryStep
      ensures store.savedProfiles == old(store.savedProfiles)
      ensures store.loading == old(store.loading) && store.editingId == old(store.editingId)
    {
      var validationErrors := V.ValidateAddressInfo(Input());
      if validationErrors != map[] {
        errors := validationErrors;
        return;
      }
      var patch := Patch();
      store.UpdateDraft(patch);
      router.Push(SummaryStep);
    }
  }
}
