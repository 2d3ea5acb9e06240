/**
 * Whole journeys through the wizard, driven the way the screens drive the
 * store: the profile list, the two form steps and the summary. Every submit
 * goes through the corrected `Summary.HandleSubmit`, which reports only a
 * fulfilled save; `Summary.HandleSubmitAsWritten` is the program as written.
 */
module WizardFlows {
  import opened Wrappers
  import V = Validation
  import opened ProfileSlice
  import opened Navigation
  import opened BasicInfo
  import opened AddressInfo
  import opened Summary

  /**
   * The application starting over a storage slot: a fresh store loads the
   * saved list, and the profile list screen is shown.
   */
  method Launch(storage: Storage) returns (store: ProfileState, router: Router)
    ensures fresh(store) && fresh(router)
    ensures store.savedProfiles == LoadedList(storage.slot)
    ensures store.draftProfile == map[] && store.editingId == None && !store.loading
    ensures router.current == ProfileList
  {
    store := new ProfileState();
    store.LoadProfiles(storage);
    router := new Router(ProfileList);
  }

  /** The basic step with every field retyped, then Next. */
  method EnterBasicInfo(store: ProfileState, router: Router, fullName: string, email: string, age: string)
    requires V.ValidateBasicInfo(V.BasicInfoInput(Some(fullName), Some(email), Some(age))) == map[]
    modifies store, router
    ensures store.draftProfile == old(store.draftProfile) + map[FullName := fullName, Email := email, Age := age]
    ensures router.current == AddressStep
    ensures store.savedProfiles == old(store.savedProfiles) && store.editingId == old(store.editingId)
  {
    var basic := new BasicInfoScreen(store);
    basic.ChangeFullName(fullName);
    basic.ChangeEmail(email);
    basic.ChangeAge(age);
    basic.HandleNext(store, router);
  }

  /** The basic step left as the draft seeded it, then Next. */
  method ConfirmBasicInfo(store: ProfileState, router: Router)
    requires V.ValidateBasicInfo(V.BasicInfoInput(
      Some(ValueOr(store.draftProfile, FullName)),
      Some(ValueOr(store.draftProfile, Email)),
      Some(ValueOr(store.draftProfile, Age)))) == map[]
    modifies store, router
    ensures store.draftProfile == old(store.draftProfile) + map[
      FullName := ValueOr(old(store.draftProfile), FullName),
      Email := ValueOr(old(store.draftProfile), Email),
      Age := ValueOr(old(store.draftProfile), Age)]
    ensures router.current == AddressStep
    ensures store.savedProfiles == old(store.savedProfiles) && store.editingId == old(store.editingId)
  {
    var basic := new BasicInfoScreen(store);
    basic.HandleNext(store, router);
  }

  /** The address step with every field retyped, then Next. */
  method EnterAddressInfo(store: ProfileState, router: Router, city: string, state: string, country: string)
    requires V.ValidateAddressInfo(V.AddressInfoInput(Some(city), Some(state), Some(country))) == map[]
    modifies store, router
    ensures store.draftProfile == old(store.draftProfile) + map[City := city, State := state, Country := country]
    ensures router.current == SummaryStep
    ensures store.savedProfiles == old(store.savedProfiles) && store.editingId == old(store.editingId)
  {
    var address := new AddressInfoScreen(store);
    address.ChangeCity(city);
    address.ChangeState(state);
    address.ChangeCountry(country);
    address.HandleNext(store, router);
  }

  /** The address step with only the city retyped, then Next. */
  method RetypeCity(store: ProfileState, router: Router, city: string)
    requires V.ValidateAddressInfo(V.AddressInfoInput(
      Some(city), Some(ValueOr(store.draftProfile, State)), Some(ValueOr(store.draftProfile, Country)))) == map[]
    modifies store, router
    ensures store.draftProfile == old(store.draftProfile) + map[
      City := city,
      State := ValueOr(old(store.draftProfile), State),
      Country := ValueOr(old(store.draftProfile), Country)]
    ensures router.current == SummaryStep
    ensures store.savedProfiles == old(store.savedProfiles) && store.editingId == old(store.editingId)
  {
    var address := new AddressInfoScreen(store);
    address.ChangeCity(city);
    address.HandleNext(store, router);
  }

  /**
   * The list screen's Add button followed by both form steps: the draft holds
   * exactly what was typed and the router is at the summary.
   */
  method FillNewProfile(store: ProfileState, router: Router, fullName: string, email: string, age: string,
                        city: string, state: string, country: string)
    requires V.ValidateBasicInfo(V.BasicInfoInput(Some(fullName), Some(email), Some(age))) == map[]
    requires V.ValidateAddressInfo(V.AddressInfoInput(Some(city), Some(state), Some(country))) == map[]
    modifies store, router
    ensures store.draftProfile == map[] + map[FullName := fullName, Email := email, Age := age]
                                        + map[City := city, State := state, Country := country]
    ensures router.current == SummaryStep
    ensures store.savedProfiles == old(store.savedProfiles) && store.editingId == None
  {
    store.ClearDraft();
    router.Push(BasicInfoStep);
    EnterBasicInfo(store, router, fullName, email, age);
    EnterAddressInfo(store, router, city, state, country);
  }

  /**
   * The list screen's Edit button on the only stored profile, then the basic
   * step passed unchanged and the address step with only the city retyped.
   */
  method FillCityEdit(store: ProfileState, router: Router, stored: Profile, newCity: string)
    requires store.savedProfiles == [stored]
    requires V.ValidateBasicInfo(V.BasicInfoInput(Some(stored.fullName), Some(stored.email), Some(stored.age))) == map[]
    requires V.ValidateAddressInfo(V.AddressInfoInput(Some(newCity), Some(stored.state), Some(stored.country))) == map[]
    modifies store, router
    ensures store.draftProfile == EditedDraft(stored, newCity)
    ensures store.editingId == Some(stored.id) && store.savedProfiles == [stored]
    ensures router.current == SummaryStep
  {
    assert [stored][0].id == stored.id;
    store.StartEditing(stored.id);
    assert store.draftProfile == DraftOf(stored);
    router.Push(BasicInfoStep);
    ghost var seeded := store.draftProfile;
    assert ValueOr(seeded, FullName) == stored.fullName && ValueOr(seeded, Email) == stored.email
      && ValueOr(seeded, Age) == stored.age;
    ConfirmBasicInfo(store, router);
    SeededDraftKeepsAddress(stored);
    RetypeCity(store, router, newCity);
  }

  /** Passing the basic step unchanged leaves the seeded address properties in the draft. */
  lemma SeededDraftKeepsAddress(stored: Profile)
    ensures var basic := DraftOf(stored) + map[FullName := stored.fullName, Email := stored.email, Age := stored.age];
      ValueOr(basic, State) == stored.state && ValueOr(basic, Country) == stored.country
  {
  }

  /** The draft after Edit, an unchanged basic step and a new city. */
  function EditedDraft(stored: Profile, newCity: string): Draft {
    DraftOf(stored) + map[FullName := stored.fullName, Email := stored.email, Age := stored.age]
                    + map[City := newCity, State := stored.state, Country := stored.country]
  }

  /**
   * Submitting that draft rebuilds the stored profile with only the city
   * changed, under its own id, and the one-element list is replaced by it.
   */
  lemma EditedDraftBuildsProfile(stored: Profile, newCity: string, freshId: string)
    requires stored.id != ""
    ensures BuildProfile(EditedDraft(stored, newCity), Some(stored.id), freshId)
         == stored.(city := newCity, avatar := Some(stored.avatar.GetOr("")))
    ensures SavedList([stored], Some(stored.id), stored.(city := newCity, avatar := Some(stored.avatar.GetOr(""))))
         == [stored.(city := newCity, avatar := Some(stored.avatar.GetOr("")))]
  {
  }

  /** Both steps typed into a cleared draft give exactly the typed profile, with an empty avatar. */
  lemma FilledDraftBuildsProfile(fullName: string, email: string, age: string,
                                 city: string, state: string, country: string, freshId: string)
    ensures BuildProfile(map[] + map[FullName := fullName, Email := email, Age := age]
                              + map[City := city, State := state, Country := country], None, freshId)
         == Profile(freshId, fullName, email, age, city, state, country, Some(""))
  {
  }

  /**
   * Creating a profile from an empty store: after Add, two valid steps and a
   * successful submit, the store holds exactly the new profile under the
   * fresh id, the session is reset, and reading the storage slot back yields
   * the same list.
   */
  method CreateFlow(fullName: string, email: string, age: string,
                    city: string, state: string, country: string, freshId: string)
    returns (saved: seq<Profile>, reloaded: seq<Profile>, draft: Draft, editing: Option<string>, message: Option<Message>)
    requires V.ValidateBasicInfo(V.BasicInfoInput(Some(fullName), Some(email), Some(age))) == map[]
    requires V.ValidateAddressInfo(V.AddressInfoInput(Some(city), Some(state), Some(country))) == map[]
    ensures saved == [Profile(freshId, fullName, email, age, city, state, country, Some(""))]
    ensures reloaded == saved
    ensures draft == map[] && editing == None
    ensures message == Some(Created)
  {
    var storage := new Storage(Absent);
    var store, router := Launch(storage);
    FillNewProfile(store, router, fullName, email, age, city, state, country);
    FilledDraftBuildsProfile(fullName, email, age, city, state, country, freshId);
    message := HandleSubmit(store, storage, router, freshId, true);
    saved, draft, editing := store.savedProfiles, store.draftProfile, store.editingId;

    // A later start of the application reads the slot back.
    var restarted, _ := Launch(storage);
    reloaded := restarted.savedProfiles;
  }

  /**
   * Through the corrected `HandleSubmit`: a submit whose write fails shows no
   * message and keeps the wizard on the summary with the draft intact;
   * submitting again once the write succeeds stores the profile once and
   * announces it as created. The program as written announces the failed
   * submit too (`Summary.FailedSaveReportedAsCreated`).
   */
  method RetryAfterFailedWrite(fullName: string, email: string, age: string,
                               city: string, state: string, country: string, freshId: string)
    returns (first: Option<Message>, second: Option<Message>, saved: seq<Profile>)
    requires V.ValidateBasicInfo(V.BasicInfoInput(Some(fullName), Some(email), Some(age))) == map[]
    requires V.ValidateAddressInfo(V.AddressInfoInput(Some(city), Some(state), Some(country))) == map[]
    ensures first == None && second == Some(Created)
    ensures saved == [Profile(freshId, fullName, email, age, city, state, country, Some(""))]
  {
    var storage := new Storage(Absent);
    var store, router := Launch(storage);
    FillNewProfile(store, router, fullName, email, age, city, state, country);
    FilledDraftBuildsProfile(fullName, email, age, city, state, country, freshId);
    first := HandleSubmit(store, storage, router, freshId, false);
    second := HandleSubmit(store, storage, router, freshId, true);
    saved := store.savedProfiles;
  }

  /**
   * Editing one stored profile: Edit seeds the draft from it, the basic step
   * is passed unchanged, only the city is retyped, and the submit replaces
   * the profile in place under its own id.
   */
  method EditCityFlow(stored: Profile, newCity: string, freshId: string)
    returns (saved: seq<Profile>, message: Option<Message>)
    requires stored.id != ""
    requires V.ValidateBasicInfo(V.BasicInfoInput(Some(stored.fullName), Some(stored.email), Some(stored.age))) == map[]
    requires V.ValidateAddressInfo(V.AddressInfoInput(Some(newCity), Some(stored.state), Some(stored.country))) == map[]
    ensures saved == [stored.(city := newCity, avatar := Some(stored.avatar.GetOr("")))]
    ensures message == Some(Updated)
  {
    var storage := new Storage(Stored([stored]));
    var store, router := Launch(storage);
    FillCityEdit(store, router, stored, newCity);
    EditedDraftBuildsProfile(stored, newCity, freshId);
    message := HandleSubmit(store, storage, router, freshId, true);
    saved := store.savedProfiles;
  }

  /** "ana@x.com" has the shape the e-mail pattern asks for. */
  lemma AnaEmailAccepted()
    ensures V.EmailAccepted(Some("ana@x.com"))
  {
    V.EmailPatternAtSplit("ana", "x.com");
    assert "ana" + "@" + "x.com" == "ana@x.com";
    assert "x.com"[1..4][0] == '.';
    assert !V.IsSpace("ana@x.com"[0]);
  }

  /** "30" is a whole number between 1 and 150. */
  lemma AnaAgeAccepted()
    ensures V.AgeAccepted(Some("30"))
  {
    var s := "30";
    assert V.AllDigits(s) by { assert V.IsDigit(s[0]) && V.IsDigit(s[1]); }
    assert V.DigitsValue(s) == 30 by { assert s[..1] == "3" && "3"[..0] == []; }
    V.AgeOfDigits(s);
  }

  /** Ana from Lima, Peru, passes both form steps. */
  lemma AnaPassesBothSteps()
    ensures V.ValidateBasicInfo(V.BasicInfoInput(Some("Ana"), Some("ana@x.com"), Some("30"))) == map[]
    ensures V.ValidateAddressInfo(V.AddressInfoInput(Some("Lima"), Some("Lima"), Some("Peru"))) == map[]
  {
    assert !V.IsSpace("Ana"[0]) && !V.IsSpace("Lima"[0]) && !V.IsSpace("Peru"[0]);
    AnaEmailAccepted();
    AnaAgeAccepted();
    V.BasicInfoPassesIff(V.BasicInfoInput(Some("Ana"), Some("ana@x.com"), Some("30")));
    V.AddressInfoPassesIff(V.AddressInfoInput(Some("Lima"), Some("Lima"), Some("Peru")));
  }

  /** The journey for Ana from Lima, Peru, with the values typed as literals. */
  method CreateAnaFlow(freshId: string) returns (saved: seq<Profile>)
    ensures saved == [Profile(freshId, "Ana", "ana@x.com", "30", "Lima", "Lima", "Peru", Some(""))]
  {
    AnaPassesBothSteps();
    var reloaded, draft, editing, message;
    saved, reloaded, draft, editing, message := CreateFlow("Ana", "ana@x.com", "30", "Lima", "Lima", "Peru", freshId);
  }
}
