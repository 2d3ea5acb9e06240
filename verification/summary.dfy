/** The last wizard step: review the draft, then save it or go back to edit it. */
module Summary {
  import opened Wrappers
  import opened ProfileSlice
  import opened Navigation

  /** Which success message the alert shows. */
  datatype Message = Created | Updated

  /**
   * The profile `handleSubmit` builds: the edited id when there is one,
   * otherwise the fresh id; every other property from the draft, or `''`
   * when the draft lacks it.
   */
  function BuildProfile(draft: Draft, editingId: Option<string>, freshId: string): (p: Profile)
    ensures p.id == if Truthy(editingId) then editingId.value else freshId
    ensures p.fullName == ValueOr(draft, FullName) && p.email == ValueOr(draft, Email)
    ensures p.age == ValueOr(draft, Age) && p.city == ValueOr(draft, City)
    ensures p.state == ValueOr(draft, State) && p.country == ValueOr(draft, Country)
    ensures p.avatar == Some(ValueOr(draft, Avatar))
  {
    Profile(
      if Truthy(editingId) then editingId.value else freshId,
      ValueOr(draft, FullName),
      ValueOr(draft, Email),
      ValueOr(draft, Age),
      ValueOr(draft, City),
      ValueOr(draft, State),
      ValueOr(draft, Country),
      Some(ValueOr(draft, Avatar)))
  }

  /**
   * Submitting a draft seeded by `startEditing` and left unchanged rebuilds
   * the stored profile exactly (a stored profile without an avatar comes
   * back with an empty one).
   */
  lemma ResubmitUnchangedEdit(p: Profile, freshId: string)
    requires p.id != ""
    ensures BuildProfile(DraftOf(p), Some(p.id), freshId) == p.(avatar := Some(p.avatar.GetOr("")))
  {
  }

  /**
   * Submitting keeps the saved ids unique: an edit keeps the edited id, and a
   * creation uses the fresh id, which must be new.
   */
  lemma SubmitKeepsIdsUnique(ps: seq<Profile>, draft: Draft, editingId: Option<string>, freshId: string)
    requires UniqueIds(ps)
    requires !Truthy(editingId) ==> forall i | 0 <= i < |ps| :: ps[i].id != freshId
    ensures UniqueIds(SavedList(ps, editingId, BuildProfile(draft, editingId, freshId)))
  {
  }

  /** `handleEdit`: back to the address step; the draft and the edited id stay as they are. */
  method HandleEdit(router: Router)
    modifies router
    ensures router.current == Previous(old(router.current))
  {
    router.Back();
  }

  /**
   * `handleSubmit` as written: build the profile, dispatch the save, and in
   * the `.then` of the dispatch show the success message and, once it is
   * dismissed, return to the profile list. The promise a dispatched thunk
   * returns resolves whether the thunk was fulfilled or rejected, so the
   * message is shown after a failed write as well. The fresh id and the
   * outcome of the storage write are parameters.
   */
  method HandleSubmitAsWritten(store: ProfileState, storage: Storage, router: Router, freshId: string,
                               writeSucceeds: bool)
    returns (message: Message)
    modifies store, storage, router
    ensures message == if Truthy(old(store.editingId)) then Updated else Created
    ensures router.current == ProfileList && !store.loading
    ensures writeSucceeds ==>
      store.savedProfiles == SavedList(old(store.savedProfiles), old(store.editingId),
                                       BuildProfile(old(store.draftProfile), old(store.editingId), freshId))
      && storage.slot == Stored(store.savedProfiles)
      && store.draftProfile == map[] && store.editingId == None
    ensures !writeSucceeds ==>
      store.savedProfiles == old(store.savedProfiles) && storage.slot == old(storage.slot)
      && store.draftProfile == old(store.draftProfile) && store.editingId == old(store.editingId)
  {
    var editingId := store.editingId;
    var profile := BuildProfile(store.draftProfile, editingId, freshId);
    var _ := store.SaveProfileAsync(profile, storage, writeSucceeds);
    message := if Truthy(editingId) then Updated else Created;
    router.Push(ProfileList);
  }

  /**
   * The discrepancy: a first profile whose write fails is announced as
   * created, while the storage slot still holds nothing.
   */
  method FailedSaveReportedAsCreated(freshId: string) returns (message: Message, slot: Slot, saved: seq<Profile>)
    ensures message == Created && slot == Absent && saved == []
  {
    var storage := new Storage(Absent);
    var store := new ProfileState();
    var router := new Router(SummaryStep);
    message := HandleSubmitAsWritten(store, storage, router, freshId, false);
    slot, saved := storage.slot, store.savedProfiles;
  }

  /**
   * `handleSubmit` with the message tied to the outcome: the success message
   * is shown, and the list screen follows, exactly when the save was
   * fulfilled, that is when the new list is both in memory and in storage.
   * After a rejected save the wizard stays on the summary with the draft
   * intact, so the submit can be retried.
   */
  method HandleSubmit(store: ProfileState, storage: Storage, router: Router, freshId: string, writeSucceeds: bool)
    returns (message: Option<Message>)
    modifies store, storage, router
    ensures message.Some? <==> writeSucceeds
    ensures message.Some? ==>
      message.value == (if Truthy(old(store.editingId)) then Updated else Created)
      && storage.slot == Stored(store.savedProfiles) && router.current == ProfileList
    ensures !store.loading
    ensures writeSucceeds ==>
      store.savedProfiles == SavedList(old(store.savedProfiles), old(store.editingId),
                                       BuildProfile(old(store.draftProfile), old(store.editingId), freshId))
      && store.draftProfile == map[] && store.editingId == None
    ensures !writeSucceeds ==>
      store.savedProfiles == old(store.savedProfiles) && storage.slot == old(storage.slot)
      && store.draftProfile == old(store.draftProfile) && store.editingId == old(store.editingId)
      && router.current == old(router.current)
  {
    var editingId := store.editingId;
    var profile := BuildProfile(store.draftProfile, editingId, freshId);
    var fulfilled := store.SaveProfileAsync(profile, storage, writeSucceeds);
    if fulfilled {
      message := Some(if Truthy(editingId) then Updated else Created);
      router.Push(ProfileList);
    } else {
      message := None;
    }
  }
}
