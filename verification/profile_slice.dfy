/**
 * The `profiles` slice of the application store: the draft under
 * construction, the saved profiles, the busy flag and the id being edited,
 * together with the persistence thunks that rewrite the whole saved list in
 * one storage slot.
 */
module ProfileSlice {
  import opened Wrappers

  /** `ProfileData`: a completed profile as stored. */
  datatype Profile = Profile(
    id: string,
    fullName: string,
    email: string,
    age: string,
    city: string,
    state: string,
    country: string,
    avatar: Option<string>)

  /**
   * The property names a draft may carry. `DraftProfile` does not declare
   * `id`, but `startEditing` spreads a whole stored profile into the draft, so
   * at run time an edited draft carries the id as well.
   */
  datatype Key = Id | FullName | Email | Age | City | State | Country | Avatar

  /** `DraftProfile`: a record whose properties are all optional. */
  type Draft = map<Key, string>

  /** `draft.key || ''`: the property, or the empty string when it is absent. */
  function ValueOr(draft: Draft, k: Key): string {
    if k in draft then draft[k] else ""
  }

  /**
   * `{ ...profile }`: every property the stored profile has, so that each
   * property reads back as it was stored (a missing avatar reads as `''`).
   */
  function DraftOf(p: Profile): (d: Draft)
    ensures d.Keys == {Id, FullName, Email, Age, City, State, Country} + (if p.avatar.Some? then {Avatar} else {})
    ensures ValueOr(d, Id) == p.id && ValueOr(d, FullName) == p.fullName && ValueOr(d, Email) == p.email
    ensures ValueOr(d, Age) == p.age && ValueOr(d, City) == p.city
    ensures ValueOr(d, State) == p.state && ValueOr(d, Country) == p.country
    ensures ValueOr(d, Avatar) == p.avatar.GetOr("")
  {
    var d := map[Id := p.id, FullName := p.fullName, Email := p.email, Age := p.age,
                 City := p.city, State := p.state, Country := p.country];
    if p.avatar.Some? then d[Avatar := p.avatar.value] else d
  }

  /** A `string | null` used as a condition: `null` and `''` are both false. */
  predicate Truthy(id: Option<string>) {
    id.Some? && id.value != ""
  }

  // ---------------------------------------------------------------------------
  // The list computations
  // ---------------------------------------------------------------------------

  /** No two saved profiles share an id. */
  ghost predicate UniqueIds(ps: seq<Profile>) {
    forall i, j | 0 <= i < j < |ps| :: ps[i].id != ps[j].id
  }

  /** `findIndex(p => p.id === id)`, with `|ps|` standing for "not found". */
  function IndexOfId(ps: seq<Profile>, id: string): (i: nat)
    ensures i <= |ps|
    ensures i < |ps| ==> ps[i].id == id
    ensures forall j | 0 <= j < i :: ps[j].id != id
  {
    if ps == [] then 0
    else if ps[0].id == id then 0
    else 1 + IndexOfId(ps[1..], id)
  }

  /** `find(p => p.id === id)`: the first profile with that id, if there is one. */
  function FindById(ps: seq<Profile>, id: string): (r: Option<Profile>)
    ensures r.None? <==> forall i | 0 <= i < |ps| :: ps[i].id != id
    ensures r.Some? ==> r.value.id == id && r.value in ps
    ensures r.Some? ==> exists k | 0 <= k < |ps| :: ps[k] == r.value && forall j | 0 <= j < k :: ps[j].id != id
  {
    var i := IndexOfId(ps, id);
    if i < |ps| then Some(ps[i]) else None
  }

  /** `map(q => q.id === id ? p : q)`: every profile with that id is replaced, in place. */
  function ReplaceWhereId(ps: seq<Profile>, id: string, p: Profile): (r: seq<Profile>)
    ensures |r| == |ps|
    ensures forall i | 0 <= i < |ps| :: r[i] == if ps[i].id == id then p else ps[i]
  {
    if ps == [] then []
    else [if ps[0].id == id then p else ps[0]] + ReplaceWhereId(ps[1..], id, p)
  }

  /**
   * `filter(q => q.id !== id)`: every occurrence of a profile without that
   * id survives, and nothing with that id does.
   */
  function RemoveWhereId(ps: seq<Profile>, id: string): (r: seq<Profile>)
    ensures forall q :: multiset(r)[q] == if q.id == id then 0 else multiset(ps)[q]
  {
    if ps == [] then []
    else
      var rest := RemoveWhereId(ps[1..], id);
      assert ps == [ps[0]] + ps[1..];
      (if ps[0].id == id then [] else [ps[0]]) + rest
  }

  /** `a` is `b` with some elements left out, the rest in their original order. */
  predicate IsSubsequence<T(==)>(a: seq<T>, b: seq<T>)
    decreases |b|
  {
    a == [] || (b != [] && ((a[0] == b[0] && IsSubsequence(a[1..], b[1..])) || IsSubsequence(a, b[1..])))
  }

  /** Deleting keeps the remaining profiles in their relative order. */
  lemma {:induction false} RemoveKeepsOrder(ps: seq<Profile>, id: string)
    ensures IsSubsequence(RemoveWhereId(ps, id), ps)
  {
    if ps != [] {
      var r := RemoveWhereId(ps, id);
      var rest := RemoveWhereId(ps[1..], id);
      RemoveKeepsOrder(ps[1..], id);
      if ps[0].id == id {
        assert r == rest;
      } else {
        assert r == [ps[0]] + rest;
        assert r[1..] == rest;
      }
    }
  }

  /** Deleting an id no profile has leaves the list as it was. */
  lemma {:induction false} RemoveUnknownIdIsIdentity(ps: seq<Profile>, id: string)
    requires forall i | 0 <= i < |ps| :: ps[i].id != id
    ensures RemoveWhereId(ps, id) == ps
  {
    if ps != [] {
      RemoveUnknownIdIsIdentity(ps[1..], id);
      assert ps == [ps[0]] + ps[1..];
    }
  }

  /** Deleting never introduces two profiles with one id. */
  lemma {:induction false} RemoveKeepsIdsUnique(ps: seq<Profile>, id: string)
    requires UniqueIds(ps)
    ensures UniqueIds(RemoveWhereId(ps, id))
  {
    if ps != [] {
      var rest := RemoveWhereId(ps[1..], id);
      RemoveKeepsIdsUnique(ps[1..], id);
      if ps[0].id != id {
        var r := [ps[0]] + rest;
        forall j | 1 <= j < |r|
          ensures r[0].id != r[j].id
        {
          assert r[j] in multiset(rest);
          assert r[j] in multiset(ps[1..]);
          var k :| 0 <= k < |ps[1..]| && ps[1..][k] == r[j];
          assert ps[k + 1] == r[j];
        }
      }
    }
  }

  /**
   * The list `saveProfileAsync` builds: with a truthy `editingId` every
   * profile carrying that id is replaced; otherwise the profile is appended.
   */
  function SavedList(ps: seq<Profile>, editingId: Option<string>, p: Profile): (r: seq<Profile>)
    ensures Truthy(editingId) ==> |r| == |ps|
    ensures Truthy(editingId) ==>
      forall i | 0 <= i < |ps| :: r[i] == if ps[i].id == editingId.value then p else ps[i]
    ensures !Truthy(editingId) ==> |r| == |ps| + 1 && r[..|ps|] == ps && r[|ps|] == p
  {
    if Truthy(editingId) then ReplaceWhereId(ps, editingId.value, p) else ps + [p]
  }

  /** An edit whose id matches no saved profile changes nothing and appends nothing. */
  lemma EditOfUnknownIdIsIdentity(ps: seq<Profile>, editingId: string, p: Profile)
    requires editingId != ""
    requires forall i | 0 <= i < |ps| :: ps[i].id != editingId
    ensures SavedList(ps, Some(editingId), p) == ps
  {
  }

  /** With unique ids, an edit replaces exactly the one profile that has the edited id. */
  lemma EditReplacesInPlace(ps: seq<Profile>, k: nat, p: Profile)
    requires UniqueIds(ps)
    requires k < |ps| && ps[k].id == p.id && p.id != ""
    ensures SavedList(ps, Some(p.id), p) == ps[k := p]
  {
  }

  /**
   * A save keeps the ids unique as long as an edit keeps the edited id and a
   * creation brings an id no saved profile has.
   */
  lemma SaveKeepsIdsUnique(ps: seq<Profile>, editingId: Option<string>, p: Profile)
    requires UniqueIds(ps)
    requires Truthy(editingId) ==> p.id == editingId.value
    requires !Truthy(editingId) ==> forall i | 0 <= i < |ps| :: ps[i].id != p.id
    ensures UniqueIds(SavedList(ps, editingId, p))
  {
  }

  // ---------------------------------------------------------------------------
  // Storage
  // ---------------------------------------------------------------------------

  /**
   * What a read of the storage slot yields: nothing stored, a read or parse
   * failure, or a stored list.
   */
  datatype Slot = Absent | Unreadable | Stored(profiles: seq<Profile>)

  /** `loadProfiles`: the stored list, or an empty list when there is none or it cannot be read. */
  function LoadedList(slot: Slot): (ps: seq<Profile>)
    ensures slot.Stored? ==> ps == slot.profiles
    ensures !slot.Stored? ==> ps == []
  {
    match slot
    case Stored(profiles) => profiles
    case _ => []
  }

  /** The one key-value slot the saved list is written to. */
  class Storage {
    var slot: Slot

    constructor (initial: Slot)
      ensures slot == initial
    {
      slot := initial;
    }
  }

  /** What a fulfilled `saveProfileAsync` hands to its reducer. */
  datatype SavePayload = SavePayload(profile: Profile, editingId: Option<string>)

  // ---------------------------------------------------------------------------
  // The slice state and its reducers
  // ---------------------------------------------------------------------------

  /** `ProfileState`. */
  class ProfileState {
    var draftProfile: Draft
    var savedProfiles: seq<Profile>
    var loading: bool
    var editingId: Option<string>

    /** `initialState`. */
    constructor ()
      ensures draftProfile == map[] && savedProfiles == [] && !loading && editingId == None
    {
      draftProfile := map[];
      savedProfiles := [];
      loading := false;
      editingId := None;
    }

    /** `updateDraft`: the payload's properties overwrite the draft's, the others stay. */
    method UpdateDraft(payload: Draft)
      modifies this
      ensures draftProfile == old(draftProfile) + payload
      ensures draftProfile.Keys == old(draftProfile).Keys + payload.Keys
      ensures forall k | k in draftProfile ::
        draftProfile[k] == if k in payload then payload[k] else old(draftProfile)[k]
      ensures savedProfiles == old(savedProfiles) && loading == old(loading) && editingId == old(editingId)
    {
      draftProfile := draftProfile + payload;
    }

    /** `clearDraft`. */
    method ClearDraft()
      modifies this
      ensures draftProfile == map[] && editingId == None
      ensures savedProfiles == old(savedProfiles) && loading == old(loading)
    {
      draftProfile := map[];
      editingId := None;
    }

    /** `cancelEditing`. */
    method CancelEditing()
      modifies this
      ensures draftProfile == map[] && editingId == None
      ensures savedProfiles == old(savedProfiles) && loading == old(loading)
    {
      editingId := None;
      draftProfile := map[];
    }

    /**
     * `startEditing`: when a saved profile has the id, edit it and seed the
     * draft with a copy of all its properties; otherwise change nothing.
     */
    method StartEditing(id: string)
      modifies this
      ensures FindById(old(savedProfiles), id).Some? ==>
        var p := FindById(old(savedProfiles), id).value;
        editingId == Some(id) && draftProfile == DraftOf(p) && p in savedProfiles && p.id == id
      ensures FindById(old(savedProfiles), id).None? ==>
        editingId == old(editingId) && draftProfile == old(draftProfile)
      ensures savedProfiles == old(savedProfiles) && loading == old(loading)
    {
      var found := FindById(savedProfiles, id);
      if found.Some? {
        editingId := Some(found.value.id);
        draftProfile := DraftOf(found.value);
      }
    }

    /** `loadProfiles` followed by its fulfilled case. */
    method LoadProfiles(storage: Storage)
      modifies this
      ensures savedProfiles == LoadedList(storage.slot)
      ensures draftProfile == old(draftProfile) && loading == old(loading) && editingId == old(editingId)
    {
      savedProfiles := LoadedList(storage.slot);
    }

    /** The pending case of `saveProfileAsync` and of `deleteProfileAsync`. */
    method MarkPending()
      modifies this
      ensures loading
      ensures draftProfile == old(draftProfile) && savedProfiles == old(savedProfiles) && editingId == old(editingId)
    {
      loading := true;
    }

    /** The rejected case of `saveProfileAsync` and of `deleteProfileAsync`. */
    method MarkRejected()
      modifies this
      ensures !loading
      ensures draftProfile == old(draftProfile) && savedProfiles == old(savedProfiles) && editingId == old(editingId)
    {
      loading := false;
    }

    /**
     * The body of `saveProfileAsync`: compute the new list from the current
     * state and write it to storage. The outcome of the write is a parameter;
     * a failed write rejects the thunk and leaves the slot as it was.
     */
    method SaveProfileThunk(profile: Profile, storage: Storage, writeSucceeds: bool)
      returns (result: Option<SavePayload>)
      modifies storage
      ensures writeSucceeds ==>
        storage.slot == Stored(SavedList(savedProfiles, editingId, profile))
        && result == Some(SavePayload(profile, editingId))
      ensures !writeSucceeds ==> storage.slot == old(storage.slot) && result == None
    {
      var updated := SavedList(savedProfiles, editingId, profile);
      if writeSucceeds {
        storage.slot := Stored(updated);
        result := Some(SavePayload(profile, editingId));
      } else {
        result := None;
      }
    }

    /**
     * The fulfilled case of `saveProfileAsync`: the same list the thunk
     * wrote, then the wizard session is reset.
     */
    method SaveFulfilled(payload: SavePayload)
      modifies this
      ensures savedProfiles == SavedList(old(savedProfiles), payload.editingId, payload.profile)
      ensures draftProfile == map[] && editingId == None && !loading
    {
      savedProfiles := SavedList(savedProfiles, payload.editingId, payload.profile);
      draftProfile := map[];
      editingId := None;
      loading := false;
    }

    /**
     * `dispatch(saveProfileAsync(profile))`, run as one step: pending, the
     * thunk, then fulfilled or rejected. On success memory and storage hold
     * the same list.
     */
    method SaveProfileAsync(profile: Profile, storage: Storage, writeSucceeds: bool) returns (fulfilled: bool)
      modifies this, storage
      ensures fulfilled == writeSucceeds && !loading
      ensures fulfilled ==>
        savedProfiles == SavedList(old(savedProfiles), old(editingId), profile)
        && storage.slot == Stored(savedProfiles)
        && draftProfile == map[] && editingId == None
      ensures !fulfilled ==>
        savedProfiles == old(savedProfiles) && storage.slot == old(storage.slot)
        && draftProfile == old(draftProfile) && editingId == old(editingId)
    {
      MarkPending();
      var result := SaveProfileThunk(profile, storage, writeSucceeds);
      if result.Some? {
        SaveFulfilled(result.value);
        fulfilled := true;
      } else {
        MarkRejected();
        fulfilled := false;
      }
    }

    /** The body of `deleteProfileAsync`: filter the current list and write it to storage. */
    method DeleteProfileThunk(id: string, storage: Storage, writeSucceeds: bool) returns (result: Option<string>)
      modifies storage
      ensures writeSucceeds ==> storage.slot == Stored(RemoveWhereId(savedProfiles, id)) && result == Some(id)
      ensures !writeSucceeds ==> storage.slot == old(storage.slot) && result == None
    {
      if writeSucceeds {
        storage.slot := Stored(RemoveWhereId(savedProfiles, id));
        result := Some(id);
      } else {
        result := None;
      }
    }

    /** The fulfilled case of `deleteProfileAsync`. */
    method DeleteFulfilled(id: string)
      modifies this
      ensures savedProfiles == RemoveWhereId(old(savedProfiles), id) && !loading
      ensures draftProfile == old(draftProfile) && editingId == old(editingId)
    {
      savedProfiles := RemoveWhereId(savedProfiles, id);
      loading := false;
    }

    /** `dispatch(deleteProfileAsync(id))`, run as one step. */
    method DeleteProfileAsync(id: string, storage: Storage, writeSucceeds: bool) returns (fulfilled: bool)
      modifies this, storage
      ensures fulfilled == writeSucceeds && !loading
      ensures fulfilled ==>
        savedProfiles == RemoveWhereId(old(savedProfiles), id) && storage.slot == Stored(savedProfiles)
      ensures !fulfilled ==> savedProfiles == old(savedProfiles) && storage.slot == old(storage.slot)
      ensures draftProfile == old(draftProfile) && editingId == old(editingId)
    {
      MarkPending();
      var result := DeleteProfileThunk(id, storage, writeSucceeds);
      if result.Some? {
        DeleteFulfilled(result.value);
        fulfilled := true;
      } else {
        MarkRejected();
        fulfilled := false;
      }
    }
  }
}
