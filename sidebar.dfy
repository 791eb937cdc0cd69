/** The dashboard sidebar's business-profile section: the "add new profile"
    dialog with its name guard, and the list of the other profiles the user can
    switch to. The document write is left out; its result is a parameter. */
module Sidebar {
  import opened Common
  import opened ProfileContext

  /** What the document store's add returned: the new document's id, or a thrown error. */
  datatype AddDocOutcome = Added(docId: string) | AddFailed

  /** The creation time the handler stores: the document store's server-timestamp
      sentinel, which the store replaces by its own clock when it applies the write. */
  datatype Timestamp = ServerTimestamp

  /** The document the handler writes: the collection it goes to, the name
      stored and the creation time. */
  datatype ProfileWrite = ProfileWrite(collection: string, businessName: string, createdAt: Timestamp)

  /** The toast the handler leaves on screen. */
  datatype Toast = ToastSuccess(text: string) | ToastError(text: string)

  const EmptyNameMessage := "Business name cannot be empty."
  const CreatedMessage := "Profile created!"
  const FailedMessage := "Failed to create profile."

  /** The collection holding a user's business profiles. */
  function ProfilesCollection(uid: string): string
  {
    "users/" + uid + "/businessProfiles"
  }

  /** `profiles.filter(profile => profile.id !== selectedProfile?.id)`: with no
      selection the id compared against is undefined, which no id equals. */
  function OtherProfiles(profiles: seq<BusinessProfile>, selected: Option<BusinessProfile>): (r: seq<BusinessProfile>)
    ensures |r| <= |profiles|
    ensures forall p :: p in r <==> p in profiles && (selected.None? || p.id != selected.value.id)
  {
    if profiles == [] then []
    else if selected.Some? && profiles[0].id == selected.value.id then OtherProfiles(profiles[1..], selected)
    else [profiles[0]] + OtherProfiles(profiles[1..], selected)
  }

  /** The switch list as rendered: nothing while loading or with at most one
      profile, the other profiles otherwise. */
  function ShownOtherProfiles(loading: bool, profiles: seq<BusinessProfile>, selected: Option<BusinessProfile>): seq<BusinessProfile>
  {
    if !loading && |profiles| > 1 then OtherProfiles(profiles, selected) else []
  }

  /** The create button is disabled while the trimmed name is empty or a creation
      is under way. */
  predicate CreateDisabled(newBusinessName: string, isCreatingProfile: bool)
  {
    Trim(newBusinessName) == [] || isCreatingProfile
  }

  /** Document ids within one collection are distinct. */
  ghost predicate UniqueIds(profiles: seq<BusinessProfile>)
  {
    forall i, j :: 0 <= i < j < |profiles| ==> profiles[i].id != profiles[j].id
  }

  /** The filter works element by element: filtering a concatenation
      concatenates the filtered parts, so list order is kept. */
  lemma {:induction false} OtherProfilesAppend(a: seq<BusinessProfile>, b: seq<BusinessProfile>, selected: Option<BusinessProfile>)
    ensures OtherProfiles(a + b, selected) == OtherProfiles(a, selected) + OtherProfiles(b, selected)
  {
    if a == [] {
      assert a + b == b;
    } else {
      assert (a + b)[0] == a[0];
      assert (a + b)[1..] == a[1..] + b;
      OtherProfilesAppend(a[1..], b, selected);
    }
  }

  /** A single profile is kept exactly when its id differs from the selected id
      (always, with no selection). With OtherProfilesAppend this determines the
      filter on every list. */
  lemma OtherProfilesSingle(p: BusinessProfile, selected: Option<BusinessProfile>)
    ensures OtherProfiles([p], selected) == if selected.None? || p.id != selected.value.id then [p] else []
  {
    assert [p][1..] == [];
  }

  /** Without a selection every profile is offered, in list order. */
  lemma {:induction false} OtherProfilesNoSelection(profiles: seq<BusinessProfile>)
    ensures OtherProfiles(profiles, None) == profiles
  {
    if profiles != [] {
      OtherProfilesNoSelection(profiles[1..]);
    }
  }

  /** With distinct ids and the selected profile's id listed, exactly one
      profile (the selected one) is left out. */
  lemma {:induction false} OtherProfilesDropsOne(profiles: seq<BusinessProfile>, selected: BusinessProfile, k: nat)
    requires UniqueIds(profiles)
    requires k < |profiles| && profiles[k].id == selected.id
    ensures |OtherProfiles(profiles, Some(selected))| == |profiles| - 1
  {
    if k == 0 {
      OtherProfilesKeepsAll(profiles[1..], selected);
    } else {
      OtherProfilesDropsOne(profiles[1..], selected, k - 1);
    }
  }

  /** A list that does not contain the selected id is kept whole. */
  lemma {:induction false} OtherProfilesKeepsAll(profiles: seq<BusinessProfile>, selected: BusinessProfile)
    requires forall i :: 0 <= i < |profiles| ==> profiles[i].id != selected.id
    ensures OtherProfiles(profiles, Some(selected)) == profiles
  {
    if profiles != [] {
      OtherProfilesKeepsAll(profiles[1..], selected);
    }
  }

  /** The rendered switch list never offers the selected profile's id, and is
      empty unless there are at least two profiles. */
  lemma ShownOtherProfilesExcludesSelected(loading: bool, profiles: seq<BusinessProfile>, selected: BusinessProfile)
    ensures forall p :: p in ShownOtherProfiles(loading, profiles, Some(selected)) ==> p.id != selected.id
    ensures |profiles| <= 1 || loading ==> ShownOtherProfiles(loading, profiles, Some(selected)) == []
  {
  }

  /** For any selection, or none: once loading is over and there are at least
      two profiles, the rendered list is the filtered list; otherwise nothing. */
  lemma ShownOtherProfilesCases(loading: bool, profiles: seq<BusinessProfile>, selected: Option<BusinessProfile>)
    ensures !loading && |profiles| > 1 ==> ShownOtherProfiles(loading, profiles, selected) == OtherProfiles(profiles, selected)
    ensures loading || |profiles| <= 1 ==> ShownOtherProfiles(loading, profiles, selected) == []
  {
  }

  /** The button is disabled exactly for a name made only of whitespace, or while creating. */
  lemma CreateDisabledIff(newBusinessName: string, isCreatingProfile: bool)
    ensures CreateDisabled(newBusinessName, isCreatingProfile) <==> AllWhiteSpace(newBusinessName) || isCreatingProfile
  {
    TrimEmptyIff(newBusinessName);
  }

  /** The sidebar's state slots for the add-profile dialog, and the provider
      whose `switchProfile` it calls. */
  class ProfileSwitcher {
    const provider: ProfileProvider
    var isAddProfileModalOpen: bool
    var newBusinessName: string
    var isCreatingProfile: bool

    /** The dialog closed, the name empty, no creation under way. */
    constructor (provider: ProfileProvider)
      ensures this.provider == provider
      ensures !isAddProfileModalOpen && newBusinessName == "" && !isCreatingProfile
    {
      this.provider := provider;
      isAddProfileModalOpen := false;
      newBusinessName := "";
      isCreatingProfile := false;
    }

    /** "Add new profile" opens the dialog. */
    method OpenAddProfileModal()
      modifies this
      ensures isAddProfileModalOpen
      ensures newBusinessName == old(newBusinessName) && isCreatingProfile == old(isCreatingProfile)
    {
      isAddProfileModalOpen := true;
    }

    /** Typing in the name field. */
    method SetNewBusinessName(name: string)
      modifies this
      ensures newBusinessName == name
      ensures isAddProfileModalOpen == old(isAddProfileModalOpen) && isCreatingProfile == old(isCreatingProfile)
    {
      newBusinessName := name;
    }

    /** The close button and "Cancel": the dialog closes and the name is cleared. */
    method CancelAddProfile()
      modifies this
      ensures !isAddProfileModalOpen && newBusinessName == ""
      ensures isCreatingProfile == old(isCreatingProfile)
    {
      isAddProfileModalOpen := false;
      newBusinessName := "";
    }

    /** `handleAddProfile`, for the signed-in user's id `user` (None when signed
        out) and the add's outcome. A blank name or a missing user only shows
        the empty-name toast. Otherwise the trimmed name is written; on success
        the new profile is selected, the name cleared and the dialog closed; on
        failure the dialog and name stay. Either way creation ends. */
    method HandleAddProfile(user: Option<string>, outcome: AddDocOutcome) returns (write: Option<ProfileWrite>, toast: Toast)
      modifies this, provider
      ensures provider.profiles == old(provider.profiles) && provider.loading == old(provider.loading)
      ensures Trim(old(newBusinessName)) == [] || user.None? ==>
        && write == None && toast == ToastError(EmptyNameMessage)
        && newBusinessName == old(newBusinessName)
        && isAddProfileModalOpen == old(isAddProfileModalOpen)
        && isCreatingProfile == old(isCreatingProfile)
        && provider.selectedProfile == old(provider.selectedProfile)
      ensures Trim(old(newBusinessName)) != [] && user.Some? ==>
        && write == Some(ProfileWrite(ProfilesCollection(user.value), Trim(old(newBusinessName)), ServerTimestamp))
        && !isCreatingProfile
      ensures Trim(old(newBusinessName)) != [] && user.Some? && outcome.Added? ==>
        && provider.selectedProfile == Some(BusinessProfile(outcome.docId, Trim(old(newBusinessName))))
        && newBusinessName == "" && !isAddProfileModalOpen
        && toast == ToastSuccess(CreatedMessage)
      ensures Trim(old(newBusinessName)) != [] && user.Some? && outcome.AddFailed? ==>
        && provider.selectedProfile == old(provider.selectedProfile)
        && newBusinessName == old(newBusinessName) && isAddProfileModalOpen == old(isAddProfileModalOpen)
        && toast == ToastError(FailedMessage)
    {
      var name := Trim(newBusinessName);
      if name == [] || user.None? {
        write, toast := None, ToastError(EmptyNameMessage);
        return;
      }
      write := Some(ProfileWrite(ProfilesCollection(user.value), name, ServerTimestamp));
      toast := CreateProfile(name, outcome);
    }

    /** The part of `handleAddProfile` after the guard: creation is under way
        while the add runs; success selects the new profile, clears the name
        and closes the dialog; failure keeps them; creation then ends. */
    method CreateProfile(name: string, outcome: AddDocOutcome) returns (toast: Toast)
      modifies this, provider
      ensures provider.profiles == old(provider.profiles) && provider.loading == old(provider.loading)
      ensures !isCreatingProfile
      ensures outcome.Added? ==>
        && provider.selectedProfile == Some(BusinessProfile(outcome.docId, name))
        && newBusinessName == "" && !isAddProfileModalOpen
        && toast == ToastSuccess(CreatedMessage)
      ensures outcome.AddFailed? ==>
        && provider.selectedProfile == old(provider.selectedProfile)
        && newBusinessName == old(newBusinessName) && isAddProfileModalOpen == old(isAddProfileModalOpen)
        && toast == ToastError(FailedMessage)
    {
      isCreatingProfile := true;
      if outcome.Added? {
        provider.SwitchProfile(BusinessProfile(outcome.docId, name));
        toast := ToastSuccess(CreatedMessage);
        newBusinessName := "";
        isAddProfileModalOpen := false;
      } else {
        toast := ToastError(FailedMessage);
      }
      isCreatingProfile := false;
    }
  }
}
