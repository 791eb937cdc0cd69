/** The business-profile provider: the list of the signed-in user's business
    profiles, which one is selected, and whether the list is still loading.
    The live query on the user's profile collection is left out; each of its
    callbacks is a method here that receives what the query delivered. */
module ProfileContext {
  import opened Common

  /** One business profile as the provider keeps it. */
  datatype BusinessProfile = BusinessProfile(id: string, businessName: string)

  /** `list.find(p => p.id === id)`: the first profile with that id, if any. */
  function FindById(list: seq<BusinessProfile>, id: string): (r: Option<BusinessProfile>)
    ensures r.None? <==> forall i :: 0 <= i < |list| ==> list[i].id != id
    ensures r.Some? ==> r.value.id == id
    ensures r.Some? ==>
      exists i :: 0 <= i < |list| && list[i] == r.value && forall j :: 0 <= j < i ==> list[j].id != id
  {
    if list == [] then None
    else if list[0].id == id then Some(list[0])
    else
      var r := FindById(list[1..], id);
      assert r.Some? ==> exists i :: 1 <= i < |list| && list[i] == r.value && forall j :: 0 <= j < i ==> list[j].id != id by {
        if r.Some? {
          var k :| 0 <= k < |list[1..]| && list[1..][k] == r.value && forall j :: 0 <= j < k ==> list[1..][j].id != id;
          assert forall j :: 1 <= j < k + 1 ==> list[j] == list[1..][j - 1];
        }
      }
      r
  }

  /** The selection rule applied when a fresh list arrives: the first profile
      when the list is non-empty and the previous selection is missing or no
      longer listed, nothing when the list is empty, the previous selection
      otherwise. */
  function Reconcile(previous: Option<BusinessProfile>, list: seq<BusinessProfile>): Option<BusinessProfile>
  {
    if |list| > 0 && (previous.None? || FindById(list, previous.value.id).None?) then Some(list[0])
    else if |list| == 0 then None
    else previous
  }

  /** The selection is consistent with the list: nothing is selected for an
      empty list, and otherwise the selected profile's id is one of the listed ids. */
  ghost predicate SelectionListed(list: seq<BusinessProfile>, selected: Option<BusinessProfile>)
  {
    (|list| == 0 ==> selected.None?) &&
    (|list| > 0 ==> selected.Some? && exists i :: 0 <= i < |list| && list[i].id == selected.value.id)
  }

  /** After any fresh list the selection is consistent with it. */
  lemma ReconcileListed(previous: Option<BusinessProfile>, list: seq<BusinessProfile>)
    ensures SelectionListed(list, Reconcile(previous, list))
  {
    var r := Reconcile(previous, list);
    if |list| > 0 && r == previous {
      var found := FindById(list, previous.value.id);
      var i :| 0 <= i < |list| && list[i] == found.value;
      assert list[i].id == r.value.id;
    }
  }

  /** A missing selection, or one whose id is no longer listed, falls back to the first profile. */
  lemma ReconcileFallsBack(previous: Option<BusinessProfile>, list: seq<BusinessProfile>)
    requires |list| > 0
    requires previous.None? || forall i :: 0 <= i < |list| ==> list[i].id != previous.value.id
    ensures Reconcile(previous, list) == Some(list[0])
  {
  }

  /** A selection whose id is still listed is kept exactly as it was (even if its
      listed name has changed). */
  lemma ReconcileKeeps(previous: BusinessProfile, list: seq<BusinessProfile>, i: nat)
    requires i < |list| && list[i].id == previous.id
    ensures Reconcile(Some(previous), list) == Some(previous)
  {
  }

  /** An empty list clears the selection. */
  lemma ReconcileEmpty(previous: Option<BusinessProfile>)
    ensures Reconcile(previous, []) == None
  {
  }

  /** Delivering the same list twice selects the same profile as delivering it once. */
  lemma ReconcileIdempotent(previous: Option<BusinessProfile>, list: seq<BusinessProfile>)
    ensures Reconcile(Reconcile(previous, list), list) == Reconcile(previous, list)
  {
    var r := Reconcile(previous, list);
    if |list| > 0 {
      ReconcileListed(previous, list);
      var i :| 0 <= i < |list| && list[i].id == r.value.id;
      ReconcileKeeps(r.value, list, i);
    }
  }

  /** The provider's state: the three state slots of the component. */
  class ProfileProvider {
    var profiles: seq<BusinessProfile>
    var selectedProfile: Option<BusinessProfile>
    var loading: bool

    /** Initially no profiles, nothing selected, and loading. */
    constructor ()
      ensures profiles == [] && selectedProfile == None && loading
    {
      profiles := [];
      selectedProfile := None;
      loading := true;
    }

    /** The effect's branch for a signed-out user: everything is cleared and
        loading ends. */
    method SignedOut()
      modifies this
      ensures profiles == [] && selectedProfile == None && !loading
      ensures SelectionListed(profiles, selectedProfile)
    {
      profiles := [];
      selectedProfile := None;
      loading := false;
    }

    /** The query's snapshot callback: the list is replaced by the snapshot in
        snapshot order, the selection is reconciled with it, and loading ends. */
    method OnSnapshot(docs: seq<BusinessProfile>)
      modifies this
      ensures profiles == docs
      ensures selectedProfile == Reconcile(old(selectedProfile), docs)
      ensures SelectionListed(profiles, selectedProfile)
      ensures !loading
    {
      profiles := docs;
      if |docs| > 0 && (selectedProfile.None? || FindById(docs, selectedProfile.value.id).None?) {
        selectedProfile := Some(docs[0]);
      } else if |docs| == 0 {
        selectedProfile := None;
      }
      loading := false;
      ReconcileListed(old(selectedProfile), docs);
    }

    /** The query's error callback: only loading ends. */
    method OnError()
      modifies this
      ensures profiles == old(profiles) && selectedProfile == old(selectedProfile)
      ensures !loading
    {
      loading := false;
    }

    /** `switchProfile(profile)`: the selection becomes exactly `profile`,
        whether or not it is listed yet. */
    method SwitchProfile(profile: BusinessProfile)
      modifies this
      ensures selectedProfile == Some(profile)
      ensures profiles == old(profiles) && loading == old(loading)
    {
      selectedProfile := Some(profile);
    }
  }

  /** `useProfile()`: the provider's value, or the error thrown when the hook is
      used outside a provider. */
  function UseProfile(context: Option<ProfileProvider>): (r: Result<ProfileProvider>)
    ensures r.Failure? <==> context.None?
    ensures context.Some? ==> r.value == context.value
  {
    match context
    case None => Failure("useProfile must be used within a ProfileProvider")
    case Some(provider) => Success(provider)
  }

  /** The hook's error path carries the provider's error message. */
  lemma UseProfileOutsideProvider()
    ensures UseProfile(None) == Failure("useProfile must be used within a ProfileProvider")
  {
  }
}
