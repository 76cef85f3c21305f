/**
 * The blocked-services tab: a catalogue of services, a locally edited working
 * list of enabled service ids, and a save that submits that list wholesale.
 */
module BlockedServices {
  import opened Outcomes
  import opened AdGuardService

  const FetchServicesError: string := "Failed to fetch blocked services. Please check your connection and credentials."
  const SaveServicesError: string := "Failed to save blocked services settings."

  // ---------------------------------------------------------------------------
  // The working-list toggle

  /** The working list with every occurrence of `x` filtered out, the rest kept in order. */
  function RemoveAll(s: seq<ServiceId>, x: ServiceId): (r: seq<ServiceId>)
    ensures x !in r
    ensures forall y :: y in r <==> y in s && y != x
    ensures |r| <= |s|
  {
    if s == [] then [] else (if s[0] == x then [] else [s[0]]) + RemoveAll(s[1..], x)
  }

  /** Removal takes out every copy of `x` and keeps the count of every other id. */
  lemma {:induction false} RemoveAllCounts(s: seq<ServiceId>, x: ServiceId)
    ensures multiset(RemoveAll(s, x)) == multiset(s)[x := 0]
  {
    if s != [] {
      RemoveAllCounts(s[1..], x);
      assert s == [s[0]] + s[1..];
      assert multiset(s) == multiset{s[0]} + multiset(s[1..]);
    }
  }

  /** Flips whether `x` is enabled: removes every occurrence if present, appends it otherwise. */
  function Toggle(s: seq<ServiceId>, x: ServiceId): (r: seq<ServiceId>)
    ensures x in r <==> x !in s
    ensures forall y :: y != x ==> (y in r <==> y in s)
  {
    if x in s then RemoveAll(s, x) else s + [x]
  }

  /** No service id occurs twice. */
  predicate NoDuplicates(s: seq<ServiceId>) {
    forall i, j :: 0 <= i < j < |s| ==> s[i] != s[j]
  }

  lemma {:induction false} RemoveAllAbsent(s: seq<ServiceId>, x: ServiceId)
    requires x !in s
    ensures RemoveAll(s, x) == s
  {
    if s != [] {
      RemoveAllAbsent(s[1..], x);
    }
  }

  lemma {:induction false} RemoveAllAppend(s: seq<ServiceId>, t: seq<ServiceId>, x: ServiceId)
    ensures RemoveAll(s + t, x) == RemoveAll(s, x) + RemoveAll(t, x)
  {
    if s == [] {
      assert s + t == t;
    } else {
      var head := if s[0] == x then [] else [s[0]];
      assert (s + t)[0] == s[0];
      assert (s + t)[1..] == s[1..] + t;
      assert RemoveAll(s + t, x) == head + RemoveAll(s[1..] + t, x);
      RemoveAllAppend(s[1..], t, x);
      assert RemoveAll(s, x) == head + RemoveAll(s[1..], x);
    }
  }

  lemma {:induction false} RemoveAllKeepsNoDuplicates(s: seq<ServiceId>, x: ServiceId)
    requires NoDuplicates(s)
    ensures NoDuplicates(RemoveAll(s, x))
  {
    if s != [] {
      var rest := RemoveAll(s[1..], x);
      RemoveAllKeepsNoDuplicates(s[1..], x);
      if s[0] != x {
        assert s[0] !in s[1..] by {
          forall j | 0 <= j < |s[1..]| ensures s[1..][j] != s[0] {
            assert s[1..][j] == s[j + 1];
          }
        }
        assert s[0] !in rest;
        var r := [s[0]] + rest;
        forall i, j | 0 <= i < j < |r| ensures r[i] != r[j] {
          if i == 0 {
            assert r[j] == rest[j - 1];
          } else {
            assert r[i] == rest[i - 1] && r[j] == rest[j - 1];
          }
        }
      }
    }
  }

  /** Toggling an id that is not in the list appends it at the end, so it is then a member. */
  lemma ToggleAbsentAppends(s: seq<ServiceId>, x: ServiceId)
    requires x !in s
    ensures Toggle(s, x) == s + [x]
    ensures x in Toggle(s, x) && Toggle(s, x)[|s|] == x
    ensures Toggle(s, x)[..|s|] == s
  {
  }

  /** Toggling an id that is in the list removes every occurrence of it and nothing else. */
  lemma TogglePresentRemoves(s: seq<ServiceId>, x: ServiceId)
    requires x in s
    ensures x !in Toggle(s, x)
    ensures multiset(Toggle(s, x)) == multiset(s)[x := 0]
    ensures |Toggle(s, x)| == |s| - multiset(s)[x]
  {
    var r := Toggle(s, x);
    RemoveAllCounts(s, x);
    assert multiset(s) == multiset(r) + multiset{}[x := multiset(s)[x]];
  }

  /**
   * Toggling `x` leaves every other id as it was: the list read without `x`
   * is the same list, in the same order and with the same repetitions.
   */
  lemma ToggleKeepsOthers(s: seq<ServiceId>, x: ServiceId)
    ensures RemoveAll(Toggle(s, x), x) == RemoveAll(s, x)
  {
    if x in s {
      RemoveAllAbsent(RemoveAll(s, x), x);
    } else {
      RemoveAllAppend(s, [x], x);
      assert RemoveAll([x], x) == [];
    }
  }

  /** Toggling an absent id twice, on then off, restores the original list exactly. */
  lemma ToggleTwiceRestores(s: seq<ServiceId>, x: ServiceId)
    requires x !in s
    ensures Toggle(Toggle(s, x), x) == s
  {
    RemoveAllAppend(s, [x], x);
    RemoveAllAbsent(s, x);
    assert RemoveAll([x], x) == [];
  }

  /**
   * Toggling any id twice restores membership; when `x` was in the list, all
   * its copies collapse into a single `x` at the end.
   */
  lemma ToggleTwiceMembership(s: seq<ServiceId>, x: ServiceId)
    ensures forall y :: y in Toggle(Toggle(s, x), x) <==> y in s
    ensures x in s ==> Toggle(Toggle(s, x), x) == RemoveAll(s, x) + [x]
  {
    if x !in s {
      ToggleTwiceRestores(s, x);
    }
  }

  /** A toggle keeps a duplicate-free working list duplicate-free. */
  lemma ToggleKeepsNoDuplicates(s: seq<ServiceId>, x: ServiceId)
    requires NoDuplicates(s)
    ensures NoDuplicates(Toggle(s, x))
  {
    if x in s {
      RemoveAllKeepsNoDuplicates(s, x);
    } else {
      var r := s + [x];
      forall i, j | 0 <= i < j < |r| ensures r[i] != r[j] {
        if j == |s| {
          assert r[i] == s[i];
        }
      }
    }
  }

  // ---------------------------------------------------------------------------
  // The tab's state

  /**
   * Whether the initial load installs the two lists: both reads must resolve
   * and the catalogue response must not be null; a rejection of either read
   * means failure.
   */
  predicate LoadSucceeds(all: Outcome<Option<BlockedServicesResponse>>, enabled: Outcome<Option<seq<ServiceId>>>)
    ensures LoadSucceeds(all, enabled) <==> all.Ok? && enabled.Ok? && all.value.Some?
    ensures all.Fail? || enabled.Fail? ==> !LoadSucceeds(all, enabled)
  {
    // Reading `blocked_services` off a null catalogue response throws inside the `try`.
    Both(all, enabled).Ok? && all.value.Some?
  }

  class BlockedServicesTab {
    var allServices: seq<BlockedService>
    var enabledServices: seq<ServiceId>
    var loading: bool
    var error: Option<string>
    var saving: bool
    var saveSuccess: bool

    /** The component's initial state, before its first load. */
    constructor ()
      ensures allServices == [] && enabledServices == []
      ensures loading && error == None && !saving && !saveSuccess
    {
      allServices, enabledServices := [], [];
      loading, error, saving, saveSuccess := true, None, false, false;
    }

    /** The load up to its await: show the spinner, clear the error, issue the two reads. */
    method StartLoad() returns (requests: seq<Request>)
      modifies this
      ensures requests == [GetBlockedServices(), GetEnabledBlockedServices()]
      ensures loading && error == None
      ensures allServices == old(allServices) && enabledServices == old(enabledServices)
      ensures saving == old(saving) && saveSuccess == old(saveSuccess)
    {
      loading := true;
      error := None;
      requests := [GetBlockedServices(), GetEnabledBlockedServices()];
    }

    /**
     * The load after its await. Both lists are installed only when both reads
     * succeed (a missing list reads as empty); otherwise neither list changes
     * and the fetch error is shown. The spinner stops in every case.
     */
    method FinishLoad(all: Outcome<Option<BlockedServicesResponse>>, enabled: Outcome<Option<seq<ServiceId>>>)
      modifies this
      ensures !loading
      ensures LoadSucceeds(all, enabled) ==>
        allServices == all.value.value.blockedServices.GetOr([]) &&
        enabledServices == enabled.value.GetOr([]) &&
        error == old(error)
      ensures !LoadSucceeds(all, enabled) ==>
        allServices == old(allServices) && enabledServices == old(enabledServices) &&
        error == Some(FetchServicesError)
      ensures saving == old(saving) && saveSuccess == old(saveSuccess)
    {
      match Both(all, enabled) {
        case Ok((allData, enabledData)) =>
          if allData.Some? {
            allServices := allData.value.blockedServices.GetOr([]);
            enabledServices := enabledData.GetOr([]);
          } else {
            error := Some(FetchServicesError);
          }
        case Fail =>
          error := Some(FetchServicesError);
      }
      loading := false;
    }

    /** The whole initial load, with the two reads settling as `all` and `enabled`. */
    method FetchData(all: Outcome<Option<BlockedServicesResponse>>, enabled: Outcome<Option<seq<ServiceId>>>)
      returns (requests: seq<Request>)
      modifies this
      ensures requests == [GetBlockedServices(), GetEnabledBlockedServices()]
      ensures !loading
      ensures LoadSucceeds(all, enabled) ==>
        allServices == all.value.value.blockedServices.GetOr([]) &&
        enabledServices == enabled.value.GetOr([]) &&
        error == None
      ensures !LoadSucceeds(all, enabled) ==>
        allServices == old(allServices) && enabledServices == old(enabledServices) &&
        error == Some(FetchServicesError)
      ensures saving == old(saving) && saveSuccess == old(saveSuccess)
    {
      requests := StartLoad();
      FinishLoad(all, enabled);
    }

    /** A checkbox change: only the working list changes. */
    method HandleToggleService(serviceId: ServiceId)
      modifies this
      ensures enabledServices == Toggle(old(enabledServices), serviceId)
      ensures allServices == old(allServices) && loading == old(loading) && error == old(error)
      ensures saving == old(saving) && saveSuccess == old(saveSuccess)
    {
      enabledServices := Toggle(enabledServices, serviceId);
    }

    /** The save up to its await: mark it in flight, clear both indicators, submit the working list. */
    method StartSave() returns (sent: Request)
      modifies this
      ensures sent == SetBlockedServices(enabledServices)
      ensures InstalledServices(sent) == Some(enabledServices)
      ensures saving && !saveSuccess && error == None
      ensures allServices == old(allServices) && enabledServices == old(enabledServices) && loading == old(loading)
    {
      saving := true;
      saveSuccess := false;
      error := None;
      sent := SetBlockedServices(enabledServices);
      SetBlockedServicesInstalls(enabledServices);
    }

    /** The save after its await: report the outcome; the working list stays as it is for a retry. */
    method FinishSave(outcome: Outcome<()>)
      modifies this
      ensures !saving
      ensures outcome.Ok? ==> saveSuccess && error == old(error)
      ensures outcome.Fail? ==> saveSuccess == old(saveSuccess) && error == Some(SaveServicesError)
      ensures allServices == old(allServices) && enabledServices == old(enabledServices) && loading == old(loading)
    {
      if outcome.Ok? {
        saveSuccess := true;
      } else {
        error := Some(SaveServicesError);
      }
      saving := false;
    }

    /**
     * The whole save, with the upstream call settling as `outcome`: exactly the
     * working list is submitted, the working list is left untouched, and the
     * indicators end as success-and-no-error or no-success-and-the-save-error.
     */
    method HandleSaveChanges(outcome: Outcome<()>) returns (sent: Request)
      modifies this
      ensures InstalledServices(sent) == Some(old(enabledServices))
      ensures sent == SetBlockedServices(old(enabledServices))
      ensures !saving
      ensures outcome.Ok? ==> saveSuccess && error == None
      ensures outcome.Fail? ==> !saveSuccess && error == Some(SaveServicesError)
      ensures allServices == old(allServices) && enabledServices == old(enabledServices) && loading == old(loading)
    {
      sent := StartSave();
      FinishSave(outcome);
    }
  }
}
