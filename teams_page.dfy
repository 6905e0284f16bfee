/** The teams page: `fetchTeamsData`, which shuffles the cached team list and
    picks what to show, and the page state that pages through the list. */
module TeamsPage {
  import opened Wrappers
  import opened Seqs
  import opened Teams

  /** The avatar cache: team number to avatar, `None` for `null`. */
  type Avatars = map<nat, Option<string>>

  /** The two local-storage entries the page reads: the team list and the
      avatar cache, each absent until written. */
  datatype Storage = Storage(teams: Option<seq<Team>>, avatars: Option<Avatars>)

  /** `teamsData.sort(...)` throws when the team list is absent. */
  datatype FetchError = TeamsCacheMissing

  /** What a fetch returns: the teams to show and the avatars, plus the avatar
      cache it wrote to storage, if it fetched the avatars. */
  datatype Fetched = Fetched(teams: seq<Team>, avatars: Avatars, stored: Option<Avatars>)

  const ItemsPerPage: nat := 50

  // ---------------------------------------------------------------------------
  // The shuffle

  /** Exchanges positions `i` and `j` when both are in range. */
  function Swapped<T>(s: seq<T>, i: nat, j: nat): (r: seq<T>)
    ensures |r| == |s|
  {
    if i < |s| && j < |s| then s[i := s[j]][j := s[i]] else s
  }

  /** The order a random-comparator sort leaves: the list permuted by the
      exchanges `swaps`, which stand for the random choices. */
  function ApplySwaps<T>(s: seq<T>, swaps: seq<(nat, nat)>): (r: seq<T>)
    ensures |r| == |s|
    decreases |swaps|
  {
    if swaps == [] then s else ApplySwaps(Swapped(s, swaps[0].0, swaps[0].1), swaps[1..])
  }

  lemma SwappedPermutes<T>(s: seq<T>, i: nat, j: nat)
    ensures multiset(Swapped(s, i, j)) == multiset(s)
  {
  }

  /** The shuffled list holds the same teams, each as often, as the cached one. */
  lemma {:induction false} ApplySwapsPermutes<T>(s: seq<T>, swaps: seq<(nat, nat)>)
    ensures multiset(ApplySwaps(s, swaps)) == multiset(s)
    decreases |swaps|
  {
    if swaps != [] {
      SwappedPermutes(s, swaps[0].0, swaps[0].1);
      ApplySwapsPermutes(Swapped(s, swaps[0].0, swaps[0].1), swaps[1..]);
    }
  }

  /** `teamsData.sort(() => Math.random() - 0.5)`: permutes the array in place. */
  method Shuffle(a: array<Team>, swaps: seq<(nat, nat)>)
    modifies a
    ensures a[..] == ApplySwaps(old(a[..]), swaps)
  {
    var k := 0;
    while k < |swaps|
      invariant 0 <= k <= |swaps|
      invariant ApplySwaps(a[..], swaps[k..]) == ApplySwaps(old(a[..]), swaps)
    {
      ghost var before := a[..];
      var i, j := swaps[k].0, swaps[k].1;
      if i < a.Length && j < a.Length {
        var t := a[i];
        a[i] := a[j];
        a[j] := t;
      }
      assert a[..] == Swapped(before, i, j);
      assert swaps[k..][0] == (i, j) && swaps[k..][1..] == swaps[k + 1..];
      k := k + 1;
    }
  }

  // ---------------------------------------------------------------------------
  // fetchTeamsData

  /** `teamNumberInRange(team_number, range)` filter; `inRange` stands for
      that helper. */
  function InRangeTeams(ts: seq<Team>, range: string, inRange: (nat, string) -> bool): (r: seq<Team>)
    ensures IsSubsequence(r, ts)
    ensures forall t :: t in r <==> t in ts && inRange(t.number, range)
    ensures forall t {:trigger multiset(r)[t]} :: multiset(r)[t] == if inRange(t.number, range) then multiset(ts)[t] else 0
  {
    FilterIsSubsequence(ts, (t: Team) => inRange(t.number, range));
    FilterCounts(ts, (t: Team) => inRange(t.number, range));
    Filter(ts, (t: Team) => inRange(t.number, range))
  }

  /** The avatars fetched for `slice`: each team's number mapped to what the
      avatar request returns for it. */
  function AvatarMap(slice: seq<Team>, fetchAvatar: nat -> Option<string>): (m: Avatars)
    ensures m.Keys == set t | t in slice :: t.number
    ensures forall n :: n in m ==> m[n] == fetchAvatar(n)
    decreases |slice|
  {
    if slice == [] then map[]
    else
      var last := slice[|slice| - 1];
      AvatarMap(slice[..|slice| - 1], fetchAvatar)[last.number := fetchAvatar(last.number)]
  }

  /** The choice made when both caches are present: the window of the
      matching teams for a search term, else every team in the number range,
      else the first 50 teams. All of them read the shuffled list. */
  function CachedSelection(sorted: seq<Team>, startIndex: nat, endIndex: nat, teamNumberRange: string,
                           searchTerm: string, inRange: (nat, string) -> bool): seq<Team>
  {
    if searchTerm != "" then Slice(MatchingTeams(sorted, searchTerm), startIndex, endIndex)
    else if teamNumberRange != "" then InRangeTeams(sorted, teamNumberRange, inRange)
    else Slice(sorted, 0, ItemsPerPage)
  }

  /** The outcome of `fetchTeamsData`: `swaps` is the shuffle, `inRange` the
      range helper and `fetchAvatar` the avatar request. */
  function FetchTeams(storage: Storage, startIndex: nat, endIndex: nat, teamNumberRange: string, searchTerm: string,
                      swaps: seq<(nat, nat)>, inRange: (nat, string) -> bool,
                      fetchAvatar: nat -> Option<string>): (r: Result<Fetched, FetchError>)
    ensures r.Failure? <==> storage.teams.None?
    ensures r.Success? ==> (r.value.stored.Some? <==> storage.avatars.None?)
  {
    match storage.teams
    case None => Failure(TeamsCacheMissing)
    case Some(cached) =>
      var sorted := ApplySwaps(cached, swaps);
      var slice := Slice(sorted, startIndex, endIndex);
      match storage.avatars
      case Some(avatars) =>
        Success(Fetched(CachedSelection(sorted, startIndex, endIndex, teamNumberRange, searchTerm, inRange), avatars, None))
      case None =>
        var fetched := AvatarMap(slice, fetchAvatar);
        Success(Fetched(if teamNumberRange != "" then InRangeTeams(slice, teamNumberRange, inRange) else slice,
                        fetched, Some(fetched)))
  }

  /** The avatar requests for the window, one per team, each answer stored
      under the team's number. */
  method FetchAvatars(slice: seq<Team>, fetchAvatar: nat -> Option<string>) returns (teamAvatars: Avatars)
    ensures teamAvatars == AvatarMap(slice, fetchAvatar)
  {
    teamAvatars := map[];
    var k := 0;
    while k < |slice|
      invariant 0 <= k <= |slice|
      invariant teamAvatars == AvatarMap(slice[..k], fetchAvatar)
    {
      var team := slice[k];
      assert slice[..k + 1][..k] == slice[..k];
      teamAvatars := teamAvatars[team.number := fetchAvatar(team.number)];
      k := k + 1;
    }
    assert slice[..k] == slice;
  }

  /** `fetchTeamsData(startIndex, endIndex, teamNumberRange, searchTerm)`:
      reads the cached list into a fresh array, shuffles that array in place
      (so `sortedTeams` and `teamsData` are one array), and either selects from
      it or fetches the avatars of the window. */
  method FetchTeamsData(storage: Storage, startIndex: nat, endIndex: nat, teamNumberRange: string, searchTerm: string,
                        swaps: seq<(nat, nat)>, inRange: (nat, string) -> bool, fetchAvatar: nat -> Option<string>)
    returns (result: Result<Fetched, FetchError>)
    ensures result == FetchTeams(storage, startIndex, endIndex, teamNumberRange, searchTerm, swaps, inRange, fetchAvatar)
  {
    if storage.teams.None? {
      return Failure(TeamsCacheMissing);
    }
    var cached := storage.teams.value;
    var teamsData := new Team[|cached|](i requires 0 <= i < |cached| => cached[i]);
    assert teamsData[..] == cached;
    Shuffle(teamsData, swaps);
    var teamsSlice := Slice(teamsData[..], startIndex, endIndex);
    if storage.avatars.Some? {
      var teams := CachedSelection(teamsData[..], startIndex, endIndex, teamNumberRange, searchTerm, inRange);
      return Success(Fetched(teams, storage.avatars.value, None));
    }
    var teamAvatars := FetchAvatars(teamsSlice, fetchAvatar);
    var teams := if teamNumberRange != "" then InRangeTeams(teamsSlice, teamNumberRange, inRange) else teamsSlice;
    return Success(Fetched(teams, teamAvatars, Some(teamAvatars)));
  }

  /** Without the team list the fetch fails, whatever else is cached. */
  lemma MissingTeamsFails(avatars: Option<Avatars>, startIndex: nat, endIndex: nat, range: string, term: string,
                          swaps: seq<(nat, nat)>, inRange: (nat, string) -> bool, fetchAvatar: nat -> Option<string>)
    ensures FetchTeams(Storage(None, avatars), startIndex, endIndex, range, term, swaps, inRange, fetchAvatar)
      == Failure(TeamsCacheMissing)
  {
  }

  /** With both caches and a search term: the [startIndex, endIndex) window
      of the cached teams that match the term, taken from the shuffled list. */
  lemma SearchTermBranch(cached: seq<Team>, avatars: Avatars, startIndex: nat, endIndex: nat, range: string,
                         term: string, swaps: seq<(nat, nat)>, inRange: (nat, string) -> bool,
                         fetchAvatar: nat -> Option<string>)
    requires term != ""
    ensures var r := FetchTeams(Storage(Some(cached), Some(avatars)), startIndex, endIndex, range, term, swaps, inRange, fetchAvatar);
      var m := |MatchingTeams(cached, term)|;
      r.Success? && r.value.avatars == avatars &&
      |r.value.teams| == (if startIndex < Min(endIndex, m) then Min(endIndex, m) - startIndex else 0) &&
      multiset(r.value.teams) <= multiset(MatchingTeams(cached, term))
  {
    var sorted := ApplySwaps(cached, swaps);
    var matching := MatchingTeams(sorted, term);
    ApplySwapsPermutes(cached, swaps);
    FilterPermutation(sorted, cached, t => MatchesSearch(t, term));
    assert |matching| == |multiset(matching)| == |multiset(MatchingTeams(cached, term))| == |MatchingTeams(cached, term)|;
    SliceSubmultiset(matching, startIndex, endIndex);
  }

  /** With both caches, no search term and a range: every cached team in the
      range, unwindowed, in shuffled order. */
  lemma RangeBranch(cached: seq<Team>, avatars: Avatars, startIndex: nat, endIndex: nat, range: string,
                    swaps: seq<(nat, nat)>, inRange: (nat, string) -> bool, fetchAvatar: nat -> Option<string>)
    requires range != ""
    ensures var r := FetchTeams(Storage(Some(cached), Some(avatars)), startIndex, endIndex, range, "", swaps, inRange, fetchAvatar);
      r.Success? && multiset(r.value.teams) == multiset(InRangeTeams(cached, range, inRange))
  {
    ApplySwapsPermutes(cached, swaps);
    FilterPermutation(ApplySwaps(cached, swaps), cached, (t: Team) => inRange(t.number, range));
  }

  /** With both caches and neither a term nor a range: the first 50 teams of
      the shuffled list. */
  lemma DefaultBranch(cached: seq<Team>, avatars: Avatars, startIndex: nat, endIndex: nat,
                      swaps: seq<(nat, nat)>, inRange: (nat, string) -> bool, fetchAvatar: nat -> Option<string>)
    ensures var r := FetchTeams(Storage(Some(cached), Some(avatars)), startIndex, endIndex, "", "", swaps, inRange, fetchAvatar);
      r.Success? && |r.value.teams| == Min(ItemsPerPage, |cached|) &&
      multiset(r.value.teams) <= multiset(cached)
  {
    var sorted := ApplySwaps(cached, swaps);
    ApplySwapsPermutes(cached, swaps);
    SliceSubmultiset(sorted, 0, ItemsPerPage);
  }

  /** With the team list but no avatar cache: the window of the shuffled
      list, range-filtered when a range is given, and the window's avatars,
      which are also written to storage. */
  lemma FetchPath(cached: seq<Team>, startIndex: nat, endIndex: nat, range: string, term: string,
                  swaps: seq<(nat, nat)>, inRange: (nat, string) -> bool, fetchAvatar: nat -> Option<string>)
    requires startIndex <= endIndex
    ensures var r := FetchTeams(Storage(Some(cached), None), startIndex, endIndex, range, term, swaps, inRange, fetchAvatar);
      var window := Slice(ApplySwaps(cached, swaps), startIndex, endIndex);
      r.Success? && r.value.stored == Some(r.value.avatars) &&
      |r.value.teams| <= endIndex - startIndex &&
      IsSubsequence(r.value.teams, window) &&
      (forall t :: t in r.value.teams <==> t in window && (range != "" ==> inRange(t.number, range))) &&
      (forall n :: n in r.value.avatars <==> exists t :: t in window && t.number == n) &&
      r.value.avatars == AvatarMap(window, fetchAvatar) &&
      forall t {:trigger multiset(r.value.teams)[t]} ::
        multiset(r.value.teams)[t] == if range == "" || inRange(t.number, range) then multiset(window)[t] else 0
  {
    var window := Slice(ApplySwaps(cached, swaps), startIndex, endIndex);
    if range == "" {
      SubsequenceRefl(window);
    }
  }

  // ---------------------------------------------------------------------------
  // The paging window

  /** The windows the page can be in: the first page, or the window a scroll
      leaves, 49 indices ending at a multiple of 50. */
  predicate WindowOk(startIndex: nat, endIndex: nat)
  {
    (startIndex == 0 && endIndex == ItemsPerPage) ||
    (endIndex >= 2 * ItemsPerPage && endIndex % ItemsPerPage == 0 && startIndex == endIndex - 49)
  }

  /** The scroll handler's new window: it starts one past the old end. */
  function ScrollWindow(startIndex: nat, endIndex: nat): (w: (nat, nat))
    ensures w.0 == endIndex + 1 && w.1 - w.0 == ItemsPerPage - 1
  {
    (endIndex + 1, endIndex + ItemsPerPage)
  }

  lemma ScrollKeepsWindowOk(startIndex: nat, endIndex: nat)
    requires WindowOk(startIndex, endIndex)
    ensures WindowOk(ScrollWindow(startIndex, endIndex).0, ScrollWindow(startIndex, endIndex).1)
  {
  }

  /** The window after `n` scrolls from the first page. */
  function Reached(n: nat): (w: (nat, nat))
    ensures WindowOk(w.0, w.1)
  {
    if n == 0 then (0, ItemsPerPage)
    else
      var prev := Reached(n - 1);
      ScrollKeepsWindowOk(prev.0, prev.1);
      ScrollWindow(prev.0, prev.1)
  }

  lemma {:induction false} ReachedForm(n: nat)
    ensures Reached(n) == if n == 0 then (0, ItemsPerPage) else (ItemsPerPage * n + 1, ItemsPerPage * (n + 1))
  {
    if n > 0 {
      ReachedForm(n - 1);
    }
  }

  /** An index that is not a positive multiple of 50 lies in the window of
      the scroll count `i / 50`. */
  lemma IndexInWindow(i: nat)
    requires i == 0 || i % ItemsPerPage != 0
    ensures Reached(i / ItemsPerPage).0 <= i < Reached(i / ItemsPerPage).1
  {
    var q := i / ItemsPerPage;
    ReachedForm(q);
    assert i == ItemsPerPage * q + i % ItemsPerPage;
  }

  /** No reached window holds a positive multiple of 50. */
  lemma WindowMissesOldEnds(j: nat, i: nat)
    requires Reached(j).0 <= i < Reached(j).1
    ensures i == 0 || i % ItemsPerPage != 0
  {
    ReachedForm(j);
    if j > 0 {
      assert i == ItemsPerPage * j + (i - ItemsPerPage * j);
      assert i % ItemsPerPage == i - ItemsPerPage * j;
    }
  }

  /** After `n` scrolls, the windows requested so far cover every index below
      the last end except exactly the old ends 50, 100, ..., 50 * n. */
  lemma ScrollsSkipExactlyOldEnds(n: nat, i: nat)
    requires i < Reached(n).1
    ensures (exists j :: 0 <= j <= n && Reached(j).0 <= i < Reached(j).1) <==> (i == 0 || i % ItemsPerPage != 0)
  {
    if i == 0 || i % ItemsPerPage != 0 {
      ReachedForm(n);
      IndexInWindow(i);
      assert i / ItemsPerPage <= n;
    }
    if exists j :: 0 <= j <= n && Reached(j).0 <= i < Reached(j).1 {
      var j :| 0 <= j <= n && Reached(j).0 <= i < Reached(j).1;
      WindowMissesOldEnds(j, i);
    }
  }

  /** So no window the page reaches ever asks for index 50, 100, 150, ... */
  lemma WindowsSkipMultiplesOf50(startIndex: nat, endIndex: nat, k: nat)
    requires WindowOk(startIndex, endIndex) && k >= 1
    ensures !(startIndex <= ItemsPerPage * k < endIndex)
  {
    if startIndex != 0 {
      var m := endIndex / ItemsPerPage;
      assert endIndex == ItemsPerPage * m;
      if ItemsPerPage * k < endIndex {
        assert k < m;
        assert ItemsPerPage * k <= ItemsPerPage * (m - 1);
      }
    }
  }

  /** Storage after a fetch: the avatar cache is replaced when it was written. */
  function StoreAvatars(storage: Storage, fetched: Fetched): (s: Storage)
    ensures s.teams == storage.teams
    ensures fetched.stored.Some? ==> s.avatars == fetched.stored
    ensures fetched.stored.None? ==> s == storage
  {
    match fetched.stored
    case Some(avatars) => storage.(avatars := Some(avatars))
    case None => storage
  }

  // ---------------------------------------------------------------------------
  // The page state

  /** The teams page's hook state and the storage it reads and writes. */
  class TeamsPageState {
    var teams: seq<Team>
    var query: string
    var avatars: Option<Avatars>
    var isLoading: bool
    var startIndex: nat
    var endIndex: nat
    var teamNumberRange: string
    var storage: Storage

    ghost predicate Valid()
      reads this
    {
      WindowOk(startIndex, endIndex)
    }

    /** The initial state, over whatever storage holds. */
    constructor (storage: Storage)
      ensures Valid()
      ensures teams == [] && query == "" && avatars == None && !isLoading
      ensures startIndex == 0 && endIndex == ItemsPerPage && teamNumberRange == ""
      ensures this.storage == storage
    {
      teams := [];
      query := "";
      avatars := None;
      isLoading := false;
      startIndex := 0;
      endIndex := ItemsPerPage;
      teamNumberRange := "";
      this.storage := storage;
    }

    /** The scroll handler: past 80% of the page and not loading, it moves the
        window on and starts loading. */
    method OnScroll(scrollPosition: real, contentHeight: real)
      requires Valid()
      modifies this`isLoading, this`startIndex, this`endIndex
      ensures Valid()
      ensures if scrollPosition > contentHeight * 0.8 && !old(isLoading) then
          isLoading && (startIndex, endIndex) == ScrollWindow(old(startIndex), old(endIndex))
        else
          isLoading == old(isLoading) && startIndex == old(startIndex) && endIndex == old(endIndex)
    {
      if scrollPosition > contentHeight * 0.8 && !isLoading {
        ScrollKeepsWindowOk(startIndex, endIndex);
        isLoading := true;
        startIndex := endIndex + 1;
        endIndex := endIndex + ItemsPerPage;
      }
    }

    /** Applies a fetch's outcome: on success the teams are appended or
        replaced, the avatars replaced and loading ends; a failure (a rejected
        promise) leaves everything as it was. */
    method Apply(result: Result<Fetched, FetchError>, append: bool)
      modifies this`teams, this`avatars, this`isLoading, this`storage
      ensures match result
        case Failure(_) =>
          teams == old(teams) && avatars == old(avatars) && isLoading == old(isLoading) && storage == old(storage)
        case Success(f) =>
          teams == (if append then old(teams) + f.teams else f.teams) && avatars == Some(f.avatars) &&
          !isLoading && storage == StoreAvatars(old(storage), f)
    {
      if result.Success? {
        var f := result.value;
        storage := StoreAvatars(storage, f);
        teams := if append then teams + f.teams else f.teams;
        avatars := Some(f.avatars);
        isLoading := false;
      }
    }

    /** The paging effect, run when the window changes: fetches the window
        and appends the teams after the ones already shown. */
    method Paginate(swaps: seq<(nat, nat)>, inRange: (nat, string) -> bool, fetchAvatar: nat -> Option<string>)
      modifies this`teams, this`avatars, this`isLoading, this`storage
      ensures var r := FetchTeams(old(storage), startIndex, endIndex, "", "", swaps, inRange, fetchAvatar);
        match r
        case Failure(_) => teams == old(teams) && avatars == old(avatars) && isLoading && storage == old(storage)
        case Success(f) => teams == old(teams) + f.teams && avatars == Some(f.avatars) && !isLoading &&
                           storage == StoreAvatars(old(storage), f)
    {
      isLoading := true;
      var result := FetchTeamsData(storage, startIndex, endIndex, "", "", swaps, inRange, fetchAvatar);
      Apply(result, true);
    }

    /** Typing in the search box: the window goes back to the first page, and
        the typed text reaches `fetchTeamsData` as its third argument, the
        number range, while the search term stays empty. */
    method ChangeSearch(text: string, swaps: seq<(nat, nat)>, inRange: (nat, string) -> bool,
                        fetchAvatar: nat -> Option<string>)
      modifies this
      ensures Valid()
      ensures query == text && startIndex == 0 && endIndex == ItemsPerPage
      ensures teamNumberRange == old(teamNumberRange)
      ensures var r := FetchTeams(old(storage), 0, ItemsPerPage, text, "", swaps, inRange, fetchAvatar);
        match r
        case Failure(_) => teams == old(teams) && avatars == old(avatars) && isLoading && storage == old(storage)
        case Success(f) => teams == f.teams && avatars == Some(f.avatars) && !isLoading &&
                           storage == StoreAvatars(old(storage), f)
    {
      query := text;
      isLoading := true;
      startIndex := 0;
      endIndex := ItemsPerPage;
      var result := FetchTeamsData(storage, 0, ItemsPerPage, text, "", swaps, inRange, fetchAvatar);
      Apply(result, false);
    }

    /** A number-range button. */
    method SetTeamNumberRange(range: string)
      modifies this`teamNumberRange
      ensures teamNumberRange == range
    {
      teamNumberRange := range;
    }

    /** The range effect: with a range chosen, fetches the current window with
        the range and the query as search term, and replaces the teams. */
    method FilterByNumber(swaps: seq<(nat, nat)>, inRange: (nat, string) -> bool, fetchAvatar: nat -> Option<string>)
      modifies this`teams, this`avatars, this`isLoading, this`storage
      ensures old(teamNumberRange) == "" ==>
        teams == old(teams) && avatars == old(avatars) && isLoading == old(isLoading) && storage == old(storage)
      ensures old(teamNumberRange) != "" ==>
        var r := FetchTeams(old(storage), startIndex, endIndex, teamNumberRange, query, swaps, inRange, fetchAvatar);
        match r
        case Failure(_) => teams == old(teams) && avatars == old(avatars) && isLoading && storage == old(storage)
        case Success(f) => teams == f.teams && avatars == Some(f.avatars) && !isLoading &&
                           storage == StoreAvatars(old(storage), f)
    {
      if teamNumberRange != "" {
        isLoading := true;
        var result := FetchTeamsData(storage, startIndex, endIndex, teamNumberRange, query, swaps, inRange, fetchAvatar);
        Apply(result, false);
      }
    }
  }
}
